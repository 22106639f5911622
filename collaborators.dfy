/**
 * The foreign code the key engine calls, reduced to what the engine relies on:
 * `ParseAlg` and Argon2id (`argon2.IDKey`) as functions handed in by the
 * caller, so that each is deterministic and nothing else is assumed of them;
 * `crypto/rand` reads and nanoid draws as the outcomes they returned.
 */
module Collaborators {
  import opened GoBase
  import Base64Url

  /**
   * A parsed algorithm string such as "argon2id:3 64MB 32". Only the members
   * the engine reads are modelled: the Argon2id time and memory costs, the
   * derived key length and the algorithm's textual form (`Alg.String`).
   */
  datatype Alg = Alg(time: nat, memory: nat, keyLen: nat, text: Bytes)

  /** The zero `Alg`, which `ParseAlg` is taken to return beside an error. */
  const ZeroAlg := Alg(0, 0, 0, [])

  /** The error `ParseAlg` returns for a string it does not accept. */
  datatype AlgError = AlgRejected

  /**
   * `parseAlg` is `ParseAlg` (`None` for a string it rejects); `idKey` is
   * `argon2.IDKey(password, salt, time, memory, threads, keyLen)`.
   */
  datatype Crypto = Crypto(
    parseAlg: Bytes -> Option<Alg>,
    idKey: (Bytes, Bytes, nat, nat, nat, nat) -> Bytes)

  /** The engine always runs Argon2id on one thread. */
  const Argon2Threads: nat := 1

  /** The derived key of a password and salt under an algorithm's parameters. */
  function DeriveKey(crypto: Crypto, alg: Alg, salt: Bytes, password: Bytes): Bytes {
    crypto.idKey(password, salt, alg.time, alg.memory, Argon2Threads, alg.keyLen)
  }

  /**
   * One call of `rand.Read(buf)`: the count and whether an error came back,
   * and `buf`'s contents afterwards (the caller's buffer keeps its length).
   */
  datatype RandRead = RandRead(n: int, buf: Bytes, failed: bool)

  /** One call of `nanoid.ID(16)`: an id, or an error (the id returned with it is ""). */
  datatype IdDraw = Drawn(id: Bytes) | DrawFailed

  const ClientNanoIdLen := 16

  /** What nanoid promises: 16 symbols of its default alphabet, which is the base64url one. */
  predicate WellFormedDraw(d: IdDraw) {
    d.Drawn? ==> |d.id| == ClientNanoIdLen && forall i :: 0 <= i < |d.id| ==> Base64Url.IsSymbol(d.id[i])
  }

  /** The client id a draw leaves in `ak.ClientID`. */
  function DrawnId(d: IdDraw): Bytes {
    if d.Drawn? then d.id else []
  }
}
