/**
 * The salt, password and derived key drawn by `generatePasword`, identical in
 * service/keys/argon2id.go and service/server/keys/argon2id.go.
 */
module Credential {
  import opened GoBase
  import opened Collaborators
  import TokenCodec

  const SaltLen := 32
  const PasswordLen := 32

  datatype GenError =
    | RandFailed          // `rand.Read` returned an error
    | ShortSaltRead       // "insufficient rand bytes generating salt"
    | ShortPasswordRead   // "insufficient rand bytes generating password"

  datatype Material = Material(salt: Bytes, password: Bytes, key: Bytes)

  /** The buffer handed to `rand.Read` had the length the caller made it with. */
  predicate Fits(r: RandRead, len: nat) {
    |r.buf| == len
  }

  /**
   * The outcome of the two reads and the derivation. Any error or short read
   * aborts; otherwise the salt and password are the 32 bytes read and the key
   * is derived from them under `alg`.
   */
  function Draw(crypto: Crypto, alg: Alg, saltRead: RandRead, pwdRead: RandRead): (r: Result<Material, GenError>)
    requires Fits(saltRead, SaltLen) && Fits(pwdRead, PasswordLen)
    ensures r.Failure? <==>
      saltRead.failed || saltRead.n != SaltLen || pwdRead.failed || pwdRead.n != PasswordLen
    ensures r.Success? ==>
      |r.value.salt| == SaltLen && |r.value.password| == PasswordLen &&
      r.value.salt == saltRead.buf && r.value.password == pwdRead.buf &&
      r.value.key == DeriveKey(crypto, alg, r.value.salt, r.value.password)
  {
    if saltRead.failed then Failure(RandFailed)
    else if saltRead.n != SaltLen then Failure(ShortSaltRead)
    else if pwdRead.failed then Failure(RandFailed)
    else if pwdRead.n != PasswordLen then Failure(ShortPasswordRead)
    else Success(Material(saltRead.buf, pwdRead.buf, DeriveKey(crypto, alg, saltRead.buf, pwdRead.buf)))
  }

  /**
   * What `Generate` produces from a key's algorithm, display name and client
   * id: the drawn material and the token that carries it, or the draw's error.
   */
  function Issue(crypto: Crypto, alg: Alg, name: Bytes, clientId: Bytes, saltRead: RandRead, pwdRead: RandRead): (r: Result<(Material, Bytes), GenError>)
    requires Fits(saltRead, SaltLen) && Fits(pwdRead, PasswordLen)
  {
    match Draw(crypto, alg, saltRead, pwdRead)
    case Failure(e) => Failure(e)
    case Success(m) => Success((m, TokenCodec.TokenText(name, clientId, alg.text, m.salt, m.password)))
  }

  /**
   * A generated token decodes to what went into it, and the key recovered
   * from the decoded fields is the derived key that was generated, provided
   * the name prefix, client id and algorithm string hold no '.' and the
   * algorithm string parses back to the algorithm.
   */
  lemma IssuedTokenRecoversKey(crypto: Crypto, alg: Alg, name: Bytes, clientId: Bytes, saltRead: RandRead, pwdRead: RandRead)
    requires Fits(saltRead, SaltLen) && Fits(pwdRead, PasswordLen)
    requires Issue(crypto, alg, name, clientId, saltRead, pwdRead).Success?
    requires TokenCodec.Dot !in TokenCodec.NamePrefix(name) && TokenCodec.Dot !in clientId && TokenCodec.Dot !in alg.text
    requires crypto.parseAlg(alg.text) == Some(alg)
    ensures var (m, token) := Issue(crypto, alg, name, clientId, saltRead, pwdRead).value;
      var d := TokenCodec.DecodeFields(crypto.parseAlg, token);
      d == Success(TokenCodec.TokenFields(TokenCodec.NamePrefix(name), clientId, alg, m.salt, m.password)) &&
      DeriveKey(crypto, d.value.alg, d.value.salt, d.value.password) == m.key
  {
    var m := Draw(crypto, alg, saltRead, pwdRead).value;
    TokenCodec.DecodeTokenText(crypto.parseAlg, name, clientId, alg.text, m.salt, m.password);
  }
}
