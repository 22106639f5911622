/**
 * service/keys/argon2id.go: the API key and its codec. `SetOptions`,
 * `generatePasword`, `Generate` and `MatchPassword` change an `APIKey` in
 * place and are methods of the class `APIKey`; `Decode`, `RecoverKey` and
 * `EncodedKey` only compute.
 */
module Keys {
  import opened GoBase
  import opened Collaborators
  import opened Credential
  import Base64Url
  import TokenCodec

  /** The option closures `WithClientID` and `WithDisplayName`. */
  datatype KeyOption = WithClientID(clientId: Bytes) | WithDisplayName(name: Bytes)

  /** An `APIKey` struct as a value. */
  datatype KeyValue = KeyValue(alg: Alg, salt: Bytes, key: Bytes, clientId: Bytes, displayName: Bytes)

  /** `APIKey{}`. */
  const ZeroKey := KeyValue(ZeroAlg, [], [], [], [])

  /** What one option closure does to a key. */
  function Apply(v: KeyValue, o: KeyOption): KeyValue {
    match o
    case WithClientID(id) => v.(clientId := id)
    case WithDisplayName(name) => v.(displayName := name)
  }

  /** The options applied one after another, first to last. */
  function ApplyOptions(v: KeyValue, opts: seq<KeyOption>): KeyValue
    decreases |opts|
  {
    if |opts| == 0 then v else Apply(ApplyOptions(v, opts[..|opts| - 1]), opts[|opts| - 1])
  }

  /** Applying two lists of options is applying their concatenation. */
  lemma {:induction false} ApplyOptionsConcat(v: KeyValue, first: seq<KeyOption>, second: seq<KeyOption>)
    ensures ApplyOptions(v, first + second) == ApplyOptions(ApplyOptions(v, first), second)
    decreases |second|
  {
    if |second| == 0 {
      assert first + second == first;
    } else {
      var last := |second| - 1;
      assert (first + second)[..|first + second| - 1] == first + second[..last];
      ApplyOptionsConcat(v, first, second[..last]);
    }
  }

  /** Options touch only the client id and display name. */
  lemma {:induction false} OptionsKeepSecrets(v: KeyValue, opts: seq<KeyOption>)
    ensures var w := ApplyOptions(v, opts); w.alg == v.alg && w.salt == v.salt && w.key == v.key
    decreases |opts|
  {
    if |opts| > 0 {
      OptionsKeepSecrets(v, opts[..|opts| - 1]);
    }
  }

  /** Without a `WithClientID` among the options, the client id is left as it was. */
  lemma {:induction false} ClientIdUntouched(v: KeyValue, opts: seq<KeyOption>)
    requires forall k :: 0 <= k < |opts| ==> !opts[k].WithClientID?
    ensures ApplyOptions(v, opts).clientId == v.clientId
    decreases |opts|
  {
    if |opts| > 0 {
      ClientIdUntouched(v, opts[..|opts| - 1]);
    }
  }

  /** The last `WithClientID` wins over every earlier one. */
  lemma LastClientIdWins(v: KeyValue, before: seq<KeyOption>, id: Bytes, after: seq<KeyOption>)
    requires forall k :: 0 <= k < |after| ==> !after[k].WithClientID?
    ensures ApplyOptions(v, before + [WithClientID(id)] + after).clientId == id
  {
    ApplyOptionsConcat(v, before + [WithClientID(id)], after);
    ApplyOptionsConcat(v, before, [WithClientID(id)]);
    assert [WithClientID(id)][..0] == [];
    ClientIdUntouched(ApplyOptions(v, before + [WithClientID(id)]), after);
  }

  /**
   * What `SetOptions(algText, opts...)` leaves in a key and returns. A string
   * `ParseAlg` refuses is reported before any option is applied; otherwise the
   * options are applied in order and an empty client id is replaced by a
   * nanoid, whose failure is swallowed.
   */
  function Configured(parseAlg: Bytes -> Option<Alg>, v: KeyValue, algText: Bytes, opts: seq<KeyOption>, draw: IdDraw): (r: (KeyValue, Option<AlgError>))
    ensures parseAlg(algText).None? ==> r == (v.(alg := ZeroAlg), Some(AlgRejected))
    ensures parseAlg(algText).Some? ==>
      && r.1 == None
      && r.0.alg == parseAlg(algText).value
      && r.0.salt == v.salt && r.0.key == v.key
      && r.0.displayName == ApplyOptions(v, opts).displayName
      && r.0.clientId == (if |ApplyOptions(v, opts).clientId| > 0 then ApplyOptions(v, opts).clientId else DrawnId(draw))
  {
    match parseAlg(algText)
    case None => (v.(alg := ZeroAlg), Some(AlgRejected))
    case Some(alg) =>
      var w := ApplyOptions(v.(alg := alg), opts);
      OptionsKeepSecrets(v.(alg := alg), opts);
      OptionsAgree(v, alg, opts);
      if |w.clientId| == 0 then (w.(clientId := DrawnId(draw)), None) else (w, None)
  }

  /** Options do the same to the client id and display name whatever the algorithm. */
  lemma {:induction false} OptionsAgree(v: KeyValue, alg: Alg, opts: seq<KeyOption>)
    ensures ApplyOptions(v.(alg := alg), opts) == ApplyOptions(v, opts).(alg := alg)
    decreases |opts|
  {
    if |opts| > 0 {
      OptionsAgree(v, alg, opts[..|opts| - 1]);
    }
  }

  /** Once `ParseAlg` accepts the string and nanoid draws, the key has a non-empty client id. */
  lemma ConfiguredHasClientId(parseAlg: Bytes -> Option<Alg>, v: KeyValue, algText: Bytes, opts: seq<KeyOption>, draw: IdDraw)
    requires parseAlg(algText).Some? && WellFormedDraw(draw) && draw.Drawn?
    ensures |Configured(parseAlg, v, algText, opts, draw).0.clientId| > 0
  {
  }

  /** What `Decode` returns: the key, the password, and the error if any. */
  datatype DecodeResult = DecodeResult(key: KeyValue, password: Bytes, err: Option<TokenCodec.DecodeError>)

  /**
   * `Decode`: the fields of the token, or on any failure the zero `APIKey`
   * and a nil password with the error. The derived key is never filled in.
   */
  function Decode(parseAlg: Bytes -> Option<Alg>, token: Bytes): (r: DecodeResult)
    ensures r.err.Some? ==> r.key == ZeroKey && r.password == []
    ensures r.err.None? <==> TokenCodec.DecodeFields(parseAlg, token).Success?
    ensures r.key.key == []
  {
    match TokenCodec.DecodeFields(parseAlg, token)
    case Failure(e) => DecodeResult(ZeroKey, [], Some(e))
    case Success(f) => DecodeResult(KeyValue(f.alg, f.salt, [], f.clientId, f.name), f.password, None)
  }

  /** What `generatePasword` leaves in a key, the password it returns and its error. */
  function AfterDraw(crypto: Crypto, v: KeyValue, saltRead: RandRead, pwdRead: RandRead): (r: (KeyValue, Bytes, Option<GenError>))
    requires Fits(saltRead, SaltLen) && Fits(pwdRead, PasswordLen)
  {
    match Draw(crypto, v.alg, saltRead, pwdRead)
    case Failure(e) => (v.(salt := saltRead.buf), [], Some(e))
    case Success(m) => (v.(salt := m.salt, key := m.key), m.password, None)
  }

  /** What `Generate` leaves in a key, the token it returns and its error. */
  function Generated(crypto: Crypto, v: KeyValue, saltRead: RandRead, pwdRead: RandRead): (r: (KeyValue, Bytes, Option<GenError>))
    requires Fits(saltRead, SaltLen) && Fits(pwdRead, PasswordLen)
  {
    match Issue(crypto, v.alg, v.displayName, v.clientId, saltRead, pwdRead)
    case Failure(e) => (v.(salt := saltRead.buf), [], Some(e))
    case Success((m, token)) => (v.(salt := m.salt, key := m.key), token, None)
  }

  /**
   * After a successful draw the salt and the password are 32 bytes each and
   * the stored key is the one the password recovers; after a failed one no
   * password is returned and the stored key is untouched.
   */
  lemma DrawnPasswordRecoversKey(crypto: Crypto, v: KeyValue, saltRead: RandRead, pwdRead: RandRead)
    requires Fits(saltRead, SaltLen) && Fits(pwdRead, PasswordLen)
    ensures var (w, password, err) := AfterDraw(crypto, v, saltRead, pwdRead);
      (err.None? ==> |w.salt| == SaltLen && |password| == PasswordLen && DeriveKey(crypto, w.alg, w.salt, password) == w.key) &&
      (err.Some? ==> password == [] && w.key == v.key) &&
      (err.Some? <==> saltRead.failed || saltRead.n != SaltLen || pwdRead.failed || pwdRead.n != PasswordLen)
  {
  }

  /**
   * Round trip: the token `Generate` returns decodes to the name prefix, the
   * client id, the algorithm and the salt of the key, and the password in it
   * recovers the key `Generate` stored, so `MatchPassword` accepts it.
   */
  lemma GeneratedTokenDecodes(crypto: Crypto, v: KeyValue, saltRead: RandRead, pwdRead: RandRead)
    requires Fits(saltRead, SaltLen) && Fits(pwdRead, PasswordLen)
    requires Generated(crypto, v, saltRead, pwdRead).2.None?
    requires TokenCodec.Dot !in TokenCodec.NamePrefix(v.displayName) && TokenCodec.Dot !in v.clientId && TokenCodec.Dot !in v.alg.text
    requires crypto.parseAlg(v.alg.text) == Some(v.alg)
    ensures var (w, token, _) := Generated(crypto, v, saltRead, pwdRead);
      var d := Decode(crypto.parseAlg, token);
      && d.err.None?
      && d.key == KeyValue(v.alg, w.salt, [], v.clientId, TokenCodec.NamePrefix(v.displayName))
      && |d.password| == PasswordLen
      && DeriveKey(crypto, d.key.alg, d.key.salt, d.password) == w.key
  {
    IssuedTokenRecoversKey(crypto, v.alg, v.displayName, v.clientId, saltRead, pwdRead);
  }

  /** A failed `Generate` returns no token and leaves the stored key as it was. */
  lemma FailedGenerateIssuesNothing(crypto: Crypto, v: KeyValue, saltRead: RandRead, pwdRead: RandRead)
    requires Fits(saltRead, SaltLen) && Fits(pwdRead, PasswordLen)
    requires saltRead.failed || saltRead.n != SaltLen || pwdRead.failed || pwdRead.n != PasswordLen
    ensures var (w, token, err) := Generated(crypto, v, saltRead, pwdRead);
      err.Some? && token == [] && w.key == v.key && w.clientId == v.clientId
  {
  }

  /** A Go `APIKey` that methods with a pointer receiver change in place. */
  class APIKey {
    var alg: Alg
    var salt: Bytes
    var key: Bytes
    var clientId: Bytes
    var displayName: Bytes

    function Value(): KeyValue
      reads this
    {
      KeyValue(alg, salt, key, clientId, displayName)
    }

    /** `APIKey{}`. */
    constructor ()
      ensures Value() == ZeroKey
    {
      alg, salt, key, clientId, displayName := ZeroAlg, [], [], [], [];
    }

    /** A copy of a key value, as Go makes one when it takes the address of a local. */
    constructor FromValue(v: KeyValue)
      ensures Value() == v
    {
      alg, salt, key, clientId, displayName := v.alg, v.salt, v.key, v.clientId, v.displayName;
    }

    /** `SetOptions`. */
    method SetOptions(parseAlg: Bytes -> Option<Alg>, algText: Bytes, opts: seq<KeyOption>, draw: IdDraw) returns (err: Option<AlgError>)
      modifies this
      ensures (Value(), err) == Configured(parseAlg, old(Value()), algText, opts, draw)
    {
      ghost var original := Value();
      match parseAlg(algText) {
        case None =>
          alg := ZeroAlg;
          return Some(AlgRejected);
        case Some(a) =>
          alg := a;
      }
      ghost var start := Value();
      var i := 0;
      while i < |opts|
        invariant 0 <= i <= |opts|
        invariant Value() == ApplyOptions(start, opts[..i])
      {
        match opts[i] {
          case WithClientID(id) => clientId := id;
          case WithDisplayName(name) => displayName := name;
        }
        assert opts[..i + 1][..i] == opts[..i];
        i := i + 1;
      }
      assert opts[..|opts|] == opts;
      if |clientId| == 0 {
        // a nanoid error is dropped: SetOptions returns nil
        clientId := DrawnId(draw);
      }
      return None;
    }

    /** `RecoverKey`: the key the password derives under this key's salt and parameters. */
    function RecoverKey(crypto: Crypto, password: Bytes): (k: Bytes)
      reads this
      // Argon2id with the key's own time, memory and length, on a single thread
      ensures k == crypto.idKey(password, salt, alg.time, alg.memory, 1, alg.keyLen)
    {
      DeriveKey(crypto, alg, salt, password)
    }

    /** `MatchPassword`: stores the recovered key, match or not, and compares it with `expected`. */
    method MatchPassword(crypto: Crypto, password: Bytes, expected: Bytes) returns (matched: bool)
      modifies this
      ensures key == old(RecoverKey(crypto, password))
      ensures matched <==> key == expected
      ensures Value() == old(Value()).(key := key)
    {
      key := RecoverKey(crypto, password);
      matched := key == expected;
    }

    /** `EncodedKey`: the derived key in base64url, which decodes back to it and holds no '.'. */
    function EncodedKey(): (s: Bytes)
      reads this
      ensures Base64Url.DecodeString(s) == Base64Url.Decoded(key, true)
      ensures TokenCodec.Dot !in s
    {
      Base64Url.DecodeEncode(key);
      TokenCodec.EncodedHasNoDot(key);
      Base64Url.EncodeToString(key)
    }

    /** `generatePasword`. */
    method GeneratePassword(crypto: Crypto, saltRead: RandRead, pwdRead: RandRead) returns (password: Bytes, err: Option<GenError>)
      requires Fits(saltRead, SaltLen) && Fits(pwdRead, PasswordLen)
      modifies this
      ensures (Value(), password, err) == AfterDraw(crypto, old(Value()), saltRead, pwdRead)
    {
      salt := saltRead.buf;
      if saltRead.failed {
        return [], Some(RandFailed);
      }
      if saltRead.n != SaltLen {
        return [], Some(ShortSaltRead);
      }
      var buf := pwdRead.buf;
      if pwdRead.failed {
        return [], Some(RandFailed);
      }
      if pwdRead.n != PasswordLen {
        return [], Some(ShortPasswordRead);
      }
      key := DeriveKey(crypto, alg, salt, buf);
      return buf, None;
    }

    /** `Generate`. */
    method Generate(crypto: Crypto, saltRead: RandRead, pwdRead: RandRead) returns (token: Bytes, err: Option<GenError>)
      requires Fits(saltRead, SaltLen) && Fits(pwdRead, PasswordLen)
      modifies this
      ensures (Value(), token, err) == Generated(crypto, old(Value()), saltRead, pwdRead)
    {
      var password;
      password, err := GeneratePassword(crypto, saltRead, pwdRead);
      if err.Some? {
        return [], err;
      }
      var saltText := Base64Url.EncodeToString(salt);
      var secret := Base64Url.EncodeToString(password);
      var name := displayName;
      if |name| > TokenCodec.NameLen {
        name := name[..TokenCodec.NameLen];
      }
      token := Base64Url.EncodeToString(TokenCodec.Join([name, clientId, alg.text, saltText, secret]));
    }
  }

  /** `NewAPIKey`: `SetOptions` applied to `APIKey{}`. */
  method NewAPIKey(parseAlg: Bytes -> Option<Alg>, algText: Bytes, opts: seq<KeyOption>, draw: IdDraw) returns (v: KeyValue, err: Option<AlgError>)
    ensures (v, err) == Configured(parseAlg, ZeroKey, algText, opts, draw)
    ensures err.Some? ==> v == ZeroKey
  {
    var ak := new APIKey();
    err := ak.SetOptions(parseAlg, algText, opts, draw);
    v := ak.Value();
  }
}
