/**
 * service/server/keys/argon2id.go: the variant of the API key that also
 * carries a user id, an audience and scopes. `NewAPIKey` builds a key value
 * by applying options to a local; `generatePasword`, `Generate` and
 * `MatchPassword` change a key in place; `Decode` only computes.
 */
module ServerKeys {
  import opened GoBase
  import opened Collaborators
  import opened Credential
  import Base64Url
  import TokenCodec

  /** The option closures of this variant. */
  datatype KeyOption =
    | WithClientID(clientId: Bytes)
    | WithDisplayName(name: Bytes)
    | WithUserID(userId: Bytes)
    | WithAudience(audience: Bytes)
    | WithScopes(scopes: Bytes)

  /** This variant's `APIKey` struct as a value. */
  datatype KeyValue = KeyValue(
    alg: Alg, salt: Bytes, key: Bytes,
    clientId: Bytes, userId: Bytes, displayName: Bytes, audience: Bytes, scopes: Bytes)

  /** `APIKey{}`. */
  const ZeroKey := KeyValue(ZeroAlg, [], [], [], [], [], [], [])

  /** What one option closure does to a key. */
  function Apply(v: KeyValue, o: KeyOption): KeyValue {
    match o
    case WithClientID(id) => v.(clientId := id)
    case WithDisplayName(name) => v.(displayName := name)
    case WithUserID(id) => v.(userId := id)
    case WithAudience(aud) => v.(audience := aud)
    case WithScopes(scopes) => v.(scopes := scopes)
  }

  /** The options applied one after another, first to last. */
  function ApplyOptions(v: KeyValue, opts: seq<KeyOption>): KeyValue
    decreases |opts|
  {
    if |opts| == 0 then v else Apply(ApplyOptions(v, opts[..|opts| - 1]), opts[|opts| - 1])
  }

  /** Applying two lists of options is applying their concatenation. */
  lemma {:induction false} ApplyOptionsConcat(v: KeyValue, first: seq<KeyOption>, second: seq<KeyOption>)
    ensures ApplyOptions(v, first + second) == ApplyOptions(ApplyOptions(v, first), second)
    decreases |second|
  {
    if |second| == 0 {
      assert first + second == first;
    } else {
      var last := |second| - 1;
      assert (first + second)[..|first + second| - 1] == first + second[..last];
      ApplyOptionsConcat(v, first, second[..last]);
    }
  }

  /** Options never touch the algorithm, the salt or the derived key. */
  lemma {:induction false} OptionsKeepSecrets(v: KeyValue, opts: seq<KeyOption>)
    ensures var w := ApplyOptions(v, opts); w.alg == v.alg && w.salt == v.salt && w.key == v.key
    decreases |opts|
  {
    if |opts| > 0 {
      OptionsKeepSecrets(v, opts[..|opts| - 1]);
    }
  }

  /** Without a `WithAudience` among the options, the audience is left as it was. */
  lemma {:induction false} AudienceUntouched(v: KeyValue, opts: seq<KeyOption>)
    requires forall k :: 0 <= k < |opts| ==> !opts[k].WithAudience?
    ensures ApplyOptions(v, opts).audience == v.audience
    decreases |opts|
  {
    if |opts| > 0 {
      AudienceUntouched(v, opts[..|opts| - 1]);
    }
  }

  /** The last `WithAudience` wins over every earlier one. */
  lemma LastAudienceWins(v: KeyValue, before: seq<KeyOption>, aud: Bytes, after: seq<KeyOption>)
    requires forall k :: 0 <= k < |after| ==> !after[k].WithAudience?
    ensures ApplyOptions(v, before + [WithAudience(aud)] + after).audience == aud
  {
    ApplyOptionsConcat(v, before + [WithAudience(aud)], after);
    ApplyOptionsConcat(v, before, [WithAudience(aud)]);
    assert [WithAudience(aud)][..0] == [];
    AudienceUntouched(ApplyOptions(v, before + [WithAudience(aud)]), after);
  }

  /** Without a `WithScopes` among the options, the scopes are left as they were. */
  lemma {:induction false} ScopesUntouched(v: KeyValue, opts: seq<KeyOption>)
    requires forall k :: 0 <= k < |opts| ==> !opts[k].WithScopes?
    ensures ApplyOptions(v, opts).scopes == v.scopes
    decreases |opts|
  {
    if |opts| > 0 {
      ScopesUntouched(v, opts[..|opts| - 1]);
    }
  }

  /** The last `WithScopes` wins over every earlier one. */
  lemma LastScopesWin(v: KeyValue, before: seq<KeyOption>, scopes: Bytes, after: seq<KeyOption>)
    requires forall k :: 0 <= k < |after| ==> !after[k].WithScopes?
    ensures ApplyOptions(v, before + [WithScopes(scopes)] + after).scopes == scopes
  {
    ApplyOptionsConcat(v, before + [WithScopes(scopes)], after);
    ApplyOptionsConcat(v, before, [WithScopes(scopes)]);
    assert [WithScopes(scopes)][..0] == [];
    ScopesUntouched(ApplyOptions(v, before + [WithScopes(scopes)]), after);
  }

  /**
   * What `NewAPIKey(algText, opts...)` returns. A string `ParseAlg` refuses
   * gives the zero key and the error; otherwise the options are applied in
   * order to a key holding the parsed algorithm, and an empty client id is
   * replaced by a nanoid, whose failure gives the zero key and no error.
   */
  function Built(parseAlg: Bytes -> Option<Alg>, algText: Bytes, opts: seq<KeyOption>, draw: IdDraw): (r: (KeyValue, Option<AlgError>))
    ensures parseAlg(algText).None? ==> r == (ZeroKey, Some(AlgRejected))
    ensures parseAlg(algText).Some? ==> r.1 == None
    ensures parseAlg(algText).Some? && draw.DrawFailed? && ApplyOptions(ZeroKey, opts).clientId == [] ==> r.0 == ZeroKey
    ensures parseAlg(algText).Some? && (|ApplyOptions(ZeroKey, opts).clientId| > 0 || draw.Drawn?) ==>
      && r.0.alg == parseAlg(algText).value && r.0.salt == [] && r.0.key == []
      && r.0 == ApplyOptions(ZeroKey, opts).(alg := r.0.alg, clientId := r.0.clientId)
      && r.0.clientId == (if |ApplyOptions(ZeroKey, opts).clientId| > 0 then ApplyOptions(ZeroKey, opts).clientId else draw.id)
  {
    match parseAlg(algText)
    case None => (ZeroKey, Some(AlgRejected))
    case Some(alg) =>
      var w := ApplyOptions(ZeroKey.(alg := alg), opts);
      OptionsKeepSecrets(ZeroKey.(alg := alg), opts);
      OptionsAgree(ZeroKey, alg, opts);
      if |w.clientId| > 0 then (w, None)
      else match draw
        case DrawFailed => (ZeroKey, None)
        case Drawn(id) => (w.(clientId := id), None)
  }

  /** Options do the same to the other fields whatever the algorithm. */
  lemma {:induction false} OptionsAgree(v: KeyValue, alg: Alg, opts: seq<KeyOption>)
    ensures ApplyOptions(v.(alg := alg), opts) == ApplyOptions(v, opts).(alg := alg)
    decreases |opts|
  {
    if |opts| > 0 {
      OptionsAgree(v, alg, opts[..|opts| - 1]);
    }
  }

  /** `NewAPIKey`. */
  method NewAPIKey(parseAlg: Bytes -> Option<Alg>, algText: Bytes, opts: seq<KeyOption>, draw: IdDraw) returns (ak: KeyValue, err: Option<AlgError>)
    ensures (ak, err) == Built(parseAlg, algText, opts, draw)
  {
    ak := ZeroKey;
    match parseAlg(algText) {
      case None =>
        return ZeroKey, Some(AlgRejected);
      case Some(a) =>
        ak := ak.(alg := a);
    }
    ghost var start := ak;
    var i := 0;
    while i < |opts|
      invariant 0 <= i <= |opts|
      invariant ak == ApplyOptions(start, opts[..i])
    {
      ak := Apply(ak, opts[i]);
      assert opts[..i + 1][..i] == opts[..i];
      i := i + 1;
    }
    assert opts[..|opts|] == opts;
    if |ak.clientId| == 0 {
      match draw {
        case DrawFailed =>
          return ZeroKey, None;
        case Drawn(id) =>
          ak := ak.(clientId := id);
      }
    }
    return ak, None;
  }

  /** What `Decode` returns: the key, the password, and the error if any. */
  datatype DecodeResult = DecodeResult(key: KeyValue, password: Bytes, err: Option<TokenCodec.DecodeError>)

  /**
   * `Decode`: on any failure the zero key and a nil password; otherwise only
   * the display name, client id, algorithm and salt are set, and the derived
   * key, user id, audience and scopes stay empty.
   */
  function Decode(parseAlg: Bytes -> Option<Alg>, token: Bytes): (r: DecodeResult)
    ensures r.err.Some? ==> r.key == ZeroKey && r.password == []
    ensures r.err.None? <==> TokenCodec.DecodeFields(parseAlg, token).Success?
    ensures r.key.key == [] && r.key.userId == [] && r.key.audience == [] && r.key.scopes == []
  {
    match TokenCodec.DecodeFields(parseAlg, token)
    case Failure(e) => DecodeResult(ZeroKey, [], Some(e))
    case Success(f) => DecodeResult(KeyValue(f.alg, f.salt, [], f.clientId, [], f.name, [], []), f.password, None)
  }

  /** What `generatePasword` leaves in a key, the password it returns and its error. */
  function AfterDraw(crypto: Crypto, v: KeyValue, saltRead: RandRead, pwdRead: RandRead): (r: (KeyValue, Bytes, Option<GenError>))
    requires Fits(saltRead, SaltLen) && Fits(pwdRead, PasswordLen)
  {
    match Draw(crypto, v.alg, saltRead, pwdRead)
    case Failure(e) => (v.(salt := saltRead.buf), [], Some(e))
    case Success(m) => (v.(salt := m.salt, key := m.key), m.password, None)
  }

  /** What `Generate` leaves in a key, the token it returns and its error. */
  function Generated(crypto: Crypto, v: KeyValue, saltRead: RandRead, pwdRead: RandRead): (r: (KeyValue, Bytes, Option<GenError>))
    requires Fits(saltRead, SaltLen) && Fits(pwdRead, PasswordLen)
  {
    match Issue(crypto, v.alg, v.displayName, v.clientId, saltRead, pwdRead)
    case Failure(e) => (v.(salt := saltRead.buf), [], Some(e))
    case Success((m, token)) => (v.(salt := m.salt, key := m.key), token, None)
  }

  /**
   * After a successful draw the salt and the password are 32 bytes each and
   * the stored key is the one the password derives; after a failed one no
   * password is returned and the stored key is untouched.
   */
  lemma DrawnPasswordMatches(crypto: Crypto, v: KeyValue, saltRead: RandRead, pwdRead: RandRead)
    requires Fits(saltRead, SaltLen) && Fits(pwdRead, PasswordLen)
    ensures var (w, password, err) := AfterDraw(crypto, v, saltRead, pwdRead);
      (err.None? ==> |w.salt| == SaltLen && |password| == PasswordLen && DeriveKey(crypto, w.alg, w.salt, password) == w.key) &&
      (err.Some? ==> password == [] && w.key == v.key) &&
      (err.Some? <==> saltRead.failed || saltRead.n != SaltLen || pwdRead.failed || pwdRead.n != PasswordLen)
  {
  }

  /**
   * The token carries only the five fields: keys that differ only in user id,
   * audience, scopes, salt or stored key get the same token from the same
   * random reads.
   */
  lemma TokenIgnoresAttributes(crypto: Crypto, v1: KeyValue, v2: KeyValue, saltRead: RandRead, pwdRead: RandRead)
    requires Fits(saltRead, SaltLen) && Fits(pwdRead, PasswordLen)
    requires v1.alg == v2.alg && v1.clientId == v2.clientId && v1.displayName == v2.displayName
    ensures Generated(crypto, v1, saltRead, pwdRead).1 == Generated(crypto, v2, saltRead, pwdRead).1
    ensures Generated(crypto, v1, saltRead, pwdRead).2 == Generated(crypto, v2, saltRead, pwdRead).2
  {
  }

  /**
   * Round trip: the token `Generate` returns decodes to the name prefix, the
   * client id, the algorithm and the salt of the key, and the password in it
   * derives the key `Generate` stored, so `MatchPassword` accepts it.
   */
  lemma GeneratedTokenDecodes(crypto: Crypto, v: KeyValue, saltRead: RandRead, pwdRead: RandRead)
    requires Fits(saltRead, SaltLen) && Fits(pwdRead, PasswordLen)
    requires Generated(crypto, v, saltRead, pwdRead).2.None?
    requires TokenCodec.Dot !in TokenCodec.NamePrefix(v.displayName) && TokenCodec.Dot !in v.clientId && TokenCodec.Dot !in v.alg.text
    requires crypto.parseAlg(v.alg.text) == Some(v.alg)
    ensures var (w, token, _) := Generated(crypto, v, saltRead, pwdRead);
      var d := Decode(crypto.parseAlg, token);
      && d.err.None?
      && d.key == KeyValue(v.alg, w.salt, [], v.clientId, [], TokenCodec.NamePrefix(v.displayName), [], [])
      && |d.password| == PasswordLen
      && DeriveKey(crypto, d.key.alg, d.key.salt, d.password) == w.key
  {
    IssuedTokenRecoversKey(crypto, v.alg, v.displayName, v.clientId, saltRead, pwdRead);
  }

  /**
   * This variant's `APIKey`, for the methods with a pointer receiver. No
   * operation of the modelled core calls them; the class exists so that
   * their effect on a key can be stated, on a copy made by `FromValue`.
   */
  class APIKey {
    var alg: Alg
    var salt: Bytes
    var key: Bytes
    var clientId: Bytes
    var userId: Bytes
    var displayName: Bytes
    var audience: Bytes
    var scopes: Bytes

    function Value(): KeyValue
      reads this
    {
      KeyValue(alg, salt, key, clientId, userId, displayName, audience, scopes)
    }

    /** The addressable copy of a key value the methods below run on. */
    constructor FromValue(v: KeyValue)
      ensures Value() == v
    {
      alg, salt, key := v.alg, v.salt, v.key;
      clientId, userId, displayName, audience, scopes := v.clientId, v.userId, v.displayName, v.audience, v.scopes;
    }

    /** `MatchPassword`: stores the derived key, match or not, and compares it with `expected`. */
    method MatchPassword(crypto: Crypto, password: Bytes, expected: Bytes) returns (matched: bool)
      modifies this
      ensures key == DeriveKey(crypto, alg, salt, password)
      ensures matched <==> key == expected
      ensures Value() == old(Value()).(key := key)
    {
      key := DeriveKey(crypto, alg, salt, password);
      matched := key == expected;
    }

    /** `generatePasword`. */
    method GeneratePassword(crypto: Crypto, saltRead: RandRead, pwdRead: RandRead) returns (password: Bytes, err: Option<GenError>)
      requires Fits(saltRead, SaltLen) && Fits(pwdRead, PasswordLen)
      modifies this
      ensures (Value(), password, err) == AfterDraw(crypto, old(Value()), saltRead, pwdRead)
    {
      salt := saltRead.buf;
      if saltRead.failed {
        return [], Some(RandFailed);
      }
      if saltRead.n != SaltLen {
        return [], Some(ShortSaltRead);
      }
      var buf := pwdRead.buf;
      if pwdRead.failed {
        return [], Some(RandFailed);
      }
      if pwdRead.n != PasswordLen {
        return [], Some(ShortPasswordRead);
      }
      key := DeriveKey(crypto, alg, salt, buf);
      return buf, None;
    }

    /** `Generate`. */
    method Generate(crypto: Crypto, saltRead: RandRead, pwdRead: RandRead) returns (token: Bytes, err: Option<GenError>)
      requires Fits(saltRead, SaltLen) && Fits(pwdRead, PasswordLen)
      modifies this
      ensures (Value(), token, err) == Generated(crypto, old(Value()), saltRead, pwdRead)
    {
      var password;
      password, err := GeneratePassword(crypto, saltRead, pwdRead);
      if err.Some? {
        return [], err;
      }
      var saltText := Base64Url.EncodeToString(salt);
      var secret := Base64Url.EncodeToString(password);
      var name := displayName;
      if |name| > TokenCodec.NameLen {
        name := name[..TokenCodec.NameLen];
      }
      token := Base64Url.EncodeToString(TokenCodec.Join([name, clientId, alg.text, saltText, secret]));
    }
  }
}
