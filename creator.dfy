/**
 * service/server/create.go: `APIKeyCreator.create`, which configures a key
 * under the standard algorithm, generates its token and stores the client
 * record create-if-absent under the client id; and the JSON form of
 * `ClientRecord`, whose `derived_key` travels as base64url.
 */
module Creator {
  import opened GoBase
  import opened Collaborators
  import opened Credential
  import opened Store
  import Base64Url
  import TokenCodec
  import Keys
  import Authorizer

  /** `apikeys.StandardAlg`. */
  const StandardAlg: Bytes := Ascii("argon2id:3 64MB 32")

  /**
   * `ClientRecord` as a value: the embedded key, and the record's own
   * display name, audience and scope. The record's `DisplayName` is a
   * different field from the embedded key's, which it hides.
   */
  datatype ClientRecordValue = ClientRecordValue(key: Keys.KeyValue, displayName: Bytes, audience: Bytes, scope: Bytes)

  /** `ClientRecord{}`. */
  const EmptyRecord := ClientRecordValue(Keys.ZeroKey, [], [], [])

  /** The document a record is stored as. */
  function Document(v: ClientRecordValue): (doc: Record)
    ensures Authorizer.HasKey(doc) && doc[Authorizer.KeyField].bytes == v.key.key
    ensures Authorizer.AudField in doc && doc[Authorizer.AudField] == StringValue(v.audience)
    ensures Authorizer.ScopeField in doc && doc[Authorizer.ScopeField] == StringValue(v.scope)
  {
    assert Authorizer.AudField != Authorizer.ScopeField && Authorizer.KeyField !in {Authorizer.AudField, Authorizer.ScopeField} by {
      assert Authorizer.AudField[0] != Authorizer.ScopeField[0] && Authorizer.KeyField[0] !in {Authorizer.AudField[0], Authorizer.ScopeField[0]};
    }
    map[
      Authorizer.KeyField := BytesValue(v.key.key),
      "client_id" := StringValue(v.key.clientId),
      "display_name" := StringValue(v.displayName),
      Authorizer.AudField := StringValue(v.audience),
      Authorizer.ScopeField := StringValue(v.scope)]
  }

  /** Why `create` failed. */
  datatype CreateError =
    | StorageUnavailable
    | KeyInit(algError: AlgError)
    | KeyGen(genError: GenError)
    | StoreRefused(storeError: StoreError)

  /** What `create` returns, and the documents afterwards. */
  datatype Creation = Creation(record: ClientRecordValue, token: Bytes, err: Option<CreateError>, docs: map<Bytes, Record>)

  /** The key `SetOptions` configures inside a fresh record. */
  function ConfiguredKey(crypto: Crypto, opts: seq<Keys.KeyOption>, draw: IdDraw): (Keys.KeyValue, Option<AlgError>) {
    Keys.Configured(crypto.parseAlg, Keys.ZeroKey, StandardAlg, opts, draw)
  }

  /** Both `crypto/rand` reads filled their 32 bytes. */
  predicate ReadsComplete(saltRead: RandRead, pwdRead: RandRead) {
    !saltRead.failed && saltRead.n == SaltLen && !pwdRead.failed && pwdRead.n == PasswordLen
  }

  /** The outcome of `create`. */
  function Created(crypto: Crypto, view: StoreView, displayName: Bytes, aud: Bytes, scopes: Bytes,
                   opts: seq<Keys.KeyOption>, draw: IdDraw, saltRead: RandRead, pwdRead: RandRead): (r: Creation)
    requires Fits(saltRead, SaltLen) && Fits(pwdRead, PasswordLen)
    // every failure returns an empty record and token and stores nothing
    ensures r.err.Some? ==> r.record == EmptyRecord && r.token == [] && r.docs == view.docs
    // no connection: nothing else is tried
    ensures !view.online ==> r.err == Some(StorageUnavailable)
    ensures crypto.parseAlg(StandardAlg).None? && view.online ==> r.err == Some(KeyInit(AlgRejected))
    // a rand error or a short read fails key generation
    ensures view.online && crypto.parseAlg(StandardAlg).Some? && !ReadsComplete(saltRead, pwdRead) ==>
      r.err.Some? && r.err.value.KeyGen?
    // after that, the store refuses exactly when it cannot be written or the id is taken
    ensures view.online && crypto.parseAlg(StandardAlg).Some? && ReadsComplete(saltRead, pwdRead) ==>
      (r.err.Some? && r.err.value.StoreRefused? <==>
         !view.writable || ConfiguredKey(crypto, opts, draw).0.clientId in view.docs)
    // so creation succeeds exactly when every step does
    ensures r.err.None? <==>
      && view.online && crypto.parseAlg(StandardAlg).Some? && ReadsComplete(saltRead, pwdRead)
      && view.writable && ConfiguredKey(crypto, opts, draw).0.clientId !in view.docs
    // success: the record carries the arguments and the standard algorithm,
    // it is new, and it is stored under its client id
    ensures r.err.None? ==>
      && view.online && view.writable
      && crypto.parseAlg(StandardAlg).Some? && r.record.key.alg == crypto.parseAlg(StandardAlg).value
      && r.record.displayName == displayName && r.record.audience == aud && r.record.scope == scopes
      && r.record.key.clientId !in view.docs
      && r.docs == view.docs[r.record.key.clientId := Document(r.record)]
    // an existing document is never replaced
    ensures forall id :: id in view.docs ==> id in r.docs && r.docs[id] == view.docs[id]
  {
    if !view.online then Creation(EmptyRecord, [], Some(StorageUnavailable), view.docs)
    else
      var (k, algErr) := ConfiguredKey(crypto, opts, draw);
      if algErr.Some? then Creation(EmptyRecord, [], Some(KeyInit(algErr.value)), view.docs)
      else
        var (g, token, genErr) := Keys.Generated(crypto, k, saltRead, pwdRead);
        if genErr.Some? then Creation(EmptyRecord, [], Some(KeyGen(genErr.value)), view.docs)
        else
          var rec := ClientRecordValue(g, displayName, aud, scopes);
          var (storeErr, docs) := Insert(view, g.clientId, Document(rec));
          if storeErr.Some? then Creation(EmptyRecord, [], Some(StoreRefused(storeErr.value)), view.docs)
          else Creation(rec, token, None, docs)
  }

  /** On success the key and token are those `Generate` produced from the configured key. */
  lemma CreatedByGenerate(crypto: Crypto, view: StoreView, displayName: Bytes, aud: Bytes, scopes: Bytes,
                          opts: seq<Keys.KeyOption>, draw: IdDraw, saltRead: RandRead, pwdRead: RandRead)
    requires Fits(saltRead, SaltLen) && Fits(pwdRead, PasswordLen)
    requires Created(crypto, view, displayName, aud, scopes, opts, draw, saltRead, pwdRead).err.None?
    ensures var c := Created(crypto, view, displayName, aud, scopes, opts, draw, saltRead, pwdRead);
      var g := Keys.Generated(crypto, ConfiguredKey(crypto, opts, draw).0, saltRead, pwdRead);
      c.record.key == g.0 && c.token == g.1
  {
  }

  /**
   * The record's display name hides the embedded key's, so the name part of
   * the token comes from the options alone: two creations that differ only
   * in the display name argument issue the same token.
   */
  lemma TokenIgnoresDisplayNameArgument(crypto: Crypto, view: StoreView, name1: Bytes, name2: Bytes, aud: Bytes, scopes: Bytes,
                                        opts: seq<Keys.KeyOption>, draw: IdDraw, saltRead: RandRead, pwdRead: RandRead)
    requires Fits(saltRead, SaltLen) && Fits(pwdRead, PasswordLen)
    requires Created(crypto, view, name1, aud, scopes, opts, draw, saltRead, pwdRead).err.None?
    ensures Created(crypto, view, name2, aud, scopes, opts, draw, saltRead, pwdRead).err.None?
    ensures Created(crypto, view, name1, aud, scopes, opts, draw, saltRead, pwdRead).token ==
            Created(crypto, view, name2, aud, scopes, opts, draw, saltRead, pwdRead).token
    ensures Created(crypto, view, name1, aud, scopes, opts, draw, saltRead, pwdRead).record.key.displayName ==
            Keys.ApplyOptions(Keys.ZeroKey, opts).displayName
  {
  }

  lemma StandardAlgHasNoDot()
    ensures TokenCodec.Dot !in StandardAlg
  {
    assert StandardAlg == [97, 114, 103, 111, 110, 50, 105, 100, 58, 51, 32, 54, 52, 77, 66, 32, 51, 50];
  }

  /**
   * End to end: right after a successful `create`, presenting the issued
   * token to `ServeHTTP` yields the record's audience and scope under the
   * client id, with status 200, under the decision as written and with the
   * mismatch branch returning alike, provided `ParseAlg` reads the standard
   * algorithm back from its own text and no token field holds a '.'.
   */
  lemma CreateThenAuthorize(crypto: Crypto, view: StoreView, displayName: Bytes, aud: Bytes, scopes: Bytes,
                            opts: seq<Keys.KeyOption>, draw: IdDraw, saltRead: RandRead, pwdRead: RandRead)
    requires Fits(saltRead, SaltLen) && Fits(pwdRead, PasswordLen)
    requires crypto.parseAlg(StandardAlg).Some? && crypto.parseAlg(StandardAlg).value.text == StandardAlg
    requires view.readable
    requires Created(crypto, view, displayName, aud, scopes, opts, draw, saltRead, pwdRead).err.None?
    requires var k := Created(crypto, view, displayName, aud, scopes, opts, draw, saltRead, pwdRead).record.key;
      TokenCodec.Dot !in TokenCodec.NamePrefix(k.displayName) && TokenCodec.Dot !in k.clientId
    ensures var c := Created(crypto, view, displayName, aud, scopes, opts, draw, saltRead, pwdRead);
      var r := Authorizer.Respond(crypto, view.(docs := c.docs), Some(c.token));
      && r.writes == [Authorizer.JsonBody(c.record.key.clientId, aud, scopes), Authorizer.StatusHeader(Authorizer.StatusOK)]
      && Authorizer.Status(r.writes) == Authorizer.StatusOK
      && Authorizer.IntendedRespond(crypto, view.(docs := c.docs), Some(c.token)) == r
  {
    var c := Created(crypto, view, displayName, aud, scopes, opts, draw, saltRead, pwdRead);
    var k := ConfiguredKey(crypto, opts, draw).0;
    CreatedByGenerate(crypto, view, displayName, aud, scopes, opts, draw, saltRead, pwdRead);
    StandardAlgHasNoDot();
    Keys.GeneratedTokenDecodes(crypto, k, saltRead, pwdRead);
    var after := view.(docs := c.docs);
    var d := Keys.Decode(crypto.parseAlg, c.token);
    assert d.key.clientId == c.record.key.clientId;
    assert Fetch(after, d.key.clientId) == Found(Document(c.record));
    assert DeriveKey(crypto, d.key.alg, d.key.salt, d.password) == c.record.key.key;
    Authorizer.IntendedAgreesElsewhere(crypto, after, Some(c.token));
  }

  /** The JSON object of a record, field by field, `None` where a field is absent. */
  datatype JsonRecord = JsonRecord(
    derivedKey: Option<Bytes>, clientId: Option<Bytes>,
    displayName: Option<Bytes>, audience: Option<Bytes>, scope: Option<Bytes>)

  /** Why `UnmarshalJSON` failed. */
  datatype JsonError = Malformed | BadDerivedKey

  /**
   * What `UnmarshalJSON` leaves in a record: the fields present in the
   * object overwrite the record's, absent ones keep their values, and the
   * derived key is always replaced by the decoding of `derived_key` (of ""
   * when absent), keeping what decoded before an error.
   */
  function Unmarshalled(v: ClientRecordValue, parsed: Option<JsonRecord>): (r: (ClientRecordValue, Option<JsonError>))
    ensures parsed.None? ==> r == (v, Some(Malformed))
    ensures parsed.Some? ==> r.1 != Some(Malformed) && r.0.key.alg == v.key.alg && r.0.key.salt == v.key.salt
    ensures parsed.Some? && parsed.value.derivedKey.None? ==> r.0.key.key == [] && r.1.None?
    ensures parsed.Some? ==> var j := parsed.value;
      && (r.1 == Some(BadDerivedKey) <==> j.derivedKey.Some? && !Base64Url.DecodeString(j.derivedKey.value).ok)
      && (j.derivedKey.Some? ==> r.0.key.key == Base64Url.DecodeString(j.derivedKey.value).bytes)
      && r.0.key == v.key.(clientId := r.0.key.clientId, key := r.0.key.key)
      && (j.clientId.Some? ==> r.0.key.clientId == j.clientId.value)
      && (j.clientId.None? ==> r.0.key.clientId == v.key.clientId)
      && (j.displayName.Some? ==> r.0.displayName == j.displayName.value)
      && (j.displayName.None? ==> r.0.displayName == v.displayName)
      && (j.audience.Some? ==> r.0.audience == j.audience.value)
      && (j.audience.None? ==> r.0.audience == v.audience)
      && (j.scope.Some? ==> r.0.scope == j.scope.value)
      && (j.scope.None? ==> r.0.scope == v.scope)
  {
    match parsed
    case None => (v, Some(Malformed))
    case Some(j) =>
      var k := v.key.(clientId := if j.clientId.Some? then j.clientId.value else v.key.clientId);
      var text := if j.derivedKey.Some? then j.derivedKey.value else [];
      var dec := Base64Url.DecodeString(text);
      var w := ClientRecordValue(
        k.(key := dec.bytes),
        if j.displayName.Some? then j.displayName.value else v.displayName,
        if j.audience.Some? then j.audience.value else v.audience,
        if j.scope.Some? then j.scope.value else v.scope);
      (w, if dec.ok then None else Some(BadDerivedKey))
  }

  /** `ClientRecord`, which `create` fills in through its embedded key. */
  class ClientRecord {
    /** The embedded `apikeys.Key`. */
    const key: Keys.APIKey
    var displayName: Bytes
    var audience: Bytes
    var scope: Bytes

    function Value(): ClientRecordValue
      reads this, key
    {
      ClientRecordValue(key.Value(), displayName, audience, scope)
    }

    /** `ClientRecord{DisplayName: displayName, Audience: aud, Scope: scopes}`. */
    constructor (displayName: Bytes, aud: Bytes, scopes: Bytes)
      ensures Value() == ClientRecordValue(Keys.ZeroKey, displayName, aud, scopes)
      ensures fresh(key)
    {
      key := new Keys.APIKey();
      this.displayName, audience, scope := displayName, aud, scopes;
    }

    /** `MarshalJSON`: every field, with `derived_key` as the base64url of the derived key. */
    function MarshalJSON(): (j: JsonRecord)
      reads this, key
      ensures j.derivedKey.Some? && Base64Url.DecodeString(j.derivedKey.value) == Base64Url.Decoded(key.key, true)
      ensures TokenCodec.Dot !in j.derivedKey.value
      ensures j.clientId == Some(key.clientId) && j.displayName == Some(displayName)
      ensures j.audience == Some(audience) && j.scope == Some(scope)
    {
      JsonRecord(Some(key.EncodedKey()), Some(key.clientId), Some(displayName), Some(audience), Some(scope))
    }

    /** `UnmarshalJSON`, given the object the JSON text parses to, or `None` when it does not parse. */
    method UnmarshalJSON(parsed: Option<JsonRecord>) returns (err: Option<JsonError>)
      modifies this, key
      ensures (Value(), err) == Unmarshalled(old(Value()), parsed)
    {
      if parsed.None? {
        return Some(Malformed);
      }
      var j := parsed.value;
      if j.clientId.Some? { key.clientId := j.clientId.value; }
      if j.displayName.Some? { displayName := j.displayName.value; }
      if j.audience.Some? { audience := j.audience.value; }
      if j.scope.Some? { scope := j.scope.value; }
      var text := if j.derivedKey.Some? then j.derivedKey.value else [];
      var dec := Base64Url.DecodeString(text);
      key.key := dec.bytes;
      if !dec.ok {
        return Some(BadDerivedKey);
      }
      return None;
    }
  }

  /**
   * Round trip: unmarshalling what a record marshals to restores its derived
   * key, client id, display name, audience and scope, without error, into
   * any record.
   */
  lemma UnmarshalMarshal(v: ClientRecordValue, into: ClientRecordValue)
    ensures var j := JsonRecord(Some(Base64Url.EncodeToString(v.key.key)), Some(v.key.clientId),
                                Some(v.displayName), Some(v.audience), Some(v.scope));
      Unmarshalled(into, Some(j)) ==
        (ClientRecordValue(into.key.(key := v.key.key, clientId := v.key.clientId), v.displayName, v.audience, v.scope), None)
  {
    Base64Url.DecodeEncode(v.key.key);
  }

  /** `create`. */
  method Create(store: RecordStore, crypto: Crypto, displayName: Bytes, aud: Bytes, scopes: Bytes,
                opts: seq<Keys.KeyOption>, draw: IdDraw, saltRead: RandRead, pwdRead: RandRead)
    returns (rec: ClientRecordValue, token: Bytes, err: Option<CreateError>)
    requires Fits(saltRead, SaltLen) && Fits(pwdRead, PasswordLen)
    modifies store
    ensures Creation(rec, token, err, store.docs) ==
      Created(crypto, old(store.View()), displayName, aud, scopes, opts, draw, saltRead, pwdRead)
    ensures store.online == old(store.online) && store.readable == old(store.readable) && store.writable == old(store.writable)
  {
    if !store.online {
      return EmptyRecord, [], Some(StorageUnavailable);
    }
    var cr := new ClientRecord(displayName, aud, scopes);
    var algErr := cr.key.SetOptions(crypto.parseAlg, StandardAlg, opts, draw);
    if algErr.Some? {
      return EmptyRecord, [], Some(KeyInit(algErr.value));
    }
    var apikey, genErr := cr.key.Generate(crypto, saltRead, pwdRead);
    if genErr.Some? {
      return EmptyRecord, [], Some(KeyGen(genErr.value));
    }
    var v := cr.Value();
    var storeErr := store.Create(v.key.clientId, Document(v));
    if storeErr.Some? {
      return EmptyRecord, [], Some(StoreRefused(storeErr.value));
    }
    return v, apikey, None;
  }
}
