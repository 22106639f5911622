/**
 * service/server/authorizer.go: `APIKeyAuthz.ServeHTTP`, the verification
 * decision. It decodes the token from the route, derives the key from the
 * password in it, looks the client's document up by the decoded client id,
 * compares keys and answers with the record's audience and scope. The
 * response is the log of writes made to the `http.ResponseWriter`, and the
 * side effects are the steps taken: decode, derive, connect, look up.
 */
module Authorizer {
  import opened GoBase
  import opened Collaborators
  import opened Store
  import Keys

  /** The document fields the decision reads. */
  const KeyField := "derived_key"
  const AudField := "aud"
  const ScopeField := "scope"

  const StatusOK := 200
  const StatusForbidden := 403
  const StatusBadGateway := 502

  /** One write to the response: `http.Error`, the JSON body, or `WriteHeader`. */
  datatype Write =
    | HttpError(code: int, message: string)
    | JsonBody(clientId: Bytes, aud: Bytes, scope: Bytes)
    | StatusHeader(code: int)

  /** A side effect of the decision, in the order it is taken. */
  datatype Step = DecodeStep | DeriveStep | ConnectStep | LookupStep(id: Bytes)

  datatype Outcome = Outcome(writes: seq<Write>, steps: seq<Step>)

  /**
   * The status the client receives: net/http sends the first status written,
   * a body written before any status goes out with 200, and every later
   * `WriteHeader` is ignored.
   */
  function Status(writes: seq<Write>): int {
    if |writes| == 0 then StatusOK
    else match writes[0]
      case HttpError(code, _) => code
      case JsonBody(_, _, _) => StatusOK
      case StatusHeader(code) => code
  }

  predicate HasKey(rec: Record) {
    KeyField in rec && rec[KeyField].BytesValue?
  }

  predicate HasString(rec: Record, field: string) {
    field in rec && rec[field].StringValue?
  }

  /** Lines 90-112: the audience and scope checks, then the JSON body and `WriteHeader(200)`. */
  function Claims(rec: Record, clientId: Bytes): (ws: seq<Write>)
    ensures Status(ws) == StatusOK <==> HasString(rec, AudField) && HasString(rec, ScopeField)
    ensures HasString(rec, AudField) && HasString(rec, ScopeField) ==>
      ws == [JsonBody(clientId, rec[AudField].text, rec[ScopeField].text), StatusHeader(StatusOK)]
    ensures !(HasString(rec, AudField) && HasString(rec, ScopeField)) ==>
      |ws| == 1 && ws[0].HttpError? && ws[0].code == StatusForbidden
  {
    if !HasString(rec, AudField) then [HttpError(StatusForbidden, "aud missing from record")]
    else if !HasString(rec, ScopeField) then [HttpError(StatusForbidden, "scopes missing from record")]
    else [JsonBody(clientId, rec[AudField].text, rec[ScopeField].text), StatusHeader(StatusOK)]
  }

  /**
   * The decision, with the key-mismatch branch either falling through to the
   * claims (`returnOnMismatch` false, as lines 84-88 are written) or
   * returning after its error like every other check.
   */
  function Decide(returnOnMismatch: bool, crypto: Crypto, view: StoreView, apikey: Option<Bytes>): Outcome {
    match apikey
    case None => Outcome([HttpError(StatusForbidden, "apikey not found in url")], [])
    case Some(token) =>
      var d := Keys.Decode(crypto.parseAlg, token);
      if d.err.Some? then Outcome([HttpError(StatusForbidden, "invalid api key")], [DecodeStep])
      else
        var key := DeriveKey(crypto, d.key.alg, d.key.salt, d.password);
        if !view.online then
          Outcome([HttpError(StatusBadGateway, "failed to connect to storage")], [DecodeStep, DeriveStep, ConnectStep])
        else
          var steps := [DecodeStep, DeriveStep, ConnectStep, LookupStep(d.key.clientId)];
          match Fetch(view, d.key.clientId)
          case ReadFailed => Outcome([HttpError(StatusBadGateway, "failed to read storage")], steps)
          case NotFound => Outcome([HttpError(StatusForbidden, "invalid api key")], steps)
          case Found(rec) => Outcome(RecordAnswer(returnOnMismatch, rec, key, d.key.clientId), steps)
  }

  /** Lines 76-112: the answer once the client's document `rec` is in hand. */
  function RecordAnswer(returnOnMismatch: bool, rec: Record, key: Bytes, clientId: Bytes): seq<Write> {
    if !HasKey(rec) then [HttpError(StatusForbidden, "key missing from record")]
    else if key != rec[KeyField].bytes then
      if returnOnMismatch then [HttpError(StatusForbidden, "corrupt key record")]
      else [HttpError(StatusForbidden, "corrupt key record")] + Claims(rec, clientId)
    else Claims(rec, clientId)
  }

  /** The token decodes and the client's document holds a derived key. */
  predicate KeyStored(crypto: Crypto, view: StoreView, token: Bytes) {
    var d := Keys.Decode(crypto.parseAlg, token);
    && d.err.None?
    && view.online
    && Fetch(view, d.key.clientId).Found?
    && HasKey(Fetch(view, d.key.clientId).record)
  }

  /** Moreover the document holds an audience and a scope. */
  predicate Readable(crypto: Crypto, view: StoreView, token: Bytes) {
    && KeyStored(crypto, view, token)
    && var rec := Fetch(view, Keys.Decode(crypto.parseAlg, token).key.clientId).record;
    HasString(rec, AudField) && HasString(rec, ScopeField)
  }

  /** The key the token's password derives is the one stored in the client's document. */
  predicate KeyMatches(crypto: Crypto, view: StoreView, token: Bytes)
    requires KeyStored(crypto, view, token)
  {
    var d := Keys.Decode(crypto.parseAlg, token);
    DeriveKey(crypto, d.key.alg, d.key.salt, d.password) == Fetch(view, d.key.clientId).record[KeyField].bytes
  }

  /** `ServeHTTP` as written. */
  function Respond(crypto: Crypto, view: StoreView, apikey: Option<Bytes>): (r: Outcome)
    // a missing route variable: 403 before anything else happens
    ensures apikey.None? ==> r == Outcome([HttpError(StatusForbidden, "apikey not found in url")], [])
    // an undecodable token: 403, no key derived and the store untouched
    ensures apikey.Some? && Keys.Decode(crypto.parseAlg, apikey.value).err.Some? ==>
      r == Outcome([HttpError(StatusForbidden, "invalid api key")], [DecodeStep])
    // a decodable token: the key is derived before the store is contacted,
    // and the lookup is by the decoded client id
    ensures apikey.Some? && Keys.Decode(crypto.parseAlg, apikey.value).err.None? ==>
      && |r.steps| >= 3 && r.steps[..3] == [DecodeStep, DeriveStep, ConnectStep]
      && (view.online ==> r.steps == [DecodeStep, DeriveStep, ConnectStep, LookupStep(Keys.Decode(crypto.parseAlg, apikey.value).key.clientId)])
      && (!view.online ==> |r.steps| == 3)
    // storage failures are the only 502s
    ensures Status(r.writes) == StatusBadGateway <==>
      apikey.Some? && Keys.Decode(crypto.parseAlg, apikey.value).err.None? &&
      (!view.online || !view.readable)
    // the answer is 200 exactly when the record is readable and the keys agree
    ensures Status(r.writes) == StatusOK <==>
      apikey.Some? && Readable(crypto, view, apikey.value) && KeyMatches(crypto, view, apikey.value)
    ensures Status(r.writes) in {StatusOK, StatusForbidden, StatusBadGateway}
  {
    Decide(false, crypto, view, apikey)
  }

  /** `ServeHTTP` with the mismatch branch returning after its 403. */
  function IntendedRespond(crypto: Crypto, view: StoreView, apikey: Option<Bytes>): (r: Outcome)
    // the same side effects in the same order as the code as written
    ensures r.steps == Respond(crypto, view, apikey).steps
    // every refusal is a single error and nothing else
    ensures Status(r.writes) != StatusOK <==> |r.writes| == 1 && r.writes[0].HttpError?
    ensures Status(r.writes) == StatusBadGateway <==>
      apikey.Some? && Keys.Decode(crypto.parseAlg, apikey.value).err.None? &&
      (!view.online || !view.readable)
    ensures Status(r.writes) == StatusOK <==>
      apikey.Some? && Readable(crypto, view, apikey.value) && KeyMatches(crypto, view, apikey.value)
  {
    Decide(true, crypto, view, apikey)
  }

  /**
   * As written, the JSON body with the record's audience and scope is
   * written whenever the record is readable, whether or not the derived key
   * matches the stored one.
   */
  lemma AsWrittenBodyIgnoresKey(crypto: Crypto, view: StoreView, token: Bytes, clientId: Bytes, aud: Bytes, scope: Bytes)
    ensures JsonBody(clientId, aud, scope) in Respond(crypto, view, Some(token)).writes <==>
      && Readable(crypto, view, token)
      && clientId == Keys.Decode(crypto.parseAlg, token).key.clientId
      && var rec := Fetch(view, clientId).record;
      rec[AudField] == StringValue(aud) && rec[ScopeField] == StringValue(scope)
  {
  }

  /**
   * The discrepancy itself: a readable record whose stored key differs from
   * the derived one gets the "corrupt key record" error followed by the JSON
   * body with its audience and scope and a superfluous `WriteHeader(200)`.
   */
  lemma MismatchFallsThrough(crypto: Crypto, view: StoreView, token: Bytes)
    requires Readable(crypto, view, token) && !KeyMatches(crypto, view, token)
    ensures var d := Keys.Decode(crypto.parseAlg, token);
      var rec := Fetch(view, d.key.clientId).record;
      Respond(crypto, view, Some(token)).writes ==
        [HttpError(StatusForbidden, "corrupt key record"),
         JsonBody(d.key.clientId, rec[AudField].text, rec[ScopeField].text),
         StatusHeader(StatusOK)]
  {
  }

  /** Returning after the mismatch error: the only write is that error. */
  lemma IntendedRejectsMismatch(crypto: Crypto, view: StoreView, token: Bytes)
    requires KeyStored(crypto, view, token) && !KeyMatches(crypto, view, token)
    ensures IntendedRespond(crypto, view, Some(token)).writes == [HttpError(StatusForbidden, "corrupt key record")]
    ensures IntendedRespond(crypto, view, Some(token)).steps == Respond(crypto, view, Some(token)).steps
  {
  }

  /** With the return in place, the body is written exactly when the record is readable and the keys agree. */
  lemma IntendedBodyNeedsKey(crypto: Crypto, view: StoreView, token: Bytes, clientId: Bytes, aud: Bytes, scope: Bytes)
    ensures JsonBody(clientId, aud, scope) in IntendedRespond(crypto, view, Some(token)).writes <==>
      && Readable(crypto, view, token)
      && KeyMatches(crypto, view, token)
      && clientId == Keys.Decode(crypto.parseAlg, token).key.clientId
      && var rec := Fetch(view, clientId).record;
      rec[AudField] == StringValue(aud) && rec[ScopeField] == StringValue(scope)
  {
  }

  /** Outside the mismatch case the two decisions are the same. */
  lemma IntendedAgreesElsewhere(crypto: Crypto, view: StoreView, apikey: Option<Bytes>)
    requires apikey.Some? && KeyStored(crypto, view, apikey.value) ==> KeyMatches(crypto, view, apikey.value)
    ensures IntendedRespond(crypto, view, apikey) == Respond(crypto, view, apikey)
  {
  }

  /**
   * A decodable token whose client id has no document gets exactly the
   * answer an undecodable token gets: the caller cannot tell them apart.
   */
  lemma UnknownClientLooksLikeBadToken(crypto: Crypto, view: StoreView, bad: Bytes, unknown: Bytes)
    requires Keys.Decode(crypto.parseAlg, bad).err.Some?
    requires Keys.Decode(crypto.parseAlg, unknown).err.None? && view.online
    requires Fetch(view, Keys.Decode(crypto.parseAlg, unknown).key.clientId).NotFound?
    ensures Respond(crypto, view, Some(bad)).writes == Respond(crypto, view, Some(unknown)).writes
  {
  }

  /**
   * The lookup ignores the derived key: two tokens with the same client id
   * reach the same document whatever their salts and passwords.
   */
  lemma LookupByClientId(crypto: Crypto, view: StoreView, t1: Bytes, t2: Bytes)
    requires Keys.Decode(crypto.parseAlg, t1).err.None? && Keys.Decode(crypto.parseAlg, t2).err.None?
    requires Keys.Decode(crypto.parseAlg, t1).key.clientId == Keys.Decode(crypto.parseAlg, t2).key.clientId
    ensures Respond(crypto, view, Some(t1)).steps == Respond(crypto, view, Some(t2)).steps
  {
  }

  /** A document without a byte-valued derived key: 403 "key missing from record", nothing after it. */
  lemma KeyMissingRejected(crypto: Crypto, view: StoreView, token: Bytes)
    requires Keys.Decode(crypto.parseAlg, token).err.None? && view.online
    requires Fetch(view, Keys.Decode(crypto.parseAlg, token).key.clientId).Found?
    requires !HasKey(Fetch(view, Keys.Decode(crypto.parseAlg, token).key.clientId).record)
    ensures Respond(crypto, view, Some(token)).writes == [HttpError(StatusForbidden, "key missing from record")]
  {
  }

  /**
   * The `http.ResponseWriter`, as the log of what was written to it. The
   * HTTP server hands one to `ServeHTTP`; nothing here creates one.
   */
  class ResponseWriter {
    var log: seq<Write>

    /** `http.Error(w, message, code)`. */
    method Error(message: string, code: int)
      modifies this
      ensures log == old(log) + [HttpError(code, message)]
    {
      log := log + [HttpError(code, message)];
    }

    /** `json.NewEncoder(w).Encode(...)` of the claims. */
    method Encode(clientId: Bytes, aud: Bytes, scope: Bytes)
      modifies this
      ensures log == old(log) + [JsonBody(clientId, aud, scope)]
    {
      log := log + [JsonBody(clientId, aud, scope)];
    }

    method WriteHeader(code: int)
      modifies this
      ensures log == old(log) + [StatusHeader(code)]
    {
      log := log + [StatusHeader(code)];
    }
  }

  /** Lines 76-112 of `ServeHTTP`, writing as they are written: the mismatch error does not return. */
  method CheckRecord(w: ResponseWriter, data: Record, key: Bytes, clientId: Bytes)
    modifies w
    ensures w.log == old(w.log) + RecordAnswer(false, data, key, clientId)
  {
    if !(KeyField in data && data[KeyField].BytesValue?) {
      w.Error("key missing from record", StatusForbidden);
      return;
    }
    if key != data[KeyField].bytes {
      w.Error("corrupt key record", StatusForbidden);
    }
    if !(AudField in data && data[AudField].StringValue?) {
      w.Error("aud missing from record", StatusForbidden);
      return;
    }
    var aud := data[AudField].text;
    if !(ScopeField in data && data[ScopeField].StringValue?) {
      w.Error("scopes missing from record", StatusForbidden);
      return;
    }
    var scopes := data[ScopeField].text;
    w.Encode(clientId, aud, scopes);
    w.WriteHeader(StatusOK);
  }

  /** `ServeHTTP`: the writes it makes are those `Respond` lists, and so are its steps. */
  method ServeHTTP(crypto: Crypto, store: RecordStore, w: ResponseWriter, apikey: Option<Bytes>) returns (ghost steps: seq<Step>)
    modifies w
    ensures w.log == old(w.log) + Respond(crypto, store.View(), apikey).writes
    ensures steps == Respond(crypto, store.View(), apikey).steps
  {
    if apikey.None? {
      w.Error("apikey not found in url", StatusForbidden);
      return [];
    }
    var d := Keys.Decode(crypto.parseAlg, apikey.value);
    steps := [DecodeStep];
    if d.err.Some? {
      w.Error("invalid api key", StatusForbidden);
      return;
    }
    var ak := new Keys.APIKey.FromValue(d.key);
    var key := ak.RecoverKey(crypto, d.password);
    steps := steps + [DeriveStep];
    // the second `err != nil` test (lines 54-58) reads Decode's error again, which is nil here

    steps := steps + [ConnectStep];
    if !store.online {
      w.Error("failed to connect to storage", StatusBadGateway);
      return;
    }
    var found := Fetch(store.View(), ak.clientId);
    steps := steps + [LookupStep(ak.clientId)];
    match found {
      case ReadFailed =>
        w.Error("failed to read storage", StatusBadGateway);
      case NotFound =>
        w.Error("invalid api key", StatusForbidden);
      case Found(data) =>
        CheckRecord(w, data, key, ak.clientId);
    }
  }
}
