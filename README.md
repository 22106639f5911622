# auth-apikeystore: the API key engine, in Dafny

This project models the credential engine of the auth-apikeystore service
and the two flows built on it:

- **Token codec and credential generation** (`service/keys/argon2id.go` and
  its variant `service/server/keys/argon2id.go`). `Generate` draws a 32-byte
  salt and a 32-byte password, stores the Argon2id key derived from them, and
  returns an opaque token. The token is the base64url encoding of five fields
  joined with `.`: the display name cut to 16 bytes, the client id, the
  algorithm string, and the base64url salt and password. `Decode` takes a
  token apart again, and `MatchPassword`/`RecoverKey` re-derive the key.
  Options configure a key (client id, display name and, in the variant, user
  id, audience and scopes). An empty client id is replaced by a 16-symbol
  nanoid.
- **The verification decision** (`APIKeyAuthz.ServeHTTP`,
  `service/server/authorizer.go`). The handler decodes the token from the
  route and derives the key. It then connects to the store and looks the
  client's document up by client id. Finally it compares the stored key and
  answers with the record's audience and scope. The response is modelled as
  the log of writes made to the `http.ResponseWriter`.
- **The creation flow** (`APIKeyCreator.create`,
  `service/server/create.go`). It configures a key under the standard
  algorithm `argon2id:3 64MB 32` and generates its token. It then stores the
  client record create-if-absent under the client id. The JSON form of
  `ClientRecord` carries `derived_key` as base64url.

Modules, one per concern:

| file | module | models |
|---|---|---|
| go_base.dfy | `GoBase` | bytes, `Option`, `Result` |
| base64url.dfy | `Base64Url` | Go's `base64.URLEncoding` (section 5 of RFC 4648, padded), with Go's lenient decoder |
| collaborators.dfy | `Collaborators` | `ParseAlg`, Argon2id, `crypto/rand` and nanoid, as parameters |
| credential.dfy | `Credential` | the salt/password draw and the token a draw issues, shared by both key variants |
| token_codec.dfy | `TokenCodec` | `strings.SplitN`/`Join` on `.`, the name prefix, token assembly and field decoding |
| keys.dfy | `Keys` | service/keys/argon2id.go |
| server_keys.dfy | `ServerKeys` | service/server/keys/argon2id.go |
| store.dfy | `Store` | the Firestore collection `apiclients`, as documents plus connect/read/write outcomes |
| authorizer.dfy | `Authorizer` | service/server/authorizer.go |
| creator.dfy | `Creator` | service/server/create.go |

The model takes the source's own form. Code that mutates a Go struct through
a pointer receiver is a class method: `SetOptions`, `generatePasword`,
`Generate`, `MatchPassword`, `UnmarshalJSON`, the store's `Create` and the
response writer. Each such method is proved equal to a specification function
(`Keys.Configured`, `Keys.AfterDraw`, `Keys.Generated`, `Creator.Created`,
`Authorizer.Respond`, ...), and the properties are proved about those
functions. Loops over option closures are `while` loops with invariants.
Pure code (`Decode`, the token text, `EncodedKey`, `MarshalJSON`) is
functions.

Foreign code is handed in as parameters:

- `ParseAlg` and `argon2.IDKey` are the two functions of a `Crypto` value.
  Nothing is assumed of them beyond being functions, which makes them
  deterministic.
- A `rand.Read` call is the outcome it returned: the count, the error flag and
  the buffer's contents.
- A `nanoid.ID(16)` call is `Drawn(id)` or `DrawFailed`.

`create.go` and `authorizer.go` call an `apikeys` package that is not part of
this model. Its `Key` is modelled by the `Keys` module
(service/keys/argon2id.go), which has the same `SetOptions`, `Decode`,
`RecoverKey`, `EncodedKey` and `Generate`. The stored derived key is taken to
be the document field `derived_key`, the field the authorizer reads.

Points to note about the code:

- The lookup in `ServeHTTP` is by client id
  (service/server/authorizer.go:65). The comment at
  service/keys/argon2id.go:21-27 says instead that the derived key is the
  database primary key, recovered from the password.
  `Authorizer.LookupByClientId` states what the code does.
- `create` puts its `displayName` argument in `ClientRecord.DisplayName`,
  which hides the embedded key's `DisplayName`. The token's name part
  therefore comes from the options alone, not from the creation request
  (`Creator.TokenIgnoresDisplayNameArgument`).
- Rejections are not collapsed into one answer. The status is 403 throughout,
  but the messages differ ("invalid api key", "key missing from record",
  "corrupt key record", ...).
- Keys are compared with `bytes.Equal`, not in constant time.
- A key mismatch writes its 403 and carries on (see Findings). The comment at
  service/server/authorizer.go:85 says every discrepancy with the stored
  record is to be treated as forbidden.

## Model

| member | source | states |
|---|---|---|
| Base64Url.EncodeToString | service/keys/argon2id.go:179-180 | the encoding is 4 symbols per started 3-byte group, each a URL-safe symbol or `=` |
| Base64Url.DecodeEncode | service/keys/argon2id.go:120-124 | decoding the base64url encoding of any bytes gives those bytes back, without error |
| Base64Url.DecodeRejectsRaggedLength | service/keys/argon2id.go:98-101 | text whose length, newlines removed, is not a multiple of 4 does not decode |
| Base64Url.DecodeString | service/keys/argon2id.go:98-101 | text whose length, newlines removed, is not a multiple of 4 is refused; a decoding has at most 3 bytes per 4 symbols and fewer than 3 bytes less |
| TokenCodec.SplitN | service/keys/argon2id.go:103 | `strings.SplitN` yields at least one and at most `n` parts |
| TokenCodec.Join | service/keys/argon2id.go:187 | `strings.Join` puts a `.` between every two neighbouring parts, so the joined text holds at least one dot fewer than there are parts |
| TokenCodec.JoinSplitN | service/keys/argon2id.go:103 | joining what `SplitN` returns gives its input back, and every part but the last is free of `.` |
| TokenCodec.TokenText | service/keys/argon2id.go:179-188 | the token is free of `.` and decodes, without error, to the five parts joined with `.` |
| TokenCodec.SplitNCount | service/keys/argon2id.go:103 | `SplitN(s, ".", n)` yields one part more than `s` has dots, capped at `n` |
| TokenCodec.SplitJoin | service/keys/argon2id.go:103 | splitting the `.`-join of dot-free parts, with a limit of at least their number, gives the parts back |
| TokenCodec.EncodedHasNoDot | service/keys/argon2id.go:179-187 | a base64url encoding never holds `.`, so the encoded salt and password never split the token |
| TokenCodec.NamePrefix | service/keys/argon2id.go:182-185 | the name part is the display name when it is at most 16 bytes, otherwise its first 16 bytes; it is a prefix, never an error |
| TokenCodec.DecodeFields | service/keys/argon2id.go:96-130 | decoding fails with `BadEncoding` exactly when the token is not base64url; a success had exactly four dots |
| TokenCodec.DecodeFieldsRejections | service/keys/argon2id.go:103-127 | once the text decodes, the failures come in the code's order, each exactly when its check fails: part count, then `ParseAlg` on the algorithm part, then the salt part, then the password part |
| TokenCodec.DecodedFieldsShape | service/keys/argon2id.go:96-130 | a successful decoding means the text is the `.`-join of the name, the client id and three more parts, the first four dot-free, the third parsing to the algorithm and the last two decoding to the salt and password |
| TokenCodec.WrongDotCountRejected | service/keys/argon2id.go:103-109 | a decoded text without exactly four dots is refused with the part count `SplitN` reports |
| TokenCodec.DecodeTokenText | service/keys/argon2id.go:96-130 | round trip: with a dot-free name prefix, client id and algorithm string, the token decodes to the prefix, client id, parsed algorithm, salt and password; it fails on the algorithm when `ParseAlg` refuses it |
| TokenCodec.DottedFieldSpoilsToken | service/keys/argon2id.go:103-109 | a `.` in the name prefix, client id or algorithm string makes the token undecodable (six parts) |
| Credential.Draw | service/keys/argon2id.go:149-172 | the draw fails exactly on a rand error or short read; a success has a 32-byte salt and password and the key derived from them |
| Credential.IssuedTokenRecoversKey | service/keys/argon2id.go:174-189 | the issued token decodes to its fields, and the key derived from the decoded fields is the key that was stored |
| Keys.ApplyOptionsConcat | service/keys/argon2id.go:82-84 | options apply in list order: applying a concatenation is applying one list after the other |
| Keys.OptionsKeepSecrets | service/keys/argon2id.go:82-84 | options never change the algorithm, the salt or the derived key |
| Keys.ClientIdUntouched | service/keys/argon2id.go:82-84 | without a `WithClientID` option the client id is unchanged |
| Keys.LastClientIdWins | service/keys/argon2id.go:82-84 | the last `WithClientID` option decides the client id |
| Keys.Configured | service/keys/argon2id.go:74-94 | a refused algorithm string returns the error before any option applies; otherwise options apply in order, a non-empty client id is kept and an empty one is replaced by the drawn id, and a nanoid failure returns no error |
| Keys.ConfiguredHasClientId | service/keys/argon2id.go:86-92 | once the algorithm parses and nanoid draws, the client id is non-empty |
| Keys.APIKey.SetOptions | service/keys/argon2id.go:74-94 | the key's new state and the error are those `Configured` gives for its old state |
| Keys.NewAPIKey | service/keys/argon2id.go:67-72 | `SetOptions` on the zero key; on error the zero key |
| Keys.Decode | service/keys/argon2id.go:96-130 | every failure returns the zero key and a nil password; it succeeds exactly when the fields decode; the derived key is never set |
| Keys.APIKey.RecoverKey | service/keys/argon2id.go:132-135 | the recovered key is Argon2id of the password under the key's own salt, time, memory and key length, on one thread (`argon2Threads`, line 19); `Keys.DrawnPasswordRecoversKey` shows it gives back the key `generatePasword` stored |
| Keys.APIKey.MatchPassword | service/keys/argon2id.go:137-142 | the stored key becomes the recovered key, match or not, and the result is byte equality with the argument |
| Keys.APIKey.EncodedKey | service/keys/argon2id.go:144-147 | the encoded key decodes back to the derived key and holds no `.` |
| Keys.APIKey.GeneratePassword | service/keys/argon2id.go:149-172 | the new state, password and error are those of `AfterDraw`: the salt buffer is kept even on error, the key is set only on success |
| Keys.DrawnPasswordRecoversKey | service/keys/argon2id.go:149-172 | after a successful draw, salt and password are 32 bytes and the stored key is the one the password recovers; a failed draw returns no password |
| Keys.APIKey.Generate | service/keys/argon2id.go:174-189 | the new state, token and error are those of `Generated`: the base64url of the five fields joined in order |
| Keys.GeneratedTokenDecodes | service/keys/argon2id.go:174-189 | `Decode(Generate())` gives the name prefix, client id, algorithm and salt, and a 32-byte password that re-derives the stored key |
| Keys.FailedGenerateIssuesNothing | service/keys/argon2id.go:175-178 | a rand error or short read gives an error, no token, and an unchanged key and client id |
| ServerKeys.ApplyOptionsConcat | service/server/keys/argon2id.go:95-97 | options apply in list order |
| ServerKeys.OptionsKeepSecrets | service/server/keys/argon2id.go:95-97 | options never change the algorithm, the salt or the derived key |
| ServerKeys.AudienceUntouched | service/server/keys/argon2id.go:74-78 | options without a `WithAudience` leave the audience as it was |
| ServerKeys.LastAudienceWins | service/server/keys/argon2id.go:95-97 | the last `WithAudience` sets the audience, whatever came before it |
| ServerKeys.ScopesUntouched | service/server/keys/argon2id.go:79-83 | options without a `WithScopes` leave the scopes as they were |
| ServerKeys.LastScopesWin | service/server/keys/argon2id.go:95-97 | the last `WithScopes` sets the scopes, whatever came before it |
| ServerKeys.Built | service/server/keys/argon2id.go:85-107 | a refused algorithm gives the zero key and the error; a nanoid failure gives the zero key and no error; otherwise, whenever the options give a client id or the nanoid is drawn, exactly the options' key with the parsed algorithm and the given or drawn client id |
| ServerKeys.NewAPIKey | service/server/keys/argon2id.go:85-107 | the loop over the options returns what `Built` gives |
| ServerKeys.Decode | service/server/keys/argon2id.go:109-143 | every failure returns the zero key and a nil password; success exactly when the fields decode; key, user id, audience and scopes stay empty |
| ServerKeys.APIKey.MatchPassword | service/server/keys/argon2id.go:145-150 | the stored key becomes the derived key and the result is byte equality with the argument |
| ServerKeys.APIKey.GeneratePassword | service/server/keys/argon2id.go:152-175 | the new state, password and error are those of `AfterDraw` |
| ServerKeys.DrawnPasswordMatches | service/server/keys/argon2id.go:152-175 | 32-byte salt and password and a matching stored key after success; an error exactly on a rand error or short read, with no password |
| ServerKeys.APIKey.Generate | service/server/keys/argon2id.go:177-192 | the new state, token and error are those of `Generated` |
| ServerKeys.TokenIgnoresAttributes | service/server/keys/argon2id.go:177-192 | keys that agree on algorithm, client id and display name get the same token: user id, audience and scopes never appear in it |
| ServerKeys.GeneratedTokenDecodes | service/server/keys/argon2id.go:177-192 | `Decode(Generate())` gives the name prefix, client id, algorithm and salt, and a password that re-derives the stored key |
| Store.Fetch | service/server/authorizer.go:65-74 | a readable store finds the document exactly when the id is present, and reports NotFound exactly when it is absent |
| Store.Insert | service/server/create.go:98-107 | create-if-absent: success exactly when the write goes through and the id is new; an existing document is never replaced |
| Store.RecordStore.Create | service/server/create.go:103-107 | the documents and error afterwards are those `Insert` gives |
| Authorizer.Claims | service/server/authorizer.go:90-112 | 200 with the JSON body of client id, aud and scope exactly when both are string fields; otherwise a single 403 |
| Authorizer.Respond | service/server/authorizer.go:33-113 | no route variable: 403 and nothing else; an undecodable token: 403 "invalid api key", no derivation and no storage access; otherwise the key is derived before connecting and the lookup is by the decoded client id; 502 exactly on connect or read failure; 200 exactly when the record is readable and the keys match |
| Authorizer.IntendedRespond | service/server/authorizer.go:84-88 | with a `return` after the mismatch error: the same side effects in the same order as the code as written, every refusal a single error and nothing else, 502 exactly on connect or read failure, 200 exactly when the record is readable and the keys match |
| Authorizer.AsWrittenBodyIgnoresKey | service/server/authorizer.go:84-110 | the JSON body with the record's aud and scope is written whenever the record is readable, whether or not the keys match |
| Authorizer.MismatchFallsThrough | service/server/authorizer.go:84-88 | a key mismatch writes "corrupt key record", then the JSON body, then `WriteHeader(200)` |
| Authorizer.IntendedRejectsMismatch | service/server/authorizer.go:84-88 | with a return after the mismatch error, the only write is that 403 |
| Authorizer.IntendedBodyNeedsKey | service/server/authorizer.go:76-110 | with the return, the JSON body is written exactly when the record is readable and the keys match |
| Authorizer.IntendedAgreesElsewhere | service/server/authorizer.go:33-113 | outside a key mismatch the corrected and the written decision agree |
| Authorizer.UnknownClientLooksLikeBadToken | service/server/authorizer.go:66-74 | an unknown client id gets exactly the answer an undecodable token gets |
| Authorizer.LookupByClientId | service/server/authorizer.go:65 | tokens with the same decoded client id take the same steps and reach the same document, whatever their passwords |
| Authorizer.KeyMissingRejected | service/server/authorizer.go:76-83 | a document without a byte-valued `derived_key` gets a single 403 "key missing from record" |
| Authorizer.CheckRecord | service/server/authorizer.go:76-112 | the writes made once the document is in hand are those of `RecordAnswer` without the return on mismatch |
| Authorizer.ServeHTTP | service/server/authorizer.go:33-113 | the writes appended to the response and the steps taken are those of `Respond` |
| Creator.Document | service/server/create.go:31-36 | the stored document holds the derived key as bytes and aud and scope as strings, where the authorizer reads them |
| Creator.Created | service/server/create.go:70-109 | any failure returns an empty record and token and stores nothing; no connection fails before key generation; a refused standard algorithm fails; a rand error or short read fails key generation; after that the store refuses exactly when it is not writable or the client id is taken; creation succeeds exactly when every one of these steps does; success stores the new record under its client id, with the given display name, aud and scopes and the standard algorithm; nothing existing is replaced |
| Creator.CreatedByGenerate | service/server/create.go:91-108 | the returned key and token are those `Generate` produced from the configured key |
| Creator.TokenIgnoresDisplayNameArgument | service/server/create.go:80-91 | the token does not depend on the display name argument; its name part comes from the options |
| Creator.CreateThenAuthorize | service/server/create.go:70-109 | right after a successful creation, the issued token is answered with 200 and the client id, aud and scopes, by the decision as written and as corrected |
| Creator.ClientRecord.MarshalJSON | service/server/create.go:38-48 | `derived_key` is base64url of the derived key, and decodes back to it; the other fields are the record's |
| Creator.ClientRecord.UnmarshalJSON | service/server/create.go:50-68 | the record afterwards and the error are those `Unmarshalled` gives |
| Creator.Unmarshalled | service/server/create.go:50-68 | text that does not parse changes nothing; each of client id, display name, audience and scope is overwritten when present and kept when absent; the derived key becomes the decoding of `derived_key` (empty when absent); the error is `BadDerivedKey` exactly when a present `derived_key` does not decode; the key's other fields are never touched |
| Creator.UnmarshalMarshal | service/server/create.go:38-68 | unmarshalling a marshalled record restores its derived key, client id, display name, aud and scope, without error |
| Creator.Create | service/server/create.go:70-109 | the record, token, error and documents afterwards are those `Created` gives; the store's availability is unchanged |

## Left out

- Argon2id, `ParseAlg`/`Alg`, `crypto/rand` and nanoid are parameters. Nothing is assumed of `ParseAlg` beyond being a function, so no parse/print round trip is claimed; the round-trip lemmas take `parseAlg(alg.text) == alg` as a hypothesis.
- The `apikeys` package is not part of this model; service/keys/argon2id.go stands in for its `Key`, and the stored field name `derived_key` is assumed.
- Keys.Configured: when `ParseAlg` fails, the key's algorithm is set to the zero `Alg`, on the assumption that `ParseAlg` returns the zero value with its error.
- HTTP headers (`Content-Type`), the text of formatted errors (the wrapped storage error after "failed to connect to storage: "), the JSON encoder's output bytes and logging are not modelled; a write is its status code and message, or the body's three fields.
- The `err != nil` test at service/server/authorizer.go:54-58 re-reads the already checked decode error and can never fire; it has no counterpart.
- Contexts and the 30-second timeout, `EnsureConnected`'s connection lifecycle (service/server/handle.go), Firestore itself: the store is a map of documents plus whether connecting, reading and writing succeed.
- Creator.Document: which fields of the embedded key Firestore stores is not modelled beyond the client id and the derived key; a nil byte slice stored as null is not distinguished from an empty one.
- Creator.Unmarshalled: JSON text is represented by the object it parses to (`None` when it does not parse); a field of the wrong JSON type and the embedded key's other exported fields are not modelled.
- service/server/serve.go, service/server/get.go, service/server/createhttp.go, service/server/createfb.go and service/cmd/client/main.go (servers, transport wrappers, flatbuffers, the CLI) are not part of this model.
- Constant-time comparison and any bound on concurrent derivations: the code has neither; comparisons are byte equality.

## Findings

| source | as written | input that shows it | evidently intended | confidence | as-written member | corrected member |
|---|---|---|---|---|---|---|
| service/server/authorizer.go:84-88 | a stored key that differs from the derived one writes 403 "corrupt key record" and does not return; the aud and scope checks run and the JSON body with the record's aud and scope is written, followed by `WriteHeader(200)` | a decodable token whose client id names a document holding `derived_key`, `aud` and `scope`, where `derived_key` is not the key the token's password derives (a wrong password for a real client id) | return after the 403, as every other check does; the comment there says any discrepancy is forbidden | not executed | Authorizer.MismatchFallsThrough | Authorizer.IntendedRejectsMismatch |
