/**
 * The API key token, built and taken apart the same way by `Generate` and
 * `Decode` in service/keys/argon2id.go and service/server/keys/argon2id.go:
 * five fields (display-name prefix, client id, algorithm string, salt,
 * password) joined with '.', the salt and password base64url-encoded, and the
 * joined text base64url-encoded again.
 */
module TokenCodec {
  import opened GoBase
  import opened Collaborators
  import Base64Url

  const Dot: byte := 46          // '.'
  const NumParts := 5            // apiKeyNumParts
  const NameLen := 16            // apiKeyNameLen

  // ---------------------------------------------------------------- split and join

  /** The number of '.' bytes in `s`. */
  function CountDots(s: Bytes): nat {
    if |s| == 0 then 0 else (if s[0] == Dot then 1 else 0) + CountDots(s[1..])
  }

  /** The position of the first '.' (`strings.Index(s, ".")`). */
  function IndexOfDot(s: Bytes): (i: nat)
    requires Dot in s
    ensures i < |s| && s[i] == Dot && Dot !in s[..i]
  {
    if s[0] == Dot then 0
    else
      var j := IndexOfDot(s[1..]);
      assert s[..j + 1] == [s[0]] + s[1..][..j];
      j + 1
  }

  /** `strings.SplitN(s, ".", n)` for n >= 1: at most n parts, the last one unsplit. */
  function SplitN(s: Bytes, n: nat): (parts: seq<Bytes>)
    requires n >= 1
    ensures 1 <= |parts| <= n
    decreases n
  {
    if n == 1 || Dot !in s then [s]
    else
      var i := IndexOfDot(s);
      [s[..i]] + SplitN(s[i + 1..], n - 1)
  }

  /** `strings.Join(parts, ".")`: each two neighbouring parts are separated by a '.'. */
  function Join(parts: seq<Bytes>): (s: Bytes)
    ensures |parts| >= 1 ==> CountDots(s) >= |parts| - 1
  {
    if |parts| == 0 then []
    else if |parts| == 1 then parts[0]
    else
      var rest := Join(parts[1..]);
      CountDotsAppend(parts[0] + [Dot], rest);
      CountDotsAppend(parts[0], [Dot]);
      assert CountDots([Dot]) == 1;
      parts[0] + [Dot] + rest
  }

  /**
   * What `SplitN` returns joins back to its input, and every part but the
   * last is free of '.'.
   */
  lemma {:induction false} JoinSplitN(s: Bytes, n: nat)
    requires n >= 1
    ensures Join(SplitN(s, n)) == s
    ensures forall k :: 0 <= k < |SplitN(s, n)| - 1 ==> Dot !in SplitN(s, n)[k]
    decreases n
  {
    if n > 1 && Dot in s {
      var i := IndexOfDot(s);
      var head, tail := s[..i], s[i + 1..];
      var rest := SplitN(tail, n - 1);
      JoinSplitN(tail, n - 1);
      var parts := [head] + rest;
      assert SplitN(s, n) == parts;
      assert parts[1..] == rest;
      calc {
        Join(parts);
        head + [Dot] + Join(rest);
        head + [Dot] + tail;
        { Reassemble(s, i); }
        s;
      }
      forall k | 0 <= k < |parts| - 1 ensures Dot !in parts[k] {
        if k > 0 {
          assert parts[k] == rest[k - 1];
        }
      }
    }
  }

  lemma Reassemble(s: Bytes, i: nat)
    requires i < |s|
    ensures s[..i] + [s[i]] + s[i + 1..] == s
  {
  }

  lemma {:induction false} CountDotsAppend(a: Bytes, b: Bytes)
    ensures CountDots(a + b) == CountDots(a) + CountDots(b)
  {
    if |a| == 0 {
      assert a + b == b;
    } else {
      assert (a + b)[1..] == a[1..] + b;
      CountDotsAppend(a[1..], b);
    }
  }

  lemma {:induction false} CountDotsNone(s: Bytes)
    ensures CountDots(s) == 0 <==> Dot !in s
  {
    if |s| > 0 {
      CountDotsNone(s[1..]);
      assert s == [s[0]] + s[1..];
    }
  }

  /** Past the first '.', one dot fewer remains. */
  lemma {:induction false} CountDotsAfterFirst(s: Bytes)
    requires Dot in s
    ensures CountDots(s) == 1 + CountDots(s[IndexOfDot(s) + 1..])
  {
    if s[0] != Dot {
      CountDotsAfterFirst(s[1..]);
      assert s[IndexOfDot(s) + 1..] == s[1..][IndexOfDot(s[1..]) + 1..];
    }
  }

  /** `SplitN` yields one part more than there are dots, up to its limit. */
  lemma {:induction false} SplitNCount(s: Bytes, n: nat)
    requires n >= 1
    ensures |SplitN(s, n)| == if CountDots(s) + 1 < n then CountDots(s) + 1 else n
    decreases n
  {
    if Dot !in s {
      CountDotsNone(s);
    } else if n > 1 {
      CountDotsAfterFirst(s);
      SplitNCount(s[IndexOfDot(s) + 1..], n - 1);
    }
  }

  lemma IndexOfDotAfter(a: Bytes, b: Bytes)
    requires Dot !in a
    ensures Dot in a + [Dot] + b && IndexOfDot(a + [Dot] + b) == |a|
  {
    var s := a + [Dot] + b;
    assert s[|a|] == Dot;
    var i := IndexOfDot(s);
    forall k | 0 <= k < i ensures s[k] != Dot {
      assert s[k] == s[..i][k];
    }
    forall k | 0 <= k < |a| ensures s[k] != Dot {
      assert s[k] == a[k];
    }
  }

  /** Splitting joined dot-free parts, with a limit of at least their number, gives them back. */
  lemma {:induction false} SplitJoin(parts: seq<Bytes>, n: nat)
    requires 1 <= |parts| <= n
    requires forall k :: 0 <= k < |parts| ==> Dot !in parts[k]
    ensures SplitN(Join(parts), n) == parts
    decreases n
  {
    if |parts| == 1 {
      assert Dot !in parts[0];
    } else {
      var head, tail := parts[0], parts[1..];
      var rest := Join(tail);
      assert Dot !in head;
      assert forall k :: 0 <= k < |tail| ==> Dot !in tail[k] by {
        forall k | 0 <= k < |tail| ensures Dot !in tail[k] {
          assert tail[k] == parts[k + 1];
        }
      }
      calc {
        SplitN(Join(parts), n);
        { assert Join(parts) == head + [Dot] + rest; }
        SplitN(head + [Dot] + rest, n);
        { SplitAfter(head, rest, n); }
        [head] + SplitN(rest, n - 1);
        { SplitJoin(tail, n - 1); }
        [head] + tail;
        parts;
      }
    }
  }

  lemma SplitAfter(head: Bytes, rest: Bytes, n: nat)
    requires n >= 2 && Dot !in head
    ensures SplitN(head + [Dot] + rest, n) == [head] + SplitN(rest, n - 1)
  {
    var s := head + [Dot] + rest;
    IndexOfDotAfter(head, rest);
    var i := |head|;
    assert s[..i] == head && s[i + 1..] == rest;
  }

  lemma CountDotsJoin5(a: Bytes, b: Bytes, c: Bytes, d: Bytes, e: Bytes)
    ensures CountDots(Join([a, b, c, d, e])) ==
      CountDots(a) + CountDots(b) + CountDots(c) + CountDots(d) + CountDots(e) + 4
  {
    var dot: Bytes := [Dot];
    assert [d, e][1..] == [e];
    assert Join([d, e]) == d + dot + e;
    assert [c, d, e][1..] == [d, e];
    assert Join([c, d, e]) == c + dot + (d + dot + e);
    assert [b, c, d, e][1..] == [c, d, e];
    assert Join([b, c, d, e]) == b + dot + (c + dot + (d + dot + e));
    assert [a, b, c, d, e][1..] == [b, c, d, e];
    assert Join([a, b, c, d, e]) == a + dot + (b + dot + (c + dot + (d + dot + e)));
    assert CountDots(dot) == 1;
    CountDotsAppend(d + dot, e);
    CountDotsAppend(d, dot);
    CountDotsAppend(c + dot, d + dot + e);
    CountDotsAppend(c, dot);
    CountDotsAppend(b + dot, c + dot + (d + dot + e));
    CountDotsAppend(b, dot);
    CountDotsAppend(a + dot, b + dot + (c + dot + (d + dot + e)));
    CountDotsAppend(a, dot);
  }

  /** Base64url text never holds a '.', which is why the joined token can be split again. */
  lemma EncodedHasNoDot(b: Bytes)
    ensures Dot !in Base64Url.EncodeToString(b)
  {
    var e := Base64Url.EncodeToString(b);
    forall i | 0 <= i < |e| ensures e[i] != Dot {
      assert Base64Url.IsSymbol(e[i]) || e[i] == Base64Url.Pad;
    }
  }

  // ---------------------------------------------------------------- the token

  /** The display name cut to its first 16 bytes; a longer name is cut, never refused. */
  function NamePrefix(name: Bytes): (p: Bytes)
    ensures p <= name
    ensures |p| == if |name| <= NameLen then |name| else NameLen
  {
    if |name| > NameLen then name[..NameLen] else name
  }

  /** The five fields of a token, in token order, before they are joined. */
  function TokenParts(name: Bytes, clientId: Bytes, algText: Bytes, salt: Bytes, password: Bytes): seq<Bytes> {
    [NamePrefix(name), clientId, algText, Base64Url.EncodeToString(salt), Base64Url.EncodeToString(password)]
  }

  /**
   * The token `Generate` returns: base64url text, free of '.', that decodes
   * to the five parts joined with '.'.
   */
  function TokenText(name: Bytes, clientId: Bytes, algText: Bytes, salt: Bytes, password: Bytes): (token: Bytes)
    ensures Base64Url.DecodeString(token) == Base64Url.Decoded(Join(TokenParts(name, clientId, algText, salt, password)), true)
    ensures Dot !in token
  {
    var joined := Join(TokenParts(name, clientId, algText, salt, password));
    Base64Url.DecodeEncode(joined);
    EncodedHasNoDot(joined);
    Base64Url.EncodeToString(joined)
  }

  datatype TokenFields = TokenFields(name: Bytes, clientId: Bytes, alg: Alg, salt: Bytes, password: Bytes)

  datatype DecodeError =
    | BadEncoding               // the token is not base64url
    | WrongPartCount(got: nat)  // "invalid number of '.' seperated parts api key"
    | BadAlg                    // `ParseAlg` rejected the algorithm part
    | BadSalt                   // the salt part is not base64url
    | BadPassword               // the password part is not base64url

  /** The fields `Decode` extracts from a token, or the first check it fails. */
  function DecodeFields(parseAlg: Bytes -> Option<Alg>, token: Bytes): (r: Result<TokenFields, DecodeError>)
    ensures r == Failure(BadEncoding) <==> !Base64Url.DecodeString(token).ok
    ensures r.Success? ==> CountDots(Base64Url.DecodeString(token).bytes) == NumParts - 1
  {
    var outer := Base64Url.DecodeString(token);
    if !outer.ok then Failure(BadEncoding)
    else
      var parts := SplitN(outer.bytes, NumParts + 1);
      SplitNCount(outer.bytes, NumParts + 1);
      if |parts| != NumParts then Failure(WrongPartCount(|parts|))
      else match parseAlg(parts[2])
        case None => Failure(BadAlg)
        case Some(alg) =>
          var salt := Base64Url.DecodeString(parts[3]);
          if !salt.ok then Failure(BadSalt)
          else
            var password := Base64Url.DecodeString(parts[4]);
            if !password.ok then Failure(BadPassword)
            else Success(TokenFields(parts[0], parts[1], alg, salt.bytes, password.bytes))
  }

  /**
   * Once the text splits into five parts, the checks run in order: the
   * algorithm part, then the salt part, then the password part; each
   * failure is reported as such.
   */
  lemma DecodeFieldsRejections(parseAlg: Bytes -> Option<Alg>, token: Bytes)
    requires Base64Url.DecodeString(token).ok
    ensures var outer := Base64Url.DecodeString(token);
      var parts := SplitN(outer.bytes, NumParts + 1);
        && (|parts| != NumParts <==> DecodeFields(parseAlg, token) == Failure(WrongPartCount(|parts|)))
        && (|parts| == NumParts ==>
          && (DecodeFields(parseAlg, token) == Failure(BadAlg) <==> parseAlg(parts[2]).None?)
          && (DecodeFields(parseAlg, token) == Failure(BadSalt) <==> parseAlg(parts[2]).Some? && !Base64Url.DecodeString(parts[3]).ok)
          && (DecodeFields(parseAlg, token) == Failure(BadPassword) <==>
                parseAlg(parts[2]).Some? && Base64Url.DecodeString(parts[3]).ok && !Base64Url.DecodeString(parts[4]).ok))
  {
    var outer := Base64Url.DecodeString(token);
    SplitNCount(outer.bytes, NumParts + 1);
  }

  /**
   * What a success means for any token: its text is the '.'-join of five
   * parts, the first four free of '.', whose first two are the name and
   * client id, whose third `ParseAlg` reads as the algorithm, and whose last
   * two are the base64url of the salt and password.
   */
  lemma DecodedFieldsShape(parseAlg: Bytes -> Option<Alg>, token: Bytes)
    requires DecodeFields(parseAlg, token).Success?
    ensures var f := DecodeFields(parseAlg, token).value;
      var outer := Base64Url.DecodeString(token);
      var parts := SplitN(outer.bytes, NumParts + 1);
      && outer.ok
      && |parts| == NumParts
      && outer.bytes == Join([f.name, f.clientId, parts[2], parts[3], parts[4]])
      && (forall k :: 0 <= k < NumParts - 1 ==> Dot !in parts[k])
      && parseAlg(parts[2]) == Some(f.alg)
      && Base64Url.DecodeString(parts[3]) == Base64Url.Decoded(f.salt, true)
      && Base64Url.DecodeString(parts[4]) == Base64Url.Decoded(f.password, true)
  {
    var outer := Base64Url.DecodeString(token);
    var parts := SplitN(outer.bytes, NumParts + 1);
    var f := DecodeFields(parseAlg, token).value;
    DecodedFieldsAreParts(parseAlg, token);
    JoinSplitN(outer.bytes, NumParts + 1);
    FiveParts(parts, f.name, f.clientId);
  }

  lemma FiveParts(parts: seq<Bytes>, name: Bytes, clientId: Bytes)
    requires |parts| == NumParts && parts[0] == name && parts[1] == clientId
    ensures parts == [name, clientId, parts[2], parts[3], parts[4]]
  {
  }

  /** The fields of a successful decoding are read off the five parts of the text. */
  lemma DecodedFieldsAreParts(parseAlg: Bytes -> Option<Alg>, token: Bytes)
    requires DecodeFields(parseAlg, token).Success?
    ensures var f := DecodeFields(parseAlg, token).value;
      var outer := Base64Url.DecodeString(token);
      var parts := SplitN(outer.bytes, NumParts + 1);
      && outer.ok && |parts| == NumParts
      && f.name == parts[0] && f.clientId == parts[1]
      && parseAlg(parts[2]) == Some(f.alg)
      && Base64Url.DecodeString(parts[3]) == Base64Url.Decoded(f.salt, true)
      && Base64Url.DecodeString(parts[4]) == Base64Url.Decoded(f.password, true)
  {
  }

  /** A token whose text does not hold exactly four '.' is refused for its part count. */
  lemma WrongDotCountRejected(parseAlg: Bytes -> Option<Alg>, token: Bytes)
    requires Base64Url.DecodeString(token).ok
    requires CountDots(Base64Url.DecodeString(token).bytes) != NumParts - 1
    ensures var dots := CountDots(Base64Url.DecodeString(token).bytes);
      DecodeFields(parseAlg, token) == Failure(WrongPartCount(if dots < NumParts then dots + 1 else NumParts + 1))
  {
    var text := Base64Url.DecodeString(token).bytes;
    var parts := SplitN(text, NumParts + 1);
    SplitNCount(text, NumParts + 1);
    assert |parts| != NumParts;
  }

  /**
   * Round trip: when the name prefix, client id and algorithm string hold no
   * '.', decoding a generated token gives back the prefix, the client id, the
   * algorithm `ParseAlg` makes of the algorithm string, the salt and the
   * password; if `ParseAlg` refuses that string, decoding fails on it.
   */
  lemma DecodeTokenText(parseAlg: Bytes -> Option<Alg>, name: Bytes, clientId: Bytes, algText: Bytes, salt: Bytes, password: Bytes)
    requires Dot !in NamePrefix(name) && Dot !in clientId && Dot !in algText
    ensures DecodeFields(parseAlg, TokenText(name, clientId, algText, salt, password)) ==
      match parseAlg(algText)
      case None => Failure(BadAlg)
      case Some(alg) => Success(TokenFields(NamePrefix(name), clientId, alg, salt, password))
  {
    var parts := TokenParts(name, clientId, algText, salt, password);
    EncodedHasNoDot(salt);
    EncodedHasNoDot(password);
    Base64Url.DecodeEncode(Join(parts));
    SplitJoin(parts, NumParts + 1);
    Base64Url.DecodeEncode(salt);
    Base64Url.DecodeEncode(password);
  }

  /** A '.' in the name prefix, the client id or the algorithm string makes the token undecodable. */
  lemma DottedFieldSpoilsToken(parseAlg: Bytes -> Option<Alg>, name: Bytes, clientId: Bytes, algText: Bytes, salt: Bytes, password: Bytes)
    requires Dot in NamePrefix(name) || Dot in clientId || Dot in algText
    ensures DecodeFields(parseAlg, TokenText(name, clientId, algText, salt, password)) == Failure(WrongPartCount(NumParts + 1))
  {
    var parts := TokenParts(name, clientId, algText, salt, password);
    Base64Url.DecodeEncode(Join(parts));
    CountDotsJoin5(parts[0], parts[1], parts[2], parts[3], parts[4]);
    CountDotsNone(parts[0]);
    CountDotsNone(parts[1]);
    CountDotsNone(parts[2]);
    WrongDotCountRejected(parseAlg, TokenText(name, clientId, algText, salt, password));
  }
}
