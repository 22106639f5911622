/**
 * Go's `base64.URLEncoding`: the padded URL-safe alphabet of section 5 of
 * RFC 4648, with the leniencies of Go's (non-strict) decoder: CR and LF are
 * skipped anywhere in the input, the unused low bits of a padded group are not
 * checked, and on an error the bytes of the groups decoded so far are returned
 * with the error.
 */
module Base64Url {
  import opened GoBase

  const Pad: byte := 61            // '='
  const LineFeed: byte := 10       // '\n'
  const CarriageReturn: byte := 13 // '\r'

  /** True of the 64 symbols of the alphabet: A-Z, a-z, 0-9, '-' and '_'. */
  predicate IsSymbol(c: byte) {
    65 <= c <= 90 || 97 <= c <= 122 || 48 <= c <= 57 || c == 45 || c == 95
  }

  /** The symbol that stands for the 6-bit value `v`. */
  function Symbol(v: int): (c: byte)
    requires 0 <= v < 64
    ensures IsSymbol(c)
  {
    if v < 26 then 65 + v
    else if v < 52 then 97 + (v - 26)
    else if v < 62 then 48 + (v - 52)
    else if v == 62 then 45
    else 95
  }

  /** The 6-bit value a symbol stands for: the inverse of `Symbol`. */
  function ValueOf(c: byte): (v: int)
    requires IsSymbol(c)
    ensures 0 <= v < 64 && Symbol(v) == c
  {
    if 65 <= c <= 90 then c - 65
    else if 97 <= c <= 122 then c - 97 + 26
    else if 48 <= c <= 57 then c - 48 + 52
    else if c == 45 then 62
    else 63
  }

  lemma ValueOfSymbol(v: int)
    requires 0 <= v < 64
    ensures ValueOf(Symbol(v)) == v
  {
  }

  // ---------------------------------------------------------------- encoding

  // Go assembles a group as `b0<<16 | b1<<8 | b2` and takes 6-bit fields from
  // the top; the functions below spell those shifts out byte by byte.

  /** The four symbols of a complete group of three bytes. */
  function EncodeGroup(b0: byte, b1: byte, b2: byte): Bytes {
    [Symbol(b0 / 4), Symbol(b0 % 4 * 16 + b1 / 16), Symbol(b1 % 16 * 4 + b2 / 64), Symbol(b2 % 64)]
  }

  /** The final group when two bytes remain: three symbols and one pad. */
  function EncodeTail2(b0: byte, b1: byte): Bytes {
    [Symbol(b0 / 4), Symbol(b0 % 4 * 16 + b1 / 16), Symbol(b1 % 16 * 4), Pad]
  }

  /** The final group when one byte remains: two symbols and two pads. */
  function EncodeTail1(b0: byte): Bytes {
    [Symbol(b0 / 4), Symbol(b0 % 4 * 16), Pad, Pad]
  }

  /** `base64.URLEncoding.EncodeToString`. */
  function EncodeToString(src: Bytes): (dst: Bytes)
    ensures |dst| == 4 * ((|src| + 2) / 3)
    ensures forall i :: 0 <= i < |dst| ==> IsSymbol(dst[i]) || dst[i] == Pad
    decreases |src|
  {
    if |src| == 0 then []
    else if |src| == 1 then EncodeTail1(src[0])
    else if |src| == 2 then EncodeTail2(src[0], src[1])
    else EncodeGroup(src[0], src[1], src[2]) + EncodeToString(src[3..])
  }

  // ---------------------------------------------------------------- decoding

  /** What Go's `DecodeString` returns: the bytes decoded and whether no error occurred. */
  datatype Decoded = Decoded(bytes: Bytes, ok: bool)

  /** The input with every CR and LF removed; Go's decoder skips them wherever they stand. */
  function StripNewlines(s: Bytes): (t: Bytes)
    ensures |t| <= |s|
    ensures forall i :: 0 <= i < |t| ==> t[i] != LineFeed && t[i] != CarriageReturn
  {
    if |s| == 0 then []
    else if s[0] == LineFeed || s[0] == CarriageReturn then StripNewlines(s[1..])
    else [s[0]] + StripNewlines(s[1..])
  }

  /** The three bytes of four symbols (the unused bits of a group are not checked). */
  function DecodeGroup(c0: byte, c1: byte, c2: byte, c3: byte): Bytes
    requires IsSymbol(c0) && IsSymbol(c1) && IsSymbol(c2) && IsSymbol(c3)
  {
    var v0, v1, v2, v3 := ValueOf(c0), ValueOf(c1), ValueOf(c2), ValueOf(c3);
    [v0 * 4 + v1 / 16, v1 % 16 * 16 + v2 / 4, v2 % 4 * 64 + v3]
  }

  /** The two bytes of three symbols followed by one pad. */
  function DecodeTail2(c0: byte, c1: byte, c2: byte): Bytes
    requires IsSymbol(c0) && IsSymbol(c1) && IsSymbol(c2)
  {
    var v0, v1, v2 := ValueOf(c0), ValueOf(c1), ValueOf(c2);
    [v0 * 4 + v1 / 16, v1 % 16 * 16 + v2 / 4]
  }

  /** The byte of two symbols followed by two pads. */
  function DecodeTail1(c0: byte, c1: byte): Bytes
    requires IsSymbol(c0) && IsSymbol(c1)
  {
    var v0, v1 := ValueOf(c0), ValueOf(c1);
    [v0 * 4 + v1 / 16]
  }

  /**
   * Go's group-by-group decoding of an input free of CR and LF. A group that
   * is cut short, a symbol outside the alphabet and a pad in the first two
   * places of a group are errors that keep only the groups before; anything
   * after a padded group is an error that keeps the padded group's bytes.
   */
  function DecodeGroups(t: Bytes): (d: Decoded)
    decreases |t|
  {
    if |t| == 0 then Decoded([], true)
    else if |t| < 3 || !IsSymbol(t[0]) || !IsSymbol(t[1]) then Decoded([], false)
    else if t[2] == Pad then
      if |t| < 4 || t[3] != Pad then Decoded([], false)
      else Decoded(DecodeTail1(t[0], t[1]), |t| == 4)
    else if !IsSymbol(t[2]) || |t| < 4 then Decoded([], false)
    else if t[3] == Pad then Decoded(DecodeTail2(t[0], t[1], t[2]), |t| == 4)
    else if !IsSymbol(t[3]) then Decoded([], false)
    else
      var rest := DecodeGroups(t[4..]);
      Decoded(DecodeGroup(t[0], t[1], t[2], t[3]) + rest.bytes, rest.ok)
  }

  /**
   * `base64.URLEncoding.DecodeString`. Only whole four-symbol groups are
   * accepted, and `k` groups decode to between `3k - 2` and `3k` bytes.
   */
  function DecodeString(s: Bytes): (d: Decoded)
    ensures |StripNewlines(s)| % 4 != 0 ==> !d.ok
    ensures d.ok ==> |d.bytes| <= 3 * (|StripNewlines(s)| / 4) < |d.bytes| + 3
  {
    var t := StripNewlines(s);
    DecodeGroupsLength(t);
    DecodeGroups(t)
  }

  /** Accepted input of `k` groups decodes to between `3k - 2` and `3k` bytes. */
  lemma {:induction false} DecodeGroupsLength(t: Bytes)
    ensures |t| % 4 != 0 ==> !DecodeGroups(t).ok
    ensures DecodeGroups(t).ok ==> |DecodeGroups(t).bytes| <= 3 * (|t| / 4) < |DecodeGroups(t).bytes| + 3
    decreases |t|
  {
    if |t| % 4 != 0 {
      DecodeRejectsRaggedLength(t);
    }
    if |t| >= 4 && IsSymbol(t[0]) && IsSymbol(t[1]) && IsSymbol(t[2]) && IsSymbol(t[3]) {
      DecodeGroupsLength(t[4..]);
      assert |t[4..]| / 4 == |t| / 4 - 1;
    }
  }

  // ---------------------------------------------------------------- properties

  /** Splitting `hi * 16 + lo` at 16 gives `hi` and `lo` back. */
  lemma SplitAt16(hi: int, lo: int)
    requires 0 <= hi && 0 <= lo < 16
    ensures (hi * 16 + lo) / 16 == hi && (hi * 16 + lo) % 16 == lo
  {
  }

  /** Splitting `hi * 4 + lo` at 4 gives `hi` and `lo` back. */
  lemma SplitAt4(hi: int, lo: int)
    requires 0 <= hi && 0 <= lo < 4
    ensures (hi * 4 + lo) / 4 == hi && (hi * 4 + lo) % 4 == lo
  {
  }

  lemma EncodeGroupRoundTrip(b0: byte, b1: byte, b2: byte)
    ensures var e := EncodeGroup(b0, b1, b2);
      IsSymbol(e[0]) && IsSymbol(e[1]) && IsSymbol(e[2]) && IsSymbol(e[3]) &&
      DecodeGroup(e[0], e[1], e[2], e[3]) == [b0, b1, b2]
  {
    ValueOfSymbol(b0 / 4);
    ValueOfSymbol(b0 % 4 * 16 + b1 / 16);
    ValueOfSymbol(b1 % 16 * 4 + b2 / 64);
    ValueOfSymbol(b2 % 64);
    SplitAt16(b0 % 4, b1 / 16);
    SplitAt4(b1 % 16, b2 / 64);
  }

  lemma EncodeTail2RoundTrip(b0: byte, b1: byte)
    ensures var e := EncodeTail2(b0, b1);
      IsSymbol(e[0]) && IsSymbol(e[1]) && IsSymbol(e[2]) && e[3] == Pad &&
      DecodeTail2(e[0], e[1], e[2]) == [b0, b1]
  {
    ValueOfSymbol(b0 / 4);
    ValueOfSymbol(b0 % 4 * 16 + b1 / 16);
    ValueOfSymbol(b1 % 16 * 4);
    SplitAt16(b0 % 4, b1 / 16);
    SplitAt4(b1 % 16, 0);
  }

  lemma EncodeTail1RoundTrip(b0: byte)
    ensures var e := EncodeTail1(b0);
      IsSymbol(e[0]) && IsSymbol(e[1]) && e[2] == Pad && e[3] == Pad &&
      DecodeTail1(e[0], e[1]) == [b0]
  {
    ValueOfSymbol(b0 / 4);
    ValueOfSymbol(b0 % 4 * 16);
    SplitAt16(b0 % 4, 0);
  }

  lemma {:induction false} StripNewlinesKeeps(s: Bytes)
    requires forall i :: 0 <= i < |s| ==> s[i] != LineFeed && s[i] != CarriageReturn
    ensures StripNewlines(s) == s
  {
    if |s| > 0 {
      StripNewlinesKeeps(s[1..]);
    }
  }

  lemma {:induction false} DecodeGroupsEncode(src: Bytes)
    ensures DecodeGroups(EncodeToString(src)) == Decoded(src, true)
    decreases |src|
  {
    if |src| == 1 {
      EncodeTail1RoundTrip(src[0]);
    } else if |src| == 2 {
      EncodeTail2RoundTrip(src[0], src[1]);
    } else if |src| >= 3 {
      var e := EncodeGroup(src[0], src[1], src[2]);
      var t := e + EncodeToString(src[3..]);
      EncodeGroupRoundTrip(src[0], src[1], src[2]);
      assert t[..4] == e && t[4..] == EncodeToString(src[3..]);
      DecodeGroupsEncode(src[3..]);
      assert [src[0], src[1], src[2]] + src[3..] == src;
    }
  }

  /** Decoding what was encoded gives back the bytes, without error. */
  lemma DecodeEncode(src: Bytes)
    ensures DecodeString(EncodeToString(src)) == Decoded(src, true)
  {
    var e := EncodeToString(src);
    StripNewlinesKeeps(e);
    DecodeGroupsEncode(src);
  }

  /** Every accepted input is a whole number of four-symbol groups once CR and LF are dropped. */
  lemma {:induction false} DecodeRejectsRaggedLength(t: Bytes)
    requires |t| % 4 != 0
    ensures !DecodeGroups(t).ok
    decreases |t|
  {
    if |t| >= 4 && IsSymbol(t[0]) && IsSymbol(t[1]) && IsSymbol(t[2]) && IsSymbol(t[3]) {
      DecodeRejectsRaggedLength(t[4..]);
    }
  }
}
