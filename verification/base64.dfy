/**
 * The browser's `btoa` and `atob`: base64 with the standard alphabet and
 * padding of section 4 of RFC 4648 on the encoding side, and the
 * "forgiving-base64 decode" of the WHATWG Infra standard (section 4.5) on the
 * decoding side, which skips ASCII white space, accepts missing padding and
 * discards the trailing bits of a final partial group.
 */
module Base64 {
  import opened Text
  import opened Optional
  import Lists

  /** A byte, the unit `btoa` encodes (a code unit at most 0xFF). */
  type Byte = x: int | 0 <= x < 0x100

  /** A 6-bit group, the value of one base64 character. */
  type Sextet = x: int | 0 <= x < 64

  /** The padding character '='. */
  const Pad: CodeUnit := 0x3D

  /** The character for value `v` (Table 1 of RFC 4648: A-Z, a-z, 0-9, '+', '/'). */
  function Letter(v: Sextet): CodeUnit {
    if v < 26 then 0x41 + v
    else if v < 52 then 0x61 + (v - 26)
    else if v < 62 then 0x30 + (v - 52)
    else if v == 62 then 0x2B
    else 0x2F
  }

  /** The value of an alphabet character; `None` for every other code unit. */
  function ValueOf(c: CodeUnit): (r: Option<Sextet>)
    ensures r.Some? ==> Letter(r.value) == c
    ensures r.None? ==> forall v: Sextet :: Letter(v) != c
  {
    if 0x41 <= c <= 0x5A then Some(c - 0x41)
    else if 0x61 <= c <= 0x7A then Some(c - 0x61 + 26)
    else if 0x30 <= c <= 0x39 then Some(c - 0x30 + 52)
    else if c == 0x2B then Some(62)
    else if c == 0x2F then Some(63)
    else None
  }

  predicate IsLetter(c: CodeUnit) {
    ValueOf(c).Some?
  }

  /** Every value has exactly one character, and decoding it gives the value back. */
  lemma LetterRoundTrip(v: Sextet)
    ensures ValueOf(Letter(v)) == Some(v)
    ensures Letter(v) != Pad
  {
  }

  /** The characters of a sequence of values. */
  function Letters(vs: seq<Sextet>): (r: JsString)
    ensures |r| == |vs|
    ensures forall i | 0 <= i < |vs| :: r[i] == Letter(vs[i])
  {
    seq(|vs|, i requires 0 <= i < |vs| => Letter(vs[i]))
  }

  /**
   * The 6-bit groups of `b`, three bytes to four groups; a final group of one
   * byte gives two values and one of two bytes gives three, zero-filled.
   */
  function Sextets(b: seq<Byte>): seq<Sextet> {
    if |b| == 0 then []
    else if |b| == 1 then [b[0] / 4, (b[0] % 4) * 16]
    else if |b| == 2 then [b[0] / 4, (b[0] % 4) * 16 + b[1] / 16, (b[1] % 16) * 4]
    else [b[0] / 4, (b[0] % 4) * 16 + b[1] / 16, (b[1] % 16) * 4 + b[2] / 64, b[2] % 64]
         + Sextets(b[3..])
  }

  /**
   * Four values for every full group of three bytes, and two or three for a
   * final group of one or two; never one left over.
   */
  lemma {:induction false} SextetsLength(b: seq<Byte>)
    ensures |Sextets(b)| == 4 * (|b| / 3) + (if |b| % 3 == 0 then 0 else |b| % 3 + 1)
    ensures |Sextets(b)| % 4 != 1
    decreases |b|
  {
    if |b| >= 3 {
      SextetsLength(b[3..]);
      assert |b[3..]| / 3 == |b| / 3 - 1 && |b[3..]| % 3 == |b| % 3;
    }
  }

  /** The '=' characters that complete the last group of four. */
  function Padding(n: nat): JsString {
    if n % 3 == 1 then [Pad, Pad] else if n % 3 == 2 then [Pad] else []
  }

  /** The base64 text of `b` (what `btoa` returns for a Latin-1 string). */
  function Encode(b: seq<Byte>): JsString {
    Letters(Sextets(b)) + Padding(|b|)
  }

  /** Length law: four characters for every started group of three bytes. */
  lemma EncodeLength(b: seq<Byte>)
    ensures |Encode(b)| == 4 * ((|b| + 2) / 3)
    ensures |Encode(b)| % 4 == 0
  {
    SextetsLength(b);
    var n, q := |b|, |b| / 3;
    assert |Encode(b)| == |Sextets(b)| + |Padding(n)|;
    if n % 3 == 0 {
      assert (n + 2) / 3 == q;
    } else {
      assert (n + 2) / 3 == q + 1;
    }
  }

  /** The whitespace that forgiving-base64 decode skips: TAB, LF, FF, CR and SPACE. */
  predicate IsAsciiWhiteSpace(c: CodeUnit) {
    c == 0x09 || c == 0x0A || c == 0x0C || c == 0x0D || c == 0x20
  }

  function StripAsciiWhiteSpace(s: JsString): JsString {
    Lists.Filter(s, (c: CodeUnit) => !IsAsciiWhiteSpace(c))
  }

  /** When the length is a multiple of four, one or two final '=' are dropped. */
  function StripPadding(t: JsString): JsString {
    if |t| % 4 == 0 && |t| >= 2 && t[|t| - 1] == Pad && t[|t| - 2] == Pad then t[..|t| - 2]
    else if |t| % 4 == 0 && |t| >= 1 && t[|t| - 1] == Pad then t[..|t| - 1]
    else t
  }

  /** The values of a string made only of alphabet characters. */
  function Values(t: JsString): (r: seq<Sextet>)
    requires forall i | 0 <= i < |t| :: IsLetter(t[i])
    ensures |r| == |t|
  {
    seq(|t|, i requires 0 <= i < |t| && IsLetter(t[i]) => ValueOf(t[i]).value)
  }

  /** The first byte of a group: all six bits of `a` and the top two of `b`. */
  function First(a: Sextet, b: Sextet): Byte {
    a * 4 + b / 16
  }

  /** The second byte of a group: the low four bits of `b` and the top four of `c`. */
  function Second(b: Sextet, c: Sextet): Byte {
    (b % 16) * 16 + c / 4
  }

  /** The third byte of a group: the low two bits of `c` and all six of `d`. */
  function Third(c: Sextet, d: Sextet): Byte {
    (c % 4) * 64 + d
  }

  /** The bytes of a sequence of values, four values to three bytes; leftover bits are dropped. */
  function Bytes(v: seq<Sextet>): seq<Byte>
    requires |v| % 4 != 1
  {
    if |v| < 4 then
      if |v| == 2 then [First(v[0], v[1])]
      else if |v| == 3 then [First(v[0], v[1]), Second(v[1], v[2])]
      else []
    else
      assert |v[4..]| % 4 == |v| % 4;
      [First(v[0], v[1]), Second(v[1], v[2]), Third(v[2], v[3])] + Bytes(v[4..])
  }

  /**
   * `atob(s)`: the decoded bytes, or `None` where `atob` throws an
   * InvalidCharacterError.
   */
  function Decode(s: JsString): Option<seq<Byte>> {
    var t := StripPadding(StripAsciiWhiteSpace(s));
    if |t| % 4 == 1 then None
    else if exists i | 0 <= i < |t| :: !IsLetter(t[i]) then None
    else Some(Bytes(Values(t)))
  }

  /** The bytes of one group come back out of its values. */
  lemma GroupBytes(x: Byte, y: Byte, z: Byte)
    ensures First(x / 4, (x % 4) * 16 + y / 16) == x
    ensures Second((x % 4) * 16 + y / 16, (y % 16) * 4 + z / 64) == y
    ensures Third((y % 16) * 4 + z / 64, z % 64) == z
  {
  }

  /** Decoding peels off one group of four values at a time. */
  lemma BytesStep(v: seq<Sextet>)
    requires |v| % 4 != 1 && |v| >= 4
    ensures Bytes(v) == [First(v[0], v[1]), Second(v[1], v[2]), Third(v[2], v[3])] + Bytes(v[4..])
  {
  }

  /** A full group decodes to its three bytes, ahead of the rest. */
  lemma GroupRoundTrip(x: Byte, y: Byte, z: Byte, v: seq<Sextet>)
    requires |v| % 4 != 1 && |v| >= 4
    requires v[0] == x / 4 && v[1] == (x % 4) * 16 + y / 16 && v[2] == (y % 16) * 4 + z / 64 && v[3] == z % 64
    ensures Bytes(v) == [x, y, z] + Bytes(v[4..])
  {
    BytesStep(v);
    GroupBytes(x, y, z);
  }

  /** A final group of one byte decodes to that byte. */
  lemma OneByteGroup(x: Byte, v: seq<Sextet>)
    requires |v| == 2 && v[0] == x / 4 && v[1] == (x % 4) * 16
    ensures Bytes(v) == [x]
  {
    GroupBytes(x, 0, 0);
  }

  /** A final group of two bytes decodes to those bytes. */
  lemma TwoByteGroup(x: Byte, y: Byte, v: seq<Sextet>)
    requires |v| == 3 && v[0] == x / 4 && v[1] == (x % 4) * 16 + y / 16 && v[2] == (y % 16) * 4
    ensures Bytes(v) == [x, y]
  {
    GroupBytes(x, y, 0);
  }

  /** Decoding the groups of `b` gives `b` back. */
  lemma {:induction false} BytesOfSextets(b: seq<Byte>)
    ensures |Sextets(b)| % 4 != 1
    ensures Bytes(Sextets(b)) == b
    decreases |b|
  {
    SextetsLength(b);
    if |b| >= 3 {
      var v, tail := Sextets(b), Sextets(b[3..]);
      BytesOfSextets(b[3..]);
      assert v[4..] == tail;
      GroupRoundTrip(b[0], b[1], b[2], v);
      assert b == [b[0], b[1], b[2]] + b[3..];
    } else if |b| == 2 {
      TwoByteGroup(b[0], b[1], Sextets(b));
    } else if |b| == 1 {
      OneByteGroup(b[0], Sextets(b));
    }
  }

  /** The encoding contains no white space, so the first decoding step keeps it whole. */
  lemma EncodeHasNoWhiteSpace(b: seq<Byte>)
    ensures StripAsciiWhiteSpace(Encode(b)) == Encode(b)
  {
    var e := Encode(b);
    forall c | c in e
      ensures !IsAsciiWhiteSpace(c)
    {
      var i :| 0 <= i < |e| && e[i] == c;
      if i < |Sextets(b)| {
        LetterRoundTrip(Sextets(b)[i]);
      }
    }
    Lists.FilterKeepsAll(e, (c: CodeUnit) => !IsAsciiWhiteSpace(c));
  }

  /** The second decoding step removes exactly the padding that encoding added. */
  lemma EncodePaddingStripped(b: seq<Byte>)
    ensures StripPadding(Encode(b)) == Letters(Sextets(b))
  {
    var v := Sextets(b);
    var body := Letters(v);
    var e := Encode(b);
    EncodeLength(b);
    SextetsLength(b);
    assert e == body + Padding(|b|);
    if |b| % 3 == 1 {
      assert |e| % 4 == 0 && e[|e| - 1] == Pad && e[|e| - 2] == Pad;
      assert e[..|e| - 2] == body;
    } else if |b| % 3 == 2 {
      LetterRoundTrip(v[|v| - 1]);
      assert |e| % 4 == 0 && e[|e| - 1] == Pad && e[|e| - 2] != Pad;
      assert e[..|e| - 1] == body;
    } else if |v| > 0 {
      LetterRoundTrip(v[|v| - 1]);
      assert e == body && e[|e| - 1] != Pad;
    }
  }

  /** Round trip: `atob(btoa(x))` is `x` for every byte string `x`. */
  lemma DecodeEncode(b: seq<Byte>)
    ensures Decode(Encode(b)) == Some(b)
  {
    EncodeHasNoWhiteSpace(b);
    EncodePaddingStripped(b);
    var v := Sextets(b);
    var t := Letters(v);
    forall i | 0 <= i < |t|
      ensures IsLetter(t[i]) && ValueOf(t[i]).value == v[i]
    {
      LetterRoundTrip(v[i]);
    }
    assert Values(t) == v;
    BytesOfSextets(b);
  }

  /**
   * `atob` throws whenever its argument holds a code unit that is neither an
   * alphabet character, nor '=', nor ASCII white space.
   */
  lemma DecodeRejectsForeignUnit(s: JsString, i: int)
    requires 0 <= i < |s|
    requires !IsLetter(s[i]) && s[i] != Pad && !IsAsciiWhiteSpace(s[i])
    ensures Decode(s) == None
  {
    var c := s[i];
    var w := StripAsciiWhiteSpace(s);
    assert c in w;
    var t := StripPadding(w);
    var j :| 0 <= j < |w| && w[j] == c;
    if t != w {
      assert j < |t| && t[j] == c;
    }
    assert !IsLetter(t[j]);
  }

  /** Input without ASCII white space is exactly what the white-space strip returns. */
  lemma NoWhiteSpaceKept(s: JsString)
    requires forall i | 0 <= i < |s| :: !IsAsciiWhiteSpace(s[i])
    ensures StripAsciiWhiteSpace(s) == s
  {
    Lists.FilterKeepsAll(s, (c: CodeUnit) => !IsAsciiWhiteSpace(c));
  }

  /**
   * `atob` throws on input of length 1 modulo 4 (after skipping white space):
   * no padding is stripped from it, and one leftover character holds too few
   * bits for a byte.
   */
  lemma DecodeRejectsLengthOneModFour(s: JsString)
    requires forall i | 0 <= i < |s| :: !IsAsciiWhiteSpace(s[i])
    requires |s| % 4 == 1
    ensures Decode(s) == None
  {
    NoWhiteSpaceKept(s);
  }

  /**
   * `atob` throws on an '=' that is not final padding: one followed by two
   * more units, one in input whose length is not a multiple of four, or the
   * next-to-last unit when the last one is not '='.
   */
  lemma DecodeRejectsMisplacedPad(s: JsString, i: int)
    requires forall k | 0 <= k < |s| :: !IsAsciiWhiteSpace(s[k])
    requires 0 <= i < |s| && s[i] == Pad
    requires i + 2 < |s| || |s| % 4 != 0 || (i + 2 == |s| && s[|s| - 1] != Pad)
    ensures Decode(s) == None
  {
    NoWhiteSpaceKept(s);
    var t := StripPadding(s);
    assert i < |t| && t[i] == Pad;
    assert !IsLetter(t[i]);
  }
}
