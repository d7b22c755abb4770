/**
 * JavaScript strings as the components see them: sequences of UTF-16 code
 * units. `length`, `trim`, `charCodeAt`, `includes` and `Number.toString`
 * are stated over code units, exactly as the language defines them.
 */
module Text {

  /** A UTF-16 code unit, the element of a JavaScript string. */
  type CodeUnit = x: int | 0 <= x < 0x1_0000

  /** A JavaScript string. */
  type JsString = seq<CodeUnit>

  /**
   * The code units of a literal. Literals here lie in the Basic Multilingual
   * Plane, one unit per character; characters beyond it (written as explicit
   * surrogate pairs where needed) would become U+FFFD.
   */
  function Lit(s: string): (r: JsString)
    ensures |r| == |s|
    ensures forall i | 0 <= i < |s| && s[i] as int < 0x1_0000 :: r[i] == s[i] as int
  {
    seq(|s|, i requires 0 <= i < |s| => if s[i] as int < 0x1_0000 then s[i] as int else 0xFFFD)
  }

  /**
   * The code units that `String.prototype.trim` removes: the WhiteSpace and
   * LineTerminator productions of ECMAScript (section 12.2 and 12.3 of ECMA-262).
   */
  predicate IsWhiteSpace(c: CodeUnit) {
    || c == 0x09 || c == 0x0A || c == 0x0B || c == 0x0C || c == 0x0D
    || c == 0x20 || c == 0xA0 || c == 0x1680 || 0x2000 <= c <= 0x200A
    || c == 0x2028 || c == 0x2029 || c == 0x202F || c == 0x205F
    || c == 0x3000 || c == 0xFEFF
  }

  /** How many code units `trim` drops from the start of `s`. */
  function LeadingSpace(s: JsString): (n: nat)
    ensures n <= |s|
    ensures forall i | 0 <= i < n :: IsWhiteSpace(s[i])
    ensures n < |s| ==> !IsWhiteSpace(s[n])
  {
    if s == [] || !IsWhiteSpace(s[0]) then 0 else 1 + LeadingSpace(s[1..])
  }

  /** How many code units `trim` drops from the end of `s`. */
  function TrailingSpace(s: JsString): (n: nat)
    ensures n <= |s|
    ensures forall i | |s| - n <= i < |s| :: IsWhiteSpace(s[i])
    ensures n < |s| ==> !IsWhiteSpace(s[|s| - 1 - n])
  {
    if s == [] || !IsWhiteSpace(s[|s| - 1]) then 0 else 1 + TrailingSpace(s[..|s| - 1])
  }

  /**
   * `s.trim()`. The result is empty exactly when `s` is all white space, and
   * otherwise it is the slice of `s` that starts and ends with a non-space unit.
   */
  function Trim(s: JsString): (r: JsString)
    ensures r == [] <==> forall i | 0 <= i < |s| :: IsWhiteSpace(s[i])
    ensures r != [] ==> !IsWhiteSpace(r[0]) && !IsWhiteSpace(r[|r| - 1])
    ensures r != [] ==> LeadingSpace(s) <= |s| - TrailingSpace(s) && r == s[LeadingSpace(s) .. |s| - TrailingSpace(s)]
    ensures |r| <= |s|
  {
    var a := LeadingSpace(s);
    if a == |s| then [] else s[a .. |s| - TrailingSpace(s)]
  }

  /** `needle` occurs in `hay` starting at index `i`. */
  predicate OccursAt(hay: JsString, needle: JsString, i: int) {
    0 <= i <= |hay| - |needle| && hay[i .. i + |needle|] == needle
  }

  /** `hay.includes(needle)`. */
  predicate Includes(hay: JsString, needle: JsString) {
    exists i | 0 <= i <= |hay| - |needle| :: OccursAt(hay, needle, i)
  }

  /** Every string includes the empty string. */
  lemma IncludesEmpty(hay: JsString)
    ensures Includes(hay, [])
  {
    assert OccursAt(hay, [], 0);
  }

  /** The code unit of the decimal digit `d`. */
  function Digit(d: nat): CodeUnit
    requires d < 10
  {
    0x30 + d
  }

  predicate IsDigit(c: CodeUnit) {
    0x30 <= c <= 0x39
  }

  /** The number a string of decimal digits denotes (most significant first). */
  function DigitsValue(s: JsString): nat
    requires forall i | 0 <= i < |s| :: IsDigit(s[i])
  {
    if s == [] then 0
    else
      assert IsDigit(s[|s| - 1]);
      DigitsValue(s[..|s| - 1]) * 10 + (s[|s| - 1] as int - 0x30)
  }

  /**
   * `n.toString()` for a non-negative integer: the shortest decimal numeral,
   * which denotes `n` and has no leading zero.
   */
  function Decimal(n: nat): (r: JsString)
    ensures 1 <= |r|
    ensures forall i | 0 <= i < |r| :: IsDigit(r[i])
    ensures DigitsValue(r) == n
    ensures |r| > 1 ==> r[0] != 0x30
    ensures n < 10 <==> |r| == 1
    ensures n < 100 <==> |r| <= 2
  {
    if n < 10 then [Digit(n)]
    else
      var p := Decimal(n / 10);
      assert (p + [Digit(n % 10)])[..|p|] == p;
      p + [Digit(n % 10)]
  }

  /** `s.padStart(2, "0")`: left-pads with zeros up to two units and never truncates. */
  function PadStart2(s: JsString): (r: JsString)
    ensures |r| == if |s| < 2 then 2 else |s|
    ensures r[|r| - |s|..] == s
    ensures forall i | 0 <= i < |r| - |s| :: r[i] == 0x30
    decreases 2 - |s|
  {
    if |s| >= 2 then s else PadStart2([0x30] + s)
  }

  /** Leading zeros do not change the value of a numeral. */
  lemma {:induction false} LeadingZeroValue(s: JsString)
    requires forall i | 0 <= i < |s| :: IsDigit(s[i])
    ensures DigitsValue([0x30] + s) == DigitsValue(s)
  {
    if s != [] {
      var init := s[..|s| - 1];
      assert ([0x30] + s)[..|s|] == [0x30] + init;
      LeadingZeroValue(init);
    }
  }

  /** Zero-padding a numeral keeps it a numeral of the same value. */
  lemma {:induction false} PadStart2Value(s: JsString)
    requires forall i | 0 <= i < |s| :: IsDigit(s[i])
    ensures forall i | 0 <= i < |PadStart2(s)| :: IsDigit(PadStart2(s)[i])
    ensures DigitsValue(PadStart2(s)) == DigitsValue(s)
    decreases 2 - |s|
  {
    if |s| < 2 {
      LeadingZeroValue(s);
      PadStart2Value([0x30] + s);
    }
  }
}
