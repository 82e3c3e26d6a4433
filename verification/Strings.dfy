/** JavaScript strings: sequences of 16-bit code units, so that lone surrogates exist. */
module Strings {
  type CodeUnit = x: int | 0 <= x < 0x1_0000

  type Text = seq<CodeUnit>

  /** A Dafny literal as code units; used for ASCII literals only. */
  function Ascii(s: string): (t: Text)
    ensures |t| == |s|
    ensures forall u <- t :: u < 128
  {
    seq(|s|, i requires 0 <= i < |s| => s[i] as int % 128)
  }

  /** JavaScript's white space. */
  predicate IsSpace(u: CodeUnit) {
    || 9 <= u <= 13 || u == 32 || u == 0xa0 || u == 0x1680 || 0x2000 <= u <= 0x200a || u == 0x2028 || u == 0x2029
    || u == 0x202f || u == 0x205f || u == 0x3000 || u == 0xfeff
  }

  function Concat(parts: seq<Text>): Text {
    if parts == [] then [] else Concat(parts[..|parts| - 1]) + parts[|parts| - 1]
  }

  /** ASCII capitals made small; every other code unit is left alone. */
  function Folded(t: Text): Text { seq(|t|, i requires 0 <= i < |t| => if 65 <= t[i] <= 90 then t[i] + 32 else t[i]) }
}
