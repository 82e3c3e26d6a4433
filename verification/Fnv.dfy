/** src/pwa/serviceWorkerSource.ts, digest: FNV-1a over a string's 16-bit code units, as eight hex digits. */
module Fnv {
  import opened Strings

  const WORDS: nat := 0x1_0000_0000

  type Word = x: int | 0 <= x < 0x1_0000_0000

  const OFFSET: Word := 0x811c_9dc5

  const PRIME: nat := 0x0100_0193

  /** The prime's inverse modulo 2^32. */
  const INVERSE: nat := 0x359c_449b

  /** Exclusive or, bit by bit. */
  function Xor(a: nat, b: nat): nat {
    if a == 0 && b == 0 then 0 else (a + b) % 2 + 2 * Xor(a / 2, b / 2)
  }

  /** `Math.imul(x, y) >>> 0`. */
  function Times(x: nat, y: nat): Word { x * y % WORDS }

  function Step(hash: Word, unit: CodeUnit): Word { Times(Xor(hash, unit), PRIME) }

  function From(hash: Word, text: Text): Word {
    if text == [] then hash else Step(From(hash, text[..|text| - 1]), text[|text| - 1])
  }

  function Digit(d: nat): char
    requires d < 16
  {
    if d < 10 then '0' + d as char else 'a' + (d - 10) as char
  }

  /** `n.toString(16)`. */
  function Hex(n: nat): string {
    if n < 16 then [Digit(n)] else Hex(n / 16) + [Digit(n % 16)]
  }

  function Zeros(n: nat): string { if n == 0 then "" else Zeros(n - 1) + "0" }

  /** `s.padStart(width, "0")`. */
  function PadStart(s: string, width: nat): string {
    if |s| >= width then s else Zeros(width - |s|) + s
  }

  function Tag(text: Text): string { PadStart(Hex(From(OFFSET, text)), 8) }

  // --- A step loses nothing ---

  function Power(base: nat, k: nat): nat { if k == 0 then 1 else base * Power(base, k - 1) }

  lemma {:induction false} XorFits(a: nat, b: nat, k: nat)
    requires a < Power(2, k) && b < Power(2, k)
    ensures Xor(a, b) < Power(2, k)
  {
    if k > 0 && (a > 0 || b > 0) {
      XorFits(a / 2, b / 2, k - 1);
    }
  }

  lemma Halves(bit: nat, rest: nat)
    requires bit < 2
    ensures (bit + 2 * rest) % 2 == bit && (bit + 2 * rest) / 2 == rest
  {
  }

  lemma XorParts(a: nat, b: nat)
    ensures Xor(a, b) % 2 == (a + b) % 2 && Xor(a, b) / 2 == Xor(a / 2, b / 2)
  {
    Halves((a + b) % 2, Xor(a / 2, b / 2));
  }

  lemma LastBit(a: nat, b: nat, x: nat)
    requires x % 2 == (a + b) % 2
    ensures (x + b) % 2 == a % 2
  {
  }

  lemma {:induction false} XorTwice(a: nat, b: nat)
    ensures Xor(Xor(a, b), b) == a
    decreases a + b
  {
    var x := Xor(a, b);
    if a > 0 || b > 0 {
      XorTwice(a / 2, b / 2);
      XorParts(a, b);
      LastBit(a, b, x);
      XorParts(x, b);
    }
  }

  lemma XorFitsWord(hash: Word, unit: CodeUnit)
    ensures 0 <= Xor(hash, unit) < WORDS
  {
    assert Power(2, 8) == 256;
    assert Power(2, 16) == 0x1_0000;
    assert Power(2, 24) == 0x100_0000;
    assert Power(2, 32) == WORDS;
    XorFits(hash, unit, 32);
  }

  lemma Remainder(x: int, times: int, r: Word)
    requires x == r + WORDS * times
    ensures x % WORDS == r
  {
  }

  lemma Undone(x: Word, r: int, t: int)
    requires x * PRIME == WORDS * t + r
    ensures r * INVERSE == x + WORDS * (x * 3513497 - t * INVERSE)
  {
  }

  lemma InverseUndoesPrime(x: Word)
    ensures Times(Times(x, PRIME), INVERSE) == x
  {
    var t, r := x * PRIME / WORDS, Times(x, PRIME);
    Undone(x, r, t);
    Remainder(r * INVERSE, x * 3513497 - t * INVERSE, x);
  }

  lemma UndoneBack(x: Word, r: int, t: int)
    requires x * INVERSE == WORDS * t + r
    ensures r * PRIME == x + WORDS * (x * 3513497 - t * PRIME)
  {
  }

  lemma PrimeUndoesInverse(x: Word)
    ensures Times(Times(x, INVERSE), PRIME) == x
  {
    var t, r := x * INVERSE / WORDS, Times(x, INVERSE);
    UndoneBack(x, r, t);
    Remainder(r * PRIME, x * 3513497 - t * PRIME, x);
  }

  /** The state before a step, from the state after it. */
  function Back(hash: Word, unit: CodeUnit): Word {
    XorFitsWord(Times(hash, INVERSE), unit);
    Xor(Times(hash, INVERSE), unit)
  }

  /** For each code unit, a step is a bijection on 32-bit states. */
  lemma StepIsABijection(hash: Word, unit: CodeUnit)
    ensures Back(Step(hash, unit), unit) == hash
    ensures Step(Back(hash, unit), unit) == hash
  {
    XorFitsWord(hash, unit);
    InverseUndoesPrime(Xor(hash, unit));
    XorTwice(hash, unit);
    PrimeUndoesInverse(hash);
    XorTwice(Times(hash, INVERSE), unit);
  }

  lemma {:induction false} XorCommutes(a: nat, b: nat)
    ensures Xor(a, b) == Xor(b, a)
  {
    if a > 0 || b > 0 { XorCommutes(a / 2, b / 2); }
  }

  lemma StepTellsUnitsApart(hash: Word, a: CodeUnit, b: CodeUnit)
    requires Step(hash, a) == Step(hash, b)
    ensures a == b
  {
    XorFitsWord(hash, a);
    XorFitsWord(hash, b);
    InverseUndoesPrime(Xor(hash, a));
    InverseUndoesPrime(Xor(hash, b));
    XorCommutes(hash, a);
    XorCommutes(hash, b);
    XorTwice(a, hash);
    XorTwice(b, hash);
  }

  lemma {:induction false} FromParts(hash: Word, a: Text, b: Text)
    ensures From(hash, a + b) == From(From(hash, a), b)
  {
    if b == [] {
      assert a + b == a;
    } else {
      FromParts(hash, a, b[..|b| - 1]);
      assert (a + b)[..|a + b| - 1] == a + b[..|b| - 1];
    }
  }

  /** Two states stay apart over any text they share. */
  lemma {:induction false} StatesStayApart(x: Word, y: Word, text: Text)
    requires From(x, text) == From(y, text)
    ensures x == y
  {
    if text != [] {
      var last := text[|text| - 1];
      StepIsABijection(From(x, text[..|text| - 1]), last);
      StepIsABijection(From(y, text[..|text| - 1]), last);
      StatesStayApart(x, y, text[..|text| - 1]);
    }
  }

  // --- Eight hex digits ---

  function Value(s: string): nat {
    if s == "" then 0 else Value(s[..|s| - 1]) * 16 + DigitValue(s[|s| - 1])
  }

  predicate IsHexDigit(c: char) { '0' <= c <= '9' || 'a' <= c <= 'f' }

  function DigitValue(c: char): nat {
    if '0' <= c <= '9' then c as int - '0' as int else if 'a' <= c <= 'f' then c as int - 'a' as int + 10 else 0
  }

  lemma {:induction false} HexOf(n: nat, k: nat)
    requires n < Power(16, k) && k > 0
    ensures Value(Hex(n)) == n && 0 < |Hex(n)| <= k
    ensures forall c <- Hex(n) :: IsHexDigit(c)
  {
    if n < 16 {
      assert [Digit(n)][..0] == "";
    } else {
      assert k > 1 by { assert Power(16, 1) == 16 * Power(16, 0); }
      HexOf(n / 16, k - 1);
      assert Hex(n)[..|Hex(n)| - 1] == Hex(n / 16);
    }
  }

  lemma {:induction false} ZerosOf(n: nat)
    ensures |Zeros(n)| == n && Value(Zeros(n)) == 0 && forall c <- Zeros(n) :: c == '0'
  {
    if n > 0 {
      ZerosOf(n - 1);
      assert Zeros(n)[..n - 1] == Zeros(n - 1);
    }
  }

  lemma {:induction false} ZerosAddNothing(n: nat, s: string)
    ensures Value(Zeros(n) + s) == Value(s)
  {
    if s == "" {
      ZerosOf(n);
      assert Zeros(n) + s == Zeros(n);
    } else {
      ZerosAddNothing(n, s[..|s| - 1]);
      assert (Zeros(n) + s)[..|Zeros(n) + s| - 1] == Zeros(n) + s[..|s| - 1];
    }
  }

  lemma EightDigits(hash: Word)
    ensures hash < Power(16, 8)
  {
    assert Power(16, 4) == 0x1_0000;
    assert Power(16, 8) == WORDS;
  }

  lemma PaddedHex(n: nat, digits: string)
    requires |digits| <= 8 && Value(digits) == n && forall c <- digits :: IsHexDigit(c)
    ensures |PadStart(digits, 8)| == 8 && Value(PadStart(digits, 8)) == n
    ensures forall c <- PadStart(digits, 8) :: IsHexDigit(c)
  {
    if |digits| < 8 {
      var zeros := Zeros(8 - |digits|);
      ZerosOf(8 - |digits|);
      ZerosAddNothing(8 - |digits|, digits);
      AllHex(zeros, digits);
    }
  }

  lemma AllHex(zeros: string, digits: string)
    requires (forall c <- zeros :: c == '0') && (forall c <- digits :: IsHexDigit(c))
    ensures forall c <- zeros + digits :: IsHexDigit(c)
  {
  }

  /** A tag is exactly eight lower-case hex digits, and they are the hash. */
  lemma TagIsEightHexDigits(text: Text)
    ensures |Tag(text)| == 8 && (forall c <- Tag(text) :: IsHexDigit(c))
    ensures Value(Tag(text)) == From(OFFSET, text)
  {
    var hash := From(OFFSET, text);
    EightDigits(hash);
    HexOf(hash, 8);
    PaddedHex(hash, Hex(hash));
  }

  /** Two texts that differ in one code unit only, wherever it is, have different tags. */
  lemma OneUnitChangesTheTag(before: Text, a: CodeUnit, b: CodeUnit, after: Text)
    requires a != b
    ensures Tag(before + [a] + after) != Tag(before + [b] + after)
  {
    var s, t := before + [a] + after, before + [b] + after;
    if Tag(s) == Tag(t) {
      TagIsEightHexDigits(s);
      TagIsEightHexDigits(t);
      FromParts(OFFSET, before + [a], after);
      FromParts(OFFSET, before + [b], after);
      StatesStayApart(From(OFFSET, before + [a]), From(OFFSET, before + [b]), after);
      assert (before + [a])[..|before|] == before && (before + [b])[..|before|] == before;
      StepTellsUnitsApart(From(OFFSET, before), a, b);
    }
  }

  /** Two texts share a tag exactly when they stand at one state before the last multiplication. */
  lemma TagsMeetExactly(s: Text, a: CodeUnit, t: Text, b: CodeUnit)
    ensures Tag(s + [a]) == Tag(t + [b]) <==> Xor(From(OFFSET, s), a) == Xor(From(OFFSET, t), b)
  {
    assert (s + [a])[..|s|] == s && (t + [b])[..|t|] == t;
    TagIsEightHexDigits(s + [a]);
    TagIsEightHexDigits(t + [b]);
    XorFitsWord(From(OFFSET, s), a);
    XorFitsWord(From(OFFSET, t), b);
    InverseUndoesPrime(Xor(From(OFFSET, s), a));
    InverseUndoesPrime(Xor(From(OFFSET, t), b));
  }

  // --- Two neighbouring units, and no more ---

  lemma {:induction false} XorNothing(a: nat)
    ensures Xor(a, 0) == a
  {
    if a > 0 { XorNothing(a / 2); }
  }

  lemma XorWhole(a: nat, b: nat)
    ensures Xor(a, b) == (a + b) % 2 + 2 * Xor(a / 2, b / 2)
  {
  }

  lemma HalvesOver(m: nat, r: nat, b: nat, x: nat, high: nat, y: nat, low: nat)
    requires x == (2 * m + r + b) % 2 + 2 * high && y == (r + b) % 2 + 2 * low && high == m + low
    ensures x == 2 * m + y
  {
  }

  lemma XorOverHalves(m: nat, r: nat, b: nat)
    requires Xor(m + r / 2, b / 2) == m + Xor(r / 2, b / 2)
    ensures Xor(2 * m + r, b) == 2 * m + Xor(r, b)
  {
    Halved(m, r);
    XorWhole(2 * m + r, b);
    XorWhole(r, b);
    HalvesOver(m, r, b, Xor(2 * m + r, b), Xor(m + r / 2, b / 2), Xor(r, b), Xor(r / 2, b / 2));
  }

  /** q, k bits up. */
  function Shifted(q: nat, k: nat): nat { if k == 0 then q else 2 * Shifted(q, k - 1) }

  /** Bits past the second operand's are left as they are. */
  lemma {:induction false} XorOver(q: nat, r: nat, b: nat, k: nat)
    requires r < Power(2, k) && b < Power(2, k)
    ensures Xor(Shifted(q, k) + r, b) == Shifted(q, k) + Xor(r, b)
  {
    if k == 0 {
      XorNothing(q);
    } else {
      XorOver(q, r / 2, b / 2, k - 1);
      XorOverHalves(Shifted(q, k - 1), r, b);
    }
  }

  lemma {:induction false} ShiftedAdds(q: nat, k: nat, j: nat)
    ensures Shifted(q, k + j) == Shifted(Shifted(q, k), j)
  {
    if j > 0 { ShiftedAdds(q, k, j - 1); }
  }

  lemma ShiftedFour(q: nat)
    ensures Shifted(q, 4) == 16 * q
  {
    assert Shifted(q, 2) == 2 * Shifted(q, 1) == 4 * q;
    assert Shifted(q, 4) == 2 * Shifted(q, 3) == 4 * Shifted(q, 2);
  }

  lemma ShiftedSeven(q: nat)
    ensures Shifted(q, 7) == 128 * q && Shifted(q, 8) == 256 * q
  {
    ShiftedFour(q);
    ShiftedFour(Shifted(q, 4));
    ShiftedAdds(q, 4, 4);
    assert Shifted(q, 8) == 2 * Shifted(q, 7);
  }

  lemma Halved(m: nat, r: nat)
    ensures (2 * m + r) / 2 == m + r / 2
  {
  }

  lemma XorHigh(a: nat, b: nat)
    requires b < 256
    ensures Xor(a, b) / 256 == a / 256
  {
    assert Power(2, 8) == 256;
    ShiftedSeven(a / 256);
    XorOver(a / 256, a % 256, b, 8);
    XorFits(a % 256, b, 8);
  }

  /** Multiplying by the prime spreads a difference in the low byte past it. */
  lemma LowDifferenceSpreads(x: Word, y: Word)
    requires x / 256 == y / 256 && x != y
    ensures Times(x, PRIME) / 256 != Times(y, PRIME) / 256
  {
    var s, t := x * PRIME / WORDS, y * PRIME / WORDS;
    NoSmallMultiple(x - y, s - t, Times(x, PRIME) - Times(y, PRIME));
  }

  lemma NoSmallMultiple(d: int, k: int, e: int)
    requires -256 < d < 256 && d != 0 && d * PRIME == WORDS * k + e
    ensures e <= -256 || e >= 256
  {
  }

  /** Two texts that differ in one unit below 256, or in two neighbouring ones, have different tags. */
  lemma TwoUnitsChangeTheTag(before: Text, a: CodeUnit, b: CodeUnit, c: CodeUnit, d: CodeUnit, after: Text)
    requires a < 256 && b < 256 && c < 256 && d < 256 && (a, b) != (c, d)
    ensures Tag(before + [a, b] + after) != Tag(before + [c, d] + after)
  {
    TagIsEightHexDigits(before + [a, b] + after);
    TagIsEightHexDigits(before + [c, d] + after);
    FromParts(OFFSET, before + [a, b], after);
    FromParts(OFFSET, before + [c, d], after);
    FromParts(OFFSET, before, [a, b]);
    FromParts(OFFSET, before, [c, d]);
    var hash := From(OFFSET, before);
    TwoSteps(hash, a, b);
    TwoSteps(hash, c, d);
    TwoStepsApart(hash, a, b, c, d);
    if From(OFFSET, before + [a, b] + after) == From(OFFSET, before + [c, d] + after) {
      StatesStayApart(Step(Step(hash, a), b), Step(Step(hash, c), d), after);
    }
  }

  lemma TwoSteps(hash: Word, a: CodeUnit, b: CodeUnit)
    ensures From(hash, [a, b]) == Step(Step(hash, a), b)
  {
    assert [a, b][..1] == [a] && [a][..0] == [];
    assert From(hash, [a]) == Step(hash, a);
  }

  lemma TwoStepsApart(hash: Word, a: CodeUnit, b: CodeUnit, c: CodeUnit, d: CodeUnit)
    requires a < 256 && b < 256 && c < 256 && d < 256 && (a, b) != (c, d)
    ensures Step(Step(hash, a), b) != Step(Step(hash, c), d)
  {
    var x, y := Step(hash, a), Step(hash, c);
    if Step(x, b) == Step(y, d) {
      SameBeforeThePrime(x, b, y, d);
      XorHigh(x, b);
      XorHigh(y, d);
      if a == c {
        StepTellsUnitsApart(x, b, d);
      } else {
        XorFitsWord(hash, a);
        XorFitsWord(hash, c);
        XorHigh(hash, a);
        XorHigh(hash, c);
        if Xor(hash, a) == Xor(hash, c) { StepTellsUnitsApart(hash, a, c); }
        LowDifferenceSpreads(Xor(hash, a), Xor(hash, c));
      }
    }
  }

  lemma SameBeforeThePrime(x: Word, a: CodeUnit, y: Word, b: CodeUnit)
    requires Step(x, a) == Step(y, b)
    ensures Xor(x, a) == Xor(y, b)
  {
    XorFitsWord(x, a);
    XorFitsWord(y, b);
    InverseUndoesPrime(Xor(x, a));
    InverseUndoesPrime(Xor(y, b));
  }

  // --- Two texts with one tag ---

  /** The bit p of two numbers below 2p, told apart. */
  function Bit(a: nat, b: nat, p: nat): nat { if (a >= p) != (b >= p) then p else 0 }

  function Off(a: nat, p: nat): nat { if a >= p then a - p else a }

  lemma TopOfHalves(a: nat, b: nat, p: nat, x: nat, high: nat, y: nat, low: nat)
    requires a < 4 * p && b < 4 * p && p > 0
    requires x == (a + b) % 2 + 2 * high && y == (Off(a, 2 * p) + Off(b, 2 * p)) % 2 + 2 * low
    requires high == Bit(a / 2, b / 2, p) + low
    ensures x == Bit(a, b, 2 * p) + y
  {
  }

  lemma OffHalved(a: nat, p: nat)
    ensures Off(a, 2 * p) / 2 == Off(a / 2, p)
  {
  }

  lemma XorBit(a: nat, b: nat)
    requires a < 2 && b < 2
    ensures Xor(a, b) == Bit(a, b, 1)
  {
    XorWhole(a, b);
  }

  lemma XorTopOfHalves(a: nat, b: nat, p: nat)
    requires a < 4 * p && b < 4 * p && p > 0
    requires Xor(a / 2, b / 2) == Bit(a / 2, b / 2, p) + Xor(Off(a / 2, p), Off(b / 2, p))
    ensures Xor(a, b) == Bit(a, b, 2 * p) + Xor(Off(a, 2 * p), Off(b, 2 * p))
  {
    var c, d := Off(a, 2 * p), Off(b, 2 * p);
    XorWhole(a, b);
    XorWhole(c, d);
    OffHalved(a, p);
    OffHalved(b, p);
    TopOfHalves(a, b, p, Xor(a, b), Xor(a / 2, b / 2), Xor(c, d), Xor(c / 2, d / 2));
  }

  /** The top bit apart from the rest. */
  lemma {:induction false} XorTop(a: nat, b: nat, k: nat)
    requires a < 2 * Power(2, k) && b < 2 * Power(2, k)
    ensures Xor(a, b) == Bit(a, b, Power(2, k)) + Xor(Off(a, Power(2, k)), Off(b, Power(2, k)))
  {
    if k == 0 {
      XorBit(a, b);
    } else {
      XorTop(a / 2, b / 2, k - 1);
      XorTopOfHalves(a, b, Power(2, k - 1));
    }
  }

  /** An exclusive or of numbers below 2^k, bit by bit from the top. */
  function Below(a: nat, b: nat, k: nat): nat {
    if k == 0 then 0
    else Bit(a, b, Power(2, k - 1)) + Below(Off(a, Power(2, k - 1)), Off(b, Power(2, k - 1)), k - 1)
  }

  lemma {:induction false} BelowIsXor(a: nat, b: nat, k: nat)
    requires a < Power(2, k) && b < Power(2, k)
    ensures Below(a, b, k) == Xor(a, b)
  {
    if k > 0 {
      XorTop(a, b, k - 1);
      BelowIsXor(Off(a, Power(2, k - 1)), Off(b, Power(2, k - 1)), k - 1);
    }
  }

  lemma BelowNext(a: nat, b: nat, k: nat, p: nat)
    requires p == Power(2, k)
    ensures Below(a, b, k + 1) == Bit(a, b, p) + Below(Off(a, p), Off(b, p), k)
  {
  }

  /** The low seven bits', written out. */
  function SevenBits(a: nat, b: nat): nat {
    Bit(a, b, 64) + Bit(Off(a, 64), Off(b, 64), 32) + FiveBits(Off(Off(a, 64), 32), Off(Off(b, 64), 32))
  }

  function FiveBits(a: nat, b: nat): nat {
    Bit(a, b, 16) + Bit(Off(a, 16), Off(b, 16), 8) + ThreeBits(Off(Off(a, 16), 8), Off(Off(b, 16), 8))
  }

  function ThreeBits(a: nat, b: nat): nat {
    Bit(a, b, 4) + Bit(Off(a, 4), Off(b, 4), 2) + Bit(Off(Off(a, 4), 2), Off(Off(b, 4), 2), 1)
  }

  lemma ThreeBelow(a: nat, b: nat)
    ensures Below(a, b, 3) == ThreeBits(a, b)
  {
    BelowNext(a, b, 2, 4);
    BelowNext(Off(a, 4), Off(b, 4), 1, 2);
    BelowNext(Off(Off(a, 4), 2), Off(Off(b, 4), 2), 0, 1);
  }

  lemma FiveBelow(a: nat, b: nat)
    ensures Below(a, b, 5) == FiveBits(a, b)
  {
    assert Power(2, 3) == 8 && Power(2, 4) == 16;
    BelowNext(a, b, 4, 16);
    BelowNext(Off(a, 16), Off(b, 16), 3, 8);
    ThreeBelow(Off(Off(a, 16), 8), Off(Off(b, 16), 8));
  }

  lemma SevenBelow(a: nat, b: nat)
    ensures Below(a, b, 7) == SevenBits(a, b)
  {
    assert Power(2, 4) == 16;
    assert Power(2, 5) == 32 && Power(2, 6) == 64;
    BelowNext(a, b, 6, 64);
    BelowNext(Off(a, 64), Off(b, 64), 5, 32);
    FiveBelow(Off(Off(a, 64), 32), Off(Off(b, 64), 32));
  }

  /** How one step over an ASCII unit goes: the state's parts, their exclusive or and the product's. */
  datatype Certificate = Certificate(at: nat, unit: nat, high: nat, low: nat, mixed: nat, times: nat, next: nat) {
    predicate Holds() {
      && at < WORDS && next < WORDS && unit < 128 && low < 128
      && at == 128 * high + low && Xor(low, unit) == mixed
      && (128 * high + mixed) * PRIME == WORDS * times + next
    }
  }

  lemma XorByParts(high: nat, low: nat, unit: nat)
    requires low < 128 && unit < 128
    ensures Xor(128 * high + low, unit) == 128 * high + Xor(low, unit)
  {
    SevenIs128();
    ShiftedSeven(high);
    XorOver(high, low, unit, 7);
  }

  lemma Mixes(low: nat, unit: nat, mixed: nat)
    requires low < 128 && unit < 128 && SevenBits(low, unit) == mixed
    ensures Xor(low, unit) == mixed
  {
    SevenIs128();
    BelowIsXor(low, unit, 7);
    SevenBelow(low, unit);
  }

  lemma SevenIs128()
    ensures Power(2, 7) == 128
  {
    assert Power(2, 4) == 16;
  }

  lemma StepIs(c: Certificate)
    requires c.Holds()
    ensures Step(c.at, c.unit) == c.next
  {
    XorByParts(c.high, c.low, c.unit);
    StepFrom(c.at, c.unit, 128 * c.high + c.mixed, c.times, c.next);
  }

  lemma StepFrom(hash: Word, unit: CodeUnit, x: nat, times: nat, next: Word)
    requires Xor(hash, unit) == x && x * PRIME == WORDS * times + next
    ensures Step(hash, unit) == next
  {
    Remainder(x * PRIME, times, next);
  }

  /** The exclusive ors of the certificates below. */
  lemma MixedLed()
    ensures Xor(69, 47) == 106 && Xor(94, 10) == 84 && Xor(60, 47) == 19
  {
    Mixes(69, 47, 106);
    Mixes(94, 10, 84);
    Mixes(60, 47, 19);
  }

  lemma MixedOne()
    ensures Xor(105, 110) == 7 && Xor(5, 116) == 113
  {
    Mixes(105, 110, 7);
    Mixes(5, 116, 113);
  }

  lemma MixedOneLast()
    ensures Xor(99, 122) == 25 && Xor(91, 120) == 35
  {
    Mixes(99, 122, 25);
    Mixes(91, 120, 35);
  }

  lemma MixedOther()
    ensures Xor(105, 48) == 89 && Xor(27, 49) == 42
  {
    Mixes(105, 48, 89);
    Mixes(27, 49, 42);
  }

  lemma MixedOtherLast()
    ensures Xor(30, 99) == 125 && Xor(71, 100) == 35
  {
    Mixes(30, 99, 125);
    Mixes(71, 100, 35);
  }

  /** The path list's beginning: "/", a line end and "/". */
  const LED: Text := [47, 10, 47]

  lemma Led()
    ensures From(OFFSET, LED) == 0xbcefd8e9
  {
    MixedLed();
    StepIs(Certificate(0x85d2393c, 47, 17540210, 60, 19, 8770315, 0xbcefd8e9));
    LedTwo();
    FromParts(OFFSET, [47, 10], [47]);
    assert [47, 10] + [47] == LED && [47][..0] == [];
    assert From(0x85d2393c, [47]) == Step(0x85d2393c, 47);
  }

  lemma LedTwo()
    ensures From(0x811c9dc5, [47, 10]) == 0x85d2393c
  {
    MixedLed();
    StepIs(Certificate(0x811c9dc5, 47, 16922939, 69, 106, 8461673, 0x2a0c975e));
    StepIs(Certificate(0x2a0c975e, 10, 5511470, 94, 84, 2755801, 0x85d2393c));
    TwoSteps(0x811c9dc5, 47, 10);
  }

  lemma FirstTwoOfOne()
    ensures From(0xbcefd8e9, [110, 116]) == 0xf29ecf63
  {
    MixedOne();
    StepIs(Certificate(0xbcefd8e9, 110, 24764337, 105, 7, 12382465, 0xf491dc85));
    StepIs(Certificate(0xf491dc85, 116, 32056249, 5, 113, 16028509, 0xf29ecf63));
    TwoSteps(0xbcefd8e9, 110, 116);
  }

  lemma LastTwoOfOne()
    ensures From(0xf29ecf63, [122, 120]) == 0x4e068319
  {
    MixedOneLast();
    StepIs(Certificate(0xf29ecf63, 122, 31800734, 99, 25, 15900749, 0x0900045b));
    StepIs(Certificate(0x0900045b, 120, 1179656, 91, 35, 589842, 0x4e068319));
    TwoSteps(0xf29ecf63, 122, 120);
  }

  lemma FirstTwoOfOther()
    ensures From(0xbcefd8e9, [48, 49]) == 0xc269729e
  {
    MixedOther();
    StepIs(Certificate(0xbcefd8e9, 48, 24764337, 105, 89, 12382466, 0x46925d9b));
    StepIs(Certificate(0x46925d9b, 49, 9249979, 27, 42, 4625100, 0xc269729e));
    TwoSteps(0xbcefd8e9, 48, 49);
  }

  lemma LastTwoOfOther()
    ensures From(0xc269729e, [99, 100]) == 0x4e068319
  {
    MixedOtherLast();
    StepIs(Certificate(0xc269729e, 99, 25481957, 30, 125, 12741285, 0x09000447));
    StepIs(Certificate(0x09000447, 100, 1179656, 71, 35, 589842, 0x4e068319));
    TwoSteps(0xc269729e, 99, 100);
  }

  /** "ntzx" and "01cd" after it, and whatever follows them: one tag. */
  lemma TagsMeet(after: Text)
    ensures Tag(LED + [110, 116] + [122, 120] + after) == Tag(LED + [48, 49] + [99, 100] + after)
  {
    Led();
    FirstTwoOfOne();
    LastTwoOfOne();
    FirstTwoOfOther();
    LastTwoOfOther();
    Onward(LED, [110, 116], [122, 120], after);
    Onward(LED, [48, 49], [99, 100], after);
  }

  lemma Onward(a: Text, b: Text, c: Text, d: Text)
    ensures From(OFFSET, a + b + c + d) == From(From(From(From(OFFSET, a), b), c), d)
  {
    FromParts(OFFSET, a, b);
    FromParts(OFFSET, a + b, c);
    FromParts(OFFSET, a + b + c, d);
  }

  method Digest(text: Text) returns (tag: string)
    ensures tag == Tag(text)
  {
    var hash := OFFSET;
    for index := 0 to |text|
      invariant hash == From(OFFSET, text[..index])
    {
      assert text[..index + 1][..index] == text[..index];
      XorFitsWord(hash, text[index]);
      hash := Xor(hash, text[index]);
      hash := Times(hash, PRIME);
    }
    assert text[..|text|] == text;
    tag := PadStart(Hex(hash), 8);
  }
}
