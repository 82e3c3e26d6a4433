/**
 * src/passkey.ts and src/pwa/push.ts: base64url (RFC 4648 section 5) over the browser's `btoa` and
 * `atob`. `btoa` is base64 with padding (section 4); `atob` is the forgiving decoder: it drops ASCII
 * whitespace and one run of padding, and lets go of bits left over at the end.
 */
module Base64url {
  import opened Strings
  import opened Wrappers

  type Byte = x: int | 0 <= x < 256

  type Sextet = x: int | 0 <= x < 64

  // The alphabets' code units past letters and digits, and the padding.
  const PLUS: CodeUnit := 43

  const SOLIDUS: CodeUnit := 47

  const MINUS: CodeUnit := 45

  const UNDERSCORE: CodeUnit := 95

  const EQUALS: CodeUnit := 61

  /** A sextet's code unit, with the two that differ between base64 and base64url as given. */
  function Letter(x: Sextet, plus: CodeUnit, slash: CodeUnit): CodeUnit {
    if x < 26 then 65 + x
    else if x < 52 then 97 + (x - 26)
    else if x < 62 then 48 + (x - 52)
    else if x == 62 then plus
    else slash
  }

  function Value(u: CodeUnit, plus: CodeUnit, slash: CodeUnit): Option<Sextet> {
    if 65 <= u <= 90 then Some(u - 65)
    else if 97 <= u <= 122 then Some(u - 97 + 26)
    else if 48 <= u <= 57 then Some(u - 48 + 52)
    else if u == plus then Some(62)
    else if u == slash then Some(63)
    else None
  }

  function Letters(sextets: seq<Sextet>, plus: CodeUnit, slash: CodeUnit): Text {
    if sextets == [] then [] else [Letter(sextets[0], plus, slash)] + Letters(sextets[1..], plus, slash)
  }

  function Values(s: Text, plus: CodeUnit, slash: CodeUnit): Option<seq<Sextet>> {
    if s == [] then Some([])
    else
      var head, rest := Value(s[0], plus, slash), Values(s[1..], plus, slash);
      if head.Some? && rest.Some? then Some([head.value] + rest.value) else None
  }

  // --- Bits, six and eight at a time ---

  function Sextet1(a: Byte): Sextet { a / 4 }

  function Sextet2(a: Byte, b: Byte): Sextet { a % 4 * 16 + b / 16 }

  function Sextet3(b: Byte, c: Byte): Sextet { b % 16 * 4 + c / 64 }

  function Sextet4(c: Byte): Sextet { c % 64 }

  function Byte1(w: Sextet, x: Sextet): Byte { w * 4 + x / 16 }

  function Byte2(x: Sextet, y: Sextet): Byte { x % 16 * 16 + y / 4 }

  function Byte3(y: Sextet, z: Sextet): Byte { y % 4 * 64 + z }

  function Sextets(bytes: seq<Byte>): seq<Sextet>
    decreases |bytes|
  {
    if bytes == [] then []
    else if |bytes| == 1 then [Sextet1(bytes[0]), Sextet2(bytes[0], 0)]
    else if |bytes| == 2 then [Sextet1(bytes[0]), Sextet2(bytes[0], bytes[1]), Sextet3(bytes[1], 0)]
    else
      [Sextet1(bytes[0]), Sextet2(bytes[0], bytes[1]), Sextet3(bytes[1], bytes[2]), Sextet4(bytes[2])]
      + Sextets(bytes[3..])
  }

  /** Whole bytes only; the bits left over at the end are dropped. */
  function BytesOf(s: seq<Sextet>): seq<Byte>
    decreases |s|
  {
    if |s| < 2 then []
    else if |s| == 2 then [Byte1(s[0], s[1])]
    else if |s| == 3 then [Byte1(s[0], s[1]), Byte2(s[1], s[2])]
    else [Byte1(s[0], s[1]), Byte2(s[1], s[2]), Byte3(s[2], s[3])] + BytesOf(s[4..])
  }

  /** No sextet stands alone at the end, and the bits left over there are zero. */
  predicate WholeBytes(s: seq<Sextet>) {
    && |s| % 4 != 1
    && (|s| % 4 == 2 ==> s[|s| - 1] % 16 == 0)
    && (|s| % 4 == 3 ==> s[|s| - 1] % 4 == 0)
  }

  lemma GroupOfBytes(a: Byte, b: Byte, c: Byte)
    ensures Byte1(Sextet1(a), Sextet2(a, b)) == a
    ensures Byte2(Sextet2(a, b), Sextet3(b, c)) == b
    ensures Byte3(Sextet3(b, c), Sextet4(c)) == c
    ensures Sextet2(a, 0) % 16 == 0 && Sextet3(b, 0) % 4 == 0
  {
  }

  lemma GroupOfSextets(w: Sextet, x: Sextet, y: Sextet, z: Sextet)
    ensures Sextet1(Byte1(w, x)) == w
    ensures Sextet2(Byte1(w, x), Byte2(x, y)) == x
    ensures Sextet3(Byte2(x, y), Byte3(y, z)) == y
    ensures Sextet4(Byte3(y, z)) == z
    ensures x % 16 == 0 ==> Sextet2(Byte1(w, x), 0) == x
    ensures y % 4 == 0 ==> Sextet3(Byte2(x, y), 0) == y
  {
  }

  lemma FirstThree<T>(s: seq<T>)
    requires |s| >= 3
    ensures s == [s[0], s[1], s[2]] + s[3..] && s[..3] == [s[0], s[1], s[2]]
  {
  }

  lemma FirstFour<T>(s: seq<T>)
    requires |s| >= 4
    ensures s == [s[0], s[1], s[2], s[3]] + s[4..] && s[..4] == [s[0], s[1], s[2], s[3]]
  {
  }

  lemma SextetsOfThree(a: Byte, b: Byte, c: Byte, rest: seq<Byte>)
    ensures Sextets([a, b, c] + rest) == [Sextet1(a), Sextet2(a, b), Sextet3(b, c), Sextet4(c)] + Sextets(rest)
  {
    assert ([a, b, c] + rest)[3..] == rest;
  }

  lemma BytesOfFour(w: Sextet, x: Sextet, y: Sextet, z: Sextet, rest: seq<Sextet>)
    ensures BytesOf([w, x, y, z] + rest) == [Byte1(w, x), Byte2(x, y), Byte3(y, z)] + BytesOf(rest)
  {
    assert ([w, x, y, z] + rest)[4..] == rest;
  }

  lemma ThreeBytes(a: Byte, b: Byte, c: Byte, rest: seq<Byte>)
    ensures BytesOf(Sextets([a, b, c] + rest)) == [a, b, c] + BytesOf(Sextets(rest))
  {
    SextetsOfThree(a, b, c, rest);
    BytesOfFour(Sextet1(a), Sextet2(a, b), Sextet3(b, c), Sextet4(c), Sextets(rest));
    GroupOfBytes(a, b, c);
  }

  lemma SextetsStep(bytes: seq<Byte>)
    requires |bytes| >= 3
    ensures |Sextets(bytes)| == 4 + |Sextets(bytes[3..])| && Sextets(bytes)[4..] == Sextets(bytes[3..])
    ensures BytesOf(Sextets(bytes)) == bytes[..3] + BytesOf(Sextets(bytes[3..]))
  {
    FirstThree(bytes);
    SextetsOfThree(bytes[0], bytes[1], bytes[2], bytes[3..]);
    ThreeBytes(bytes[0], bytes[1], bytes[2], bytes[3..]);
  }

  lemma TwoSextets(w: Sextet, x: Sextet)
    ensures BytesOf([w, x]) == [Byte1(w, x)] && (WholeBytes([w, x]) <==> x % 16 == 0)
  {
  }

  lemma ThreeSextets(w: Sextet, x: Sextet, y: Sextet)
    ensures BytesOf([w, x, y]) == [Byte1(w, x), Byte2(x, y)] && (WholeBytes([w, x, y]) <==> y % 4 == 0)
  {
  }

  lemma OneByteSextets(a: Byte)
    ensures Sextets([a]) == [Sextet1(a), Sextet2(a, 0)]
  {
  }

  lemma TwoByteSextets(a: Byte, b: Byte)
    ensures Sextets([a, b]) == [Sextet1(a), Sextet2(a, b), Sextet3(b, 0)]
  {
  }

  lemma OneByte(a: Byte)
    ensures BytesOf(Sextets([a])) == [a] && WholeBytes(Sextets([a]))
  {
    OneByteSextets(a);
    var w, x := Sextet1(a), Sextet2(a, 0);
    assert Byte1(w, x) == a && x % 16 == 0;
    TwoSextets(w, x);
  }

  lemma TwoBytes(a: Byte, b: Byte)
    ensures BytesOf(Sextets([a, b])) == [a, b] && WholeBytes(Sextets([a, b]))
  {
    TwoByteSextets(a, b);
    GroupOfBytes(a, b, 0);
    ThreeSextets(Sextet1(a), Sextet2(a, b), Sextet3(b, 0));
  }

  lemma ShortSextets(bytes: seq<Byte>)
    requires |bytes| < 3
    ensures BytesOf(Sextets(bytes)) == bytes && WholeBytes(Sextets(bytes))
  {
    if |bytes| == 1 {
      ListOfOne(bytes);
      OneByte(bytes[0]);
    } else if |bytes| == 2 {
      ListOfTwo(bytes);
      TwoBytes(bytes[0], bytes[1]);
    }
  }

  lemma ListOfOne<T>(s: seq<T>)
    requires |s| == 1
    ensures s == [s[0]]
  {
  }

  lemma ListOfTwo<T>(s: seq<T>)
    requires |s| == 2
    ensures s == [s[0], s[1]]
  {
  }

  lemma {:induction false} BytesOfSextets(bytes: seq<Byte>)
    ensures BytesOf(Sextets(bytes)) == bytes
    decreases |bytes|
  {
    if |bytes| < 3 {
      ShortSextets(bytes);
    } else {
      SextetsStep(bytes);
      BytesOfSextets(bytes[3..]);
      assert bytes[..3] + bytes[3..] == bytes;
    }
  }

  lemma WholeAfter(s: seq<Sextet>, rest: seq<Sextet>)
    requires |s| == |rest| + 4 && s[4..] == rest && WholeBytes(rest)
    ensures WholeBytes(s)
  {
    assert rest != [] ==> s[|s| - 1] == rest[|rest| - 1];
  }

  lemma {:induction false} SextetsAreWhole(bytes: seq<Byte>)
    ensures WholeBytes(Sextets(bytes))
    decreases |bytes|
  {
    if |bytes| < 3 {
      ShortSextets(bytes);
    } else {
      SextetsStep(bytes);
      SextetsAreWhole(bytes[3..]);
      WholeAfter(Sextets(bytes), Sextets(bytes[3..]));
    }
  }

  lemma {:induction false} SextetsLength(bytes: seq<Byte>)
    ensures |Sextets(bytes)| == (4 * |bytes| + 2) / 3
    decreases |bytes|
  {
    if |bytes| >= 3 {
      SextetsStep(bytes);
      SextetsLength(bytes[3..]);
    }
  }

  lemma ShortBytes(s: seq<Sextet>)
    requires WholeBytes(s) && |s| < 4
    ensures Sextets(BytesOf(s)) == s
  {
    if |s| == 2 {
      assert s == [s[0], s[1]];
      TwoSextets(s[0], s[1]);
      OneByteSextets(Byte1(s[0], s[1]));
      GroupOfSextets(s[0], s[1], 0, 0);
    } else if |s| == 3 {
      assert s == [s[0], s[1], s[2]];
      ThreeSextets(s[0], s[1], s[2]);
      TwoByteSextets(Byte1(s[0], s[1]), Byte2(s[1], s[2]));
      GroupOfSextets(s[0], s[1], s[2], 0);
    }
  }

  lemma FourSextets(w: Sextet, x: Sextet, y: Sextet, z: Sextet, rest: seq<Sextet>)
    ensures Sextets(BytesOf([w, x, y, z] + rest)) == [w, x, y, z] + Sextets(BytesOf(rest))
  {
    BytesOfFour(w, x, y, z, rest);
    SextetsOfThree(Byte1(w, x), Byte2(x, y), Byte3(y, z), BytesOf(rest));
    GroupOfSextets(w, x, y, z);
  }

  lemma BytesStep(s: seq<Sextet>)
    requires |s| >= 4
    ensures Sextets(BytesOf(s)) == s[..4] + Sextets(BytesOf(s[4..]))
  {
    FirstFour(s);
    FourSextets(s[0], s[1], s[2], s[3], s[4..]);
  }

  lemma {:induction false} SextetsOfBytes(s: seq<Sextet>)
    requires WholeBytes(s)
    ensures Sextets(BytesOf(s)) == s
    decreases |s|
  {
    if |s| < 4 {
      ShortBytes(s);
    } else {
      assert |s| > 4 ==> s[|s| - 1] == s[4..][|s| - 5];
      SextetsOfBytes(s[4..]);
      BytesStep(s);
    }
  }

  // --- btoa, atob and the code over them ---

  /** How many units are missing to a multiple of four. */
  function Missing(length: nat): (n: nat)
    ensures n < 4 && (length + n) % 4 == 0
  {
    (4 - length % 4) % 4
  }

  function Equals(n: nat): Text { if n == 0 then [] else Equals(n - 1) + [EQUALS] }

  function Btoa(bytes: seq<Byte>): Text {
    var s := Sextets(bytes);
    Letters(s, PLUS, SOLIDUS) + Equals(Missing(|s|))
  }

  predicate IsAsciiSpace(u: CodeUnit) { u == 32 || u == 9 || u == 10 || u == 13 || u == 12 }

  function WithoutSpaces(s: Text): Text {
    if s == [] then [] else (if IsAsciiSpace(s[0]) then [] else [s[0]]) + WithoutSpaces(s[1..])
  }

  function Unpadded(s: Text): Text {
    if |s| % 4 == 0 && |s| >= 2 && s[|s| - 1] == EQUALS && s[|s| - 2] == EQUALS then s[..|s| - 2]
    else if |s| % 4 == 0 && |s| >= 1 && s[|s| - 1] == EQUALS then s[..|s| - 1]
    else s
  }

  function Atob(s: Text): Result<seq<Byte>> {
    var bare := Unpadded(WithoutSpaces(s));
    var sextets := Values(bare, PLUS, SOLIDUS);
    if |bare| % 4 == 1 || sextets.None? then Err else Ok(BytesOf(sextets.value))
  }

  function Swap(s: Text, from: CodeUnit, to: CodeUnit): Text {
    if s == [] then [] else [if s[0] == from then to else s[0]] + Swap(s[1..], from, to)
  }

  /** `replace(/=+$/, "")`. */
  function TrimPadding(s: Text): Text {
    if s != [] && s[|s| - 1] == EQUALS then TrimPadding(s[..|s| - 1]) else s
  }

  function Encode(bytes: seq<Byte>): Text {
    TrimPadding(Swap(Swap(Btoa(bytes), PLUS, MINUS), SOLIDUS, UNDERSCORE))
  }

  function Padded(s: Text): Text {
    Swap(Swap(s, MINUS, PLUS), UNDERSCORE, SOLIDUS) + Equals(Missing(|s|))
  }

  function Decode(s: Text): Result<seq<Byte>> { Atob(Padded(s)) }

  // --- What they amount to ---

  lemma SwapCons(c: CodeUnit, s: Text, from: CodeUnit, to: CodeUnit)
    ensures Swap([c] + s, from, to) == [if c == from then to else c] + Swap(s, from, to)
  {
    assert ([c] + s)[1..] == s;
  }

  lemma Concatenated(a: Text, b: Text, c: Text)
    ensures a + b + c == a + (b + c)
  {
  }

  lemma {:induction false} SwapParts(a: Text, b: Text, from: CodeUnit, to: CodeUnit)
    ensures Swap(a + b, from, to) == Swap(a, from, to) + Swap(b, from, to)
  {
    if a == [] {
      assert a + b == b;
    } else {
      SwapParts(a[1..], b, from, to);
      Concatenated([a[0]], a[1..], b);
      SwapCons(a[0], a[1..] + b, from, to);
      Concatenated([if a[0] == from then to else a[0]], Swap(a[1..], from, to), Swap(b, from, to));
      assert a == [a[0]] + a[1..];
    }
  }

  lemma {:induction false} SwapEquals(n: nat, from: CodeUnit, to: CodeUnit)
    requires from != EQUALS
    ensures Swap(Equals(n), from, to) == Equals(n) && |Equals(n)| == n
  {
    if n > 0 {
      SwapEquals(n - 1, from, to);
      SwapParts(Equals(n - 1), [EQUALS], from, to);
    }
  }

  lemma {:induction false} SwapLength(s: Text, from: CodeUnit, to: CodeUnit)
    ensures |Swap(s, from, to)| == |s|
  {
    if s != [] { SwapLength(s[1..], from, to); }
  }

  /** Between the two alphabets, one way and back. */
  lemma {:induction false} SwapLetters(s: seq<Sextet>)
    ensures Swap(Swap(Letters(s, PLUS, SOLIDUS), PLUS, MINUS), SOLIDUS, UNDERSCORE) == Letters(s, MINUS, UNDERSCORE)
    ensures Swap(Swap(Letters(s, MINUS, UNDERSCORE), MINUS, PLUS), UNDERSCORE, SOLIDUS) == Letters(s, PLUS, SOLIDUS)
  {
    if s != [] { SwapLetters(s[1..]); }
  }

  lemma {:induction false} LettersOf(s: seq<Sextet>, plus: CodeUnit, slash: CodeUnit)
    requires (plus, slash) in {(PLUS, SOLIDUS), (MINUS, UNDERSCORE)}
    ensures |Letters(s, plus, slash)| == |s|
    ensures Values(Letters(s, plus, slash), plus, slash) == Some(s)
    ensures forall c <- Letters(s, plus, slash) :: c != EQUALS && !IsAsciiSpace(c)
  {
    if s != [] {
      LettersOf(s[1..], plus, slash);
      assert Value(Letter(s[0], plus, slash), plus, slash) == Some(s[0]);
      assert Letters(s, plus, slash)[1..] == Letters(s[1..], plus, slash);
      assert [s[0]] + s[1..] == s;
    }
  }

  lemma {:induction false} ValuesOf(text: Text, plus: CodeUnit, slash: CodeUnit)
    requires Values(text, plus, slash).Some?
    ensures Letters(Values(text, plus, slash).value, plus, slash) == text
    ensures |Values(text, plus, slash).value| == |text|
  {
    if text != [] { ValuesOf(text[1..], plus, slash); }
  }

  lemma {:induction false} TrimEquals(s: Text, n: nat)
    requires s == [] || s[|s| - 1] != EQUALS
    ensures TrimPadding(s + Equals(n)) == s
  {
    if n == 0 {
      assert s + Equals(0) == s;
    } else {
      TrimEquals(s, n - 1);
      assert (s + Equals(n))[..|s + Equals(n)| - 1] == s + Equals(n - 1);
    }
  }

  lemma {:induction false} NothingToDrop(s: Text)
    requires forall c <- s :: !IsAsciiSpace(c)
    ensures WithoutSpaces(s) == s
  {
    if s != [] { NothingToDrop(s[1..]); }
  }

  lemma {:induction false} EqualsAreEquals(n: nat)
    ensures |Equals(n)| == n && forall c <- Equals(n) :: c == EQUALS
  {
    if n > 0 { EqualsAreEquals(n - 1); }
  }

  /** A big-endian number of digits. */
  function Number(digits: seq<int>, base: int): int {
    if digits == [] then 0 else Number(digits[..|digits| - 1], base) * base + digits[|digits| - 1]
  }

  lemma NumberOfThree(a: int, b: int, c: int, base: int)
    ensures Number([a, b, c], base) == (a * base + b) * base + c
  {
    assert [a, b, c][..2] == [a, b] && [a, b][..1] == [a] && [a][..0] == [];
    assert Number([a], base) == a;
    assert Number([a, b], base) == a * base + b;
  }

  lemma NumberOfFour(a: int, b: int, c: int, d: int, base: int)
    ensures Number([a, b, c, d], base) == ((a * base + b) * base + c) * base + d
  {
    NumberOfThree(a, b, c, base);
    assert [a, b, c, d][..3] == [a, b, c];
  }

  /** Three bytes and their four letters' sextets are the same twenty-four bits, the first byte's highest first. */
  lemma SextetsCarryTheBits(a: Byte, b: Byte, c: Byte)
    ensures |Sextets([a, b, c])| == 4
    ensures var s := Sextets([a, b, c]); Number([a, b, c], 256) == Number([s[0], s[1], s[2], s[3]], 64)
  {
    assert [a, b, c][3..] == [];
    NumberOfThree(a, b, c, 256);
    NumberOfFour(Sextet1(a), Sextet2(a, b), Sextet3(b, c), Sextet4(c), 64);
  }

  /** Encoding is the URL-safe letters of the bytes' sextets, and nothing more. */
  lemma EncodeIsLetters(bytes: seq<Byte>)
    ensures Encode(bytes) == Letters(Sextets(bytes), MINUS, UNDERSCORE)
  {
    var s := Sextets(bytes);
    var letters, n := Letters(s, PLUS, SOLIDUS), Missing(|s|);
    SwapParts(letters, Equals(n), PLUS, MINUS);
    SwapEquals(n, PLUS, MINUS);
    SwapParts(Swap(letters, PLUS, MINUS), Equals(n), SOLIDUS, UNDERSCORE);
    SwapEquals(n, SOLIDUS, UNDERSCORE);
    SwapLetters(s);
    LettersOf(s, MINUS, UNDERSCORE);
    assert s != [] ==> Letters(s, MINUS, UNDERSCORE)[|s| - 1] in Letters(s, MINUS, UNDERSCORE);
    TrimEquals(Letters(s, MINUS, UNDERSCORE), n);
  }

  lemma PaddedLetters(s: seq<Sextet>)
    ensures Padded(Letters(s, MINUS, UNDERSCORE)) == Letters(s, PLUS, SOLIDUS) + Equals(Missing(|s|))
  {
    LettersOf(s, MINUS, UNDERSCORE);
    SwapLetters(s);
  }

  lemma NoSpacesInLetters(s: seq<Sextet>, n: nat)
    ensures WithoutSpaces(Letters(s, PLUS, SOLIDUS) + Equals(n)) == Letters(s, PLUS, SOLIDUS) + Equals(n)
  {
    LettersOf(s, PLUS, SOLIDUS);
    EqualsAreEquals(n);
    NothingToDrop(Letters(s, PLUS, SOLIDUS) + Equals(n));
  }

  /** Decoding URL-safe letters: refused where a sextet is left alone, and otherwise their whole bytes. */
  lemma DecodeOfLetters(s: seq<Sextet>)
    ensures Decode(Letters(s, MINUS, UNDERSCORE)) == if |s| % 4 == 1 then Err else Ok(BytesOf(s))
  {
    var n := Missing(|s|);
    PaddedLetters(s);
    NoSpacesInLetters(s, n);
    LettersOf(s, PLUS, SOLIDUS);
    UnpaddedLetters(Letters(s, PLUS, SOLIDUS), n);
    MissingThree(|s|);
  }

  lemma MissingThree(length: nat)
    ensures Missing(length) == 3 <==> length % 4 == 1
  {
  }

  lemma UnpaddedLetters(letters: Text, n: nat)
    requires n == Missing(|letters|) && forall c <- letters :: c != EQUALS
    ensures n < 3 ==> Unpadded(letters + Equals(n)) == letters
    ensures n == 3 ==>
      |Unpadded(letters + Equals(n))| % 4 != 1 && Values(Unpadded(letters + Equals(n)), PLUS, SOLIDUS).None?
  {
    EqualsAreEquals(n);
    var s := letters + Equals(n);
    assert n > 0 ==> s[|s| - 1] == Equals(n)[n - 1];
    assert n > 1 ==> s[|s| - 2] == Equals(n)[n - 2];
    assert letters != [] ==> letters[|letters| - 1] in letters;
    if n == 0 {
      assert s == letters;
    } else if n == 3 {
      assert Unpadded(s) == letters + [EQUALS];
      NoValueOfEquals(letters + [EQUALS]);
    }
  }

  lemma {:induction false} NoValueOfEquals(s: Text)
    requires s != [] && s[|s| - 1] == EQUALS
    ensures Values(s, PLUS, SOLIDUS).None?
  {
    if |s| > 1 { NoValueOfEquals(s[1..]); }
  }

  // --- The codec's promises ---

  /** Decoding what was encoded gives it back; what was encoded is URL-safe and as short as base64 can be. */
  lemma RoundTrip(bytes: seq<Byte>)
    ensures Decode(Encode(bytes)) == Ok(bytes)
    ensures |Encode(bytes)| == (4 * |bytes| + 2) / 3
    ensures forall c <- Encode(bytes) :: Value(c, MINUS, UNDERSCORE).Some? && c != EQUALS && c != PLUS && c != SOLIDUS
  {
    EncodeIsLetters(bytes);
    BytesOfSextets(bytes);
    SextetsAreWhole(bytes);
    SextetsLength(bytes);
    DecodeOfLetters(Sextets(bytes));
    LettersOf(Sextets(bytes), MINUS, UNDERSCORE);
    UrlSafe(Sextets(bytes));
  }

  lemma {:induction false} UrlSafe(s: seq<Sextet>)
    ensures forall c <- Letters(s, MINUS, UNDERSCORE) :: Value(c, MINUS, UNDERSCORE).Some? && c != PLUS && c != SOLIDUS
  {
    if s != [] { UrlSafe(s[1..]); }
  }

  /** The restored padding makes a multiple of four of any text. */
  lemma PaddingCompletes(s: Text)
    ensures |Padded(s)| % 4 == 0
  {
    SwapLength(s, MINUS, PLUS);
    SwapLength(Swap(s, MINUS, PLUS), UNDERSCORE, SOLIDUS);
    EqualsAreEquals(Missing(|s|));
  }

  /** Section 3.5 of RFC 4648: only the URL-safe letters, whole bytes, and no bits set past them. */
  predicate Canonical(s: Text) {
    var sextets := Values(s, MINUS, UNDERSCORE);
    sextets.Some? && WholeBytes(sextets.value)
  }

  /** A text the decoder takes is given back by encoding exactly when it is canonical. */
  lemma ReencodesExactlyCanonical(s: Text)
    requires Decode(s).Ok?
    ensures Encode(Decode(s).value) == s <==> Canonical(s)
  {
    if Canonical(s) {
      var sextets := Values(s, MINUS, UNDERSCORE).value;
      ValuesOf(s, MINUS, UNDERSCORE);
      DecodeOfLetters(sextets);
      EncodeIsLetters(BytesOf(sextets));
      SextetsOfBytes(sextets);
    }
    var bytes := Decode(s).value;
    EncodeIsLetters(bytes);
    SextetsAreWhole(bytes);
    LettersOf(Sextets(bytes), MINUS, UNDERSCORE);
  }

  /** Every canonical text is taken. */
  lemma CanonicalIsTaken(s: Text)
    requires Canonical(s)
    ensures Decode(s).Ok?
  {
    ValuesOf(s, MINUS, UNDERSCORE);
    DecodeOfLetters(Values(s, MINUS, UNDERSCORE).value);
  }

  // --- The two functions of the code ---

  method BufferToBase64url(buffer: array<Byte>) returns (text: Text)
    ensures text == Encode(buffer[..])
  {
    var binary: seq<Byte> := [];
    for i := 0 to buffer.Length
      invariant binary == buffer[..i]
    {
      binary := binary + [buffer[i]];
    }
    assert buffer[..buffer.Length] == buffer[..];
    text := TrimPadding(Swap(Swap(Btoa(binary), PLUS, MINUS), SOLIDUS, UNDERSCORE));
  }

  /** passkey.ts' `base64urlToBuffer` and push.ts' `base64urlBytes`, which are the same code. */
  method Base64urlToBytes(text: Text) returns (decoded: Result<array<Byte>>)
    ensures decoded.Ok? <==> Decode(text).Ok?
    ensures decoded.Ok? ==> fresh(decoded.value) && decoded.value[..] == Decode(text).value
  {
    var binary := Atob(Padded(text));
    if binary.Err? { return Err; }
    var bytes := new Byte[|binary.value|];
    for i := 0 to |binary.value|
      invariant bytes[..i] == binary.value[..i]
    {
      bytes[i] := binary.value[i];
    }
    assert bytes[..] == bytes[..bytes.Length] == binary.value;
    decoded := Ok(bytes);
  }
}
