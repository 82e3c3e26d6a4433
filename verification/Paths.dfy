/** Slash-separated paths, as the storage page's rules take them apart. */
module Paths {
  import opened Strings

  const SLASH: Text := [47]

  /** The folder itself or anything below it. */
  predicate Contains(base: Text, candidate: Text) { candidate == base || base + SLASH <= candidate }

  /** Two folders that contain one path contain one another; of one length, they are one. */
  lemma AncestorsFormAChain(a: Text, b: Text, path: Text)
    requires Contains(a, path) && Contains(b, path)
    ensures |a| <= |b| ==> Contains(a, b)
    ensures |a| == |b| ==> a == b
  {
    assert a <= path && b <= path;
    if |a| < |b| { assert b[|a|] == path[|a|] == 47; assert b[..|a| + 1] == a + SLASH; }
  }

  lemma ContainsChains(a: Text, b: Text, c: Text)
    requires Contains(a, b) && Contains(b, c)
    ensures Contains(a, c)
  {
    if a != b && b != c {
      assert (a + SLASH) <= b <= c;
    }
  }

  /** `t.replace(/\/+$/, "")`. */
  function Stripped(t: Text): Text {
    if t != [] && t[|t| - 1] == 47 then Stripped(t[..|t| - 1]) else t
  }

  /** `t.split("/")`. */
  function Split(t: Text): (parts: seq<Text>)
    ensures parts != []
  {
    if t == [] then [[]]
    else
      var rest := Split(t[1..]);
      if t[0] == 47 then [[]] + rest else Longer(t[0], rest)
  }

  /** A code unit more in front of the first part. */
  function Longer(u: CodeUnit, parts: seq<Text>): (longer: seq<Text>)
    requires parts != []
    ensures |longer| == |parts|
  {
    [[u] + parts[0]] + parts[1..]
  }

  function Slashes(n: nat): Text { if n == 0 then [] else Slashes(n - 1) + SLASH }

  lemma {:induction false} StrippedSlashes(t: Text, n: nat)
    ensures Stripped(t + Slashes(n)) == Stripped(t)
  {
    if n == 0 {
      assert t + Slashes(0) == t;
    } else {
      StrippedSlashes(t, n - 1);
      assert (t + Slashes(n))[..|t + Slashes(n)| - 1] == t + Slashes(n - 1);
    }
  }

  lemma {:induction false} StrippedEnds(t: Text)
    ensures Stripped(t) <= t && (Stripped(t) != [] ==> Stripped(t)[|Stripped(t)| - 1] != 47)
  {
    if t != [] && t[|t| - 1] == 47 { StrippedEnds(t[..|t| - 1]); }
  }

  lemma LongerAround(u: CodeUnit, a: seq<Text>, b: seq<Text>)
    requires a != []
    ensures Longer(u, a + b) == Longer(u, a) + b
  {
    assert (a + b)[1..] == a[1..] + b;
  }

  lemma EmptyAround(a: seq<Text>, b: seq<Text>)
    ensures [[]] + (a + b) == [[]] + a + b
  {
  }

  lemma {:induction false} SplitAround(a: Text, b: Text)
    ensures Split(a + SLASH + b) == Split(a) + Split(b)
  {
    if a == [] {
      assert (a + SLASH + b)[1..] == b;
    } else {
      SplitAround(a[1..], b);
      assert (a + SLASH + b)[1..] == a[1..] + SLASH + b;
      LongerAround(a[0], Split(a[1..]), Split(b));
      EmptyAround(Split(a[1..]), Split(b));
    }
  }

  lemma {:induction false} LastPart(t: Text)
    ensures Split(t)[|Split(t)| - 1] == [] <==> t == [] || t[|t| - 1] == 47
  {
    if t != [] { LastPart(t[1..]); }
  }
}
