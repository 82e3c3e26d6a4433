/** A stable sort: what `Array.prototype.sort` is, given when one element belongs above another. */
module Sorting {
  /** A comparator's "strictly above": a strict weak order. */
  ghost predicate StrictWeak<T(!new)>(above: (T, T) -> bool) {
    && (forall a :: !above(a, a))
    && (forall a, b, c :: above(a, b) && above(b, c) ==> above(a, c))
    && (forall a, b, c :: above(a, c) ==> above(a, b) || above(b, c))
  }

  /** x, which stood before all of s, put in its place. */
  function Insert<T>(x: T, s: seq<T>, above: (T, T) -> bool): seq<T> {
    if s == [] || !above(s[0], x) then [x] + s else [s[0]] + Insert(x, s[1..], above)
  }

  function Sort<T>(s: seq<T>, above: (T, T) -> bool): seq<T> {
    if s == [] then [] else Insert(s[0], Sort(s[1..], above), above)
  }

  /** Nothing stands below something it belongs above. */
  ghost predicate Sorted<T>(s: seq<T>, above: (T, T) -> bool) {
    forall i, j | 0 <= i < j < |s| :: !above(s[j], s[i])
  }

  /** The elements of s that tie with x, in the order they stand. */
  function Ties<T>(s: seq<T>, x: T, above: (T, T) -> bool): seq<T> {
    if s == [] then []
    else (if !above(s[0], x) && !above(x, s[0]) then [s[0]] else []) + Ties(s[1..], x, above)
  }

  lemma {:induction false} InsertKeepsElements<T>(x: T, s: seq<T>, above: (T, T) -> bool)
    ensures multiset(Insert(x, s, above)) == multiset{x} + multiset(s)
  {
    if s != [] { assert s == [s[0]] + s[1..]; }
    if s != [] && above(s[0], x) { InsertKeepsElements(x, s[1..], above); }
  }

  lemma {:induction false} SortKeepsElements<T(!new)>(s: seq<T>, above: (T, T) -> bool)
    ensures multiset(Sort(s, above)) == multiset(s)
    ensures |Sort(s, above)| == |s|
    ensures forall x :: x in Sort(s, above) <==> x in s
  {
    if s != [] {
      assert s == [s[0]] + s[1..];
      SortKeepsElements(s[1..], above);
      InsertKeepsElements(s[0], Sort(s[1..], above), above);
    }
    assert |multiset(Sort(s, above))| == |multiset(s)|;
    assert forall x :: x in Sort(s, above) <==> x in multiset(Sort(s, above));
  }

  lemma NotAboveChains<T(!new)>(a: T, b: T, c: T, above: (T, T) -> bool)
    requires StrictWeak(above) && !above(a, b) && !above(b, c)
    ensures !above(a, c)
  {
  }

  lemma {:induction false} InsertKeepsSorted<T(!new)>(x: T, s: seq<T>, above: (T, T) -> bool)
    requires StrictWeak(above) && Sorted(s, above)
    ensures Sorted(Insert(x, s, above), above)
  {
    if s == [] {
    } else if !above(s[0], x) {
      forall j | 0 <= j < |s| ensures !above(s[j], x) {
        NotAboveChains(s[j], s[0], x, above);
      }
    } else {
      InsertKeepsSorted(x, s[1..], above);
      var r := Insert(x, s[1..], above);
      InsertKeepsElements(x, s[1..], above);
      forall j | 0 <= j < |r| ensures !above(r[j], s[0]) {
        assert r[j] in multiset(r);
        if r[j] != x { assert r[j] in s[1..]; }
      }
    }
  }

  lemma {:induction false} SortSorts<T(!new)>(s: seq<T>, above: (T, T) -> bool)
    requires StrictWeak(above)
    ensures Sorted(Sort(s, above), above)
  {
    if s != [] {
      SortSorts(s[1..], above);
      InsertKeepsSorted(s[0], Sort(s[1..], above), above);
    }
  }

  lemma {:induction false} InsertIsStable<T(!new)>(x: T, s: seq<T>, above: (T, T) -> bool, y: T)
    requires StrictWeak(above)
    ensures Ties(Insert(x, s, above), y, above) == Ties([x] + s, y, above)
  {
    assert ([x] + s)[1..] == s;
    if s != [] && above(s[0], x) {
      InsertIsStable(x, s[1..], above, y);
      assert ([x] + s[1..])[1..] == s[1..];
      assert Insert(x, s, above)[1..] == Insert(x, s[1..], above);
      assert !(!above(s[0], y) && !above(y, s[0]) && !above(x, y) && !above(y, x));
    }
  }

  /** Elements that tie keep the order they came in. */
  lemma {:induction false} SortIsStable<T(!new)>(s: seq<T>, above: (T, T) -> bool, y: T)
    requires StrictWeak(above)
    ensures Ties(Sort(s, above), y, above) == Ties(s, y, above)
  {
    if s != [] {
      var rest := Sort(s[1..], above);
      SortIsStable(s[1..], above, y);
      InsertIsStable(s[0], rest, above, y);
      assert ([s[0]] + rest)[1..] == rest;
    }
  }

  /** A sorted list is left as it is. */
  lemma {:induction false} SortedIsFixed<T>(s: seq<T>, above: (T, T) -> bool)
    requires Sorted(s, above)
    ensures Sort(s, above) == s
  {
    if s != [] {
      assert Sorted(s[1..], above) by {
        forall i, j | 0 <= i < j < |s[1..]| ensures !above(s[1..][j], s[1..][i]) { assert !above(s[j + 1], s[i + 1]); }
      }
      SortedIsFixed(s[1..], above);
      if |s| > 1 { assert !above(s[1], s[0]); }
    }
  }

  /** Sorting, stable and sorted, names one list: any two such arrangements of the same elements agree. */
  lemma {:induction false} SortIsTheStableSort<T(!new)>(s: seq<T>, t: seq<T>, above: (T, T) -> bool)
    requires StrictWeak(above) && Sorted(t, above)
    requires forall y :: Ties(s, y, above) == Ties(t, y, above)
    ensures Sort(s, above) == t
  {
    SortSorts(s, above);
    forall y ensures Ties(Sort(s, above), y, above) == Ties(t, y, above) {
      SortIsStable(s, above, y);
    }
    SameTies(Sort(s, above), t, above);
  }

  lemma {:induction false} TiesMember<T>(s: seq<T>, y: T, above: (T, T) -> bool, z: T)
    ensures z in Ties(s, y, above) <==> z in s && !above(z, y) && !above(y, z)
  {
    if s != [] { TiesMember(s[1..], y, above, z); assert s == [s[0]] + s[1..]; }
  }

  lemma HeadTiesItself<T(!new)>(s: seq<T>, above: (T, T) -> bool)
    requires StrictWeak(above)
    ensures s != [] ==> exists y :: Ties(s, y, above) != []
  {
    if s != [] { TiesMember(s, s[0], above, s[0]); }
  }

  lemma {:induction false} SameTies<T(!new)>(s: seq<T>, t: seq<T>, above: (T, T) -> bool)
    requires StrictWeak(above) && Sorted(s, above) && Sorted(t, above)
    requires forall y :: Ties(s, y, above) == Ties(t, y, above)
    ensures s == t
  {
    if s == [] {
      HeadTiesItself(t, above);
    } else {
      TiesMember(s, s[0], above, s[0]);
      TiesMember(t, s[0], above, s[0]);
      TiesMember(t, t[0], above, t[0]);
      TiesMember(s, t[0], above, t[0]);
      assert !above(t[0], s[0]) && !above(s[0], t[0]);
      assert Ties(s, s[0], above)[0] == s[0] && Ties(t, s[0], above)[0] == t[0];
      assert s[0] == t[0];
      forall y ensures Ties(s[1..], y, above) == Ties(t[1..], y, above) {
        var head := if !above(s[0], y) && !above(y, s[0]) then [s[0]] else [];
        assert Ties(s, y, above) == head + Ties(s[1..], y, above);
        assert Ties(t, y, above) == head + Ties(t[1..], y, above);
        assert Ties(s, y, above)[|head|..] == Ties(s[1..], y, above);
      }
      forall i, j | 0 <= i < j < |s[1..]| ensures !above(s[1..][j], s[1..][i]) { assert !above(s[j + 1], s[i + 1]); }
      forall i, j | 0 <= i < j < |t[1..]| ensures !above(t[1..][j], t[1..][i]) { assert !above(t[j + 1], t[i + 1]); }
      SameTies(s[1..], t[1..], above);
    }
  }

  lemma SortedTail<T>(s: seq<T>, above: (T, T) -> bool)
    requires s != [] && Sorted(s, above)
    ensures Sorted(s[1..], above)
  {
    forall i, j | 0 <= i < j < |s[1..]| ensures !above(s[1..][j], s[1..][i]) { assert !above(s[j + 1], s[i + 1]); }
  }

  lemma HeadTaken<T>(s: seq<T>)
    requires s != []
    ensures multiset(s[1..]) == multiset(s) - multiset{s[0]} && s[0] in multiset(s)
  {
    assert s == [s[0]] + s[1..];
  }

  lemma SameLength<T>(s: seq<T>, t: seq<T>)
    requires multiset(s) == multiset(t)
    ensures |s| == |t|
  {
    assert |multiset(s)| == |s| && |multiset(t)| == |t|;
  }

  /** Of two lists of the same elements, the second without the first one's head. */
  lemma TakenOut<T>(s: seq<T>, t: seq<T>) returns (a: seq<T>, b: seq<T>)
    requires s != [] && multiset(s) == multiset(t)
    ensures t == a + ([s[0]] + b) && multiset(s[1..]) == multiset(a + b)
  {
    HeadTaken(s);
    var k :| 0 <= k < |t| && t[k] == s[0];
    a, b := t[..k], t[k + 1..];
    assert t == a + ([t[k]] + b);
  }

  /** Where no two elements tie, the same elements have one sorted arrangement. */
  lemma {:induction false} SortedOnce<T(!new)>(s: seq<T>, t: seq<T>, above: (T, T) -> bool)
    requires Sorted(s, above) && Sorted(t, above) && multiset(s) == multiset(t)
    requires forall a, b :: a == b || above(a, b) || above(b, a)
    ensures s == t
  {
    SameLength(s, t);
    if s != [] {
      HeadTaken(s);
      HeadTaken(t);
      assert s[0] in t && t[0] in s;
      assert s[0] == t[0];
      SortedTail(s, above);
      SortedTail(t, above);
      SortedOnce(s[1..], t[1..], above);
    }
  }

  /** The elements' weights, added up. */
  function Tally<T>(s: seq<T>, weight: T -> nat): nat {
    if s == [] then 0 else Tally(s[..|s| - 1], weight) + weight(s[|s| - 1])
  }

  lemma {:induction false} TallyParts<T>(a: seq<T>, b: seq<T>, weight: T -> nat)
    ensures Tally(a + b, weight) == Tally(a, weight) + Tally(b, weight)
  {
    if b == [] {
      assert a + b == a;
    } else {
      TallyParts(a, b[..|b| - 1], weight);
      assert (a + b)[..|a + b| - 1] == a + b[..|b| - 1];
    }
  }

  lemma {:induction false} InsertKeepsTally<T>(x: T, s: seq<T>, above: (T, T) -> bool, weight: T -> nat)
    ensures Tally(Insert(x, s, above), weight) == weight(x) + Tally(s, weight)
  {
    TallyParts([x], s, weight);
    if s != [] && above(s[0], x) {
      InsertKeepsTally(x, s[1..], above, weight);
      TallyParts([s[0]], Insert(x, s[1..], above), weight);
      TallyParts([s[0]], s[1..], weight);
      assert s == [s[0]] + s[1..];
    }
  }

  /** Sorting changes no sum over the elements. */
  lemma {:induction false} SortKeepsTally<T>(s: seq<T>, above: (T, T) -> bool, weight: T -> nat)
    ensures Tally(Sort(s, above), weight) == Tally(s, weight)
  {
    if s != [] {
      SortKeepsTally(s[1..], above, weight);
      InsertKeepsTally(s[0], Sort(s[1..], above), above, weight);
      TallyParts([s[0]], s[1..], weight);
      assert s == [s[0]] + s[1..];
    }
  }
}
