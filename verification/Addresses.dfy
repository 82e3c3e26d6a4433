/**
 * How the browser reads a path the worker fetches and keeps under (the URL Standard's parser, for a
 * path that begins with a slash): white space about it and line breaks in it are dropped, backslashes
 * are slashes, two slashes lead to a host, query and fragment are cut off, and dot segments are
 * followed. Percent-encoding of other units is left out: it makes and unmakes no ASCII letter, slash
 * or dot.
 */
module Addresses {
  import opened Paths
  import opened Strings
  import opened Wrappers
  import opened SwRules

  /**
   * The site's own origin, and the origin the browser reads a host's text as: none where the text is no
   * host, or where a request there may not be made.
   */
  datatype Place = Place(origin: Text, originOf: Text -> Option<Text>)

  const DOT: Text := [46]

  const DOTS: Text := [46, 46]

  function TrimmedEnd(t: Text): Text { if t != [] && t[|t| - 1] <= 32 then TrimmedEnd(t[..|t| - 1]) else t }

  predicate IsBreak(u: CodeUnit) { u == 9 || u == 10 || u == 13 }

  function WithoutBreaks(t: Text): Text {
    if t == [] then [] else WithoutBreaks(t[..|t| - 1]) + (if IsBreak(t[|t| - 1]) then [] else [t[|t| - 1]])
  }

  /** Where a unit first stands, or the end. */
  function Cut(t: Text, u: CodeUnit): (i: nat)
    ensures i <= |t| && u !in t[..i] && (i < |t| ==> t[i] == u)
  {
    if t == [] then 0
    else
      var before := Cut(t[..|t| - 1], u);
      if before < |t| - 1 || t[|t| - 1] == u then before else |t|
  }

  function Forward(t: Text): Text { seq(|t|, i requires 0 <= i < |t| => if t[i] == 92 then 47 else t[i]) }

  predicate SingleDot(part: Text) { part == DOT || Folded(part) == Ascii("%2e") }

  predicate DoubleDot(part: Text) {
    part == DOTS || Folded(part) in [Ascii(".%2e"), Ascii("%2e."), Ascii("%2e%2e")]
  }

  /** The segments past the dots. */
  function Walk(parts: seq<Text>, done: seq<Text>): seq<Text>
    decreases |parts|
  {
    if parts == [] then done
    else
      var part, rest := parts[0], parts[1..];
      if DoubleDot(part) then
        var up := if done == [] then [] else done[..|done| - 1];
        Walk(rest, if rest == [] then up + [[]] else up)
      else if SingleDot(part) then Walk(rest, if rest == [] then done + [[]] else done)
      else Walk(rest, done + [part])
  }

  function PathOf(parts: seq<Text>): Text {
    if parts == [] then [] else PathOf(parts[..|parts| - 1]) + SLASH + parts[|parts| - 1]
  }

  /** The path named by what follows a first slash. */
  function Followed(t: Text): Text { PathOf(Walk(Split(Forward(t)), [])) }

  function Unslashed(t: Text): Text { if t != [] && t[0] == 47 then Unslashed(t[1..]) else t }

  /** The path past a host, when the host is the site's own. */
  function PastHost(site: Place, t: Text): Option<Text> {
    var cut := Cut(t, 47);
    if cut == 0 || site.originOf(t[..cut]) != Some(site.origin) then None
    else Some(Followed(if cut < |t| then t[cut + 1..] else []))
  }

  /** The path an address's first part names. */
  function Named(site: Place, head: Text): Option<Text>
    requires head != []
  {
    if |head| > 1 && head[1] in [47, 92] then PastHost(site, Unslashed(Forward(head)))
    else Some(Followed(head[1..]))
  }

  /** The address a path names; none for another host's, and for what names none. */
  function Resolved(site: Place, path: Text): Option<Url> {
    var bare := WithoutBreaks(TrimmedEnd(path));
    var front := bare[..Cut(bare, 35)];
    var query := Cut(front, 63);
    if query == 0 || bare[0] != 47 then None
    else
      var named := Named(site, front[..query]);
      if named.None? then None else Some(Url(site.origin, named.value, front[query..]))
  }

  // --- Plain paths ---

  predicate PlainUnit(u: CodeUnit) { u > 32 && u != 35 && u != 63 && u != 92 }

  predicate PlainPart(part: Text) { !SingleDot(part) && !DoubleDot(part) }

  /** No query, fragment, backslash, white space or dot segment. */
  predicate Plain(path: Text) {
    && path != [] && path[0] == 47 && (|path| > 1 ==> path[1] != 47)
    && (forall u <- path :: PlainUnit(u))
    && (forall part <- Split(path[1..]) :: PlainPart(part))
  }

  lemma {:induction false} NothingToTrim(t: Text)
    requires forall u <- t :: u > 32
    ensures TrimmedEnd(t) == t && WithoutBreaks(t) == t
  {
    if t != [] {
      var before := t[..|t| - 1];
      forall u | u in before ensures u > 32 { assert u in t; }
      NothingToTrim(before);
      assert t[|t| - 1] in t;
    }
  }

  lemma NothingToDrop(t: Text)
    requires forall u <- t :: PlainUnit(u)
    ensures TrimmedEnd(t) == t && WithoutBreaks(t) == t && Forward(t) == t
  {
    NothingToTrim(t);
    assert forall i | 0 <= i < |t| :: t[i] in t;
  }

  lemma {:induction false} NoCut(t: Text, u: CodeUnit)
    requires u !in t
    ensures Cut(t, u) == |t|
  {
  }

  lemma {:induction false} WalkOfPlain(parts: seq<Text>, done: seq<Text>)
    requires forall part <- parts :: PlainPart(part)
    ensures Walk(parts, done) == done + parts
    decreases |parts|
  {
    if parts != [] {
      assert parts[0] in parts;
      WalkOfPlain(parts[1..], done + [parts[0]]);
      assert done + [parts[0]] + parts[1..] == done + parts;
    } else {
      assert done + parts == done;
    }
  }

  lemma Regrouped(a: Text, b: Text, c: Text)
    ensures a + b + SLASH + c == a + (b + SLASH + c)
  {
  }

  lemma PathOfLast(parts: seq<Text>, last: Text)
    ensures PathOf(parts + [last]) == PathOf(parts) + SLASH + last
  {
    assert (parts + [last])[..|parts|] == parts;
  }

  lemma {:induction false} PathOfMore(part: Text, parts: seq<Text>)
    ensures PathOf([part] + parts) == SLASH + part + PathOf(parts)
  {
    if parts == [] {
      PathOfLast([], part);
      assert [part] + parts == [] + [part];
    } else {
      var before, last := parts[..|parts| - 1], parts[|parts| - 1];
      PathOfMore(part, before);
      PathOfLast([part] + before, last);
      PathOfLast(before, last);
      assert [part] + parts == [part] + before + [last] && parts == before + [last];
      Regrouped(SLASH + part, PathOf(before), last);
    }
  }

  lemma {:induction false} SplitJoins(t: Text)
    ensures PathOf(Split(t)) == SLASH + t
  {
    if t == [] {
      var empty: seq<Text> := [[]];
      assert empty[..0] == [] && SLASH + [] == SLASH;
    } else {
      var rest := Split(t[1..]);
      SplitJoins(t[1..]);
      assert rest == [rest[0]] + rest[1..];
      PathOfMore(rest[0], rest[1..]);
      assert t == [t[0]] + t[1..];
      if t[0] == 47 {
        PathOfMore([], rest);
      } else {
        PathOfMore([t[0]] + rest[0], rest[1..]);
        FirstGrown(t, rest[0], PathOf(rest[1..]));
      }
    }
  }

  lemma FirstGrown(t: Text, part: Text, more: Text)
    requires t != [] && SLASH + part + more == SLASH + t[1..]
    ensures SLASH + ([t[0]] + part) + more == SLASH + t
  {
    assert part + more == (SLASH + part + more)[1..] == t[1..];
  }

  lemma PlainIsFollowed(t: Text)
    requires (forall u <- t :: PlainUnit(u)) && (forall part <- Split(t) :: PlainPart(part))
    ensures Followed(t) == SLASH + t
  {
    NothingToDrop(t);
    WalkOfPlain(Split(t), []);
    assert [] + Split(t) == Split(t);
    SplitJoins(t);
  }

  /** With nothing dropped and nothing cut off. */
  lemma ResolvedWhole(site: Place, path: Text)
    requires path != [] && path[0] == 47 && forall u <- path :: u > 32 && u != 35 && u != 63
    ensures Resolved(site, path) ==
      if Named(site, path).None? then None else Some(Url(site.origin, Named(site, path).value, []))
  {
    NothingToTrim(path);
    NoCut(path, 35);
    NoCut(path, 63);
    assert path[..|path|] == path && path[|path|..] == [];
  }

  lemma PlainIsNamed(site: Place, path: Text)
    requires path != [] && path[0] == 47 && (|path| > 1 ==> path[1] != 47) && forall u <- path :: PlainUnit(u)
    ensures Resolved(site, path) == Some(Url(site.origin, Followed(path[1..]), []))
  {
    ResolvedWhole(site, path);
    assert |path| > 1 ==> path[1] in path;
  }

  /** A plain path is its own key. */
  lemma PlainIsItsOwnKey(site: Place, path: Text)
    requires Plain(path)
    ensures Resolved(site, path) == Some(Url(site.origin, path, []))
  {
    PlainIsNamed(site, path);
    assert forall u <- path[1..] :: u in path;
    PlainIsFollowed(path[1..]);
    assert SLASH + path[1..] == path;
  }

  lemma SlashIsPlain()
    ensures Plain(SLASH)
  {
    assert SLASH[1..] == [];
    assert Split([]) == [[]];
  }

  // --- A path that names another ---

  lemma {:induction false} WalkParts(a: seq<Text>, b: seq<Text>, done: seq<Text>)
    requires (forall part <- a :: PlainPart(part)) && b != []
    ensures Walk(a + b, done) == Walk(b, done + a)
    decreases |a|
  {
    if a == [] {
      assert a + b == b && done + a == done;
    } else {
      assert a[0] in a && (a + b)[1..] == a[1..] + b;
      WalkParts(a[1..], b, done + [a[0]]);
      assert done + [a[0]] + a[1..] == done + a;
    }
  }

  lemma UpAgain(name: Text, rest: seq<Text>)
    requires PlainPart(name) && rest != []
    ensures Walk([name, DOTS] + rest, []) == Walk(rest, [])
  {
    assert [name, DOTS] + rest == [name] + ([DOTS] + rest);
    assert ([name] + ([DOTS] + rest))[1..] == [DOTS] + rest && ([DOTS] + rest)[1..] == rest;
    assert Walk([DOTS] + rest, [name]) == Walk(rest, [name][..0]);
  }

  /** Into a folder and out of it again: "/x/../y" is kept under "/y". */
  lemma OutAgain(site: Place, name: Text, rest: Text)
    requires name != [] && (forall u <- name :: PlainUnit(u) && u != 47) && PlainPart(name)
    requires (forall u <- rest :: PlainUnit(u)) && (forall part <- Split(rest) :: PlainPart(part))
    ensures Resolved(site, SLASH + (name + SLASH + (DOTS + SLASH + rest))) == Some(Url(site.origin, SLASH + rest, []))
  {
    var t := name + SLASH + (DOTS + SLASH + rest);
    var path := SLASH + t;
    assert path[1..] == t && path[1] == name[0] && name[0] in name;
    AllPlain(name, rest);
    forall u | u in path ensures PlainUnit(u) { assert u == 47 || u in t; }
    PlainIsNamed(site, path);
    FollowedOut(name, rest);
  }

  lemma AllPlain(name: Text, rest: Text)
    requires (forall u <- name :: PlainUnit(u)) && (forall u <- rest :: PlainUnit(u))
    ensures forall u <- name + SLASH + (DOTS + SLASH + rest) :: PlainUnit(u)
  {
    forall u | u in name + SLASH + (DOTS + SLASH + rest) ensures PlainUnit(u) {
      assert u == 47 || u == 46 || u in name || u in rest;
    }
  }

  lemma FollowedOut(name: Text, rest: Text)
    requires (forall u <- name :: PlainUnit(u) && u != 47) && PlainPart(name)
    requires (forall u <- rest :: PlainUnit(u)) && (forall part <- Split(rest) :: PlainPart(part))
    ensures Followed(name + SLASH + (DOTS + SLASH + rest)) == SLASH + rest
  {
    AllPlain(name, rest);
    NothingToDrop(name + SLASH + (DOTS + SLASH + rest));
    SplitOut(name, rest);
    UpAgain(name, Split(rest));
    WalkOfPlain(Split(rest), []);
    assert [] + Split(rest) == Split(rest);
    SplitJoins(rest);
  }

  lemma SplitOut(name: Text, rest: Text)
    requires 47 !in name
    ensures Split(name + SLASH + (DOTS + SLASH + rest)) == [name, DOTS] + Split(rest)
  {
    SplitAround(name, DOTS + SLASH + rest);
    SplitAround(DOTS, rest);
    SplitOne(name);
    SplitOne(DOTS);
    assert [name] + ([DOTS] + Split(rest)) == [name, DOTS] + Split(rest);
  }

  /** By way of the site's own host: "/\h/y" is kept under "/y" on the host that "h" reads as. */
  lemma ByOwnHost(site: Place, host: Text, rest: Text)
    requires site.originOf(host) == Some(site.origin) && host != []
    requires (forall u <- host :: PlainUnit(u) && u != 47) && forall u <- rest :: PlainUnit(u)
    requires forall part <- Split(rest) :: PlainPart(part)
    ensures Resolved(site, [47, 92] + (host + SLASH + rest)) == Some(Url(site.origin, SLASH + rest, []))
  {
    var t := host + SLASH + rest;
    var path := [47, 92] + t;
    forall u | u in t ensures PlainUnit(u) { assert u == 47 || u in host || u in rest; }
    forall u | u in path ensures u > 32 && u != 35 && u != 63 { assert u == 47 || u == 92 || u in t; }
    ResolvedWhole(site, path);
    UnslashedHost(host, rest);
    CutAt(host, rest);
    PlainIsFollowed(rest);
  }

  lemma UnslashedHost(host: Text, rest: Text)
    requires host != [] && (forall u <- host :: PlainUnit(u) && u != 47) && forall u <- rest :: PlainUnit(u)
    ensures Unslashed(Forward([47, 92] + (host + SLASH + rest))) == host + SLASH + rest
  {
    var t := host + SLASH + rest;
    forall u | u in t ensures PlainUnit(u) { assert u == 47 || u in host || u in rest; }
    ForwardTwo(t);
    assert t[0] == host[0] && host[0] in host;
    UnslashedTwo(t);
  }

  lemma ForwardTwo(t: Text)
    requires forall u <- t :: PlainUnit(u)
    ensures Forward([47, 92] + t) == [47, 47] + t
  {
    assert forall i | 0 <= i < |t| :: t[i] in t;
  }

  lemma UnslashedTwo(t: Text)
    requires t == [] || t[0] != 47
    ensures Unslashed([47, 47] + t) == t
  {
    assert ([47, 47] + t)[1..] == [47] + t && ([47] + t)[1..] == t;
    assert Unslashed([47] + t) == t;
  }

  lemma {:induction false} CutIsFirst(t: Text, u: CodeUnit, k: nat)
    requires k < |t| && t[k] == u && u !in t[..k]
    ensures Cut(t, u) == k
  {
    var before := t[..|t| - 1];
    if k < |before| {
      assert before[..k] == t[..k];
      CutIsFirst(before, u, k);
    } else {
      assert before == t[..k];
      NoCut(before, u);
    }
  }

  lemma CutAt(host: Text, rest: Text)
    requires 47 !in host
    ensures Cut(host + SLASH + rest, 47) == |host|
    ensures (host + SLASH + rest)[..|host|] == host && (host + SLASH + rest)[|host| + 1..] == rest
  {
    CutIsFirst(host + SLASH + rest, 47, |host|);
  }

  lemma {:induction false} SplitOne(t: Text)
    requires 47 !in t
    ensures Split(t) == [t]
  {
    if t != [] {
      assert t[0] in t;
      SplitOne(t[1..]);
      assert [t[0]] + t[1..] == t;
    }
  }
}
