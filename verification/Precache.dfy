/**
 * src/pwa/serviceWorkerSource.ts: the files a build's service worker keeps first, and the tag that
 * names the build's cache.
 */
module Precache {
  import opened Paths
  import opened Strings
  import opened Wrappers
  import opened SwRules
  import Fnv

  datatype Worker = Worker(version: Text, precache: seq<Text>)

  /** `new Set`: each path once, where it came first. */
  function Once(paths: seq<Text>): seq<Text> {
    if paths == [] then []
    else
      var before, last := paths[..|paths| - 1], paths[|paths| - 1];
      if last in before then Once(before) else Once(before) + [last]
  }

  predicate Rooted(path: Text) { Ascii("/") <= path && !(Ascii("//") <= path) }

  function Filtered(paths: seq<Text>): seq<Text> {
    if paths == [] then []
    else
      var last := paths[|paths| - 1];
      Filtered(paths[..|paths| - 1]) + (if Rooted(last) then [last] else [])
  }

  /** What the build refuses to keep. */
  predicate Private(path: Text) {
    Guarded(path) || Folded(path) in [Ascii("/api"), Ascii("/oidc"), Ascii("/.well-known")]
  }

  function Joined(paths: seq<Text>): Text {
    if paths == [] then []
    else if |paths| == 1 then paths[0]
    else Joined(paths[..|paths| - 1]) + [10] + paths[|paths| - 1]
  }

  function TagOf(paths: seq<Text>, version: Text): Text { version + [45] + Ascii(Fnv.Tag(Joined(paths))) }

  function Build(precache: seq<Text>, version: Text): Result<Worker> {
    var paths := Filtered(Once(precache));
    if exists path <- paths :: Private(path) then Err else Ok(Worker(TagOf(paths, version), paths))
  }

  // --- What a build keeps ---

  predicate Distinct(paths: seq<Text>) { forall i, j | 0 <= i < j < |paths| :: paths[i] != paths[j] }

  /** Where a path first stands. */
  function First(paths: seq<Text>, path: Text): (i: nat)
    requires path in paths
    ensures i < |paths| && paths[i] == path && path !in paths[..i]
  {
    var before := paths[..|paths| - 1];
    if path in before then First(before, path) else |paths| - 1
  }

  ghost predicate InOrder(list: seq<Text>, paths: seq<Text>) {
    && (forall i | 0 <= i < |list| :: list[i] in paths)
    && (forall i, j | 0 <= i < j < |list| :: First(paths, list[i]) < First(paths, list[j]))
  }

  lemma {:induction false} OnceOf(paths: seq<Text>)
    ensures forall path :: path in Once(paths) <==> path in paths
    ensures InOrder(Once(paths), paths)
  {
    if paths != [] {
      var before, last := paths[..|paths| - 1], paths[|paths| - 1];
      assert paths == before + [last];
      OnceOf(before);
    }
  }

  lemma {:induction false} FilteredOf(list: seq<Text>, paths: seq<Text>)
    requires InOrder(list, paths)
    ensures forall path :: path in Filtered(list) <==> path in list && Rooted(path)
    ensures InOrder(Filtered(list), paths)
  {
    if list != [] {
      var before, last := list[..|list| - 1], list[|list| - 1];
      assert list == before + [last];
      FilteredOf(before, paths);
      forall path | path in Filtered(before) ensures First(paths, path) < First(paths, last) {
        var i :| 0 <= i < |before| && before[i] == path;
        assert list[i] == path;
      }
    }
  }

  /**
   * A build is refused exactly when a rooted path of its list is private. Otherwise it keeps exactly
   * the rooted paths, each once, in the order they first came, and none the worker must not keep.
   */
  lemma BuildKeepsExactly(precache: seq<Text>, version: Text)
    ensures Build(precache, version).Err? <==> exists path <- precache :: Rooted(path) && Private(path)
    ensures var built := Build(precache, version);
      built.Ok? ==>
        && (forall path :: path in built.value.precache <==> path in precache && Rooted(path))
        && InOrder(built.value.precache, precache) && Distinct(built.value.precache)
        && (forall path <- built.value.precache :: !Private(path) && !Guarded(path))
  {
    OnceOf(precache);
    FilteredOf(Once(precache), precache);
  }

  // --- The tag tells builds apart ---

  lemma {:induction false} JoinedAround(before: seq<Text>, after: seq<Text>) returns (head: Text, tail: Text)
    ensures forall path :: Joined(before + [path] + after) == head + path + tail
  {
    if after == [] {
      head := if before == [] then [] else Joined(before) + [10];
      tail := [];
      forall path ensures Joined(before + [path] + after) == head + path + tail {
        var all := before + [path] + after;
        assert all == before + [path];
        assert all[..|all| - 1] == before;
        assert head + path + tail == head + path;
      }
    } else {
      var last := after[|after| - 1];
      var tailBefore: Text;
      head, tailBefore := JoinedAround(before, after[..|after| - 1]);
      tail := tailBefore + [10] + last;
      forall path ensures Joined(before + [path] + after) == head + path + tail {
        var all := before + [path] + after;
        assert all[..|all| - 1] == before + [path] + after[..|after| - 1];
        assert head + path + tailBefore + [10] + last == head + path + tail;
      }
    }
  }

  lemma SameAscii(s: string, t: string)
    requires |s| == |t| && Ascii(s) == Ascii(t)
    requires (forall c <- s :: c as int < 128) && (forall c <- t :: c as int < 128)
    ensures s == t
  {
    forall i | 0 <= i < |s| ensures s[i] == t[i] {
      assert s[i] in s && t[i] in t;
      assert Ascii(s)[i] == s[i] as int % 128 && Ascii(t)[i] == t[i] as int % 128;
    }
  }

  /** Two builds of one version share their full version exactly when their lists share a digest. */
  lemma VersionsFollowTags(one: seq<Text>, other: seq<Text>, version: Text)
    ensures TagOf(one, version) == TagOf(other, version) <==> Fnv.Tag(Joined(one)) == Fnv.Tag(Joined(other))
  {
    Fnv.TagIsEightHexDigits(Joined(one));
    Fnv.TagIsEightHexDigits(Joined(other));
    if TagOf(one, version) == TagOf(other, version) {
      assert TagOf(one, version)[|version| + 1..] == Ascii(Fnv.Tag(Joined(one)));
      assert TagOf(other, version)[|version| + 1..] == Ascii(Fnv.Tag(Joined(other)));
      SameAscii(Fnv.Tag(Joined(one)), Fnv.Tag(Joined(other)));
    }
  }

  /** A list with a path made of these units at this place. */
  function Spelled(before: seq<Text>, head: Text, units: Text, tail: Text, after: seq<Text>): seq<Text> {
    before + [head + units + tail] + after
  }

  lemma JoinedSpelled(before: seq<Text>, head: Text, tail: Text, after: seq<Text>) returns (left: Text, right: Text)
    ensures forall units :: Joined(Spelled(before, head, units, tail, after)) == left + units + right
  {
    var outer, inner := JoinedAround(before, after);
    left, right := outer + head, tail + inner;
    forall units ensures Joined(Spelled(before, head, units, tail, after)) == left + units + right {
      assert outer + (head + units + tail) + inner == (outer + head) + units + (tail + inner);
    }
  }

  /** Two builds of one version whose kept lists differ in one code unit of one path do not share a cache. */
  lemma OneUnitChangesTheVersion(
    one: seq<Text>, other: seq<Text>, version: Text,
    before: seq<Text>, head: Text, a: CodeUnit, b: CodeUnit, tail: Text, after: seq<Text>)
    requires a != b && Build(one, version).Ok? && Build(other, version).Ok?
    requires Build(one, version).value.precache == Spelled(before, head, [a], tail, after)
    requires Build(other, version).value.precache == Spelled(before, head, [b], tail, after)
    ensures Build(one, version).value.version != Build(other, version).value.version
  {
    var left, right := JoinedSpelled(before, head, tail, after);
    Fnv.OneUnitChangesTheTag(left, a, b, right);
    VersionsFollowTags(Spelled(before, head, [a], tail, after), Spelled(before, head, [b], tail, after), version);
  }

  /** Nor do two whose lists differ within two neighbouring units below 256. */
  lemma TwoUnitsChangeTheVersion(
    one: seq<Text>, other: seq<Text>, version: Text,
    before: seq<Text>, head: Text, a: CodeUnit, b: CodeUnit, c: CodeUnit, d: CodeUnit, tail: Text, after: seq<Text>)
    requires a < 256 && b < 256 && c < 256 && d < 256 && (a, b) != (c, d)
    requires Build(one, version).Ok? && Build(other, version).Ok?
    requires Build(one, version).value.precache == Spelled(before, head, [a, b], tail, after)
    requires Build(other, version).value.precache == Spelled(before, head, [c, d], tail, after)
    ensures Build(one, version).value.version != Build(other, version).value.version
  {
    var left, right := JoinedSpelled(before, head, tail, after);
    Fnv.TwoUnitsChangeTheTag(left, a, b, c, d, right);
    VersionsFollowTags(Spelled(before, head, [a, b], tail, after), Spelled(before, head, [c, d], tail, after), version);
  }

  // --- But not all builds apart ---

  lemma OnceOfTwo(a: Text, b: Text)
    requires a != b
    ensures Once([a, b]) == [a, b]
  {
    assert [a, b][..1] == [a] && [a][..0] == [];
    assert Once([a]) == [a];
  }

  lemma FilteredTwo(a: Text, b: Text)
    requires Rooted(a) && Rooted(b)
    ensures Filtered([a, b]) == [a, b]
  {
    assert [a, b][..1] == [a] && [a][..0] == [];
    assert Filtered([a]) == [a];
  }

  lemma TwoPathsKept(a: Text, b: Text, version: Text)
    requires a != b && Rooted(a) && Rooted(b) && !Private(a) && !Private(b)
    ensures Build([a, b], version) == Ok(Worker(TagOf([a, b], version), [a, b]))
    ensures Joined([a, b]) == a + [10] + b
  {
    OnceOfTwo(a, b);
    FilteredTwo(a, b);
    assert [a, b][..1] == [a];
  }

  /** A bundle's path whose name begins with an "n" or a "0". */
  lemma PlainlyPublic(path: Text)
    requires |path| >= 2 && path[0] == 47 && path[1] in [110, 48]
    ensures !Private(path) && Rooted(path) && path != SLASH
  {
    var p := Folded(path);
    assert p[1] == path[1];
    assert Ascii("/api/")[1] == 97 && Ascii("/oidc/")[1] == 111;
    assert Ascii("/.well-known/")[1] == 46 && Ascii("/ca.crt")[1] == 99;
    assert Ascii("/api")[1] == 97 && Ascii("/oidc")[1] == 111 && Ascii("/.well-known")[1] == 46;
    assert Ascii("//")[1] == 47;
  }

  lemma SlashIsPublic()
    ensures !Private(SLASH) && Rooted(SLASH)
  {
  }

  function Bundle(name: Text, more: Text): Text { SLASH + name + more + [46, 106, 115] }

  lemma BundleBuilt(name: Text, more: Text, version: Text)
    requires name != [] && name[0] in [110, 48]
    ensures Build([SLASH, Bundle(name, more)], version)
         == Ok(Worker(TagOf([SLASH, Bundle(name, more)], version), [SLASH, Bundle(name, more)]))
    ensures Joined([SLASH, Bundle(name, more)]) == Fnv.LED + name + more + [46, 106, 115]
  {
    var path := Bundle(name, more);
    SlashIsPublic();
    PlainlyPublic(path);
    TwoPathsKept(SLASH, path, version);
    AfterLed(name, more);
  }

  lemma AfterLed(name: Text, more: Text)
    ensures SLASH + [10] + Bundle(name, more) == Fnv.LED + name + more + [46, 106, 115]
  {
    assert SLASH + [10] + SLASH == Fnv.LED;
  }

  /** Two different builds of one version can share it: "/" with "/ntzx.js", and with "/01cd.js". */
  lemma TwoBuildsShareAVersion(version: Text) returns (one: seq<Text>, other: seq<Text>)
    ensures Build(one, version).Ok? && Build(other, version).Ok?
    ensures Build(one, version).value.precache != Build(other, version).value.precache
    ensures Build(one, version).value.version == Build(other, version).value.version
  {
    one, other := [SLASH, Bundle([110, 116], [122, 120])], [SLASH, Bundle([48, 49], [99, 100])];
    BundleBuilt([110, 116], [122, 120], version);
    BundleBuilt([48, 49], [99, 100], version);
    Fnv.TagsMeet([46, 106, 115]);
    assert one[1][1] != other[1][1];
  }
}
