/**
 * src/storageMap.ts: which apps and shares live on which mount. `localeCompare` is given by a rank:
 * how it orders names is the browser's.
 */
module StorageMap {
  import opened Paths
  import opened Strings
  import opened Wrappers
  import opened Sorting

  datatype Mount = Mount(target: Text, source: Text, fstype: Text, sizeBytes: Option<nat>, availableBytes: Option<nat>)

  datatype SambaShare = SambaShare(name: Text, path: Text, recycle: bool, recycleBytes: Option<nat>)

  datatype App = App(id: Text, name: Text, paths: seq<Text>)

  datatype Forecast = Forecast(target: Text, daysToFull: int)

  datatype Usage = Usage(path: Option<Text>, bytes: nat)

  datatype Kind = Drive | Network | System

  /** An app's folder as an entry shows it; no bytes when it was never measured. */
  datatype Folder = Folder(id: Text, name: Text, path: Text, bytes: Option<nat>)

  datatype ShownShare = ShownShare(name: Text, recycle: bool, recycleBytes: Option<nat>)

  datatype Entry = Entry(
    id: Text, title: Text, kind: Kind, mount: Option<Mount>, daysToFull: Option<int>,
    apps: seq<Folder>, shares: seq<ShownShare>)

  datatype Input = Input(
    mounts: seq<Mount>, shares: seq<SambaShare>, apps: seq<App>, forecasts: seq<Forecast>,
    networkTargets: set<Text>, usage: seq<Usage>)

  predicate IsDataTarget(target: Text) { Ascii("/mnt/") <= target || Ascii("/srv/") <= target }

  // --- The folders apps use ---

  datatype Volume = Volume(id: Text, hostPath: Option<Text>)

  /** A catalog listing's application; `chosen` is what its installation set for each volume. */
  datatype Application = Application(
    id: Text, name: Text, volumes: seq<Volume>, installed: bool, chosen: map<Text, Text>)

  function PathOf(a: Application, v: Volume): Text {
    if v.id in a.chosen then a.chosen[v.id] else if v.hostPath.Some? then v.hostPath.value else []
  }

  predicate Uses(a: Application, v: Volume, path: Text) { IsDataTarget(PathOf(a, v)) && Stripped(PathOf(a, v)) == path }

  function PathsOf(a: Application, volumes: seq<Volume>): seq<Text> {
    if volumes == [] then []
    else
      var before, path := PathsOf(a, volumes[..|volumes| - 1]), PathOf(a, volumes[|volumes| - 1]);
      if !IsDataTarget(path) || Stripped(path) in before then before else before + [Stripped(path)]
  }

  function AppFolders(applications: seq<Application>): seq<App> {
    if applications == [] then []
    else
      var before, last := AppFolders(applications[..|applications| - 1]), applications[|applications| - 1];
      var paths := PathsOf(last, last.volumes);
      if !last.installed || paths == [] then before else before + [App(last.id, last.name, paths)]
  }

  predicate UsesFolder(a: Application, volumes: seq<Volume>, path: Text) { exists v <- volumes :: Uses(a, v, path) }

  lemma UsesFolderLast(a: Application, before: seq<Volume>, last: Volume, path: Text)
    ensures UsesFolder(a, before + [last], path) <==> UsesFolder(a, before, path) || Uses(a, last, path)
  {
    assert last in before + [last];
  }

  lemma {:induction false} PathsAreUsed(a: Application, volumes: seq<Volume>, path: Text)
    ensures path in PathsOf(a, volumes) <==> UsesFolder(a, volumes, path)
  {
    if volumes != [] {
      var before, last := volumes[..|volumes| - 1], volumes[|volumes| - 1];
      PathsAreUsed(a, before, path);
      UsesFolderLast(a, before, last, path);
      assert volumes == before + [last];
    }
  }

  predicate Lists(apps: seq<App>, id: Text, path: Text) { exists app <- apps :: app.id == id && path in app.paths }

  lemma ListsLast(before: seq<App>, last: App, id: Text, path: Text)
    ensures Lists(before + [last], id, path) <==> Lists(before, id, path) || (last.id == id && path in last.paths)
  {
    assert last in before + [last];
  }

  predicate InstalledUse(a: Application, id: Text, path: Text) {
    a.installed && a.id == id && UsesFolder(a, a.volumes, path)
  }

  predicate SomeUse(applications: seq<Application>, id: Text, path: Text) {
    exists a <- applications :: InstalledUse(a, id, path)
  }

  lemma SomeUseLast(before: seq<Application>, last: Application, id: Text, path: Text)
    ensures SomeUse(before + [last], id, path) <==> SomeUse(before, id, path) || InstalledUse(last, id, path)
  {
    assert last in before + [last];
  }

  lemma AppFoldersLast(before: seq<Application>, last: Application, id: Text, path: Text)
    ensures Lists(AppFolders(before + [last]), id, path) <==>
      Lists(AppFolders(before), id, path) || (last.installed && last.id == id && path in PathsOf(last, last.volumes))
  {
    assert (before + [last])[..|before|] == before;
    ListsLast(AppFolders(before), App(last.id, last.name, PathsOf(last, last.volumes)), id, path);
  }

  /** The folders listed are those the installed apps' volumes are on, as chosen or else by default. */
  lemma {:induction false} FoldersAreUsed(applications: seq<Application>, id: Text, path: Text)
    ensures Lists(AppFolders(applications), id, path) <==> SomeUse(applications, id, path)
  {
    if applications != [] {
      var before, last := applications[..|applications| - 1], applications[|applications| - 1];
      FoldersAreUsed(before, id, path);
      PathsAreUsed(last, last.volumes, path);
      SomeUseLast(before, last, id, path);
      AppFoldersLast(before, last, id, path);
      assert applications == before + [last];
    }
  }

  // --- Where a path lives ---

  function Candidates(ids: seq<Text>, path: Text): seq<nat> {
    if ids == [] then []
    else
      var last := |ids| - 1;
      Candidates(ids[..last], path) + (if Contains(ids[last], path) then [last] else [])
  }

  function Deeper(ids: seq<Text>): (nat, nat) -> bool {
    (i: nat, j: nat) => (if i < |ids| then |ids[i]| else 0) > (if j < |ids| then |ids[j]| else 0)
  }

  /** The entry a path is shown under: the deepest mount's, or past them all the system's. */
  function HomeFor(ids: seq<Text>, path: Text): nat {
    var sorted := Sort(Candidates(ids, path), Deeper(ids));
    if sorted == [] then |ids| else sorted[0]
  }

  lemma {:induction false} CandidatesOf(ids: seq<Text>, path: Text)
    ensures forall i: nat :: i in Candidates(ids, path) <==> i < |ids| && Contains(ids[i], path)
  {
    if ids != [] {
      var last := |ids| - 1;
      CandidatesOf(ids[..last], path);
      assert forall i: nat | i < last :: ids[..last][i] == ids[i];
    }
  }

  lemma HeadIsDeepest(ids: seq<Text>, path: Text, i: nat)
    requires i < |ids| && Contains(ids[i], path)
    ensures HomeFor(ids, path) < |ids| && |ids[i]| <= |ids[HomeFor(ids, path)]|
  {
    var all, deeper := Candidates(ids, path), Deeper(ids);
    CandidatesOf(ids, path);
    SortKeepsElements(all, deeper);
    SortSorts(all, deeper);
    var sorted := Sort(all, deeper);
    assert i in sorted;
    var k :| 0 <= k < |sorted| && sorted[k] == i;
    assert sorted[0] in sorted;
    if k > 0 { assert !deeper(sorted[k], sorted[0]); }
  }

  /**
   * A path's home is the deepest mount that contains it: every other mount that does contains the
   * home too. It is the system's exactly when no mount contains the path.
   */
  lemma HomeIsTheDeepest(ids: seq<Text>, path: Text)
    ensures HomeFor(ids, path) <= |ids|
    ensures HomeFor(ids, path) == |ids| <==> forall i | 0 <= i < |ids| :: !Contains(ids[i], path)
    ensures HomeFor(ids, path) < |ids| ==> Contains(ids[HomeFor(ids, path)], path)
    ensures HomeFor(ids, path) < |ids| ==>
      forall i | 0 <= i < |ids| && Contains(ids[i], path) :: Contains(ids[i], ids[HomeFor(ids, path)])
  {
    CandidatesOf(ids, path);
    SortKeepsElements(Candidates(ids, path), Deeper(ids));
    var sorted := Sort(Candidates(ids, path), Deeper(ids));
    if sorted != [] { assert sorted[0] in sorted; }
    forall i | 0 <= i < |ids| && Contains(ids[i], path)
      ensures HomeFor(ids, path) < |ids| && Contains(ids[i], ids[HomeFor(ids, path)])
    {
      HeadIsDeepest(ids, path, i);
      AncestorsFormAChain(ids[i], ids[HomeFor(ids, path)], path);
    }
  }

  lemma {:induction false} CandidatesAscend(ids: seq<Text>, path: Text)
    ensures forall i, j | 0 <= i < j < |Candidates(ids, path)| :: Candidates(ids, path)[i] < Candidates(ids, path)[j]
  {
    if ids != [] {
      var before := Candidates(ids[..|ids| - 1], path);
      CandidatesAscend(ids[..|ids| - 1], path);
      CandidatesOf(ids[..|ids| - 1], path);
      assert forall i | 0 <= i < |before| :: before[i] in before;
    }
  }

  lemma {:induction false} FirstTieIsLeast(s: seq<nat>, x: nat, above: (nat, nat) -> bool, i: nat)
    requires forall a, b | 0 <= a < b < |s| :: s[a] < s[b]
    requires i in s && !above(i, x) && !above(x, i)
    ensures Ties(s, x, above) != [] && Ties(s, x, above)[0] <= i
  {
    if i != s[0] { FirstTieIsLeast(s[1..], x, above, i); }
  }

  /** Of an ascending list, a stable sort puts the least of those that tie for the top first. */
  lemma TopIsTheLeast(s: seq<nat>, above: (nat, nat) -> bool, i: nat)
    requires StrictWeak(above) && forall a, b | 0 <= a < b < |s| :: s[a] < s[b]
    requires i in s && Sort(s, above) != []
    requires !above(i, Sort(s, above)[0]) && !above(Sort(s, above)[0], i)
    ensures Sort(s, above)[0] <= i
  {
    var top := Sort(s, above)[0];
    SortIsStable(s, above, top);
    assert Ties(Sort(s, above), top, above)[0] == top;
    FirstTieIsLeast(s, top, above, i);
  }

  /** Of mounts on one target, the first is the home. */
  lemma HomeIsTheFirst(ids: seq<Text>, path: Text, i: nat)
    requires i < HomeFor(ids, path) < |ids|
    ensures ids[i] != ids[HomeFor(ids, path)]
  {
    HomeIsTheDeepest(ids, path);
    if ids[i] == ids[HomeFor(ids, path)] {
      CandidatesOf(ids, path);
      CandidatesAscend(ids, path);
      TopIsTheLeast(Candidates(ids, path), Deeper(ids), i);
    }
  }

  // --- The map ---

  /** `measured`: the last measurement of a path, whichever way it was spelled. */
  function Measured(usage: seq<Usage>): map<Text, nat> {
    if usage == [] then map[]
    else
      var before, last := Measured(usage[..|usage| - 1]), usage[|usage| - 1];
      if last.path.None? || last.path.value == [] then before else before[Stripped(last.path.value) := last.bytes]
  }

  function DaysToFull(forecasts: seq<Forecast>, target: Text): Option<int> {
    if forecasts == [] then None
    else if forecasts[0].target == target then Some(forecasts[0].daysToFull)
    else DaysToFull(forecasts[1..], target)
  }

  function DataMounts(mounts: seq<Mount>): seq<Mount> {
    if mounts == [] then []
    else
      var last := mounts[|mounts| - 1];
      DataMounts(mounts[..|mounts| - 1]) + (if IsDataTarget(last.target) then [last] else [])
  }

  function MountEntry(input: Input, mount: Mount): Entry {
    var network := mount.target in input.networkTargets || mount.fstype in [Ascii("cifs"), Ascii("nfs"), Ascii("nfs4")];
    Entry(mount.target, mount.target, if network then Network else Drive, Some(mount),
          DaysToFull(input.forecasts, mount.target), [], [])
  }

  function SystemEntry(input: Input): Entry {
    Entry(SLASH, Ascii("System disk"), System, None, DaysToFull(input.forecasts, SLASH), [], [])
  }

  function Targets(mounts: seq<Mount>): seq<Text> { seq(|mounts|, i requires 0 <= i < |mounts| => mounts[i].target) }

  /** The mounts' entries and, last, the system's: empty. */
  function Homes(input: Input): seq<Entry> {
    var mounts := DataMounts(input.mounts);
    seq(|mounts|, i requires 0 <= i < |mounts| => MountEntry(input, mounts[i])) + [SystemEntry(input)]
  }

  function Ids(input: Input): seq<Text> { Targets(DataMounts(input.mounts)) }

  predicate IsFolder(f: Folder, id: Text, path: Text) { f.id == id && f.path == path }

  predicate HasFolder(folders: seq<Folder>, id: Text, path: Text) {
    exists i | 0 <= i < |folders| :: IsFolder(folders[i], id, path)
  }

  /** An app's folder joins an entry's, unless it is there. */
  function WithFolder(folders: seq<Folder>, f: Folder): seq<Folder> {
    if HasFolder(folders, f.id, f.path) then folders else folders + [f]
  }

  function FolderOf(app: App, path: Text, measured: map<Text, nat>): Folder {
    Folder(app.id, app.name, path, if path in measured then Some(measured[path]) else None)
  }

  /** Every folder of every app, in the order they are looked at. */
  function FoldersOf(app: App, paths: seq<Text>, measured: map<Text, nat>): seq<Folder> {
    if paths == [] then []
    else FoldersOf(app, paths[..|paths| - 1], measured) + [FolderOf(app, paths[|paths| - 1], measured)]
  }

  function AllFolders(apps: seq<App>, measured: map<Text, nat>): seq<Folder> {
    if apps == [] then []
    else
      var last := apps[|apps| - 1];
      AllFolders(apps[..|apps| - 1], measured) + FoldersOf(last, last.paths, measured)
  }

  /** The folders entry h comes to hold. */
  function FoldersAt(folders: seq<Folder>, ids: seq<Text>, h: nat): seq<Folder> {
    if folders == [] then []
    else
      var before, last := FoldersAt(folders[..|folders| - 1], ids, h), folders[|folders| - 1];
      if HomeFor(ids, last.path) == h then WithFolder(before, last) else before
  }

  function Shown(share: SambaShare): ShownShare { ShownShare(share.name, share.recycle, share.recycleBytes) }

  /** The shares entry h comes to hold; a share outside the data mounts' places is passed over. */
  function SharesAt(shares: seq<SambaShare>, ids: seq<Text>, h: nat): seq<ShownShare> {
    if shares == [] then []
    else
      var before, last := SharesAt(shares[..|shares| - 1], ids, h), shares[|shares| - 1];
      var path := Stripped(last.path);
      if IsDataTarget(path) && HomeFor(ids, path) == h then before + [Shown(last)] else before
  }

  /** Biggest first, the never measured last, then by name. */
  function ByBytes(rank: Text -> real): (Folder, Folder) -> bool {
    (l: Folder, r: Folder) =>
      var a, b := if l.bytes.Some? then l.bytes.value else -1, if r.bytes.Some? then r.bytes.value else -1;
      a > b || (a == b && rank(l.name) < rank(r.name))
  }

  /** The system last, then by label. */
  function ByTitle(rank: Text -> real): (Entry, Entry) -> bool {
    (l: Entry, r: Entry) =>
      (!l.kind.System? && r.kind.System?) || (l.kind.System? == r.kind.System? && rank(l.title) < rank(r.title))
  }

  function Holding(entry: Entry, apps: seq<Folder>, shares: seq<ShownShare>): Entry {
    entry.(apps := apps, shares := shares)
  }

  function Listed(input: Input): seq<Folder> { AllFolders(input.apps, Measured(input.usage)) }

  function Filled(input: Input, rank: Text -> real): seq<Entry> {
    var homes, ids := Homes(input), Ids(input);
    seq(|homes|, h requires 0 <= h < |homes| =>
      Holding(homes[h], Sort(FoldersAt(Listed(input), ids, h), ByBytes(rank)), SharesAt(input.shares, ids, h)))
  }

  predicate WorthACard(system: Entry) { system.apps != [] || system.shares != [] || system.daysToFull.Some? }

  function Cards(filled: seq<Entry>): seq<Entry>
    requires filled != []
  {
    if WorthACard(filled[|filled| - 1]) then filled else filled[..|filled| - 1]
  }

  function StorageMap(input: Input, rank: Text -> real): seq<Entry> {
    Sort(Cards(Filled(input, rank)), ByTitle(rank))
  }

  // --- Each folder is shown exactly once ---

  function FolderWeight(id: Text, path: Text): Folder -> nat { (f: Folder) => if IsFolder(f, id, path) then 1 else 0 }

  /** How often an entry shows a folder of an app. */
  function EntryWeight(id: Text, path: Text): Entry -> nat { (e: Entry) => Tally(e.apps, FolderWeight(id, path)) }

  lemma HasLast(folders: seq<Folder>, id: Text, path: Text)
    requires folders != []
    ensures HasFolder(folders, id, path) <==>
      HasFolder(folders[..|folders| - 1], id, path) || IsFolder(folders[|folders| - 1], id, path)
  {
    var before := folders[..|folders| - 1];
    if HasFolder(folders, id, path) && !IsFolder(folders[|before|], id, path) {
      var i :| 0 <= i < |folders| && IsFolder(folders[i], id, path);
      assert IsFolder(before[i], id, path);
    }
    if HasFolder(before, id, path) {
      var i :| 0 <= i < |before| && IsFolder(before[i], id, path);
      assert IsFolder(folders[i], id, path);
    }
  }

  lemma {:induction false} TallyCounts(folders: seq<Folder>, id: Text, path: Text)
    ensures Tally(folders, FolderWeight(id, path)) > 0 <==> HasFolder(folders, id, path)
  {
    if folders != [] {
      TallyCounts(folders[..|folders| - 1], id, path);
      HasLast(folders, id, path);
    }
  }

  lemma WithFolderCounts(folders: seq<Folder>, f: Folder, id: Text, path: Text)
    requires Tally(folders, FolderWeight(id, path)) <= 1
    ensures Tally(WithFolder(folders, f), FolderWeight(id, path)) ==
      if IsFolder(f, id, path) then 1 else Tally(folders, FolderWeight(id, path))
  {
    TallyCounts(folders, id, path);
    if !HasFolder(folders, f.id, f.path) { assert (folders + [f])[..|folders|] == folders; }
  }

  /** An entry holds a folder once if the folder is listed and the entry is its home, and else not at all. */
  lemma {:induction false} FoldersAtCounts(folders: seq<Folder>, ids: seq<Text>, h: nat, id: Text, path: Text)
    ensures Tally(FoldersAt(folders, ids, h), FolderWeight(id, path)) ==
      if HasFolder(folders, id, path) && HomeFor(ids, path) == h then 1 else 0
  {
    if folders != [] {
      var last := folders[|folders| - 1];
      FoldersAtCounts(folders[..|folders| - 1], ids, h, id, path);
      HasLast(folders, id, path);
      WithFolderCounts(FoldersAt(folders[..|folders| - 1], ids, h), last, id, path);
    }
  }

  /** A sum of which one term is changed. */
  lemma {:induction false} OneTermMore<T, U>(s: seq<T>, t: seq<U>, w: T -> nat, v: U -> nat, h: nat, more: nat)
    requires |s| == |t|
    requires forall i | 0 <= i < |s| :: v(t[i]) == w(s[i]) + if i == h then more else 0
    ensures Tally(t, v) == Tally(s, w) + if h < |s| then more else 0
  {
    if s != [] { OneTermMore(s[..|s| - 1], t[..|t| - 1], w, v, h, more); }
  }

  lemma {:induction false} NothingTallies<T>(s: seq<T>, w: T -> nat)
    requires forall i | 0 <= i < |s| :: w(s[i]) == 0
    ensures Tally(s, w) == 0
  {
    if s != [] { NothingTallies(s[..|s| - 1], w); }
  }

  function Zero<T>(): T -> nat { (x: T) => 0 }

  lemma FilledCounts(input: Input, rank: Text -> real, id: Text, path: Text)
    ensures Tally(Filled(input, rank), EntryWeight(id, path)) == if HasFolder(Listed(input), id, path) then 1 else 0
  {
    var filled, ids := Filled(input, rank), Ids(input);
    var n := if HasFolder(Listed(input), id, path) then 1 else 0;
    HomeIsTheDeepest(ids, path);
    forall h | 0 <= h < |filled|
      ensures EntryWeight(id, path)(filled[h]) == if h == HomeFor(ids, path) then n else 0
    {
      SortKeepsTally(FoldersAt(Listed(input), ids, h), ByBytes(rank), FolderWeight(id, path));
      FoldersAtCounts(Listed(input), ids, h, id, path);
    }
    NothingTallies(filled, Zero());
    OneTermMore(filled, filled, Zero(), EntryWeight(id, path), HomeFor(ids, path), n);
  }

  /** A card that is not shown held nothing. */
  lemma CardsKeepTally(filled: seq<Entry>, weight: Entry -> nat)
    requires filled != []
    requires var last := filled[|filled| - 1];
      last.apps == [] && last.shares == [] ==> weight(last) == 0
    ensures Tally(Cards(filled), weight) == Tally(filled, weight)
  {
  }

  /** Every folder of every app is shown by exactly one entry, exactly once; nothing else is shown. */
  lemma EachFolderOnce(input: Input, rank: Text -> real, id: Text, path: Text)
    ensures Tally(StorageMap(input, rank), EntryWeight(id, path)) ==
      if Lists(input.apps, id, path) then 1 else 0
  {
    FilledCounts(input, rank, id, path);
    CardsKeepTally(Filled(input, rank), EntryWeight(id, path));
    SortKeepsTally(Cards(Filled(input, rank)), ByTitle(rank), EntryWeight(id, path));
    ListedFolders(input.apps, Measured(input.usage), id, path);
  }

  lemma HasFolderIn(a: seq<Folder>, b: seq<Folder>, id: Text, path: Text)
    ensures HasFolder(a + b, id, path) <==> HasFolder(a, id, path) || HasFolder(b, id, path)
  {
    if HasFolder(a, id, path) {
      var i :| 0 <= i < |a| && IsFolder(a[i], id, path);
      assert IsFolder((a + b)[i], id, path);
    }
    if HasFolder(b, id, path) {
      var i :| 0 <= i < |b| && IsFolder(b[i], id, path);
      assert IsFolder((a + b)[|a| + i], id, path);
    }
  }

  lemma {:induction false} FoldersOfApp(app: App, paths: seq<Text>, measured: map<Text, nat>, id: Text, path: Text)
    ensures HasFolder(FoldersOf(app, paths, measured), id, path) <==> app.id == id && path in paths
  {
    if paths != [] {
      var before, last := paths[..|paths| - 1], paths[|paths| - 1];
      FoldersOfApp(app, before, measured, id, path);
      HasFolderIn(FoldersOf(app, before, measured), [FolderOf(app, last, measured)], id, path);
      assert IsFolder([FolderOf(app, last, measured)][0], id, path) <==> app.id == id && path == last;
      assert paths == before + [last];
    }
  }

  lemma {:induction false} ListedFolders(apps: seq<App>, measured: map<Text, nat>, id: Text, path: Text)
    ensures HasFolder(AllFolders(apps, measured), id, path) <==> Lists(apps, id, path)
  {
    if apps != [] {
      var before, last := apps[..|apps| - 1], apps[|apps| - 1];
      ListedFolders(before, measured, id, path);
      FoldersOfApp(last, last.paths, measured, id, path);
      HasFolderIn(AllFolders(before, measured), FoldersOf(last, last.paths, measured), id, path);
      ListsLast(before, last, id, path);
      assert apps == before + [last];
    }
  }

  // --- And where it lives ---

  /** The entry is that of the deepest data mount containing the path, or the system's if none does. */
  ghost predicate LivesOn(input: Input, entry: Entry, path: Text) {
    if entry.kind.System? then forall id <- Ids(input) :: !Contains(id, path)
    else
      && entry.id in Ids(input) && Contains(entry.id, path)
      && forall id <- Ids(input) :: Contains(id, path) ==> Contains(id, entry.id)
  }

  lemma HomeLives(input: Input, rank: Text -> real, h: nat, path: Text)
    requires h < |Filled(input, rank)| && h == HomeFor(Ids(input), path)
    ensures LivesOn(input, Filled(input, rank)[h], path)
  {
    HomeIsTheDeepest(Ids(input), path);
    if h < |Ids(input)| { assert Filled(input, rank)[h].id == Ids(input)[h]; }
  }

  lemma ShownIsFilled(input: Input, rank: Text -> real, entry: Entry) returns (h: nat)
    requires entry in StorageMap(input, rank)
    ensures h < |Filled(input, rank)| && Filled(input, rank)[h] == entry
  {
    SortKeepsElements(Cards(Filled(input, rank)), ByTitle(rank));
    h :| h < |Filled(input, rank)| && Filled(input, rank)[h] == entry;
  }

  /** A folder is shown where it lives. */
  lemma FoldersLiveWhereShown(input: Input, rank: Text -> real, entry: Entry, id: Text, path: Text)
    requires entry in StorageMap(input, rank) && HasFolder(entry.apps, id, path)
    ensures LivesOn(input, entry, path)
  {
    var h := ShownIsFilled(input, rank, entry);
    var folders := FoldersAt(Listed(input), Ids(input), h);
    TallyCounts(entry.apps, id, path);
    SortKeepsTally(folders, ByBytes(rank), FolderWeight(id, path));
    FoldersAtCounts(Listed(input), Ids(input), h, id, path);
    HomeLives(input, rank, h, path);
  }

  // --- Shares ---

  function ShareCount(x: ShownShare): ShownShare -> nat { (s: ShownShare) => if s == x then 1 else 0 }

  function CardShares(x: ShownShare): Entry -> nat { (e: Entry) => Tally(e.shares, ShareCount(x)) }

  /** A share on the data mounts' places, shown as x. */
  function Counted(x: ShownShare): SambaShare -> nat {
    (share: SambaShare) => if IsDataTarget(Stripped(share.path)) && Shown(share) == x then 1 else 0
  }

  function ListShares(x: ShownShare): seq<ShownShare> -> nat { (s: seq<ShownShare>) => Tally(s, ShareCount(x)) }

  function SharesEach(shares: seq<SambaShare>, ids: seq<Text>): seq<seq<ShownShare>> {
    seq(|ids| + 1, h requires 0 <= h <= |ids| => SharesAt(shares, ids, h))
  }

  lemma SharesAtNext(shares: seq<SambaShare>, ids: seq<Text>, h: nat, x: ShownShare)
    requires shares != []
    ensures var last := shares[|shares| - 1];
      Tally(SharesAt(shares, ids, h), ShareCount(x)) ==
      Tally(SharesAt(shares[..|shares| - 1], ids, h), ShareCount(x))
      + if h == HomeFor(ids, Stripped(last.path)) then Counted(x)(last) else 0
  {
    var before, last := SharesAt(shares[..|shares| - 1], ids, h), shares[|shares| - 1];
    assert (before + [Shown(last)])[..|before|] == before;
  }

  lemma {:induction false} SharesEachCounts(shares: seq<SambaShare>, ids: seq<Text>, x: ShownShare)
    ensures Tally(SharesEach(shares, ids), ListShares(x)) == Tally(shares, Counted(x))
  {
    if shares == [] {
      NothingTallies(SharesEach(shares, ids), ListShares(x));
    } else {
      var before, last := shares[..|shares| - 1], shares[|shares| - 1];
      var home := HomeFor(ids, Stripped(last.path));
      SharesEachCounts(before, ids, x);
      HomeIsTheDeepest(ids, Stripped(last.path));
      forall h | 0 <= h <= |ids|
        ensures ListShares(x)(SharesEach(shares, ids)[h]) ==
          ListShares(x)(SharesEach(before, ids)[h]) + if h == home then Counted(x)(last) else 0
      {
        SharesAtNext(shares, ids, h, x);
      }
      OneTermMore(
        SharesEach(before, ids), SharesEach(shares, ids), ListShares(x), ListShares(x), home, Counted(x)(last));
    }
  }

  /** Every share on the data mounts' places is shown exactly as often as it is listed, and no other. */
  lemma EachShareOnce(input: Input, rank: Text -> real, x: ShownShare)
    ensures Tally(StorageMap(input, rank), CardShares(x)) == Tally(input.shares, Counted(x))
  {
    var filled := Filled(input, rank);
    SharesEachCounts(input.shares, Ids(input), x);
    OneTermMore(SharesEach(input.shares, Ids(input)), filled, ListShares(x), CardShares(x), 0, 0);
    CardsKeepTally(filled, CardShares(x));
    SortKeepsTally(Cards(filled), ByTitle(rank), CardShares(x));
  }

  lemma {:induction false} SharesAtLive(shares: seq<SambaShare>, ids: seq<Text>, h: nat, x: ShownShare)
    requires x in SharesAt(shares, ids, h)
    ensures exists share <- shares ::
      Shown(share) == x && IsDataTarget(Stripped(share.path)) && HomeFor(ids, Stripped(share.path)) == h
  {
    var before, last := shares[..|shares| - 1], shares[|shares| - 1];
    assert shares == before + [last];
    if x in SharesAt(before, ids, h) {
      SharesAtLive(before, ids, h, x);
    } else {
      assert Shown(last) == x;
    }
  }

  /** A share is shown where it lives. */
  lemma SharesLiveWhereShown(input: Input, rank: Text -> real, entry: Entry, x: ShownShare)
    requires entry in StorageMap(input, rank) && x in entry.shares
    ensures exists share <- input.shares ::
      Shown(share) == x && IsDataTarget(Stripped(share.path)) && LivesOn(input, entry, Stripped(share.path))
  {
    var h := ShownIsFilled(input, rank, entry);
    SharesAtLive(input.shares, Ids(input), h, x);
    var share :| share in input.shares
      && Shown(share) == x && IsDataTarget(Stripped(share.path)) && HomeFor(Ids(input), Stripped(share.path)) == h;
    HomeLives(input, rank, h, Stripped(share.path));
  }

  // --- What an entry says of its place ---

  /** The first forecast for the place, or none where there is none. */
  predicate Forecasts(forecasts: seq<Forecast>, target: Text, days: Option<int>) {
    match days
    case None => forall i | 0 <= i < |forecasts| :: forecasts[i].target != target
    case Some(d) => exists i | 0 <= i < |forecasts| :: FirstFor(forecasts, i, target) && forecasts[i].daysToFull == d
  }

  predicate FirstFor(forecasts: seq<Forecast>, i: nat, target: Text) {
    i < |forecasts| && forecasts[i].target == target && forall j | 0 <= j < i :: forecasts[j].target != target
  }

  lemma {:induction false} DaysAreTheFirst(forecasts: seq<Forecast>, target: Text)
    ensures Forecasts(forecasts, target, DaysToFull(forecasts, target))
  {
    if forecasts != [] && forecasts[0].target != target {
      var rest := forecasts[1..];
      DaysAreTheFirst(rest, target);
      if DaysToFull(rest, target).Some? {
        var i :| 0 <= i < |rest| && FirstFor(rest, i, target) && rest[i].daysToFull == DaysToFull(rest, target).value;
        assert FirstFor(forecasts, i + 1, target) by {
          forall j | 0 <= j < i + 1 ensures forecasts[j].target != target {
            if j > 0 { assert rest[j - 1].target != target; }
          }
        }
      } else {
        forall j | 0 <= j < |forecasts| ensures forecasts[j].target != target {
          if j > 0 { assert rest[j - 1].target != target; }
        }
      }
    } else if forecasts != [] {
      assert FirstFor(forecasts, 0, target);
    }
  }

  lemma {:induction false} DataMountsOf(mounts: seq<Mount>)
    ensures forall mount :: mount in DataMounts(mounts) <==> mount in mounts && IsDataTarget(mount.target)
  {
    if mounts != [] {
      DataMountsOf(mounts[..|mounts| - 1]);
      assert mounts == mounts[..|mounts| - 1] + [mounts[|mounts| - 1]];
    }
  }

  /** An entry is of a data mount, connected or a drive as its address or file system tells, or of the system's. */
  predicate OfItsPlace(input: Input, entry: Entry) {
    match entry.mount
    case None => entry.kind == System && entry.id == SLASH && entry.title == Ascii("System disk")
    case Some(mount) =>
      && mount in input.mounts && (Ascii("/mnt/") <= mount.target || Ascii("/srv/") <= mount.target)
      && entry.id == mount.target && entry.title == mount.target
      && entry.kind == if mount.target in input.networkTargets || mount.fstype == Ascii("cifs")
                          || mount.fstype == Ascii("nfs") || mount.fstype == Ascii("nfs4") then Network else Drive
  }

  /** Each entry shown says what its place is and when it is forecast to fill. */
  lemma EntriesSayTheirPlace(input: Input, rank: Text -> real, entry: Entry)
    requires entry in StorageMap(input, rank)
    ensures OfItsPlace(input, entry) && Forecasts(input.forecasts, entry.id, entry.daysToFull)
  {
    var h := ShownIsFilled(input, rank, entry);
    var mounts := DataMounts(input.mounts);
    DataMountsOf(input.mounts);
    if h < |mounts| { assert mounts[h] in mounts; }
    DaysAreTheFirst(input.forecasts, entry.id);
  }

  function MountWeight(mount: Mount): Mount -> nat { (other: Mount) => if other == mount then 1 else 0 }

  function EntryOf(mount: Mount): Entry -> nat { (entry: Entry) => if entry.mount == Some(mount) then 1 else 0 }

  lemma {:induction false} DataMountsTally(mounts: seq<Mount>, mount: Mount)
    requires IsDataTarget(mount.target)
    ensures Tally(DataMounts(mounts), MountWeight(mount)) == Tally(mounts, MountWeight(mount))
  {
    if mounts != [] {
      var before, last := DataMounts(mounts[..|mounts| - 1]), mounts[|mounts| - 1];
      DataMountsTally(mounts[..|mounts| - 1], mount);
      if IsDataTarget(last.target) { assert (before + [last])[..|before|] == before; }
      if !IsDataTarget(last.target) { assert before + [] == before; }
    }
  }

  /** Every data mount has its entry, as often as it is listed, whatever lives there. */
  lemma EachMountIsShown(input: Input, rank: Text -> real, mount: Mount)
    requires IsDataTarget(mount.target)
    ensures Tally(StorageMap(input, rank), EntryOf(mount)) == Tally(input.mounts, MountWeight(mount))
  {
    var filled, mounts := Filled(input, rank), DataMounts(input.mounts);
    SortKeepsTally(Cards(filled), ByTitle(rank), EntryOf(mount));
    var last := |filled| - 1;
    assert Tally(filled, EntryOf(mount)) == Tally(filled[..last], EntryOf(mount)) + EntryOf(mount)(filled[last]);
    OneTermMore(mounts, filled[..last], MountWeight(mount), EntryOf(mount), 0, 0);
    DataMountsTally(input.mounts, mount);
  }

  // --- The order of things ---

  lemma OrdersAreStrictWeak(rank: Text -> real)
    ensures StrictWeak(ByBytes(rank)) && StrictWeak(ByTitle(rank))
  {
  }

  /** Entries stand by label with the system's last; the folders of each biggest first. */
  lemma MapIsSorted(input: Input, rank: Text -> real)
    ensures Sorted(StorageMap(input, rank), ByTitle(rank))
    ensures forall entry <- StorageMap(input, rank) :: Sorted(entry.apps, ByBytes(rank))
  {
    OrdersAreStrictWeak(rank);
    SortSorts(Cards(Filled(input, rank)), ByTitle(rank));
    forall entry | entry in StorageMap(input, rank) ensures Sorted(entry.apps, ByBytes(rank)) {
      var h := ShownIsFilled(input, rank, entry);
      SortSorts(FoldersAt(Listed(input), Ids(input), h), ByBytes(rank));
    }
  }

  // --- What was measured ---

  predicate Spells(usage: Usage, path: Text) {
    usage.path.Some? && usage.path.value != [] && Stripped(usage.path.value) == path
  }

  predicate LastSpelling(usage: seq<Usage>, i: nat, path: Text) {
    i < |usage| && Spells(usage[i], path) && forall j | i < j < |usage| :: !Spells(usage[j], path)
  }

  lemma {:induction false} MeasuredIsTheLast(usage: seq<Usage>, path: Text)
    ensures path !in Measured(usage) ==> forall i | 0 <= i < |usage| :: !Spells(usage[i], path)
    ensures path in Measured(usage) ==>
      exists i | 0 <= i < |usage| :: LastSpelling(usage, i, path) && Measured(usage)[path] == usage[i].bytes
  {
    if usage != [] {
      var before, last := usage[..|usage| - 1], |usage| - 1;
      MeasuredIsTheLast(before, path);
      if Spells(usage[last], path) {
        assert LastSpelling(usage, last, path);
      } else if path in Measured(before) {
        var i :| 0 <= i < |before| && LastSpelling(before, i, path) && Measured(before)[path] == before[i].bytes;
        assert LastSpelling(usage, i, path);
      }
    }
  }

  predicate SaysItsSize(f: Folder, measured: map<Text, nat>) {
    f.bytes == if f.path in measured then Some(measured[f.path]) else None
  }

  lemma {:induction false} ListedSayTheirSize(apps: seq<App>, measured: map<Text, nat>)
    ensures forall f <- AllFolders(apps, measured) :: SaysItsSize(f, measured)
  {
    if apps != [] {
      ListedSayTheirSize(apps[..|apps| - 1], measured);
      AppSaysItsSize(apps[|apps| - 1], apps[|apps| - 1].paths, measured);
    }
  }

  lemma {:induction false} AppSaysItsSize(app: App, paths: seq<Text>, measured: map<Text, nat>)
    ensures forall f <- FoldersOf(app, paths, measured) :: SaysItsSize(f, measured)
  {
    if paths != [] { AppSaysItsSize(app, paths[..|paths| - 1], measured); }
  }

  lemma {:induction false} HeldAreListed(folders: seq<Folder>, ids: seq<Text>, h: nat)
    ensures forall f <- FoldersAt(folders, ids, h) :: f in folders
  {
    if folders != [] {
      HeldAreListed(folders[..|folders| - 1], ids, h);
      assert folders == folders[..|folders| - 1] + [folders[|folders| - 1]];
    }
  }

  /** A folder is shown with what was last measured of it, and with nothing if it never was. */
  lemma FoldersSayTheirSize(input: Input, rank: Text -> real, entry: Entry, f: Folder)
    requires entry in StorageMap(input, rank) && f in entry.apps
    ensures f.bytes.None? ==> forall i | 0 <= i < |input.usage| :: !Spells(input.usage[i], f.path)
    ensures f.bytes.Some? ==>
      exists i | 0 <= i < |input.usage| :: LastSpelling(input.usage, i, f.path) && f.bytes.value == input.usage[i].bytes
  {
    var h := ShownIsFilled(input, rank, entry);
    SortKeepsElements(FoldersAt(Listed(input), Ids(input), h), ByBytes(rank));
    HeldAreListed(Listed(input), Ids(input), h);
    ListedSayTheirSize(input.apps, Measured(input.usage));
    assert f in Listed(input);
    MeasuredIsTheLast(input.usage, f.path);
  }

  // --- The code's loops ---

  /** The entries once some folders have been pushed. */
  function WithFolders(homes: seq<Entry>, folders: seq<Folder>, ids: seq<Text>): seq<Entry> {
    seq(|homes|, h requires 0 <= h < |homes| => homes[h].(apps := FoldersAt(folders, ids, h)))
  }

  method Push(homes: seq<Entry>, ids: seq<Text>, f: Folder, ghost start: seq<Entry>, ghost folders: seq<Folder>)
    returns (pushed: seq<Entry>)
    requires |homes| == |ids| + 1 == |start| && homes == WithFolders(start, folders, ids)
    ensures pushed == WithFolders(start, folders + [f], ids)
  {
    var home := HomeFor(ids, f.path);
    HomeIsTheDeepest(ids, f.path);
    pushed := homes[home := homes[home].(apps := WithFolder(homes[home].apps, f))];
    assert (folders + [f])[..|folders|] == folders;
  }

  method BuildStorageMap(input: Input, rank: Text -> real) returns (shown: seq<Entry>)
    ensures shown == StorageMap(input, rank)
  {
    var measured, homes, ids := Measured(input.usage), Homes(input), Ids(input);
    ghost var start := homes;
    ghost var pushed: seq<Folder> := [];
    for a := 0 to |input.apps|
      invariant pushed == AllFolders(input.apps[..a], measured) && homes == WithFolders(start, pushed, ids)
    {
      var app := input.apps[a];
      ghost var before := pushed;
      assert before + [] == before;
      for p := 0 to |app.paths|
        invariant pushed == before + FoldersOf(app, app.paths[..p], measured)
        invariant homes == WithFolders(start, pushed, ids)
      {
        var f := FolderOf(app, app.paths[p], measured);
        homes := Push(homes, ids, f, start, pushed);
        pushed := pushed + [f];
        assert app.paths[..p + 1][..p] == app.paths[..p];
      }
      assert app.paths[..|app.paths|] == app.paths;
      assert input.apps[..a + 1][..a] == input.apps[..a];
    }
    assert input.apps[..|input.apps|] == input.apps;
    homes := SortFolders(homes, rank);
    homes := PushShares(homes, input.shares, ids);
    assert homes == Filled(input, rank);
    shown := Sort(Cards(homes), ByTitle(rank));
  }

  method SortFolders(homes: seq<Entry>, rank: Text -> real) returns (sorted: seq<Entry>)
    ensures sorted == seq(|homes|, h requires 0 <= h < |homes| => homes[h].(apps := Sort(homes[h].apps, ByBytes(rank))))
  {
    sorted := homes;
    for h := 0 to |homes|
      invariant |sorted| == |homes|
      invariant forall k | 0 <= k < h :: sorted[k] == homes[k].(apps := Sort(homes[k].apps, ByBytes(rank)))
      invariant forall k | h <= k < |homes| :: sorted[k] == homes[k]
    {
      sorted := sorted[h := sorted[h].(apps := Sort(sorted[h].apps, ByBytes(rank)))];
    }
  }

  method PushShares(homes: seq<Entry>, shares: seq<SambaShare>, ids: seq<Text>) returns (pushed: seq<Entry>)
    requires |homes| == |ids| + 1 && forall h | 0 <= h < |homes| :: homes[h].shares == []
    ensures pushed == seq(|homes|, h requires 0 <= h < |homes| => homes[h].(shares := SharesAt(shares, ids, h)))
  {
    pushed := homes;
    for s := 0 to |shares|
      invariant |pushed| == |homes|
      invariant forall h | 0 <= h < |homes| :: pushed[h] == homes[h].(shares := SharesAt(shares[..s], ids, h))
    {
      assert shares[..s + 1][..s] == shares[..s];
      var path := Stripped(shares[s].path);
      if IsDataTarget(path) {
        var home := HomeFor(ids, path);
        HomeIsTheDeepest(ids, path);
        pushed := pushed[home := pushed[home].(shares := pushed[home].shares + [Shown(shares[s])])];
      }
    }
    assert shares[..|shares|] == shares;
  }
}
