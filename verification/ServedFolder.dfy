/** src/servedFolder.ts: which folders the file servers would take. */
module ServedFolder {
  import opened Paths
  import opened Strings

  const PROTECTED: seq<Text> := [
    Ascii("/etc"), Ascii("/proc"), Ascii("/sys"), Ascii("/dev"), Ascii("/boot"), Ascii("/root"), Ascii("/run"),
    Ascii("/var/run"), Ascii("/opt"), Ascii("/snap"), Ascii("/usr"), Ascii("/bin"), Ascii("/sbin"), Ascii("/lib"),
    Ascii("/lib64"), Ascii("/var/lib/libvirt"), Ascii("/var/lib/docker"), Ascii("/var/lib/boxpilot"),
    Ascii("/var/lib/boxpilot-managed"), Ascii("/mnt/boxpilot")]

  /** What Samba refuses to share, and what the NFS server refuses to export. */
  const SHARE_DENY: seq<Text> := PROTECTED + [Ascii("/var/lib/samba")]

  const EXPORT_DENY: seq<Text> := PROTECTED + [Ascii("/var/lib/nfs")]

  const LONGEST: nat := 512

  /** What a share's path may not hold. */
  predicate BreaksLine(u: CodeUnit) { u == 0 || u == 10 || u == 13 }

  /** What an export's may not. */
  predicate ForbiddenInExport(u: CodeUnit) { BreaksLine(u) || IsSpace(u) || u == 34 }

  predicate GoodPart(part: Text) { part != [] && part != [46] && part != [46, 46] }

  predicate Clashes(denied: Text, trimmed: Text) { Contains(denied, trimmed) || Contains(trimmed, denied) }

  predicate Served(path: Text, deny: seq<Text>, forbidden: CodeUnit -> bool) {
    if |path| > LONGEST || !(SLASH <= path) || exists u <- path :: forbidden(u) then false
    else
      var trimmed := Stripped(path);
      if trimmed == [] then false
      else if exists part <- Split(trimmed)[1..] :: !GoodPart(part) then false
      else forall denied <- deny :: !Clashes(denied, trimmed)
  }

  predicate MayServe(path: Text) {
    Served(path, SHARE_DENY, BreaksLine) && Served(path, EXPORT_DENY, ForbiddenInExport)
  }

  /** One spelling only, past its trailing slashes, and short enough. */
  predicate Spelled(path: Text) {
    && |path| <= LONGEST && SLASH <= path
    && (forall u <- path :: !ForbiddenInExport(u))
    && Stripped(path) != []
    && (forall part <- Split(Stripped(path))[1..] :: GoodPart(part))
  }

  /** Inside a folder one of the servers refuses. */
  predicate Protected(path: Text) { exists denied <- SHARE_DENY + EXPORT_DENY :: Contains(denied, path) }

  lemma ServedIs(path: Text, deny: seq<Text>, forbidden: CodeUnit -> bool)
    ensures Served(path, deny, forbidden) <==>
      && |path| <= LONGEST && SLASH <= path
      && (forall u <- path :: !forbidden(u))
      && Stripped(path) != []
      && (forall part <- Split(Stripped(path))[1..] :: GoodPart(part))
      && (forall denied <- deny :: !Clashes(denied, Stripped(path)))
  {
  }

  lemma ServedUnfolds(path: Text)
    ensures MayServe(path)
       <==> Spelled(path) && forall denied <- SHARE_DENY + EXPORT_DENY :: !Clashes(denied, Stripped(path))
  {
    ServedIs(path, SHARE_DENY, BreaksLine);
    ServedIs(path, EXPORT_DENY, ForbiddenInExport);
    assert forall u <- path :: BreaksLine(u) ==> ForbiddenInExport(u);
  }

  /**
   * A folder may be served exactly when it is spelled well and nothing under it, itself included, is
   * inside a protected folder.
   */
  lemma ServesNothingProtected(path: Text)
    ensures MayServe(path) <==> Spelled(path) && forall below :: Contains(Stripped(path), below) ==> !Protected(below)
  {
    ServedUnfolds(path);
    var trimmed := Stripped(path);
    if MayServe(path) {
      forall below | Contains(trimmed, below) ensures !Protected(below) {
        forall denied | denied in SHARE_DENY + EXPORT_DENY ensures !Contains(denied, below) {
          assert !Clashes(denied, trimmed);
          if Contains(denied, below) {
            if |denied| <= |trimmed| {
              AncestorsFormAChain(denied, trimmed, below);
            } else {
              AncestorsFormAChain(trimmed, denied, below);
            }
          }
        }
      }
    }
    if Spelled(path) && forall below :: Contains(trimmed, below) ==> !Protected(below) {
      forall denied | denied in SHARE_DENY + EXPORT_DENY ensures !Clashes(denied, trimmed) {
        assert Contains(denied, denied) && Protected(denied);
        assert Contains(denied, trimmed) ==> Protected(trimmed);
        assert Contains(trimmed, trimmed);
      }
    }
  }

  /** Parts joined by single slashes, none of them a way out. */
  predicate GoodParts(rest: Text) {
    (forall part <- Split(rest) :: GoodPart(part)) && (forall u <- rest :: !ForbiddenInExport(u))
  }

  lemma BelowIsSpelled(path: Text, rest: Text)
    requires Spelled(path) && GoodParts(rest)
    requires |Stripped(path) + SLASH + rest| <= LONGEST
    ensures Spelled(Stripped(path) + SLASH + rest)
    ensures Stripped(Stripped(path) + SLASH + rest) == Stripped(path) + SLASH + rest
  {
    var trimmed := Stripped(path);
    var below := trimmed + SLASH + rest;
    StrippedEnds(path);
    SplitAround(trimmed, rest);
    assert Split(below)[|Split(below)| - 1] in Split(rest);
    LastPart(below);
    assert forall part <- Split(below)[1..] :: part in Split(trimmed)[1..] || part in Split(rest);
  }

  /** What may be served is closed downward: so may every well-spelled folder below it, within the limit. */
  lemma ServedBelow(path: Text, rest: Text)
    requires MayServe(path) && GoodParts(rest)
    requires |Stripped(path) + SLASH + rest| <= LONGEST
    ensures MayServe(Stripped(path) + SLASH + rest)
  {
    ServesNothingProtected(path);
    BelowIsSpelled(path, rest);
    var below := Stripped(path) + SLASH + rest;
    assert Contains(Stripped(path), below);
    forall deeper | Contains(below, deeper) ensures !Protected(deeper) {
      ContainsChains(Stripped(path), below, deeper);
    }
    ServesNothingProtected(below);
  }

  lemma {:induction false} SlashesOf(n: nat)
    ensures |Slashes(n)| == n && forall u <- Slashes(n) :: u == 47
  {
    if n > 0 { SlashesOf(n - 1); }
  }

  /** Trailing slashes within the limit never change the answer. */
  lemma TrailingSlashesChangeNothing(path: Text, n: nat)
    requires |path| + n <= LONGEST
    ensures MayServe(path + Slashes(n)) <==> MayServe(path)
  {
    ServedUnfolds(path);
    ServedUnfolds(path + Slashes(n));
    StrippedSlashes(path, n);
    SlashesOf(n);
    StrippedEnds(path);
  }
}
