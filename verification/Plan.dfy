/** Planning (internal/mirror/plan.go): compare the local tree with the index and list what
    has to be done. Read-only. */
module Plan {
  import opened Bytes
  import opened Records
  import opened Model

  // ---- decisions about one path ----

  /** Videos go to the recycle folder, everything else is deleted. */
  function ClearOp(path: Path, rec: Record): Op {
    NewOp(if rec.kind == KIND_STRM then Retire else Drop, path).(fid := rec.fid)
  }

  function DecideMissing(path: Path, rec: Record): seq<Op> {
    if rec.fid == "" then [] else [ClearOp(path, rec)]
  }

  /** `decideDir` without the descent. */
  function DecideDir(path: Path, rec: Record): seq<Op> {
    if rec.fid == "" then [NewOp(Mkdir, path)]
    else if rec.kind != KIND_DIR then [ClearOp(path, rec), NewOp(Mkdir, path)]
    else []
  }

  function AdoptOps(path: Path, pickCode: string): seq<Op> {
    if pickCode == "" then [] else [AdoptOp(path, pickCode)]
  }

  function DecideStrm(s: Setup, path: Path, rec: Record, text: string): seq<Op> {
    var pc := s.links.PickCodeOf(text);
    if rec.fid != "" && rec.kind != KIND_STRM then [ClearOp(path, rec)] + AdoptOps(path, pc)
    else if rec.fid == "" then AdoptOps(path, pc)
    else if pc == "" then [NewOp(Retire, path).(fid := rec.fid)]
    else if pc != rec.pickCode then [NewOp(Retire, path).(fid := rec.fid), AdoptOp(path, pc)]
    else if s.links.NeedsFix(pc, text) then [NewOp(Normalize, path)]
    else []
  }

  function DecidePlain(path: Path, rec: Record, size: int): seq<Op> {
    if rec.fid != "" && rec.kind != KIND_FILE then [ClearOp(path, rec), UploadOp(path, size)]
    else if rec.fid == "" then [UploadOp(path, size)]
    else if rec.size == size then []
    else [NewOp(Drop, path).(fid := rec.fid), UploadOp(path, size)]
  }

  /** A video's record hangs on its `.strm` key, so that key is looked up here. */
  function DecideVideo(s: Setup, idx: Index, path: Path, rec: Record, size: int): seq<Op>
    requires |path| > 0
  {
    var key := StrmKey(path);
    var conflict := key in idx && idx[key].kind != KIND_STRM;
    var ops := if conflict then [ClearOp(key, idx[key])] else [];
    var has := key in idx && !conflict;
    if !s.rules.IsVideo(Base(path), size) then
      if has then ops else ops + DecidePlain(path, rec, size)
    else
      ops + [UploadOp(path, size).(isVideo := true, replaceFid := if has then idx[key].fid else "")]
  }

  function DecideFile(s: Setup, idx: Index, path: Path, rec: Record, size: int, text: string): seq<Op>
    requires |path| > 0
  {
    if IsStrm(Base(path)) then DecideStrm(s, path, rec, text)
    else if s.toStrm && s.rules.IsVideoExt(Base(path)) then DecideVideo(s, idx, path, rec, size)
    else DecidePlain(path, rec, size)
  }

  /** `stateOf` then `decide`, without the descent into a directory: an unreadable entry is
      skipped, never treated as deleted. */
  function Decide(s: Setup, idx: Index, path: Path, rec: Record, e: Option<Entry>): seq<Op>
    requires |path| > 0
  {
    match e
    case None => DecideMissing(path, rec)
    case Some(Dir(_)) => DecideDir(path, rec)
    case Some(File(size, text)) => DecideFile(s, idx, path, rec, size, text)
    case Some(Unreadable) => []
  }

  // ---- one directory ----

  /** What `readLocalDir` keeps: neither excluded by name nor the cache folder. */
  predicate Listed(s: Setup, fs: Tree, p: Path) {
    |p| > 0 && p in fs && !s.rules.excluded(Base(p)) && s.excludeDir != Some(p)
  }

  function Listing(s: Setup, fs: Tree, dir: Path): set<string> {
    set p | p in fs && |p| == |dir| + 1 && p[..|dir|] == dir && Listed(s, fs, p) :: p[|dir|]
  }

  lemma InListing(s: Setup, fs: Tree, dir: Path, n: string)
    ensures n in Listing(s, fs, dir) <==> Listed(s, fs, dir + [n])
  {
    if Listed(s, fs, dir + [n]) {
      assert (dir + [n])[|dir|] == n && (dir + [n])[..|dir|] == dir;
    }
    if n in Listing(s, fs, dir) {
      var p :| p in fs && |p| == |dir| + 1 && p[..|dir|] == dir && Listed(s, fs, p) && p[|dir|] == n;
      assert p == dir + [n];
    }
  }

  /** Names of the index records directly below `dir`. */
  function ChildNames(idx: Index, dir: Path): set<string> {
    set p | p in idx && |p| == |dir| + 1 && p[..|dir|] == dir :: p[|dir|]
  }

  lemma InChildNames(idx: Index, dir: Path, n: string)
    ensures n in ChildNames(idx, dir) <==> dir + [n] in idx
  {
    if dir + [n] in idx {
      assert (dir + [n])[|dir|] == n && (dir + [n])[..|dir|] == dir;
    }
    if n in ChildNames(idx, dir) {
      var p :| p in idx && |p| == |dir| + 1 && p[..|dir|] == dir && p[|dir|] == n;
      assert p == dir + [n];
    }
  }

  /** `coveredByLocal`: an index key `a.strm` belongs to a local video `a.<ext>` that has not
      been consumed yet. */
  predicate Covered(s: Setup, fs: Tree, dir: Path, name: string, entries: set<string>) {
    && s.toStrm && IsStrm(name)
    && exists v :: v in entries && dir + [v] in fs && !fs[dir + [v]].Dir?
                   && s.rules.IsVideoExt(v) && Stem(v) == Stem(name)
  }

  /** The order of a directory's scan: index children first, then unindexed local names. */
  ghost function ScanNames(s: Setup, fs: Tree, idx: Index, dir: Path): (r: seq<string>)
    ensures forall n :: n in r <==> n in ChildNames(idx, dir) || n in Listing(s, fs, dir)
  {
    SortedSeq(ChildNames(idx, dir)) + SortedSeq(Listing(s, fs, dir) - ChildNames(idx, dir))
  }

  lemma ScanNamesDistinct(s: Setup, fs: Tree, idx: Index, dir: Path)
    ensures var names := ScanNames(s, fs, idx, dir);
      forall i, j :: 0 <= i < j < |names| ==> names[i] != names[j]
  {
    hide Less, SortedSeq, Listing, ChildNames;
    var a, b := SortedSeq(ChildNames(idx, dir)), SortedSeq(Listing(s, fs, dir) - ChildNames(idx, dir));
    SortedSeqIsSorted(ChildNames(idx, dir));
    SortedSeqIsSorted(Listing(s, fs, dir) - ChildNames(idx, dir));
    var names := a + b;
    forall i, j | 0 <= i < j < |names| ensures names[i] != names[j] {
      if j < |a| {
        LessAsymmetric(a[i], a[j]);
      } else if i >= |a| {
        LessAsymmetric(b[i - |a|], b[j - |a|]);
      } else {
        assert a[i] in a && b[j - |a|] in b;
      }
    }
  }

  ghost function Before(names: seq<string>, i: nat): set<string>
    requires i <= |names|
  {
    set n | n in names[..i]
  }

  function EntryAt(s: Setup, fs: Tree, p: Path): Option<Entry> {
    if Listed(s, fs, p) then Some(fs[p]) else None
  }

  /** The entries below a path: the descent is into a strictly smaller set. */
  function Below(fs: Tree, dir: Path): set<Path> {
    set p | p in fs && dir < p
  }

  /** What the scan says at one path and everything below it (`PlanFile` on a listed path). */
  ghost function PlanAt(s: Setup, fs: Tree, idx: Index, p: Path): seq<Op>
    requires |p| > 0
    decreases Below(fs, Parent(p)), 0, 0
  {
    Decide(s, idx, p, RecAt(idx, p), EntryAt(s, fs, p))
      + (if Listed(s, fs, p) && fs[p].Dir? then
           assert p in Below(fs, Parent(p)) && p !in Below(fs, p);
           PlanDir(s, fs, idx, p)
         else [])
  }

  /** `planDir` as a whole: in scan order, the answer for each name, except that an unlisted
      index key claimed by a local video not yet consumed is left to that video. */
  ghost function PlanDir(s: Setup, fs: Tree, idx: Index, dir: Path): seq<Op>
    decreases Below(fs, dir), 2, 0
  {
    if dir in fs && fs[dir].Dir? && fs[dir].readable then PlanNames(s, fs, idx, dir, ScanNames(s, fs, idx, dir), 0)
    else []
  }

  ghost predicate Claimed(s: Setup, fs: Tree, dir: Path, names: seq<string>, i: nat)
    requires i < |names|
  {
    && names[i] !in Listing(s, fs, dir)
    && Covered(s, fs, dir, names[i], Listing(s, fs, dir) - Before(names, i))
  }

  ghost function PlanNames(s: Setup, fs: Tree, idx: Index, dir: Path, names: seq<string>, i: nat): seq<Op>
    requires i <= |names|
    decreases Below(fs, dir), 1, |names| - i
  {
    if i == |names| then []
    else
      assert Parent(dir + [names[i]]) == dir;
      (if Claimed(s, fs, dir, names, i) then [] else PlanAt(s, fs, idx, dir + [names[i]]))
        + PlanNames(s, fs, idx, dir, names, i + 1)
  }

  /** A directory below `dir` that the scan enters and cannot read: `PlanLocal` returns an error. */
  ghost predicate ScanFails(s: Setup, fs: Tree, dir: Path) {
    exists d :: Scanned(s, fs, dir, d) && !fs[d].readable
  }

  // ---- which paths a scan looks at ----

  /** `d` is a directory that a scan from `root` enters. */
  ghost predicate Scanned(s: Setup, fs: Tree, root: Path, d: Path) {
    && root <= d && IsDirAt(fs, root) && IsDirAt(fs, d)
    && forall i :: |root| < i <= |d| ==> Listed(s, fs, d[..i]) && fs[d[..i]].Dir?
  }

  /** `p` is a path that a scan from `root` can decide about. */
  ghost predicate InScope(s: Setup, fs: Tree, root: Path, p: Path) {
    root < p && Scanned(s, fs, root, Parent(p))
  }

  ghost function OpsAt(s: Setup, fs: Tree, idx: Index, p: Path): seq<Op>
    requires |p| > 0
  {
    Decide(s, idx, p, RecAt(idx, p), EntryAt(s, fs, p))
  }

  lemma ScannedExtends(s: Setup, fs: Tree, root: Path, d: Path, p: Path)
    requires Scanned(s, fs, root, d) && InScope(s, fs, d, p)
    ensures InScope(s, fs, root, p)
  {
    var q := Parent(p);
    forall i | |root| < i <= |q| ensures Listed(s, fs, q[..i]) && fs[q[..i]].Dir? {
      if i <= |d| { assert q[..i] == d[..i]; }
    }
  }

  lemma ChildInScope(s: Setup, fs: Tree, dir: Path, n: string)
    requires IsDirAt(fs, dir)
    ensures InScope(s, fs, dir, dir + [n]) && Parent(dir + [n]) == dir
  {
    assert Parent(dir + [n]) == dir;
  }

  lemma ChildScanned(s: Setup, fs: Tree, dir: Path, n: string)
    requires IsDirAt(fs, dir)
    requires Listed(s, fs, dir + [n]) && fs[dir + [n]].Dir?
    ensures Scanned(s, fs, dir, dir + [n])
  {
    forall i | |dir| < i <= |dir| + 1 ensures Listed(s, fs, (dir + [n])[..i]) && fs[(dir + [n])[..i]].Dir? {
      assert (dir + [n])[..i] == dir + [n];
    }
  }

  /** Soundness: every planned operation is the decision about one path in scope that is not left to
      a video. */
  lemma {:induction false} PlanDirSound(s: Setup, fs: Tree, idx: Index, dir: Path, op: Op) returns (p: Path)
    requires op in PlanDir(s, fs, idx, dir)
    ensures InScope(s, fs, dir, p) && op in OpsAt(s, fs, idx, p) && !LeftToVideo(s, fs, idx, p)
    decreases Below(fs, dir), 2, 0
  {
    hide LeftToVideo;
    p := PlanNamesSound(s, fs, idx, dir, ScanNames(s, fs, idx, dir), 0, op);
  }

  lemma {:induction false} PlanNamesSound(s: Setup, fs: Tree, idx: Index, dir: Path, names: seq<string>, i: nat, op: Op)
    returns (p: Path)
    requires i <= |names| && IsDirAt(fs, dir) && names == ScanNames(s, fs, idx, dir)
    requires op in PlanNames(s, fs, idx, dir, names, i)
    ensures InScope(s, fs, dir, p) && op in OpsAt(s, fs, idx, p) && !LeftToVideo(s, fs, idx, p)
    decreases Below(fs, dir), 1, |names| - i
  {
    hide Decide, Covered, Ext, Lower, Stem, ScanNames, Listed, Claimed, PlanNames, PlanAt, PlanDir, Scanned, OpsAt,
      InScope, LeftToVideo;
    SomeName(s, fs, idx, dir, names, i, op);
    var q := dir + [names[i]];
    ChildInScope(s, fs, dir, names[i]);
    if op in PlanNames(s, fs, idx, dir, names, i + 1) {
      p := PlanNamesSound(s, fs, idx, dir, names, i + 1, op);
    } else if op in OpsAt(s, fs, idx, q) && !Claimed(s, fs, dir, names, i) {
      p := q;
      UnclaimedIsOwn(s, fs, idx, dir, i);
    } else {
      assert q in Below(fs, dir) && q !in Below(fs, q);
      p := PlanDirSound(s, fs, idx, q, op);
      ChildScanned(s, fs, dir, names[i]);
      ScannedExtends(s, fs, dir, q, p);
    }
  }

  lemma UnclaimedIsOwn(s: Setup, fs: Tree, idx: Index, dir: Path, i: nat)
    requires i < |ScanNames(s, fs, idx, dir)| && !Claimed(s, fs, dir, ScanNames(s, fs, idx, dir), i)
    ensures !LeftToVideo(s, fs, idx, dir + [ScanNames(s, fs, idx, dir)[i]])
  {
    hide ScanNames, Claimed;
    var q := dir + [ScanNames(s, fs, idx, dir)[i]];
    assert Parent(q) == dir;
    ScanNamesDistinct(s, fs, idx, dir);
  }

  /** An operation of a directory's plan comes from its next name, from below it, or later. */
  lemma SomeName(s: Setup, fs: Tree, idx: Index, dir: Path, names: seq<string>, i: nat, op: Op)
    requires i <= |names| && op in PlanNames(s, fs, idx, dir, names, i)
    ensures i < |names|
    ensures var q := dir + [names[i]];
      || op in PlanNames(s, fs, idx, dir, names, i + 1)
      || (op in OpsAt(s, fs, idx, q) && !Claimed(s, fs, dir, names, i))
      || (Listed(s, fs, q) && q in fs && fs[q].Dir? && op in PlanDir(s, fs, idx, q))
  {
    hide Decide, Covered, Ext, Lower, Stem, ScanNames, Claimed, PlanDir;
  }

  /** The index knows `p`, the scan does not list it, and a local video of its stem that is not
      yet consumed claims it: its decision is left to that video. */
  ghost predicate LeftToVideo(s: Setup, fs: Tree, idx: Index, p: Path)
    requires |p| > 0
  {
    && s.toStrm && !Listed(s, fs, p)
    && exists i :: ClaimedName(s, fs, idx, p, i)
  }

  ghost predicate ClaimedName(s: Setup, fs: Tree, idx: Index, p: Path, i: nat)
    requires |p| > 0
  {
    var names := ScanNames(s, fs, idx, Parent(p));
    i < |names| && names[i] == Base(p) && Claimed(s, fs, Parent(p), names, i)
  }

  /** Completeness: when every directory is readable, each decision in scope is part of the
      plan, except those left to a video. */
  lemma {:induction false} PlanDirComplete(s: Setup, fs: Tree, idx: Index, dir: Path, p: Path)
    requires !ScanFails(s, fs, dir)
    requires InScope(s, fs, dir, p)
    ensures LeftToVideo(s, fs, idx, p) || forall op :: op in OpsAt(s, fs, idx, p) ==> op in PlanDir(s, fs, idx, dir)
    decreases |p| - |dir|
  {
    hide LeftToVideo, OpsAt, PlanDir, ScanNames, Decide, Ext, Lower, Stem;
    var n := p[|dir|];
    var q := dir + [n];
    assert Scanned(s, fs, dir, dir);
    InListing(s, fs, dir, n);
    if p == q {
      ChildComplete(s, fs, idx, dir, n);
    } else {
      ScopeStep(s, fs, dir, p);
      ReadableBelow(s, fs, dir, q);
      PlanDirComplete(s, fs, idx, q, p);
      NameIsPlanned(s, fs, idx, dir, n);
      ListedIsDecided(s, fs, idx, q);
    }
  }

  /** Only keys that the scan does not list, with links on, are ever left to a video. */
  lemma ListedIsDecided(s: Setup, fs: Tree, idx: Index, p: Path)
    requires |p| > 0 && (Listed(s, fs, p) || !s.toStrm)
    ensures !LeftToVideo(s, fs, idx, p)
  {}

  /** Nor is what has no link's name. */
  lemma NoLinkIsOwn(s: Setup, fs: Tree, idx: Index, q: Path)
    requires |q| > 0 && !IsStrm(Base(q))
    ensures !LeftToVideo(s, fs, idx, q)
  {
    hide IsStrm, Stem, Ext, Lower, ScanNames;
  }

  lemma ChildComplete(s: Setup, fs: Tree, idx: Index, dir: Path, n: string)
    requires IsDirAt(fs, dir) && fs[dir].readable
    ensures var p := dir + [n];
      LeftToVideo(s, fs, idx, p) || forall op :: op in OpsAt(s, fs, idx, p) ==> op in PlanDir(s, fs, idx, dir)
  {
    hide PlanDir, ScanNames, Ext, Lower, Stem, LeftToVideo;
    InListing(s, fs, dir, n);
    InChildNames(idx, dir, n);
    if n in ScanNames(s, fs, idx, dir) { NameIsPlanned(s, fs, idx, dir, n); }
  }

  lemma NameIsPlanned(s: Setup, fs: Tree, idx: Index, dir: Path, n: string)
    requires IsDirAt(fs, dir) && fs[dir].readable && n in ScanNames(s, fs, idx, dir)
    ensures LeftToVideo(s, fs, idx, dir + [n])
      || forall op :: op in PlanAt(s, fs, idx, dir + [n]) ==> op in PlanDir(s, fs, idx, dir)
  {
    hide PlanAt, PlanNames, ScanNames, Covered;
    var names := ScanNames(s, fs, idx, dir);
    var i :| 0 <= i < |names| && names[i] == n;
    assert Parent(dir + [n]) == dir && Base(dir + [n]) == n;
    if Claimed(s, fs, dir, names, i) {
      ClaimNeedsLinks(s, fs, dir, names, i);
      InListing(s, fs, dir, n);
      assert ClaimedName(s, fs, idx, dir + [n], i);
    } else {
      LaterNameIsPlanned(s, fs, idx, dir, names, 0, i);
    }
  }

  lemma ClaimNeedsLinks(s: Setup, fs: Tree, dir: Path, names: seq<string>, i: nat)
    requires i < |names| && Claimed(s, fs, dir, names, i)
    ensures s.toStrm && IsStrm(names[i])
  {
    hide Ext, Lower, Stem;
  }

  /** The first step from `dir` towards a deeper path in scope is a listed directory. */
  lemma ScopeStep(s: Setup, fs: Tree, dir: Path, p: Path)
    requires InScope(s, fs, dir, p) && |p| > |dir| + 1
    ensures var q := dir + [p[|dir|]];
      Listed(s, fs, q) && fs[q].Dir? && Scanned(s, fs, dir, q) && InScope(s, fs, q, p)
  {
    var q, up := dir + [p[|dir|]], Parent(p);
    assert up[..|dir| + 1] == q;
    ChildScanned(s, fs, dir, p[|dir|]);
    assert q <= up;
    forall i | |q| < i <= |up| ensures Listed(s, fs, up[..i]) && fs[up[..i]].Dir? {}
  }

  lemma ReadableBelow(s: Setup, fs: Tree, dir: Path, q: Path)
    requires !ScanFails(s, fs, dir) && Scanned(s, fs, dir, q)
    ensures !ScanFails(s, fs, q)
  {
    forall d | Scanned(s, fs, q, d) ensures fs[d].readable {
      forall i | |dir| < i <= |d| ensures Listed(s, fs, d[..i]) && fs[d[..i]].Dir? {
        if i <= |q| { assert d[..i] == q[..i]; }
      }
      assert Scanned(s, fs, dir, d);
    }
  }

  lemma {:induction false} LaterNameIsPlanned(s: Setup, fs: Tree, idx: Index, dir: Path, names: seq<string>, k: nat,
      i: nat)
    requires k <= i < |names| && !Claimed(s, fs, dir, names, i)
    ensures forall op :: op in PlanAt(s, fs, idx, dir + [names[i]]) ==> op in PlanNames(s, fs, idx, dir, names, k)
    decreases i - k
  {
    hide PlanAt, Claimed;
    if k < i { LaterNameIsPlanned(s, fs, idx, dir, names, k + 1, i); }
  }

  /** A plan is empty when no path in scope asks for anything. */
  lemma QuietScanIsEmpty(s: Setup, fs: Tree, idx: Index, dir: Path)
    requires forall p :: InScope(s, fs, dir, p) ==> OpsAt(s, fs, idx, p) == []
    ensures PlanDir(s, fs, idx, dir) == []
  {
    if PlanDir(s, fs, idx, dir) != [] {
      var p := PlanDirSound(s, fs, idx, dir, PlanDir(s, fs, idx, dir)[0]);
    }
  }
}
