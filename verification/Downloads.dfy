/** A download round and the local planner after it: what the round puts in place, and which old
    records make the two directions work against each other. */
module Downloads {
  import opened Bytes
  import opened Records
  import opened Model
  import opened Plan
  import opened Apply
  import opened NoOscillation
  import opened CloudSync
  import opened Safety
  import opened Sweeps
  import CloudFiles

  // ---- what a download round keeps ----

  datatype Pull = Pull(t: Apply.Task, cfg: CloudCfg, fs: Tree, idx: Index, items: seq<CloudItem>) {
    /** Both directions use the same link setting; no component of a cloud path is excluded from
        local scans or looks like a link. */
    ghost predicate Ok() {
      && GoodItems(t.setup, items) && cfg.toStrm == t.setup.toStrm
      && forall i :: 0 <= i < |items| ==> GoodPath(t.setup, items[i].path)
    }

    ghost function Plan(): seq<Op>
      requires Ok()
    {
      PlanCloud(t.setup, cfg, fs, idx, items)
    }
  }

  ghost predicate GoodPath(s: Setup, p: Path) {
    forall k :: 0 <= k < |p| ==> GoodAt(s, p, k)
  }

  predicate GoodAt(s: Setup, p: Path, k: nat)
    requires k < |p|
  {
    !s.rules.excluded(p[k]) && s.excludeDir != Some(p[..k + 1]) && !IsStrm(p[k])
  }

  ghost predicate DownloadOf(b: Pull, it: CloudItem, op: Op) {
    && op.kind == Download && |it.path| > 0 && GoodItem(b.t.setup, it) && !it.isDir
    && op.path == SavePath(b.t.setup, b.cfg.toStrm, it)
    && op.isVideo == (Video(b.t.setup, it) && b.cfg.toStrm)
    && op.fid == it.fid && op.pickCode == it.pickCode
    && !Exists(b.fs, op.path) && op.path !in b.idx
    && GoodPath(b.t.setup, it.path) && it in b.items
  }

  lemma {:induction false} ItemOps(b: Pull, n: nat, op: Op) returns (it: CloudItem)
    requires b.Ok() && n <= |b.items| && Rooted(b.items[..n])
    requires op in OpsForItems(b.t.setup, b.cfg, b.fs, b.idx, b.items[..n])
    ensures |op.path| > 0 && (op.kind == Drop || DownloadOf(b, it, op))
  {
    hide Ext, Lower, Stem, StrmName;
    assert b.items[..n][..n - 1] == b.items[..n - 1];
    it := b.items[n - 1];
    assert GoodItem(b.t.setup, it);
    if op !in OpsForItem(b.t.setup, b.cfg, b.fs, b.idx, it) { it := ItemOps(b, n - 1, op); }
  }

  lemma PulledOp(b: Pull, op: Op) returns (it: CloudItem)
    requires b.Ok() && op in b.Plan()
    ensures |op.path| > 0 && (IsClear(op) || op.kind == Archive || DownloadOf(b, it, op))
  {
    assert b.items[..|b.items|] == b.items;
    if op in OpsForItems(b.t.setup, b.cfg, b.fs, b.idx, b.items) {
      it := ItemOps(b, |b.items|, op);
    } else {
      ArchivesOnly(b.items, op);
      it := CloudItem([], "", "", 0, false, false);
    }
  }

  ghost predicate Downloaded(b: Pull, w: World, q: Path) {
    Settled(b.t.setup, w, q) && w.fs[q].File?
  }

  /** Downloaded once, and taken away again by a later transfer to the same place that broke off:
      the record is still there, the file is gone, or a folder has its place. */
  predicate Torn(w: World, q: Path) {
    && |q| > 0 && (q in w.fs ==> w.fs[q].Dir?) && !IsStrm(Base(q))
    && RecAt(w.idx, q).fid != "" && RecAt(w.idx, q).kind != KIND_DIR
  }

  ghost predicate Landed(b: Pull, w: World, q: Path) {
    Downloaded(b, w, q) || Torn(w, q)
  }

  ghost predicate OldFiles(b: Pull, w: World) {
    forall q :: q in b.fs ==> OldFile(b, w, q)
  }

  /** Nothing happens to what could be examined; what could not may be downloaded over. */
  ghost predicate OldFile(b: Pull, w: World, q: Path)
    requires q in b.fs
  {
    || (q in w.fs && w.fs[q] == b.fs[q])
    || (b.fs[q].Unreadable? && (q in w.fs ==> w.fs[q].Dir? || (w.fs[q].File? && q in w.written)))
  }

  ghost predicate AllDownloaded(b: Pull, w: World) {
    forall q :: q in w.written ==> Landed(b, w, q)
  }

  ghost predicate NewFolders(b: Pull, w: World) {
    forall q :: q in w.fs && q !in b.fs && q !in w.written ==> w.fs[q].Dir? && (|q| > 0 ==> !IsStrm(Base(q)))
  }

  ghost predicate OldRecords(b: Pull, w: World) {
    forall q :: q in w.idx && q !in w.written ==> q in b.idx && w.idx[q] == b.idx[q]
  }

  ghost predicate PlacesWereFree(b: Pull, w: World) {
    forall q :: q in w.written ==> q !in b.idx && !Exists(b.fs, q)
  }

  ghost predicate Pulled(b: Pull, w: World) {
    OldFiles(b, w) && AllDownloaded(b, w) && NewFolders(b, w) && OldRecords(b, w) && PlacesWereFree(b, w)
  }

  /** `MkdirAll` above a downloaded path adds folders only. */
  lemma FoldersPulled(b: Pull, w: World, w1: World, p: Path)
    requires Pulled(b, w) && w1 == w.(fs := MkdirAll(w.fs, p)) && CanMkdirAll(w.fs, p)
    requires GoodPath(b.t.setup, p)
    ensures Pulled(b, w1)
  {
    hide Ext, Lower, Stem, IsStrm, SettledEntry;
    forall q | q in w1.written ensures Landed(b, w1, q) {
      assert Landed(b, w, q);
      if Downloaded(b, w, q) { SettledElsewhere(b.t.setup, w, w1, q); }
    }
    forall q | q in w1.fs && q !in w.fs ensures w1.fs[q].Dir? && (|q| > 0 ==> !IsStrm(Base(q))) {
      if |q| > 0 { assert GoodAt(b.t.setup, p, |q| - 1); }
    }
  }

  /** A finished download: file, record and history in step. */
  lemma FilePulled(b: Pull, w: World, w2: World, p: Path, e: Entry, r: Record)
    requires Pulled(b, w) && e.File? && (p in b.fs ==> b.fs[p].Unreadable?) && p !in b.idx
    requires w2.fs == w.fs[p := e] && w2.idx == w.idx[p := r] && w2.written == w.written + {p}
    requires Downloaded(b, w2, p)
    ensures Pulled(b, w2)
  {
    hide Ext, Lower, Stem, IsStrm, OldFiles, AllDownloaded, NewFolders, Downloaded;
    FileKeepsOthers(b, w, w2, p, e);
    FileKeepsDownloads(b, w, w2, p, e, r);
  }

  lemma FileKeepsOthers(b: Pull, w: World, w2: World, p: Path, e: Entry)
    requires OldFiles(b, w) && NewFolders(b, w) && e.File? && (p in b.fs ==> b.fs[p].Unreadable?)
    requires w2.fs == w.fs[p := e] && w2.written == w.written + {p}
    ensures OldFiles(b, w2) && NewFolders(b, w2)
  {
    hide Ext, Lower, Stem, IsStrm;
  }

  lemma FileKeepsDownloads(b: Pull, w: World, w2: World, p: Path, e: Entry, r: Record)
    requires AllDownloaded(b, w) && Downloaded(b, w2, p)
    requires w2.fs == w.fs[p := e] && w2.idx == w.idx[p := r] && w2.written == w.written + {p}
    ensures AllDownloaded(b, w2)
  {
    hide Ext, Lower, Stem, IsStrm, SettledEntry;
    forall q | q in w2.written ensures Landed(b, w2, q) {
      if q != p {
        assert Landed(b, w, q);
        if Downloaded(b, w, q) { SettledElsewhere(b.t.setup, w, w2, q); }
      }
    }
  }

  /** A transfer that breaks off takes its target away, also one that was downloaded before. */
  lemma BreakPulled(b: Pull, w: World, w2: World, p: Path)
    requires Pulled(b, w) && |p| > 0 && !IsStrm(Base(p)) && (p in b.fs ==> b.fs[p].Unreadable?)
    requires w2.fs == Discarded(w.fs, p) && w2.idx == w.idx && w2.written == w.written
    ensures Pulled(b, w2)
  {
    hide Ext, Lower, Stem, IsStrm;
    forall q | q in w2.written ensures Landed(b, w2, q) {
      assert Landed(b, w, q);
      if Downloaded(b, w, q) && q != p { SettledElsewhere(b.t.setup, w, w2, q); }
    }
  }

  lemma SamePulled(b: Pull, w: World, w2: World)
    requires Pulled(b, w) && SameState(w, w2)
    ensures Pulled(b, w2)
  {
    forall q | q in w2.written ensures Landed(b, w2, q) { assert Landed(b, w, q); }
  }

  /** The record a download stores is the one its file is judged by. */
  lemma FreshLinkFile(b: Pull, w2: World, it: CloudItem, op: Op)
    requires b.Ok() && DownloadOf(b, it, op) && op.isVideo
    requires op.path in w2.fs && op.path in w2.idx
    requires w2.fs[op.path] == File(|b.t.setup.links.Content(op.pickCode)|, b.t.setup.links.Content(op.pickCode))
    requires w2.idx[op.path] == Record(op.fid, op.pickCode, KIND_STRM, 0)
    ensures Downloaded(b, w2, op.path)
  {
    StrmNameIsStrm(Base(it.path));
    hide Ext, Lower, Stem, StrmName, IsStrm;
  }

  lemma FreshPlainFile(b: Pull, w2: World, it: CloudItem, op: Op, size: int, text: string)
    requires b.Ok() && DownloadOf(b, it, op) && !op.isVideo
    requires op.path in w2.fs && op.path in w2.idx
    requires w2.fs[op.path] == File(size, text)
    requires w2.idx[op.path] == Record(op.fid, "", KIND_FILE, size)
    ensures Downloaded(b, w2, op.path)
  {
    hide Ext, Lower, Stem, StrmName, IsStrm;
  }

  lemma GoodParent(s: Setup, p: Path)
    requires |p| > 0 && GoodPath(s, p)
    ensures GoodPath(s, Parent(p))
  {
    forall k | 0 <= k < |Parent(p)| ensures GoodAt(s, Parent(p), k) {
      assert GoodAt(s, p, k) && Parent(p)[..k + 1] == p[..k + 1];
    }
  }

  lemma PlainPlace(b: Pull, it: CloudItem, op: Op)
    requires b.Ok() && DownloadOf(b, it, op) && !op.isVideo
    ensures |op.path| > 0 && !IsStrm(Base(op.path)) && (op.path in b.fs ==> b.fs[op.path].Unreadable?)
  {
    hide Ext, Lower, Stem, StrmName, IsStrm;
  }

  lemma DownloadPulled(b: Pull, c: Cloud, w: World, it: CloudItem, op: Op)
    requires b.Ok() && Pulled(b, w) && DownloadOf(b, it, op) && |op.path| > 0
    ensures Pulled(b, ApplyOne(c, b.t, w, op))
  {
    hide Ext, Lower, Stem, StrmName, IsStrm, GoodItem, Pulled, Settled;
    var p, w2 := op.path, ApplyOne(c, b.t, w, op);
    if !CanMkdirAll(w.fs, Parent(p)) {
      SamePulled(b, w, w2);
    } else {
      var w1 := w.(fs := MkdirAll(w.fs, Parent(p)));
      assert Parent(p) == Parent(it.path);
      GoodParent(b.t.setup, it.path);
      FoldersPulled(b, w, w1, Parent(p));
      if IsDirectory(w1.fs, p) || (!op.isVideo && c.fetch(w1.calls).Refused?) {
        SamePulled(b, w1, w2);
      } else if !op.isVideo && c.fetch(w1.calls).Broken? {
        PlainPlace(b, it, op);
        BreakPulled(b, w1, w2, p);
      } else if op.isVideo {
        var text := b.t.setup.links.Content(op.pickCode);
        FreshLinkFile(b, w2, it, op);
        FilePulled(b, w1, w2, p, File(|text|, text), Record(op.fid, op.pickCode, KIND_STRM, 0));
      } else {
        var Fetched(size, text) := c.fetch(w1.calls);
        FreshPlainFile(b, w2, it, op, size, text);
        FilePulled(b, w1, w2, p, File(size, text), Record(op.fid, "", KIND_FILE, size));
      }
    }
  }

  lemma ClearPreserves(c: Cloud, t: Apply.Task, w: World, op: Op)
    requires IsClear(op) && |op.path| > 0
    ensures var w2 := ApplyOne(c, t, w, op);
      w2.fs == w.fs && w2.written == w.written && w2.replaced == w.replaced
      && forall q :: q in w2.idx ==> q in w.idx && w2.idx[q] == w.idx[q]
  {
    ClearKeeps(c, t, w, op);
    Sweeps.ClearOnlyRemoves(c, t, w, op);
  }

  ghost predicate ClearsFirst(ops: seq<Op>) {
    forall i, j :: 0 <= i < j < |ops| && IsClear(ops[j]) ==> IsClear(ops[i])
  }

  lemma ClearPulled(b: Pull, c: Cloud, w: World, op: Op)
    requires Pulled(b, w) && w.written == {} && IsClear(op) && |op.path| > 0
    ensures var w1 := ApplyOne(c, b.t, w, op); Pulled(b, w1) && w1.written == {}
  {
    hide ApplyOne, Downloaded;
    ClearPreserves(c, b.t, w, op);
  }

  lemma PullStep(b: Pull, c: Cloud, w: World, op: Op)
    requires b.Ok() && Pulled(b, w) && op in b.Plan() && |op.path| > 0
    requires IsClear(op) ==> w.written == {}
    ensures Pulled(b, ApplyOne(c, b.t, w, op))
    ensures IsClear(op) ==> ApplyOne(c, b.t, w, op).written == {}
  {
    hide ApplyOne, Pulled, PlanCloud, DownloadOf, GoodItems;
    var it := PulledOp(b, op);
    if IsClear(op) {
      ClearPulled(b, c, w, op);
    } else if op.kind == Archive {
      ArchiveWaits(c, b.t, w, op);
    } else {
      DownloadPulled(b, c, w, it, op);
    }
  }

  lemma {:induction false} PullRun(b: Pull, c: Cloud, w: World, ops: seq<Op>)
    requires b.Ok() && Pulled(b, w) && BelowRoot(ops) && ClearsFirst(ops)
    requires ops != [] && IsClear(ops[0]) ==> w.written == {}
    requires forall op :: op in ops ==> op in b.Plan()
    ensures Pulled(b, Run(c, b.t, w, ops))
    decreases |ops|
  {
    hide ApplyOne, Pulled, PlanCloud, GoodItems;
    if ops != [] {
      assert ops[0] in ops && forall o :: o in ops[1..] ==> o in ops;
      PullStep(b, c, w, ops[0]);
      PullRun(b, c, ApplyOne(c, b.t, w, ops[0]), ops[1..]);
    }
  }

  lemma SortedClearsFirst(ops: seq<Op>)
    ensures ClearsFirst(SortByPhase(ops))
  {
    SortSplits(ops);
    var a, r := OfPhase(ops, 0), WorkOps(ops);
    hide OfPhase, WorkOps;
    forall k | 0 <= k < |a| ensures IsClear(a[k]) { assert a[k] in a; }
    forall k | 0 <= k < |r| ensures !IsClear(r[k]) {}
  }

  lemma PullRound(b: Pull, c: Cloud, w: World)
    requires b.Ok() && w.fs == b.fs && w.idx == b.idx && w.written == {}
    ensures BelowRoot(b.Plan()) && Pulled(b, ApplyOps(c, b.t, w, b.Plan()).0)
  {
    hide PlanCloud, GoodItems, Pulled, ClearsFirst, SortByPhase, ArchiveFids, Run;
    PullStarts(b, w);
    var ops := b.Plan();
    var sorted := SortByPhase(ops);
    SortedClearsFirst(ops);
    assert forall op :: op in sorted ==> op in ops;
    PullRun(b, c, w, sorted);
    SamePulled(b, Run(c, b.t, w, sorted), ApplyOps(c, b.t, w, ops).0);
  }

  lemma PullStarts(b: Pull, w: World)
    requires b.Ok() && w.fs == b.fs && w.idx == b.idx && w.written == {}
    ensures BelowRoot(b.Plan()) && Pulled(b, w)
  {
    forall op | op in b.Plan() ensures |op.path| > 0 { var _ := PulledOp(b, op); }
  }

  lemma WasLanded(b: Pull, w: World, q: Path)
    requires Pulled(b, w) && q in w.written
    ensures Landed(b, w, q)
  {}

  /** The record under a downloaded link is a link's. */
  lemma DownloadedLink(b: Pull, w: World, q: Path)
    requires Downloaded(b, w, q) && |q| > 0 && IsStrm(Base(q)) && q in w.idx
    ensures w.idx[q].kind == KIND_STRM
  {
    hide Ext, Lower, Stem, StrmName;
  }

  /** The local planner names a place of the round only when its file was taken away again. */
  lemma LocalPlanAt(b: Pull, w: World, p: Path, op: Op)
    requires Pulled(b, w) && |p| > 0 && op in OpsAt(b.t.setup, w.fs, w.idx, p)
    ensures op.path in w.written ==> Torn(w, op.path) && op.path == p
  {
    hide Ext, Lower, Stem, StrmName, IsStrm, Pulled, Settled, OpsAt, BigVideo, WorkOp;
    var s := b.t.setup;
    DecisionShape(s, w.fs, w.idx, p, op);
    StrmNameIsStrm(Base(p));
    if op.path in w.written {
      WasLanded(b, w, op.path);
      if Downloaded(b, w, op.path) {
        if op.path == p { SettledIsQuiet(s, w, p, op); } else { DownloadedLink(b, w, op.path); }
      }
    }
  }

  // ---- where a round puts folders and files ----

  ghost predicate DirsAbove(fs: Tree, q: Path) {
    forall i :: 0 <= i < |q| ==> IsDirAt(fs, q[..i])
  }

  ghost predicate LeadsToItem(b: Pull, p: Path) {
    exists j :: 0 <= j < |b.items| && p < b.items[j].path
  }

  /** A downloaded file lies in directories that lead to an item of the snapshot. */
  ghost predicate FileGrafted(b: Pull, fs: Tree, q: Path) {
    |q| > 0 && DirsAbove(fs, q) && GoodPath(b.t.setup, Parent(q)) && LeadsToItem(b, Parent(q))
  }

  /** So does a folder that the round created. */
  ghost predicate FolderGrafted(b: Pull, fs: Tree, q: Path) {
    DirsAbove(fs, q) && GoodPath(b.t.setup, q) && LeadsToItem(b, q)
  }

  ghost predicate FilesGrafted(b: Pull, w: World) {
    forall q :: q in w.written ==> FileGrafted(b, w.fs, q)
  }

  ghost predicate FoldersGrafted(b: Pull, w: World) {
    forall q :: NewFolder(b, w, q) ==> FolderGrafted(b, w.fs, q)
  }

  /** A directory that was none before. */
  ghost predicate NewFolder(b: Pull, w: World, q: Path) {
    IsDirAt(w.fs, q) && !IsDirAt(b.fs, q) && q !in w.written
  }

  ghost predicate Grafted(b: Pull, w: World) {
    FilesGrafted(b, w) && FoldersGrafted(b, w)
  }

  ghost predicate DirsKept(fs: Tree, fs2: Tree) {
    forall q :: IsDirAt(fs, q) ==> IsDirAt(fs2, q)
  }

  lemma DirsAboveKept(fs: Tree, fs2: Tree, q: Path)
    requires DirsAbove(fs, q) && DirsKept(fs, fs2)
    ensures DirsAbove(fs2, q)
  {}

  lemma GoodPrefix(s: Setup, p: Path, q: Path)
    requires GoodPath(s, p) && q <= p
    ensures GoodPath(s, q)
  {
    forall k | 0 <= k < |q| ensures GoodAt(s, q, k) {
      assert GoodAt(s, p, k) && q[..k + 1] == p[..k + 1];
    }
  }

  /** Creating the folders above an item keeps everything grafted. */
  lemma FoldersGraft(b: Pull, w: World, w1: World, it: CloudItem)
    requires Grafted(b, w) && it in b.items && |it.path| > 0 && GoodPath(b.t.setup, it.path)
    requires CanMkdirAll(w.fs, Parent(it.path)) && w1 == w.(fs := MkdirAll(w.fs, Parent(it.path)))
    ensures Grafted(b, w1) && DirsAbove(w1.fs, it.path)
  {
    hide GoodPath, LeadsToItem;
    var p := Parent(it.path);
    assert DirsKept(w.fs, w1.fs);
    PathIsMade(w.fs, it.path);
    forall q | q in w1.written ensures FileGrafted(b, w1.fs, q) {
      assert FileGrafted(b, w.fs, q);
      DirsAboveKept(w.fs, w1.fs, q);
    }
    forall q | NewFolder(b, w1, q) ensures FolderGrafted(b, w1.fs, q) {
      if q in w.fs {
        assert NewFolder(b, w, q) && FolderGrafted(b, w.fs, q);
        DirsAboveKept(w.fs, w1.fs, q);
      } else {
        NewFolderGrafts(b, w.fs, w1.fs, it, q);
      }
    }
  }

  lemma PathIsMade(fs: Tree, path: Path)
    requires |path| > 0 && CanMkdirAll(fs, Parent(path))
    ensures DirsAbove(MkdirAll(fs, Parent(path)), path)
  {
    var p := Parent(path);
    forall i | 0 <= i < |path| ensures IsDirAt(MkdirAll(fs, p), path[..i]) { assert path[..i] == p[..i]; }
  }

  lemma NewFolderGrafts(b: Pull, fs: Tree, fs1: Tree, it: CloudItem, q: Path)
    requires it in b.items && |it.path| > 0 && GoodPath(b.t.setup, it.path)
    requires CanMkdirAll(fs, Parent(it.path)) && fs1 == MkdirAll(fs, Parent(it.path))
    requires q in fs1 && q !in fs
    ensures FolderGrafted(b, fs1, q)
  {
    hide GoodPath;
    var p := Parent(it.path);
    assert q <= p && q < it.path;
    GoodPrefix(b.t.setup, it.path, q);
    var j :| 0 <= j < |b.items| && b.items[j] == it;
    PathIsMade(fs, it.path);
    forall i | 0 <= i < |q| ensures IsDirAt(fs1, q[..i]) { assert q[..i] == it.path[..i]; }
  }

  /** So does a finished download. */
  lemma FileGrafts(b: Pull, w1: World, w2: World, it: CloudItem, p: Path)
    requires Grafted(b, w1) && it in b.items && |it.path| > 0 && GoodPath(b.t.setup, it.path)
    requires DirsAbove(w1.fs, it.path) && |p| > 0 && Parent(p) == Parent(it.path) && !IsDirectory(w1.fs, p)
    requires p in w2.fs && w2.fs == w1.fs[p := w2.fs[p]] && w2.written == w1.written + {p}
    ensures Grafted(b, w2)
  {
    hide GoodPath, LeadsToItem;
    assert DirsKept(w1.fs, w2.fs);
    forall q | q in w2.written ensures FileGrafted(b, w2.fs, q) {
      if q in w1.written {
        assert FileGrafted(b, w1.fs, q);
        DirsAboveKept(w1.fs, w2.fs, q);
      } else {
        ItemPlace(b, w1.fs, it, p);
        DirsAboveKept(w1.fs, w2.fs, q);
      }
    }
    forall q | NewFolder(b, w2, q) ensures FolderGrafted(b, w2.fs, q) {
      assert NewFolder(b, w1, q) && FolderGrafted(b, w1.fs, q);
      DirsAboveKept(w1.fs, w2.fs, q);
    }
  }

  /** No folder goes with a transfer that breaks off. */
  lemma BreakGrafts(b: Pull, w: World, w2: World, p: Path)
    requires Grafted(b, w) && w2.fs == Discarded(w.fs, p) && w2.written == w.written
    ensures Grafted(b, w2)
  {
    hide GoodPath, LeadsToItem;
    assert DirsKept(w.fs, w2.fs);
    forall q | q in w2.written ensures FileGrafted(b, w2.fs, q) {
      assert FileGrafted(b, w.fs, q);
      DirsAboveKept(w.fs, w2.fs, q);
    }
    forall q | NewFolder(b, w2, q) ensures FolderGrafted(b, w2.fs, q) {
      assert NewFolder(b, w, q) && FolderGrafted(b, w.fs, q);
      DirsAboveKept(w.fs, w2.fs, q);
    }
  }

  lemma ItemPlace(b: Pull, fs: Tree, it: CloudItem, p: Path)
    requires it in b.items && |it.path| > 0 && GoodPath(b.t.setup, it.path)
    requires DirsAbove(fs, it.path) && |p| > 0 && Parent(p) == Parent(it.path)
    ensures FileGrafted(b, fs, p)
  {
    var j :| 0 <= j < |b.items| && b.items[j] == it;
    GoodPrefix(b.t.setup, it.path, Parent(p));
    forall i | 0 <= i < |p| ensures IsDirAt(fs, p[..i]) { assert p[..i] == Parent(p)[..i] == it.path[..i]; }
  }

  lemma DownloadGrafts(b: Pull, c: Cloud, w: World, it: CloudItem, op: Op)
    requires b.Ok() && Grafted(b, w) && DownloadOf(b, it, op) && |op.path| > 0
    ensures Grafted(b, ApplyOne(c, b.t, w, op))
  {
    hide Ext, Lower, Stem, StrmName, IsStrm, GoodItem, Grafted, GoodPath, Links.Content, CanMkdirAll, MkdirAll,
      DirsAbove, Video, Exists;
    var p, w2 := op.path, ApplyOne(c, b.t, w, op);
    if !CanMkdirAll(w.fs, Parent(p)) {
      SameGraft(b, w, w2);
    } else {
      var w1 := w.(fs := MkdirAll(w.fs, Parent(p)));
      assert Parent(p) == Parent(it.path);
      FoldersGraft(b, w, w1, it);
      if IsDirectory(w1.fs, p) || (!op.isVideo && c.fetch(w1.calls).Refused?) {
        SameGraft(b, w1, w2);
      } else if !op.isVideo && c.fetch(w1.calls).Broken? {
        BreakGrafts(b, w1, w2, p);
      } else {
        FileGrafts(b, w1, w2, it, p);
      }
    }
  }

  lemma SameGraft(b: Pull, w: World, w2: World)
    requires Grafted(b, w) && w2.fs == w.fs && w2.written == w.written
    ensures Grafted(b, w2)
  {}

  lemma GraftStep(b: Pull, c: Cloud, w: World, op: Op)
    requires b.Ok() && Grafted(b, w) && op in b.Plan() && |op.path| > 0
    ensures Grafted(b, ApplyOne(c, b.t, w, op))
  {
    hide ApplyOne, Grafted, PlanCloud, DownloadOf, GoodItems;
    var it := PulledOp(b, op);
    if IsClear(op) {
      ClearPreserves(c, b.t, w, op);
      SameGraft(b, w, ApplyOne(c, b.t, w, op));
    } else if op.kind == Archive {
      ArchiveWaits(c, b.t, w, op);
    } else {
      DownloadGrafts(b, c, w, it, op);
    }
  }

  lemma {:induction false} GraftRun(b: Pull, c: Cloud, w: World, ops: seq<Op>)
    requires b.Ok() && Grafted(b, w) && BelowRoot(ops) && forall op :: op in ops ==> op in b.Plan()
    ensures Grafted(b, Run(c, b.t, w, ops))
    decreases |ops|
  {
    hide ApplyOne, Grafted, PlanCloud, GoodItems;
    if ops != [] {
      assert ops[0] in ops && forall o :: o in ops[1..] ==> o in ops;
      GraftStep(b, c, w, ops[0]);
      GraftRun(b, c, ApplyOne(c, b.t, w, ops[0]), ops[1..]);
    }
  }

  lemma RoundGrafts(b: Pull, c: Cloud, w: World)
    requires b.Ok() && w.fs == b.fs && w.idx == b.idx && w.written == {}
    ensures BelowRoot(b.Plan()) && Grafted(b, ApplyOps(c, b.t, w, b.Plan()).0)
  {
    hide PlanCloud, GoodItems, Pulled, SortByPhase, ArchiveFids, Run, FileGrafted, FolderGrafted;
    PullStarts(b, w);
    var sorted := SortByPhase(b.Plan());
    assert forall op :: op in sorted ==> op in b.Plan();
    GraftRun(b, c, w, sorted);
    SameGraft(b, Run(c, b.t, w, sorted), ApplyOps(c, b.t, w, b.Plan()).0);
  }

  // ---- which records a round can drop ----

  /** Nothing in the snapshot lies below a file. */
  ghost predicate NothingBelowFiles(items: seq<CloudItem>) {
    forall i, j :: 0 <= i < |items| && 0 <= j < |items| && !items[i].isDir ==> !(items[i].path < items[j].path)
  }

  lemma DropOfItem(b: Pull, op: Op) returns (it: CloudItem)
    requires b.Ok() && op in b.Plan() && IsClear(op)
    ensures it in b.items && |it.path| > 0 && !it.isDir && b.cfg.dropStale && op.kind == Drop && op.fid == it.fid
      && op.fid != ""
    ensures op.path == SavePath(b.t.setup, b.cfg.toStrm, it) && Exists(b.fs, op.path) && op.path in b.idx
      && b.idx[op.path].fid != it.fid
    ensures GoodPath(b.t.setup, it.path)
  {
    hide Ext, Lower, Stem, StrmName, IsStrm, SavePath, GoodPath;
    PlannedOnce(b.t.setup, b.cfg, b.fs, b.idx, b.items, op);
    var i :| 0 <= i < |b.items| && op in OpsForItem(b.t.setup, b.cfg, b.fs, b.idx, b.items[i]);
    it := b.items[i];
    assert GoodItem(b.t.setup, it);
  }

  /** The place of a file is its cloud path, or a link beside it. */
  lemma PlaceOf(s: Setup, toStrm: bool, it: CloudItem)
    requires |it.path| > 0
    ensures var p := SavePath(s, toStrm, it);
      |p| > 0 && Parent(p) == Parent(it.path) && (p == it.path || IsStrm(Base(p)))
  {
    hide Ext, Lower, Stem, StrmName;
    StrmNameIsStrm(Base(it.path));
  }

  lemma GoodPrefixIsNoLink(s: Setup, a: Path, p: Path)
    requires GoodPath(s, a) && p <= a && |p| > 0
    ensures !IsStrm(Base(p))
  {
    assert GoodAt(s, a, |p| - 1);
  }

  lemma FileIsNotAbove(b: Pull, it: CloudItem, a: Path)
    requires NothingBelowFiles(b.items) && it in b.items && !it.isDir && LeadsToItem(b, a)
    ensures !(it.path <= a)
  {
    var i :| 0 <= i < |b.items| && b.items[i] == it;
    var j :| 0 <= j < |b.items| && a < b.items[j].path;
    assert !(b.items[i].path < b.items[j].path);
  }

  /** A folder on the way to an item is not the place of a file, nor below one: no drop of the
      round touches its record. */
  lemma NoDropAbove(b: Pull, op: Op, a: Path)
    requires b.Ok() && op in b.Plan() && IsClear(op)
    requires b.cfg.dropStale ==> NothingBelowFiles(b.items)
    requires LeadsToItem(b, a) && GoodPath(b.t.setup, a)
    ensures !(op.path <= a)
  {
    hide PlanCloud, SavePath, IsStrm, GoodItems, NothingBelowFiles, LeadsToItem, GoodPath, Exists;
    var it := DropOfItem(b, op);
    PlaceOf(b.t.setup, b.cfg.toStrm, it);
    FileIsNotAbove(b, it, a);
    if op.path <= a { GoodPrefixIsNoLink(b.t.setup, a, op.path); }
  }

  lemma KnownRecordIsOld(b: Pull, w2: World, a: Path)
    requires Pulled(b, w2) && a in b.idx && a in w2.idx
    ensures w2.idx[a] == b.idx[a]
  {}

  // ---- the local plan after the round ----

  /** A folder that did not exist before, or a directory above a downloaded file, that an index
      knows as something else. */
  ghost predicate InTheWay(b: Pull, idx: Index, w2: World, root: Path, a: Path) {
    root < a && Conflict(idx, a) && (NewFolder(b, w2, a) || AboveDownload(w2, a))
  }

  ghost predicate AboveDownload(w2: World, a: Path) {
    exists q :: q in w2.written && a < q
  }

  /** A downloaded file that is no longer there. */
  ghost predicate Lost(w2: World, root: Path, q: Path) {
    root < q && q in w2.written && !(q in w2.fs && w2.fs[q].File?)
  }

  /** A large local video whose link was downloaded: the local planner means to upload it and to
      replace the video behind the link. */
  ghost predicate Rival(b: Pull, w2: World, root: Path, p: Path) {
    && InScope(b.t.setup, w2.fs, root, p) && Listed(b.t.setup, b.fs, p) && BigVideo(b.t.setup, p, b.fs[p])
    && StrmKey(p) in w2.written
  }

  ghost predicate Undisturbed(b: Pull, idx: Index, w2: World, root: Path) {
    && (forall a :: !InTheWay(b, idx, w2, root, a))
    && (forall q :: !Lost(w2, root, q))
    && (forall p :: !Rival(b, w2, root, p))
  }

  /** The local planner keeps its hands off a download round: it names no downloaded path, replaces
      no downloaded link, clears nothing at or above a download, and only creates the new folders
      in the cloud. */
  ghost predicate LeftAlone(b: Pull, w2: World, root: Path) {
    forall op :: op in PlanDir(b.t.setup, w2.fs, w2.idx, root) ==> SparesDownloads(b, w2, op)
  }

  ghost predicate SparesDownloads(b: Pull, w2: World, op: Op) {
    && op.path !in w2.written
    && (forall q :: q in w2.written ==> !Replaces(op, q))
    && (NewFolder(b, w2, op.path) ==> op.kind == Mkdir)
    && (IsClear(op) ==> !AboveDownload(w2, op.path))
  }

  /** Such a folder is a listed directory with no link's name, and so are the ones above it. */
  lemma PlaceIsListed(b: Pull, w2: World, a: Path)
    requires b.Ok() && Pulled(b, w2) && Grafted(b, w2) && |a| > 0 && (NewFolder(b, w2, a) || AboveDownload(w2, a))
    ensures Listed(b.t.setup, w2.fs, a) && w2.fs[a].Dir? && !IsStrm(Base(a))
    ensures LeadsToItem(b, a) && GoodPath(b.t.setup, a) && DirsAbove(w2.fs, a)
  {
    hide IsStrm, Settled, Pulled, GoodPath, LeadsToItem, DirsAbove, Listed;
    if NewFolder(b, w2, a) {
      assert FolderGrafted(b, w2.fs, a);
    } else {
      var q :| q in w2.written && a < q;
      assert FileGrafted(b, w2.fs, q);
      AboveIsGood(b, w2.fs, a, q);
    }
    GoodIsListed(b.t.setup, w2.fs, a);
  }

  lemma GoodIsListed(s: Setup, fs: Tree, a: Path)
    requires GoodPath(s, a) && |a| > 0 && a in fs
    ensures Listed(s, fs, a) && !IsStrm(Base(a))
  {
    hide IsStrm;
    assert GoodAt(s, a, |a| - 1) && a[..|a|] == a;
  }

  lemma AboveIsGood(b: Pull, fs: Tree, a: Path, q: Path)
    requires FileGrafted(b, fs, q) && a < q
    ensures IsDirAt(fs, a) && DirsAbove(fs, a) && GoodPath(b.t.setup, a) && LeadsToItem(b, a)
  {
    assert a == q[..|a|];
    forall i | 0 <= i < |a| ensures IsDirAt(fs, a[..i]) { assert a[..i] == q[..i]; }
    assert a <= Parent(q);
    GoodPrefix(b.t.setup, Parent(q), a);
    var j :| 0 <= j < |b.items| && Parent(q) < b.items[j].path;
    assert a < b.items[j].path;
  }

  lemma OldRecordAt(b: Pull, w2: World, a: Path)
    requires Pulled(b, w2) && a !in w2.written
    ensures Conflict(w2.idx, a) ==> Conflict(b.idx, a)
  {
    hide OldFiles, AllDownloaded, NewFolders, PlacesWereFree;
  }

  // ---- what the local planner does there ----

  lemma AtThePlace(b: Pull, w2: World, root: Path, p: Path, op: Op)
    requires b.Ok() && Pulled(b, w2) && Grafted(b, w2) && root < p && op in OpsAt(b.t.setup, w2.fs, w2.idx, p)
    requires NewFolder(b, w2, op.path) || (IsClear(op) && AboveDownload(w2, op.path))
    requires |op.path| > 0 && !InTheWay(b, w2.idx, w2, root, op.path)
    ensures op.kind == Mkdir
  {
    hide Ext, Lower, Stem, StrmName, IsStrm, OpsAt, Pulled, Grafted, GoodPath, LeadsToItem, DirsAbove, NewFolder,
      AboveDownload, Conflict, WorkOp;
    var s := b.t.setup;
    PlaceIsListed(b, w2, op.path);
    DecisionShape(s, w2.fs, w2.idx, p, op);
    StrmNameIsStrm(Base(p));
    if op.path == p {
      DirAnswer(s, w2.fs, w2.idx, p, op);
    }
  }

  /** A large video in the tree after the round was there before it. */
  lemma VideoIsOld(b: Pull, w2: World, p: Path)
    requires Pulled(b, w2) && Listed(b.t.setup, w2.fs, p) && BigVideo(b.t.setup, p, w2.fs[p])
    ensures Listed(b.t.setup, b.fs, p) && b.fs[p] == w2.fs[p]
  {
    hide Ext, Lower, Stem, IsStrm;
    assert p in w2.written ==> Landed(b, w2, p);
  }

  lemma ReplacerIsRival(b: Pull, w2: World, root: Path, p: Path, op: Op, q: Path)
    requires Pulled(b, w2) && InScope(b.t.setup, w2.fs, root, p) && op in OpsAt(b.t.setup, w2.fs, w2.idx, p)
    requires Replaces(op, q) && q in w2.written
    ensures op.path == p && Rival(b, w2, root, p)
  {
    hide Ext, Lower, Stem, StrmName, IsStrm, OpsAt, Pulled, BigVideo;
    DecisionShape(b.t.setup, w2.fs, w2.idx, p, op);
    VideoIsOld(b, w2, p);
  }

  lemma SparedAt(b: Pull, w2: World, root: Path, p: Path, op: Op)
    requires b.Ok() && Pulled(b, w2) && Grafted(b, w2) && InScope(b.t.setup, w2.fs, root, p)
    requires op in OpsAt(b.t.setup, w2.fs, w2.idx, p) && |op.path| > 0
    requires Undisturbed(b, w2.idx, w2, root)
    ensures SparesDownloads(b, w2, op)
  {
    hide OpsAt, Pulled, Grafted, NewFolder, AboveDownload, InTheWay, Rival, Replaces;
    LocalPlanAt(b, w2, p, op);
    if NewFolder(b, w2, op.path) || (IsClear(op) && AboveDownload(w2, op.path)) { AtThePlace(b, w2, root, p, op); }
    forall q | q in w2.written ensures !Replaces(op, q) {
      if Replaces(op, q) { ReplacerIsRival(b, w2, root, p, op, q); }
    }
    assert op.path in w2.written ==> Lost(w2, root, op.path);
  }

  lemma PathOfDecision(s: Setup, fs: Tree, idx: Index, p: Path, op: Op)
    requires |p| > 0 && op in OpsAt(s, fs, idx, p)
    ensures |op.path| > 0
  {
    hide OpsAt, Ext, Lower, Stem, StrmName;
    DecisionShape(s, fs, idx, p, op);
  }

  /** The other direction: a record in the way is answered by a clear there. */
  lemma InTheWayIsCleared(b: Pull, w2: World, root: Path, a: Path)
    requires b.Ok() && Pulled(b, w2) && Grafted(b, w2)
    requires InTheWay(b, w2.idx, w2, root, a) && !ScanFails(b.t.setup, w2.fs, root)
    ensures !LeftAlone(b, w2, root)
  {
    hide PlanDir, Pulled, Grafted, NewFolder, AboveDownload, Conflict, GoodPath, LeadsToItem, DirsAbove, IsStrm,
      Replaces;
    PlaceIsListed(b, w2, a);
    GoodParent(b.t.setup, a);
    PlaceInScope(b, w2, root, a);
    ConflictMeansClear(b.t.setup, w2.fs, w2.idx, root, a);
    var op :| op in PlanDir(b.t.setup, w2.fs, w2.idx, root) && IsClear(op) && op.path == a;
    assert !SparesDownloads(b, w2, op);
  }

  /** So is a record whose file is no longer there. */
  lemma LostIsCleared(b: Pull, w2: World, root: Path, q: Path)
    requires b.Ok() && Pulled(b, w2) && Grafted(b, w2) && Lost(w2, root, q) && !ScanFails(b.t.setup, w2.fs, root)
    ensures !LeftAlone(b, w2, root)
  {
    hide PlanDir, Pulled, GoodPath, LeadsToItem, DirsAbove, IsStrm, Replaces, OpsAt, LeftToVideo, InScope, Settled;
    LostIsTorn(b, w2, root, q);
    assert FileGrafted(b, w2.fs, q);
    PlaceInScope(b, w2, root, q);
    TornAsks(b.t.setup, w2, q);
    NoLinkIsOwn(b.t.setup, w2.fs, w2.idx, q);
    PlanDirComplete(b.t.setup, w2.fs, w2.idx, root, q);
    assert !SparesDownloads(b, w2, ClearOp(q, RecAt(w2.idx, q)));
  }

  lemma LostIsTorn(b: Pull, w2: World, root: Path, q: Path)
    requires Pulled(b, w2) && Lost(w2, root, q)
    ensures Torn(w2, q)
  {
    hide IsStrm, Pulled;
    WasLanded(b, w2, q);
  }

  lemma TornAsks(s: Setup, w: World, q: Path)
    requires Torn(w, q)
    ensures ClearOp(q, RecAt(w.idx, q)) in OpsAt(s, w.fs, w.idx, q)
  {
    hide IsStrm;
  }

  lemma RivalIsPlanned(b: Pull, w2: World, root: Path, p: Path)
    requires Pulled(b, w2) && Rival(b, w2, root, p) && !ScanFails(b.t.setup, w2.fs, root)
    ensures !LeftAlone(b, w2, root)
  {
    hide PlanDir, IsStrm, OpsAt, LeftToVideo, InScope, Settled, StrmName, BigVideo, Ext, Lower, Stem;
    BigVideoIsFile(b.t.setup, p, b.fs[p]);
    assert OldFile(b, w2, p) && b.fs[p].File?;
    var op := BigVideoAsks(b.t.setup, w2.fs, w2.idx, p);
    ListedIsDecided(b.t.setup, w2.fs, w2.idx, p);
    PlanDirComplete(b.t.setup, w2.fs, w2.idx, root, p);
    assert !SparesDownloads(b, w2, op);
  }

  lemma PlaceInScope(b: Pull, w2: World, root: Path, a: Path)
    requires |a| > 0 && DirsAbove(w2.fs, a) && GoodPath(b.t.setup, Parent(a)) && root < a
    ensures InScope(b.t.setup, w2.fs, root, a)
  {
    hide IsStrm;
    var d := Parent(a);
    assert root == a[..|root|] && d == a[..|a| - 1];
    forall i | |root| < i <= |d| ensures Listed(b.t.setup, w2.fs, d[..i]) && w2.fs[d[..i]].Dir? {
      assert d[..i] == a[..i] && GoodAt(b.t.setup, d, i - 1) && d[..i - 1 + 1] == d[..i];
      assert IsDirAt(w2.fs, a[..i]);
    }
  }

  /** After a download round the local planner leaves it alone if and only if no directory above
      a downloaded file, and no folder the round created, is still indexed as something else, no
      downloaded file was lost again, and no large local video claims a downloaded link. */
  lemma LeftAloneUnlessInTheWay(b: Pull, c: Cloud, w: World, root: Path)
    requires b.Ok() && w.fs == b.fs && w.idx == b.idx && w.written == {}
    ensures BelowRoot(b.Plan())
    ensures var w2 := ApplyOps(c, b.t, w, b.Plan()).0;
      !ScanFails(b.t.setup, w2.fs, root) ==> (LeftAlone(b, w2, root) <==> Undisturbed(b, w2.idx, w2, root))
  {
    hide PlanCloud, PlanDir, ApplyOps, Pulled, Grafted, InTheWay, Lost, Rival, OpsAt, SparesDownloads;
    PullRound(b, c, w);
    RoundGrafts(b, c, w);
    var w2 := ApplyOps(c, b.t, w, b.Plan()).0;
    if ScanFails(b.t.setup, w2.fs, root) {
    } else if a :| InTheWay(b, w2.idx, w2, root, a) {
      InTheWayIsCleared(b, w2, root, a);
    } else if q :| Lost(w2, root, q) {
      LostIsCleared(b, w2, root, q);
    } else if p :| Rival(b, w2, root, p) {
      RivalIsPlanned(b, w2, root, p);
    } else {
      forall op | op in PlanDir(b.t.setup, w2.fs, w2.idx, root) ensures SparesDownloads(b, w2, op) {
        var p := PlanDirSound(b.t.setup, w2.fs, w2.idx, root, op);
        PathOfDecision(b.t.setup, w2.fs, w2.idx, p, op);
        SparedAt(b, w2, root, p, op);
      }
    }
  }

  /** Whatever the transfers do, what could be examined before a download round is still there,
      unchanged. */
  lemma ExistingFilesStay(b: Pull, c: Cloud, w: World, p: Path)
    requires b.Ok() && w.fs == b.fs && w.idx == b.idx && w.written == {} && Exists(b.fs, p)
    ensures BelowRoot(b.Plan())
    ensures var w2 := ApplyOps(c, b.t, w, b.Plan()).0; p in w2.fs && w2.fs[p] == b.fs[p]
  {
    hide PlanCloud, ApplyOps, AllDownloaded, NewFolders;
    PullRound(b, c, w);
    assert OldFile(b, ApplyOps(c, b.t, w, b.Plan()).0, p);
  }

  // ---- the cloud files behind the downloads ----

  /** The downloaded item has this FID, or a cloud folder that holds it: removing it removes the file. */
  ghost predicate Holds(b: Pull, w2: World, q: Path, fid: string) {
    || fid == RecAt(w2.idx, q).fid || fid == b.t.cloudFid
    || exists i :: 0 <= i < |b.items| && b.items[i].isDir && b.items[i].path < q && b.items[i].fid == fid
  }

  ghost predicate Held(b: Pull, w2: World, fid: string) {
    exists q :: q in w2.written && Holds(b, w2, q, fid)
  }

  /** The index from before the round has the FID at `p`. */
  predicate OldCopy(b: Pull, p: Path, fid: string) {
    RecAt(b.idx, p).fid == fid && fid != ""
  }

  /** No such record carries the FID of a downloaded item, or of a cloud folder that holds one: that
      is what the record of an item or folder does that was moved in the cloud. */
  ghost predicate FidsAreFresh(b: Pull, w2: World) {
    forall p, fid :: OldCopy(b, p, fid) && Held(b, w2, fid) ==> AboveDownload(w2, p)
  }

  /** Such a record is cleared or replaced by the local planner. */
  ghost predicate OldCopyTaken(b: Pull, w2: World, root: Path, fid: string) {
    exists p :: p !in w2.written && !AboveDownload(w2, p) && OldCopy(b, p, fid)
      && CloudFiles.TakenAt(b.t.setup, w2.fs, w2.idx, root, p, fid)
  }

  /** Where the local planner leaves a download round alone, it takes a cloud file that holds a
      download exactly when a record from before the round, not above any download, carries that FID
      and is cleared or replaced; where the FIDs are new to the index, it takes none of them. */
  lemma DownloadedFidsAreSpared(b: Pull, c: Cloud, w: World, root: Path, fid: string)
    requires b.Ok() && w.fs == b.fs && w.idx == b.idx && w.written == {}
    ensures BelowRoot(b.Plan())
    ensures var s, w2 := b.t.setup, ApplyOps(c, b.t, w, b.Plan()).0;
      !ScanFails(s, w2.fs, root) && LeftAlone(b, w2, root) && Held(b, w2, fid) ==>
        && (CloudFiles.PlanTakes(s, w2.fs, w2.idx, root, fid) <==> OldCopyTaken(b, w2, root, fid))
        && (FidsAreFresh(b, w2) ==> !CloudFiles.PlanTakes(s, w2.fs, w2.idx, root, fid))
  {
    hide PlanCloud, PlanDir, ApplyOps, Pulled, Grafted, LeftAlone, Held, AboveDownload, CloudFiles.PlanTakes,
      CloudFiles.TakenAt, OldCopy;
    PullRound(b, c, w);
    RoundGrafts(b, c, w);
    var s, w2 := b.t.setup, ApplyOps(c, b.t, w, b.Plan()).0;
    if !ScanFails(s, w2.fs, root) {
      CloudFiles.FidTakenExactly(s, w2.fs, w2.idx, root, fid);
      if LeftAlone(b, w2, root) && CloudFiles.PlanTakes(s, w2.fs, w2.idx, root, fid) {
        var p :| CloudFiles.TakenAt(s, w2.fs, w2.idx, root, p, fid);
        TakenIsOld(b, w2, root, p, fid);
      }
    }
  }

  lemma TakenIsOld(b: Pull, w2: World, root: Path, p: Path, fid: string)
    requires b.Ok() && Pulled(b, w2) && Grafted(b, w2) && LeftAlone(b, w2, root) && !ScanFails(b.t.setup, w2.fs, root)
    requires CloudFiles.TakenAt(b.t.setup, w2.fs, w2.idx, root, p, fid)
    ensures p !in w2.written && !AboveDownload(w2, p) && OldCopy(b, p, fid)
  {
    hide PlanDir, Pulled, Grafted, AboveDownload, CloudFiles.Cleared, CloudFiles.Replaced, NewFolder, CloudFiles.Takes;
    if CloudFiles.Cleared(b.t.setup, w2.fs, w2.idx, root, p) {
      var op := CloudFiles.ClearedIsPlanned(b.t.setup, w2.fs, w2.idx, root, p);
      assert SparesDownloads(b, w2, op);
    } else {
      ReplacedIsOld(b, w2, root, p);
    }
    UnwrittenCopyIsOld(b, w2, p, fid);
  }

  lemma UnwrittenCopyIsOld(b: Pull, w2: World, p: Path, fid: string)
    requires Pulled(b, w2) && p !in w2.written && RecAt(w2.idx, p).fid == fid && fid != ""
    ensures OldCopy(b, p, fid)
  {}

  lemma ReplacedIsOld(b: Pull, w2: World, root: Path, p: Path)
    requires b.Ok() && Pulled(b, w2) && Grafted(b, w2) && LeftAlone(b, w2, root) && !ScanFails(b.t.setup, w2.fs, root)
    requires CloudFiles.Replaced(b.t.setup, w2.fs, w2.idx, root, p)
    ensures p !in w2.written && !AboveDownload(w2, p)
  {
    hide PlanDir, Pulled, Grafted, AboveDownload, NewFolder, BigVideo, StrmName, InScope, IsStrm, OpsAt, LeftToVideo;
    var x :| InScope(b.t.setup, w2.fs, root, x) && Listed(b.t.setup, w2.fs, x) && BigVideo(b.t.setup, x, w2.fs[x])
      && StrmKey(x) == p;
    var op := BigVideoAsks(b.t.setup, w2.fs, w2.idx, x);
    ListedIsDecided(b.t.setup, w2.fs, w2.idx, x);
    PlanDirComplete(b.t.setup, w2.fs, w2.idx, root, x);
    assert SparesDownloads(b, w2, op);
    StrmNameIsStrm(Base(x));
    if AboveDownload(w2, p) { PlaceIsListed(b, w2, p); }
  }

  // ---- when a downloaded file is lost again ----

  /** Operation `i` of the round downloads to `q`. */
  ghost predicate LandsIn(b: Pull, c: Cloud, w: World, i: nat, q: Path)
    requires b.Ok() && BelowRoot(SortByPhase(b.Plan()))
  {
    var ops := SortByPhase(b.Plan());
    i < |ops| && Lands(c, b.t, StateAt(c, b.t, w, ops, i), ops[i], q)
  }

  /** Operation `i` of the round is a transfer to `q` that breaks off. */
  ghost predicate BreaksIn(b: Pull, c: Cloud, w: World, i: nat, q: Path)
    requires b.Ok() && BelowRoot(SortByPhase(b.Plan()))
  {
    var ops := SortByPhase(b.Plan());
    i < |ops| && Breaks(c, StateAt(c, b.t, w, ops, i), ops[i], q)
  }

  predicate Lands(c: Cloud, t: Apply.Task, w: World, op: Op, q: Path) {
    |op.path| > 0 && op.kind == Download && op.path == q && Do(c, t, w, op).1
  }

  predicate Breaks(c: Cloud, w: World, op: Op, q: Path) {
    |op.path| > 0 && op.kind == Download && BreaksOff(c, w, op, q)
  }

  predicate FileThere(w: World, q: Path) {
    q in w.fs && w.fs[q].File?
  }

  /** Operation `j` breaks off after a download to `q`, and none of the next ones up to `n` lands. */
  ghost predicate BreaksLast(b: Pull, c: Cloud, w: World, n: nat, j: nat, q: Path)
    requires b.Ok() && BelowRoot(SortByPhase(b.Plan()))
  {
    && j < n && BreaksIn(b, c, w, j, q) && (exists i :: 0 <= i < j && LandsIn(b, c, w, i, q))
    && (forall k :: j < k < n ==> !LandsIn(b, c, w, k, q))
  }

  ghost predicate EndsBroken(b: Pull, c: Cloud, w: World, n: nat, q: Path)
    requires b.Ok() && BelowRoot(SortByPhase(b.Plan()))
  {
    exists j :: BreaksLast(b, c, w, n, j, q)
  }

  lemma LandsOrBreaks(c: Cloud, t: Apply.Task, w: World, op: Op, q: Path)
    requires |op.path| > 0 && (IsClear(op) || op.kind in {Download, Archive})
    ensures var w2 := ApplyOne(c, t, w, op);
      if Lands(c, t, w, op, q) then !Breaks(c, w, op, q) && q in w2.written && FileThere(w2, q)
      else if Breaks(c, w, op, q) then (q in w2.written <==> q in w.written) && !FileThere(w2, q)
      else (q in w2.written <==> q in w.written) && (FileThere(w2, q) <==> FileThere(w, q))
  {
    hide Links.Content, CanMkdirAll, StrmBelow, Cleared;
    if IsClear(op) { ClearPreserves(c, t, w, op); }
  }

  lemma PlannedKinds(b: Pull, op: Op)
    requires b.Ok() && op in b.Plan()
    ensures |op.path| > 0 && (IsClear(op) || op.kind in {Download, Archive})
  {
    hide PlanCloud, GoodItems;
    var it := PulledOp(b, op);
  }

  lemma {:induction false} LandedAndLost(b: Pull, c: Cloud, w: World, n: nat, q: Path)
    requires b.Ok() && w.written == {} && BelowRoot(SortByPhase(b.Plan())) && n <= |SortByPhase(b.Plan())|
    ensures var wn := StateAt(c, b.t, w, SortByPhase(b.Plan()), n);
      && (q in wn.written <==> exists i :: 0 <= i < n && LandsIn(b, c, w, i, q))
      && (q in wn.written ==> (!FileThere(wn, q) <==> EndsBroken(b, c, w, n, q)))
    decreases n
  {
    hide PlanCloud, SortByPhase, StateAt, GoodItems, ApplyOne, Lands, Breaks, FileThere, GoodPath;
    var ops := SortByPhase(b.Plan());
    StateEnds(c, b.t, w, ops);
    if n > 0 {
      LandedAndLost(b, c, w, n - 1, q);
      StateStep(c, b.t, w, ops, n - 1);
      assert ops[n - 1] in ops;
      PlannedKinds(b, ops[n - 1]);
      LandsOrBreaks(c, b.t, StateAt(c, b.t, w, ops, n - 1), ops[n - 1], q);
      LastWordMoves(b, c, w, n - 1, q);
    }
  }

  lemma LastWordMoves(b: Pull, c: Cloud, w: World, n: nat, q: Path)
    requires b.Ok() && BelowRoot(SortByPhase(b.Plan())) && !(LandsIn(b, c, w, n, q) && BreaksIn(b, c, w, n, q))
    ensures LandsIn(b, c, w, n, q) ==> !EndsBroken(b, c, w, n + 1, q)
    ensures BreaksIn(b, c, w, n, q) && (exists i :: 0 <= i < n && LandsIn(b, c, w, i, q))
      ==> EndsBroken(b, c, w, n + 1, q)
    ensures !LandsIn(b, c, w, n, q) && !BreaksIn(b, c, w, n, q) ==>
      (EndsBroken(b, c, w, n, q) <==> EndsBroken(b, c, w, n + 1, q))
  {
    hide LandsIn, BreaksIn, PlanCloud, SortByPhase, GoodItems, GoodPath;
    if j: nat :| BreaksLast(b, c, w, n, j, q) {
      assert !LandsIn(b, c, w, n, q) ==> BreaksLast(b, c, w, n + 1, j, q);
    }
    if BreaksIn(b, c, w, n, q) && (exists i :: 0 <= i < n && LandsIn(b, c, w, i, q)) {
      assert BreaksLast(b, c, w, n + 1, n, q);
    }
    var m := n + 1;
    if j: nat :| BreaksLast(b, c, w, m, j, q) {
      assert j < n ==> BreaksLast(b, c, w, n, j, q) && !LandsIn(b, c, w, n, q);
    }
  }

  /** A downloaded file is lost exactly when a later transfer to its place breaks off after it,
      and no still later one lands. */
  lemma LostExactly(b: Pull, c: Cloud, w: World, root: Path, q: Path)
    requires b.Ok() && w.fs == b.fs && w.idx == b.idx && w.written == {} && root < q
    ensures BelowRoot(b.Plan()) && BelowRoot(SortByPhase(b.Plan()))
    ensures var w2, n := ApplyOps(c, b.t, w, b.Plan()).0, |SortByPhase(b.Plan())|;
      Lost(w2, root, q) <==> EndsBroken(b, c, w, n, q)
  {
    hide PlanCloud, SortByPhase, StateAt, GoodItems, ArchiveFids, Run, LandsIn, BreaksIn, GoodPath, Pulled;
    PullRound(b, c, w);
    var ops := SortByPhase(b.Plan());
    LandedAndLost(b, c, w, |ops|, q);
    StateEnds(c, b.t, w, ops);
  }

  /** No two files of the snapshot are saved in one place. */
  ghost predicate DistinctPlaces(b: Pull)
    requires Rooted(b.items)
  {
    forall i, j :: 0 <= i < j < |b.items| && !b.items[i].isDir && !b.items[j].isDir ==>
      SavePath(b.t.setup, b.cfg.toStrm, b.items[i]) != SavePath(b.t.setup, b.cfg.toStrm, b.items[j])
  }

  ghost predicate OncePerPlace(ops: seq<Op>) {
    forall i, j :: 0 <= i < j < |ops| && ops[i].kind == Download && ops[j].kind == Download ==>
      ops[i].path != ops[j].path
  }

  lemma OnceConcat(x: seq<Op>, y: seq<Op>)
    requires OncePerPlace(x) && OncePerPlace(y)
    requires forall a, o :: a in x && o in y && a.kind == Download && o.kind == Download ==> a.path != o.path
    ensures OncePerPlace(x + y)
  {
    var r := x + y;
    forall i, j | 0 <= i < j < |r| && r[i].kind == Download && r[j].kind == Download ensures r[i].path != r[j].path {
      if i < |x| <= j { assert r[i] in x && r[j] in y; }
    }
  }

  lemma {:induction false} OnceInPhase(ops: seq<Op>, k: nat)
    requires OncePerPlace(ops)
    ensures OncePerPlace(OfPhase(ops, k))
  {
    if ops != [] {
      OnceInPhase(ops[1..], k);
      var head := if ops[0].kind.Phase() == k then [ops[0]] else [];
      assert forall o :: o in ops[1..] && o.kind == Download && ops[0].kind == Download ==> o.path != ops[0].path;
      OnceConcat(head, OfPhase(ops[1..], k));
    }
  }

  lemma OnceSorted(ops: seq<Op>)
    requires OncePerPlace(ops)
    ensures OncePerPlace(SortByPhase(ops))
  {
    hide OfPhase, OncePerPlace;
    OnceInPhase(ops, 0);
    OnceInPhase(ops, 1);
    OnceInPhase(ops, 2);
    OnceInPhase(ops, 3);
    OnceInPhase(ops, 4);
    OnceConcat(OfPhase(ops, 0), OfPhase(ops, 1));
    OnceConcat(OfPhase(ops, 0) + OfPhase(ops, 1), OfPhase(ops, 2));
    OnceConcat(OfPhase(ops, 0) + OfPhase(ops, 1) + OfPhase(ops, 2), OfPhase(ops, 3));
    OnceConcat(OfPhase(ops, 0) + OfPhase(ops, 1) + OfPhase(ops, 2) + OfPhase(ops, 3), OfPhase(ops, 4));
  }

  lemma {:induction false} OncePlanned(b: Pull, n: nat)
    requires b.Ok() && DistinctPlaces(b) && n <= |b.items| && Rooted(b.items[..n])
    ensures OncePerPlace(OpsForItems(b.t.setup, b.cfg, b.fs, b.idx, b.items[..n]))
    decreases n
  {
    hide SavePath, GoodItems, GoodPath, Exists, Video;
    OkIsRooted(b);
    if n > 0 {
      var s, cfg, fs, idx := b.t.setup, b.cfg, b.fs, b.idx;
      OneMoreItem(s, cfg, fs, idx, b.items, n - 1);
      OncePlanned(b, n - 1);
      var front, last := OpsForItems(s, cfg, fs, idx, b.items[..n - 1]), OpsForItem(s, cfg, fs, idx, b.items[n - 1]);
      FreshPlace(b, n);
      OnceConcat(front, last);
    }
  }

  lemma OkIsRooted(b: Pull)
    requires b.Ok()
    ensures Rooted(b.items)
  {}

  lemma FreshPlace(b: Pull, n: nat)
    requires b.Ok() && DistinctPlaces(b) && 0 < n <= |b.items| && Rooted(b.items[..n - 1]) && |b.items[n - 1].path| > 0
    ensures var front := OpsForItems(b.t.setup, b.cfg, b.fs, b.idx, b.items[..n - 1]);
      forall a, o :: (a in front && o in OpsForItem(b.t.setup, b.cfg, b.fs, b.idx, b.items[n - 1])
                        && a.kind == Download && o.kind == Download) ==> a.path != o.path
  {
    hide SavePath, GoodItems, GoodPath, Exists, Video;
    OkIsRooted(b);
    var s, cfg, fs, idx := b.t.setup, b.cfg, b.fs, b.idx;
    var front := OpsForItems(s, cfg, fs, idx, b.items[..n - 1]);
    forall a, o | a in front && o in OpsForItem(s, cfg, fs, idx, b.items[n - 1])
                  && a.kind == Download && o.kind == Download
      ensures a.path != o.path
    {
      FromOneItem(s, cfg, fs, idx, b.items[..n - 1], a);
      var i :| 0 <= i < |b.items[..n - 1]| && a in OpsForItem(s, cfg, fs, idx, b.items[..n - 1][i]);
      assert b.items[..n - 1][i] == b.items[i];
    }
  }

  lemma OnceInTheRound(b: Pull)
    requires b.Ok() && DistinctPlaces(b)
    ensures OncePerPlace(SortByPhase(b.Plan()))
  {
    hide SavePath, GoodItems, GoodPath, SortByPhase, OpsForItems;
    assert b.items[..|b.items|] == b.items;
    OkIsRooted(b);
    OncePlanned(b, |b.items|);
    if b.cfg.archive {
      forall op | op in ArchiveOps(b.items) ensures op.kind == Archive { ArchivesOnly(b.items, op); }
      OnceConcat(OpsForItems(b.t.setup, b.cfg, b.fs, b.idx, b.items), ArchiveOps(b.items));
    } else {
      assert b.Plan() == OpsForItems(b.t.setup, b.cfg, b.fs, b.idx, b.items);
    }
    OnceSorted(b.Plan());
  }

  /** With distinct places no download is lost, whatever the transfers do. */
  lemma DistinctPlacesLoseNothing(b: Pull, c: Cloud, w: World, root: Path, q: Path)
    requires b.Ok() && DistinctPlaces(b) && w.fs == b.fs && w.idx == b.idx && w.written == {}
    ensures BelowRoot(b.Plan()) && !Lost(ApplyOps(c, b.t, w, b.Plan()).0, root, q)
  {
    hide PlanCloud, SortByPhase, StateAt, GoodItems, ApplyOps, GoodPath, DistinctPlaces, Lost;
    PullStarts(b, w);
    OnceInTheRound(b);
    if root < q {
      LostExactly(b, c, w, root, q);
    } else {
      NotBelow(ApplyOps(c, b.t, w, b.Plan()).0, root, q);
    }
  }

  lemma NotBelow(w2: World, root: Path, q: Path)
    requires !(root < q)
    ensures !Lost(w2, root, q)
  {}

  // ---- stale doubles ----

  /** Operation `i` of the round drops the record of `p`: it is a drop that the cloud accepts, at
      `p` or, with no sibling key in between, above it. */
  ghost predicate DropsAt(b: Pull, c: Cloud, w: World, i: nat, p: Path)
    requires b.Ok() && BelowRoot(SortByPhase(b.Plan()))
  {
    var ops := SortByPhase(b.Plan());
    && i < |ops| && IsClear(ops[i]) && c.accept(w.calls + i)
    && Doomed(StateAt(c, b.t, w, ops, i).idx, ops[i].path, p)
  }

  lemma OneCallPerDrop(c: Cloud, t: Apply.Task, w: World, op: Op)
    requires IsClear(op) && op.fid != "" && |op.path| > 0
    ensures var w2 := ApplyOne(c, t, w, op);
      && w2.calls == w.calls + 1
      && w2.idx == (if c.accept(w.calls) then Cleared(w.idx, op.path) else w.idx)
  {
    hide Cleared, StrmBelow;
  }

  /** The drops come first, so the i-th of them makes the i-th call. */
  lemma {:induction false} CallsOfDrops(b: Pull, c: Cloud, w: World, i: nat)
    requires b.Ok() && BelowRoot(SortByPhase(b.Plan())) && i < |SortByPhase(b.Plan())|
    requires IsClear(SortByPhase(b.Plan())[i])
    ensures StateAt(c, b.t, w, SortByPhase(b.Plan()), i).calls == w.calls + i
    decreases i
  {
    hide PlanCloud, SortByPhase, StateAt, GoodItems, ApplyOne, ClearsFirst, GoodPath, SavePath, Exists;
    var ops := SortByPhase(b.Plan());
    if i == 0 {
      StateEnds(c, b.t, w, ops);
    } else {
      SortedClearsFirst(b.Plan());
      EarlierIsClear(ops, i - 1, i);
      CallsOfDrops(b, c, w, i - 1);
      StateStep(c, b.t, w, ops, i - 1);
      assert ops[i - 1] in ops;
      var it := DropOfItem(b, ops[i - 1]);
      OneCallPerDrop(c, b.t, StateAt(c, b.t, w, ops, i - 1), ops[i - 1]);
    }
  }

  lemma EarlierIsClear(ops: seq<Op>, i: nat, j: nat)
    requires ClearsFirst(ops) && i < j < |ops| && IsClear(ops[j])
    ensures IsClear(ops[i])
  {}

  lemma DropStepExactly(b: Pull, c: Cloud, w: World, i: nat, p: Path)
    requires b.Ok() && BelowRoot(SortByPhase(b.Plan())) && i < |SortByPhase(b.Plan())|
    requires p in StateAt(c, b.t, w, SortByPhase(b.Plan()), i).idx
    ensures p in StateAt(c, b.t, w, SortByPhase(b.Plan()), i + 1).idx <==> !DropsAt(b, c, w, i, p)
  {
    hide PlanCloud, SortByPhase, StateAt, GoodItems, ApplyOne, GoodPath, SavePath, Exists, Doomed, ConfirmedClear;
    var ops := SortByPhase(b.Plan());
    StateStep(c, b.t, w, ops, i);
    assert ops[i] in ops;
    var wi := StateAt(c, b.t, w, ops, i);
    if IsClear(ops[i]) {
      CallsOfDrops(b, c, w, i);
      var it := DropOfItem(b, ops[i]);
      OneCallPerDrop(c, b.t, wi, ops[i]);
    } else if p !in StateAt(c, b.t, w, ops, i + 1).idx {
      ForgettingNeedsConsent(c, b.t, wi, ops[i], p);
      NotConfirmed(c, b.t, wi, ops[i], p);
    }
  }

  lemma NotConfirmed(c: Cloud, t: Apply.Task, w: World, op: Op, p: Path)
    requires |op.path| > 0 && !IsClear(op)
    ensures !ConfirmedClear(c, t, w, op, p)
  {}

  /** A record without a place to download to is lost for good once a drop has taken it. */
  lemma StaysLost(b: Pull, c: Cloud, w: World, op: Op, p: Path)
    requires b.Ok() && op in b.Plan() && |op.path| > 0 && p !in w.idx && p in b.idx
    ensures p !in ApplyOne(c, b.t, w, op).idx
  {
    hide Ext, Lower, Stem, StrmName, IsStrm, GoodItem, GoodPath, PlanCloud, Video, SavePath, Links.Content,
      CanMkdirAll, MkdirAll;
    var it := PulledOp(b, op);
    if IsClear(op) {
      ClearPreserves(c, b.t, w, op);
    } else if op.kind == Archive {
      ArchiveWaits(c, b.t, w, op);
    } else {
      assert op.path != p;
    }
  }

  lemma {:induction false} LostByDrop(b: Pull, c: Cloud, w: World, p: Path, n: nat)
    requires b.Ok() && w.idx == b.idx && BelowRoot(SortByPhase(b.Plan())) && n <= |SortByPhase(b.Plan())| && p in b.idx
    ensures p in StateAt(c, b.t, w, SortByPhase(b.Plan()), n).idx
      <==> forall i :: 0 <= i < n ==> !DropsAt(b, c, w, i, p)
    decreases n
  {
    hide PlanCloud, SortByPhase, StateAt, GoodItems, ApplyOne, DropsAt, GoodPath;
    var ops := SortByPhase(b.Plan());
    StateEnds(c, b.t, w, ops);
    if n > 0 {
      LostByDrop(b, c, w, p, n - 1);
      if p in StateAt(c, b.t, w, ops, n - 1).idx {
        DropStepExactly(b, c, w, n - 1, p);
      } else {
        StateStep(c, b.t, w, ops, n - 1);
        assert ops[n - 1] in ops;
        StaysLost(b, c, StateAt(c, b.t, w, ops, n - 1), ops[n - 1], p);
      }
    }
  }

  /** An accepted drop of the round takes the record at `a`. */
  ghost predicate Reached(b: Pull, c: Cloud, w: World, a: Path)
    requires b.Ok() && BelowRoot(SortByPhase(b.Plan()))
  {
    exists i: nat :: DropsAt(b, c, w, i, a)
  }

  /** Where no download was lost, a conflict that a download round meets was there before it, and
      stays unless a drop takes it. */
  lemma SameInTheWay(b: Pull, c: Cloud, w: World, root: Path, a: Path)
    requires b.Ok() && w.fs == b.fs && w.idx == b.idx && w.written == {}
    requires BelowRoot(b.Plan()) && BelowRoot(SortByPhase(b.Plan()))
    requires !Lost(ApplyOps(c, b.t, w, b.Plan()).0, root, a)
    ensures var w2 := ApplyOps(c, b.t, w, b.Plan()).0;
      InTheWay(b, w2.idx, w2, root, a) <==> InTheWay(b, b.idx, w2, root, a) && !Reached(b, c, w, a)
  {
    hide PlanCloud, Pulled, Grafted, NewFolder, AboveDownload, GoodPath, LeadsToItem, DirsAbove, IsStrm, SortByPhase,
      DropsAt, GoodItems, Run, ArchiveFids, StateAt;
    var ops, w2 := SortByPhase(b.Plan()), ApplyOps(c, b.t, w, b.Plan()).0;
    PullRound(b, c, w);
    RoundGrafts(b, c, w);
    if root < a && (NewFolder(b, w2, a) || AboveDownload(w2, a)) {
      PlaceIsListed(b, w2, a);
      OldRecordAt(b, w2, a);
      if Conflict(b.idx, a) {
        LostByDrop(b, c, w, a, |ops|);
        StateEnds(c, b.t, w, ops);
        DropsAreSteps(b, c, w, a);
        if a in w2.idx { KnownRecordIsOld(b, w2, a); }
      }
    }
  }

  lemma NoneReached(b: Pull, c: Cloud, w: World, w2: World, root: Path, a: Path)
    requires b.Ok() && Pulled(b, w2) && Grafted(b, w2) && BelowRoot(SortByPhase(b.Plan()))
    requires b.cfg.dropStale ==> NothingBelowFiles(b.items)
    requires InTheWay(b, b.idx, w2, root, a)
    ensures !Reached(b, c, w, a)
  {
    hide PlanCloud, SortByPhase, Pulled, Grafted, NewFolder, AboveDownload, Conflict, GoodPath, LeadsToItem, DirsAbove,
      GoodItems, NothingBelowFiles, StateAt;
    PlaceIsListed(b, w2, a);
    if i: nat :| DropsAt(b, c, w, i, a) {
      var op := SortByPhase(b.Plan())[i];
      assert op in b.Plan();
      NoDropAbove(b, op, a);
    }
  }

  /** In terms of the index before the round: a conflict there counts unless an accepted drop takes
      its record, which no drop does in a snapshot that has nothing below a file. */
  lemma DownloadsAreLeftAlone(b: Pull, c: Cloud, w: World, root: Path)
    requires b.Ok() && w.fs == b.fs && w.idx == b.idx && w.written == {}
    ensures BelowRoot(b.Plan()) && BelowRoot(SortByPhase(b.Plan()))
    ensures var w2 := ApplyOps(c, b.t, w, b.Plan()).0;
      !ScanFails(b.t.setup, w2.fs, root) ==>
        && (LeftAlone(b, w2, root) <==>
              && (forall a :: InTheWay(b, b.idx, w2, root, a) ==> Reached(b, c, w, a))
              && (forall q :: !Lost(w2, root, q)) && (forall p :: !Rival(b, w2, root, p)))
        && ((b.cfg.dropStale ==> NothingBelowFiles(b.items)) ==>
              (LeftAlone(b, w2, root) <==> Undisturbed(b, b.idx, w2, root)))
  {
    hide PlanCloud, PlanDir, ApplyOps, InTheWay, LeftAlone, NothingBelowFiles, Lost, Rival, SortByPhase, Pulled,
      Grafted, Reached;
    LeftAloneUnlessInTheWay(b, c, w, root);
    PullRound(b, c, w);
    RoundGrafts(b, c, w);
    assert forall op :: op in SortByPhase(b.Plan()) ==> op in b.Plan();
    var w2 := ApplyOps(c, b.t, w, b.Plan()).0;
    forall a ensures !Lost(w2, root, a) ==>
      (InTheWay(b, w2.idx, w2, root, a) <==> InTheWay(b, b.idx, w2, root, a) && !Reached(b, c, w, a))
    {
      if !Lost(w2, root, a) { SameInTheWay(b, c, w, root, a); }
    }
    if b.cfg.dropStale ==> NothingBelowFiles(b.items) {
      forall a | InTheWay(b, b.idx, w2, root, a) ensures !Reached(b, c, w, a) { NoneReached(b, c, w, w2, root, a); }
    }
  }

  /** Such a file is decided by its own record alone. */
  lemma OwnRecordDecides(s: Setup, fs: Tree, idx: Index, fs2: Tree, idx2: Index, p: Path)
    requires |p| > 0 && (IsStrm(Base(p)) || !(s.toStrm && s.rules.IsVideoExt(Base(p))))
    requires EntryAt(s, fs, p) == EntryAt(s, fs2, p) && RecAt(idx, p) == RecAt(idx2, p)
    ensures OpsAt(s, fs, idx, p) == OpsAt(s, fs2, idx2, p)
  {
    hide Ext, Lower, Stem, IsStrm;
  }

  lemma PlaceIsDecidedAlone(s: Setup, toStrm: bool, it: CloudItem)
    requires |it.path| > 0 && toStrm == s.toStrm
    ensures var p := SavePath(s, toStrm, it); IsStrm(Base(p)) || !(s.toStrm && s.rules.IsVideoExt(Base(p)))
  {
    hide Ext, Lower, Stem, StrmName;
    StrmNameIsStrm(Base(it.path));
  }

  /** The survivor keeps its record, and the local planner still says the same about it. */
  ghost predicate SurvivorKept(b: Pull, w2: World, p: Path)
    requires |p| > 0
  {
    && p in b.idx && p in w2.idx && w2.idx[p] == b.idx[p]
    && OpsAt(b.t.setup, w2.fs, w2.idx, p) == OpsAt(b.t.setup, b.fs, b.idx, p)
  }

  /** A local file that is the place of a cloud item keeps its record over a whole download round,
      and the local plan at its path stays what it was, if and only if no drop of a stale double
      at its path or above is accepted; otherwise the local planner takes it for a new file.
      With links on or off. */
  lemma SurvivorIsKeptUnlessDropped(b: Pull, c: Cloud, w: World, it: CloudItem)
    requires b.Ok() && w.fs == b.fs && w.idx == b.idx && w.written == {}
    requires it in b.items && |it.path| > 0
    requires var p := SavePath(b.t.setup, b.cfg.toStrm, it); Exists(b.fs, p) && p in b.idx
    ensures BelowRoot(b.Plan()) && BelowRoot(SortByPhase(b.Plan()))
    ensures var p, w2 := SavePath(b.t.setup, b.cfg.toStrm, it), ApplyOps(c, b.t, w, b.Plan()).0;
      && |p| > 0
      && (SurvivorKept(b, w2, p) <==> forall i: nat :: !DropsAt(b, c, w, i, p))
      && (!SurvivorKept(b, w2, p) ==>
            OpsAt(b.t.setup, w2.fs, w2.idx, p) == OpsAt(b.t.setup, b.fs, map[], p) && p !in w2.idx)
  {
    hide PlanCloud, GoodItems, SortByPhase, ArchiveFids, Run, Pulled, DropsAt, SavePath, OpsAt, Exists, IsStrm, StateAt;
    PullRound(b, c, w);
    var p, ops, w2 := SavePath(b.t.setup, b.cfg.toStrm, it), SortByPhase(b.Plan()), ApplyOps(c, b.t, w, b.Plan()).0;
    PlaceOf(b.t.setup, b.cfg.toStrm, it);
    PlaceIsDecidedAlone(b.t.setup, b.cfg.toStrm, it);
    LostByDrop(b, c, w, p, |ops|);
    StateEnds(c, b.t, w, ops);
    DropsAreSteps(b, c, w, p);
    EntryStays(b, w2, p);
    if p in w2.idx {
      KnownRecordIsOld(b, w2, p);
      OwnRecordDecides(b.t.setup, b.fs, b.idx, w2.fs, w2.idx, p);
    } else {
      OwnRecordDecides(b.t.setup, b.fs, map[], w2.fs, w2.idx, p);
    }
  }

  lemma DropsAreSteps(b: Pull, c: Cloud, w: World, p: Path)
    requires b.Ok() && BelowRoot(SortByPhase(b.Plan()))
    ensures forall i: nat :: DropsAt(b, c, w, i, p) ==> i < |SortByPhase(b.Plan())|
  {
    hide PlanCloud, SortByPhase, StateAt;
  }

  lemma EntryStays(b: Pull, w2: World, p: Path)
    requires Pulled(b, w2) && Exists(b.fs, p)
    ensures EntryAt(b.t.setup, b.fs, p) == EntryAt(b.t.setup, w2.fs, p)
  {}

  /** Without files above folders only a drop at the very path counts: a stale double of this
      file, planned and not refused. */
  lemma OnlyItsOwnDouble(b: Pull, c: Cloud, w: World, it: CloudItem, i: nat)
    requires b.Ok() && BelowRoot(SortByPhase(b.Plan())) && NothingBelowFiles(b.items) && it in b.items && |it.path| > 0
    ensures var p, ops := SavePath(b.t.setup, b.cfg.toStrm, it), SortByPhase(b.Plan());
      DropsAt(b, c, w, i, p) <==> i < |ops| && IsClear(ops[i]) && ops[i].path == p && c.accept(w.calls + i)
  {
    hide PlanCloud, GoodItems, SortByPhase, SavePath, StateAt, GoodPath, NothingBelowFiles, IsStrm, Exists;
    var p, ops := SavePath(b.t.setup, b.cfg.toStrm, it), SortByPhase(b.Plan());
    PlaceOf(b.t.setup, b.cfg.toStrm, it);
    if i < |ops| && IsClear(ops[i]) && ops[i].path < p {
      assert ops[i] in ops;
      ItemLeads(b, it, ops[i].path, p);
      NoDropAbove(b, ops[i], ops[i].path);
    }
  }

  lemma ItemLeads(b: Pull, it: CloudItem, a: Path, p: Path)
    requires b.Ok() && it in b.items && |it.path| > 0 && |p| > 0 && Parent(p) == Parent(it.path) && a < p
    ensures LeadsToItem(b, a) && GoodPath(b.t.setup, a)
  {
    var j :| 0 <= j < |b.items| && b.items[j] == it;
    assert a <= Parent(p) && a < b.items[j].path;
    GoodPrefix(b.t.setup, it.path, a);
  }
}
