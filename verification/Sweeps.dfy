/** A clear takes the records below its path with it. When does the plan after a round clear at
    or above something that the round has recorded? */
module Sweeps {
  import opened Bytes
  import opened Records
  import opened Model
  import opened Plan
  import opened Apply
  import opened Rounds
  import opened NoOscillation
  import Safety
  import Pickcode

  /** The index knows `a` as something else than a directory. */
  predicate Conflict(idx: Index, a: Path) {
    RecAt(idx, a).fid != "" && RecAt(idx, a).kind != KIND_DIR
  }

  // ---- where a round writes records ----

  /** Beside folder records on the way to its path, an operation writes at most one record. */
  ghost predicate WritesAt(w: World, w1: World, w2: World, op: Op)
    requires |op.path| > 0
  {
    || (w2.idx == w1.idx && w2.written == w1.written)
    || (exists q, r :: OneRecord(w1, w2, op, q, r))
  }

  predicate OneRecord(w1: World, w2: World, op: Op, q: Path, r: Record)
    requires |op.path| > 0
  {
    (q == op.path || q == StrmKey(op.path)) && w2.idx == w1.idx[q := r] && w2.written == w1.written + {q}
  }

  /** The state after the folders that an operation creates first. */
  function Housing(c: Cloud, t: Apply.Task, w: World, op: Op): World
    requires |op.path| > 0
  {
    match op.kind
    case Mkdir => EnsureDir(c, t, w, op.path).0
    case Upload => if op.path in w.fs && !w.fs[op.path].Unreadable? then EnsureDir(c, t, w, Parent(op.path)).0 else w
    case Adopt =>
      if op.fid != "" || Pickcode.ToID(op.pickCode).Some? then EnsureDir(c, t, w, Parent(op.path)).0 else w
    case _ => w
  }

  lemma HousingGrows(c: Cloud, t: Apply.Task, w: World, op: Op)
    requires |op.path| > 0 && MintsFids(c)
    ensures Grown(w, Housing(c, t, w, op), op.path)
    ensures op.kind != Mkdir ==> Grown(w, Housing(c, t, w, op), Parent(op.path))
  {
    hide Grown, MintsFids, Pickcode.ToID;
    GrownByNothing(w, op.path);
    GrownByNothing(w, Parent(op.path));
    EnsureGrows(c, w, op.path, 0, t.cloudFid);
    EnsureGrows(c, w, Parent(op.path), 0, t.cloudFid);
    GrownFarther(w, EnsureDir(c, t, w, Parent(op.path)).0, op.path);
  }

  lemma GrownFarther(w: World, w2: World, p: Path)
    requires |p| > 0 && Grown(w, w2, Parent(p))
    ensures Grown(w, w2, p)
  {}

  lemma UploadWrites(c: Cloud, t: Apply.Task, w: World, op: Op)
    requires |op.path| > 0 && op.kind == Upload
    ensures WritesAt(w, Housing(c, t, w, op), ApplyOne(c, t, w, op), op)
  {
    hide Ext, Lower, Stem, StrmName, Pickcode.ToID, MoveAndRename, StrmBelow, Cleared, Grown, CanMkdirAll, MkdirAll,
      EnsureFrom, Links.Content;
    var w1, w2 := Housing(c, t, w, op), ApplyOne(c, t, w, op);
    if !(w2.idx == w1.idx && w2.written == w1.written) {
      var q := if op.isVideo then StrmKey(op.path) else op.path;
      assert OneRecord(w1, w2, op, q, w2.idx[q]);
    }
  }

  lemma AdoptWrites(c: Cloud, t: Apply.Task, w: World, op: Op)
    requires |op.path| > 0 && op.kind == Adopt
    ensures WritesAt(w, Housing(c, t, w, op), ApplyOne(c, t, w, op), op)
  {
    hide Ext, Lower, Stem, StrmName, Pickcode.ToID, MoveAndRename, StrmBelow, Cleared, Grown, CanMkdirAll, MkdirAll;
    var w1, w2 := Housing(c, t, w, op), ApplyOne(c, t, w, op);
    if !(w2.idx == w1.idx && w2.written == w1.written) { assert OneRecord(w1, w2, op, op.path, w2.idx[op.path]); }
  }

  lemma DownloadWrites(c: Cloud, t: Apply.Task, w: World, op: Op)
    requires |op.path| > 0 && op.kind == Download
    ensures WritesAt(w, w, ApplyOne(c, t, w, op), op)
  {
    hide Ext, Lower, Stem, StrmName, Pickcode.ToID, MoveAndRename, StrmBelow, Cleared, Grown, CanMkdirAll, MkdirAll;
    var w2 := ApplyOne(c, t, w, op);
    if !(w2.idx == w.idx && w2.written == w.written) { assert OneRecord(w, w2, op, op.path, w2.idx[op.path]); }
  }

  lemma WorkWrites(c: Cloud, t: Apply.Task, w: World, op: Op)
    requires |op.path| > 0 && !IsClear(op)
    ensures WritesAt(w, Housing(c, t, w, op), ApplyOne(c, t, w, op), op)
    ensures op.kind == Mkdir ==>
      var w1, w2 := Housing(c, t, w, op), ApplyOne(c, t, w, op); w2.idx == w1.idx && w2.written == w1.written
  {
    hide WritesAt, StrmName, Ext, Lower, Stem;
    match op.kind
    case Upload => UploadWrites(c, t, w, op);
    case Adopt => AdoptWrites(c, t, w, op);
    case Download => DownloadWrites(c, t, w, op);
    case Mkdir => SameRecords(c, t, w, op);
    case Normalize => SameRecords(c, t, w, op);
    case Archive => SameRecords(c, t, w, op);
  }

  lemma SameRecords(c: Cloud, t: Apply.Task, w: World, op: Op)
    requires |op.path| > 0 && op.kind in {Mkdir, Normalize, Archive}
    ensures var w1, w2 := Housing(c, t, w, op), ApplyOne(c, t, w, op);
      w2.idx == w1.idx && w2.written == w1.written && WritesAt(w, w1, w2, op)
  {
    hide StrmName, Ext, Lower, Stem;
  }

  lemma WrittenNear(c: Cloud, t: Apply.Task, w: World, op: Op)
    requires |op.path| > 0 && MintsFids(c) && !IsClear(op)
    ensures var w2 := ApplyOne(c, t, w, op);
      && w.written <= w2.written
      && (forall q :: q in w2.written && q !in w.written ==> q <= op.path || q == StrmKey(op.path))
  {
    hide ApplyOne, StrmName, Ext, Lower, Stem, Housing, MintsFids;
    WorkWrites(c, t, w, op);
    HousingGrows(c, t, w, op);
  }

  /** A record elsewhere changes only from nothing to a directory. */
  lemma RecordsNear(c: Cloud, t: Apply.Task, w: World, op: Op, a: Path)
    requires |op.path| > 0 && MintsFids(c) && !IsClear(op)
    requires a != StrmKey(op.path) && (op.kind == Mkdir || a != op.path)
    ensures var w2 := ApplyOne(c, t, w, op);
      RecAt(w2.idx, a) == RecAt(w.idx, a) || (RecAt(w.idx, a).fid == "" && IsDirRec(RecAt(w2.idx, a)))
  {
    hide ApplyOne, StrmName, Ext, Lower, Stem, Housing, MintsFids;
    WorkWrites(c, t, w, op);
    HousingGrows(c, t, w, op);
    var w1, w2 := Housing(c, t, w, op), ApplyOne(c, t, w, op);
    assert RecAt(w2.idx, a) == RecAt(w1.idx, a);
  }

  /** Every path above `q` up to the start is a listed directory. */
  ghost predicate HousedAt(b: Start, q: Path) {
    IsDirAt(b.fs, b.root)
    && forall a {:trigger Listed(b.t.setup, b.fs, a)} ::
         b.root < a && a < q ==> Listed(b.t.setup, b.fs, a) && b.fs[a].Dir?
  }

  ghost predicate Housed(b: Start, w: World) {
    forall q :: q in w.written ==> HousedAt(b, q)
  }

  lemma PathIsHoused(b: Start, p: Path, q: Path)
    requires b.Scope(p) && |p| > 0 && (q <= p || (|q| == |p| && Parent(q) == Parent(p)))
    ensures HousedAt(b, q)
  {
    forall a | b.root < a && a < q ensures Listed(b.t.setup, b.fs, a) && b.fs[a].Dir? {
      if !(q <= p) { assert a == a[..|a|] == Parent(q)[..|a|]; }
      AncestorInScope(b, a, p);
    }
  }

  lemma HousedStep(b: Start, c: Cloud, w: World, op: Op)
    requires StableCodes(b, c) && Housed(b, w) && op in b.Plan() && |op.path| > 0
    ensures Housed(b, ApplyOne(c, b.t, w, op))
  {
    hide ApplyOne, HousedAt, StrmName, PlanDir, WorkOp;
    if IsClear(op) {
      ClearKeeps(c, b.t, w, op);
    } else {
      PlannedAt(b, op);
      WrittenNear(c, b.t, w, op);
      var w2 := ApplyOne(c, b.t, w, op);
      forall q | q in w2.written ensures HousedAt(b, q) {
        if q !in w.written {
          assert Parent(StrmKey(op.path)) == Parent(op.path);
          PathIsHoused(b, op.path, q);
        }
      }
    }
  }

  lemma {:induction false} HousedRun(b: Start, c: Cloud, w: World, ops: seq<Op>)
    requires StableCodes(b, c) && Housed(b, w) && BelowRoot(ops)
    requires forall op :: op in ops ==> op in b.Plan()
    ensures Housed(b, Run(c, b.t, w, ops))
    decreases |ops|
  {
    hide ApplyOne, Housed, PlanDir, StableCodes;
    if ops != [] {
      assert ops[0] in ops && forall op :: op in ops[1..] ==> op in ops;
      HousedStep(b, c, w, ops[0]);
      HousedRun(b, c, ApplyOne(c, b.t, w, ops[0]), ops[1..]);
    }
  }

  lemma RoundIsHoused(b: Start, c: Cloud, w: World)
    requires StableCodes(b, c) && w.written == {}
    ensures BelowRoot(b.Plan()) && Housed(b, ApplyOps(c, b.t, w, b.Plan()).0)
  {
    hide PlanDir, ArchiveFids, SortByPhase, Run;
    PlanBelowRoot(b);
    HousedRun(b, c, w, SortByPhase(b.Plan()));
  }

  // ---- the second plan ----

  lemma DirsAreOld(b: Start, fs: Tree, q: Path)
    requires TreeKept(b, fs)
    ensures IsDirAt(fs, q) <==> IsDirAt(b.fs, q)
    ensures IsDirAt(fs, q) ==> fs[q] == b.fs[q] && (Listed(b.t.setup, fs, q) <==> Listed(b.t.setup, b.fs, q))
  {
    if q in b.fs { assert KeptEntry(b, fs, q); }
  }

  lemma StillReadable(b: Start, fs: Tree)
    requires TreeKept(b, fs) && !ScanFails(b.t.setup, b.fs, b.root)
    ensures !ScanFails(b.t.setup, fs, b.root)
  {
    var s := b.t.setup;
    forall d | Scanned(s, fs, b.root, d) ensures fs[d].readable {
      DirsAreOld(b, fs, b.root);
      DirsAreOld(b, fs, d);
      forall i | |b.root| < i <= |d| ensures Listed(s, b.fs, d[..i]) && b.fs[d[..i]].Dir? {
        DirsAreOld(b, fs, d[..i]);
      }
      assert Scanned(s, b.fs, b.root, d);
    }
  }

  lemma HousedScope(b: Start, fs: Tree, q: Path, a: Path)
    requires TreeKept(b, fs) && HousedAt(b, q) && b.root < a && a < q
    ensures InScope(b.t.setup, fs, b.root, a) && Listed(b.t.setup, fs, a) && fs[a].Dir?
  {
    hide TreeKept, HousedAt;
    var s, d := b.t.setup, Parent(a);
    HousedInScope(b, q, a);
    DirsAreOld(b, fs, b.root);
    DirsAreOld(b, fs, a);
    DirsAreOld(b, fs, d);
    forall i | |b.root| < i <= |d| ensures Listed(s, fs, d[..i]) && fs[d[..i]].Dir? {
      DirsAreOld(b, fs, d[..i]);
    }
  }

  lemma HousedInScope(b: Start, q: Path, a: Path)
    requires HousedAt(b, q) && b.root < a && a < q
    ensures b.Scope(a) && Listed(b.t.setup, b.fs, a) && b.fs[a].Dir?
  {
    var d := Parent(a);
    forall i | |b.root| < i <= |d| ensures Listed(b.t.setup, b.fs, d[..i]) && b.fs[d[..i]].Dir? {
    }
    if |d| > |b.root| { assert d[..|d|] == d; } else { assert d == b.root; }
  }

  /** A clear above a recorded path is the answer to a conflict there. */
  lemma ClearMeansConflict(b: Start, w2: World, q: Path, op: Op)
    requires NamesFit(b) && Calm(b, w2) && Housed(b, w2) && q in w2.written && b.root < q
    requires op in PlanDir(b.t.setup, w2.fs, w2.idx, b.root) && IsClear(op) && op.path <= q
    ensures b.root < op.path && op.path < q && Conflict(w2.idx, op.path)
  {
    hide Ext, Lower, Stem, StrmName, IsStrm, PlanDir, OpsAt, Calm, Settled;
    var p := PlanDirSound(b.t.setup, w2.fs, w2.idx, b.root, op);
    SecondPlanAt(b, w2, p, op);
    DecisionShape(b.t.setup, w2.fs, w2.idx, p, op);
    assert HousedAt(b, q);
    assert Parent(StrmKey(p)) == Parent(p);
    var a := op.path;
    assert a == q || a < q;
    assert b.root < a && a < q;
    assert Listed(b.t.setup, b.fs, a) && b.fs[a].Dir?;
    CalmTree(b, w2);
    if a == p {
      DirsAreOld(b, w2.fs, a);
      DirAnswer(b.t.setup, w2.fs, w2.idx, p, op);
    } else {
      StrmNameIsStrm(Base(p));
    }
  }

  lemma CalmTree(b: Start, w: World)
    requires Calm(b, w)
    ensures TreeKept(b, w.fs)
  {}

  lemma DirAnswer(s: Setup, fs: Tree, idx: Index, p: Path, op: Op)
    requires |p| > 0 && Listed(s, fs, p) && fs[p].Dir? && op in OpsAt(s, fs, idx, p)
    ensures IsClear(op) ==> Conflict(idx, p)
    ensures op.path == p && op.kind in {Retire, Drop, Mkdir}
  {}

  /** A conflict at a listed directory is answered by a clear. */
  lemma ConflictMeansClear(s: Setup, fs: Tree, idx: Index, root: Path, a: Path)
    requires !ScanFails(s, fs, root) && InScope(s, fs, root, a) && Listed(s, fs, a) && fs[a].Dir? && Conflict(idx, a)
    ensures exists op :: op in PlanDir(s, fs, idx, root) && IsClear(op) && op.path == a
  {
    hide PlanDir;
    PlanDirComplete(s, fs, idx, root, a);
    ListedIsDecided(s, fs, idx, a);
    assert ClearOp(a, RecAt(idx, a)) in OpsAt(s, fs, idx, a);
  }

  ghost predicate SweptBy(b: Start, w2: World, q: Path) {
    exists op :: op in PlanDir(b.t.setup, w2.fs, w2.idx, b.root) && IsClear(op) && op.path <= q
  }

  ghost predicate ConflictAbove(b: Start, idx: Index, q: Path) {
    exists a :: b.root < a && a < q && Conflict(idx, a)
  }

  /** What a round recorded is cleared by the next plan, at its path or above, exactly when a
      directory above it is still indexed as something else. Any cloud call may fail. */
  lemma SweptExactlyByConflicts(b: Start, c: Cloud, w: World, q: Path)
    requires NamesFit(b) && StableCodes(b, c) && !ScanFails(b.t.setup, b.fs, b.root)
    requires w.fs == b.fs && w.idx == b.idx && w.written == {} && w.replaced == {}
    ensures BelowRoot(b.Plan())
    ensures var w2 := ApplyOps(c, b.t, w, b.Plan()).0;
      q in w2.written && b.root < q ==> (SweptBy(b, w2, q) <==> ConflictAbove(b, w2.idx, q))
  {
    hide Ext, Lower, Stem, StrmName, PlanDir, ApplyOps, Calm, Housed, StableCodes, NamesFit;
    RoundIsCalm(b, c, w);
    RoundIsHoused(b, c, w);
    var w2 := ApplyOps(c, b.t, w, b.Plan()).0;
    if q in w2.written && b.root < q {
      if SweptBy(b, w2, q) {
        var op :| op in PlanDir(b.t.setup, w2.fs, w2.idx, b.root) && IsClear(op) && op.path <= q;
        ClearMeansConflict(b, w2, q, op);
      }
      if a :| b.root < a && a < q && Conflict(w2.idx, a) {
        CalmTree(b, w2);
        WrittenIsHoused(b, w2, q);
        HousedScope(b, w2.fs, q, a);
        StillReadable(b, w2.fs);
        ConflictMeansClear(b.t.setup, w2.fs, w2.idx, b.root, a);
      }
    }
  }

  lemma WrittenIsHoused(b: Start, w: World, q: Path)
    requires Housed(b, w) && q in w.written
    ensures HousedAt(b, q)
  {}

  // ---- when the clears of the round were accepted ----

  /** No listed directory in scope is indexed as something else. */
  ghost predicate DirsAgree(b: Start, idx: Index) {
    forall a :: b.Scope(a) && Listed(b.t.setup, b.fs, a) && b.fs[a].Dir? ==> !Conflict(idx, a)
  }

  lemma AcceptedClearRemoves(c: Cloud, t: Apply.Task, w: World, op: Op)
    requires IsClear(op) && op.fid != "" && |op.path| > 0
    requires Safety.AllAccepted(c, w.calls, ApplyOne(c, t, w, op).calls)
    ensures op.path !in ApplyOne(c, t, w, op).idx
  {
    hide StrmBelow;
    assert ApplyOne(c, t, w, op).calls == w.calls + 1;
  }

  lemma {:induction false} AcceptedClearsRemove(c: Cloud, t: Apply.Task, w: World, ops: seq<Op>, clear: Op)
    requires BelowRoot(ops) && (forall op :: op in ops ==> IsClear(op))
    requires Safety.AllAccepted(c, w.calls, Run(c, t, w, ops).calls)
    requires clear in ops && clear.fid != ""
    ensures clear.path !in Run(c, t, w, ops).idx
    decreases |ops|
  {
    hide ApplyOne, Safety.AllAccepted;
    assert ops[0] in ops && forall op :: op in ops[1..] ==> op in ops;
    var w1, end := ApplyOne(c, t, w, ops[0]), Run(c, t, w, ops);
    Safety.CallsGoOn(c, t, w, ops[0]);
    Safety.RunCallsOn(c, t, w1, ops[1..]);
    Safety.AcceptedPart(c, w.calls, end.calls, w.calls, w1.calls);
    Safety.AcceptedPart(c, w.calls, end.calls, w1.calls, end.calls);
    if clear in ops[1..] {
      AcceptedClearsRemove(c, t, w1, ops[1..], clear);
    } else {
      AcceptedClearRemoves(c, t, w, clear);
      ClearsOnlyRemove(c, t, w1, ops[1..]);
    }
  }

  lemma ClearOnlyRemoves(c: Cloud, t: Apply.Task, w: World, op: Op)
    requires IsClear(op) && |op.path| > 0
    ensures forall q :: q in ApplyOne(c, t, w, op).idx ==> q in w.idx && ApplyOne(c, t, w, op).idx[q] == w.idx[q]
  {
    hide StrmBelow;
  }

  lemma {:induction false} ClearsOnlyRemove(c: Cloud, t: Apply.Task, w: World, ops: seq<Op>)
    requires BelowRoot(ops) && forall op :: op in ops ==> IsClear(op)
    ensures forall q :: q in Run(c, t, w, ops).idx ==> q in w.idx && Run(c, t, w, ops).idx[q] == w.idx[q]
    decreases |ops|
  {
    hide ApplyOne;
    if ops != [] {
      assert ops[0] in ops && forall op :: op in ops[1..] ==> op in ops;
      ClearOnlyRemoves(c, t, w, ops[0]);
      ClearsOnlyRemove(c, t, ApplyOne(c, t, w, ops[0]), ops[1..]);
    }
  }

  lemma ClearsSettleDirs(b: Start, c: Cloud, w: World)
    requires !ScanFails(b.t.setup, b.fs, b.root) && w.idx == b.idx
    requires BelowRoot(OfPhase(b.Plan(), 0))
    requires Safety.AllAccepted(c, w.calls, Run(c, b.t, w, OfPhase(b.Plan(), 0)).calls)
    ensures DirsAgree(b, Run(c, b.t, w, OfPhase(b.Plan(), 0)).idx)
  {
    hide PlanDir, Run, OfPhase, Safety.AllAccepted;
    var clears := OfPhase(b.Plan(), 0);
    var w1 := Run(c, b.t, w, clears);
    assert forall op :: op in clears ==> IsClear(op);
    ClearsOnlyRemove(c, b.t, w, clears);
    forall a | b.Scope(a) && Listed(b.t.setup, b.fs, a) && b.fs[a].Dir? ensures !Conflict(w1.idx, a) {
      if Conflict(b.idx, a) {
        PlanDirComplete(b.t.setup, b.fs, b.idx, b.root, a);
        ListedIsDecided(b.t.setup, b.fs, b.idx, a);
        var clear := ClearOp(a, RecAt(b.idx, a));
        assert clear in OpsAt(b.t.setup, b.fs, b.idx, a);
        AcceptedClearsRemove(c, b.t, w, clears, clear);
      }
    }
  }

  lemma WorkKeepsDirs(b: Start, c: Cloud, w: World, op: Op)
    requires NamesFit(b) && MintsFids(c) && DirsAgree(b, w.idx) && op in b.Plan() && !IsClear(op) && |op.path| > 0
    ensures DirsAgree(b, ApplyOne(c, b.t, w, op).idx)
  {
    hide ApplyOne, PlanDir, Ext, Lower, Stem, StrmName, IsStrm, BigVideo;
    PlannedAt(b, op);
    var w2 := ApplyOne(c, b.t, w, op);
    forall a | b.Scope(a) && Listed(b.t.setup, b.fs, a) && b.fs[a].Dir? ensures !Conflict(w2.idx, a) {
      StrmNameIsStrm(Base(op.path));
      assert a != StrmKey(op.path);
      RecordsNear(c, b.t, w, op, a);
    }
  }

  lemma {:induction false} WorksKeepDirs(b: Start, c: Cloud, w: World, ops: seq<Op>)
    requires NamesFit(b) && MintsFids(c) && DirsAgree(b, w.idx) && BelowRoot(ops)
    requires forall op :: op in ops ==> op in b.Plan() && !IsClear(op)
    ensures DirsAgree(b, Run(c, b.t, w, ops).idx)
    decreases |ops|
  {
    hide ApplyOne, DirsAgree, PlanDir, NamesFit, MintsFids;
    if ops != [] {
      assert ops[0] in ops && forall op :: op in ops[1..] ==> op in ops;
      WorkKeepsDirs(b, c, w, ops[0]);
      WorksKeepDirs(b, c, ApplyOne(c, b.t, w, ops[0]), ops[1..]);
    }
  }

  lemma RoundLeavesDirsAgreeing(b: Start, c: Cloud, w: World)
    requires NamesFit(b) && MintsFids(c) && !ScanFails(b.t.setup, b.fs, b.root) && w.idx == b.idx
    requires BelowRoot(b.Plan()) && BelowRoot(OfPhase(b.Plan(), 0))
    requires Safety.AllAccepted(c, w.calls, Run(c, b.t, w, OfPhase(b.Plan(), 0)).calls)
    ensures DirsAgree(b, ApplyOps(c, b.t, w, b.Plan()).0.idx)
  {
    hide PlanDir, Run, OfPhase, WorkOps, SortByPhase, DirsAgree, NamesFit, MintsFids, ArchiveFids, Safety.AllAccepted;
    var clears, works := OfPhase(b.Plan(), 0), WorkOps(b.Plan());
    ClearsSettleDirs(b, c, w);
    SortSplits(b.Plan());
    RunConcat(c, b.t, w, clears, works);
    WorksKeepDirs(b, c, Run(c, b.t, w, clears), works);
  }

  /** When the cloud accepts the removals of a round, nothing the round recorded below its start is
      named by the next plan, and nothing is cleared, neither at its own path nor by a clear above
      it; a link is replaced only from a large local video that is still there. Every other call
      may fail. */
  lemma NothingRecordedIsSwept(b: Start, c: Cloud, w: World)
    requires NamesFit(b) && StableCodes(b, c) && !ScanFails(b.t.setup, b.fs, b.root)
    requires w.fs == b.fs && w.idx == b.idx && w.written == {} && w.replaced == {}
    requires BelowRoot(OfPhase(b.Plan(), 0))
    requires Safety.AllAccepted(c, w.calls, Run(c, b.t, w, OfPhase(b.Plan(), 0)).calls)
    ensures BelowRoot(b.Plan())
    ensures var w2 := ApplyOps(c, b.t, w, b.Plan()).0;
      forall op, q :: op in PlanDir(b.t.setup, w2.fs, w2.idx, b.root) && q in w2.written && b.root < q ==>
        && op.path != q && !(IsClear(op) && op.path <= q)
        && (Replaces(op, q) ==> op.path in w2.fs && BigVideo(b.t.setup, op.path, w2.fs[op.path]))
  {
    hide PlanDir, ApplyOps, Calm, Housed, StableCodes, NamesFit, OfPhase, DirsAgree, Run, Safety.AllAccepted;
    NothingRecordedIsNamedAgain(b, c, w);
    RoundIsHoused(b, c, w);
    StableMints(b, c);
    RoundLeavesDirsAgreeing(b, c, w);
    var w2 := ApplyOps(c, b.t, w, b.Plan()).0;
    forall op, q | op in PlanDir(b.t.setup, w2.fs, w2.idx, b.root) && q in w2.written && b.root < q
      ensures op.path != q && !(IsClear(op) && op.path <= q)
    {
      SweptExactlyByConflicts(b, c, w, q);
      if IsClear(op) && op.path <= q {
        assert SweptBy(b, w2, q);
        NoConflictAbove(b, w2, q);
      }
    }
  }

  lemma StableMints(b: Start, c: Cloud)
    requires StableCodes(b, c)
    ensures MintsFids(c)
  {}

  lemma NoConflictAbove(b: Start, w2: World, q: Path)
    requires DirsAgree(b, w2.idx) && Housed(b, w2) && q in w2.written
    ensures !ConflictAbove(b, w2.idx, q)
  {
    hide Conflict;
    if a :| b.root < a && a < q && Conflict(w2.idx, a) {
      assert HousedAt(b, q);
      HousedInScope(b, q, a);
    }
  }
}
