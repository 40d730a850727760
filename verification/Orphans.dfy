/** An index record is the only thing that knows a cloud file. When does a record lose its FID, and
    when is the file behind that FID left in the cloud with nothing that knows it? */
module Orphans {
  import opened Bytes
  import opened Records
  import opened Model
  import opened Plan
  import Decisions
  import opened Apply
  import opened Rounds
  import opened NoOscillation
  import opened Safety
  import Sweeps
  import Pickcode

  // ---- one operation ----

  /** The operation succeeds and stores its record under `q`. */
  predicate Stores(c: Cloud, t: Apply.Task, w: World, op: Op, q: Path) {
    && |op.path| > 0 && Do(c, t, w, op).1
    && match op.kind
       case Upload => op.path in w.fs && q == (if op.isVideo then StrmKey(op.path) else op.path)
       case Adopt => q == op.path
       case Download => q == op.path
       case _ => false
  }

  /** The FID in that record: the cloud's answer to the upload, the adopted video, the downloaded item. */
  function StoredFid(c: Cloud, t: Apply.Task, w: World, op: Op): string
    requires |op.path| > 0
  {
    match op.kind
    case Upload =>
      var up := c.upload(EnsureDir(c, t, w, Parent(op.path)).0.calls);
      if up.Some? then up.value.0 else ""
    case Adopt =>
      if op.fid != "" then op.fid
      else
        var id := Pickcode.ToID(op.pickCode);
        if id.Some? then id.value else ""
    case _ => op.fid
  }

  lemma StoredRecord(c: Cloud, t: Apply.Task, w: World, op: Op, q: Path)
    requires Stores(c, t, w, op, q)
    ensures RecAt(ApplyOne(c, t, w, op).idx, q).fid == StoredFid(c, t, w, op)
  {
    match op.kind
    case Upload =>
    case Adopt =>
    case Download =>
  }

  /** A known record that an operation neither stores nor removes stays as it is. */
  lemma OthersStay(c: Cloud, t: Apply.Task, w: World, op: Op, q: Path)
    requires |op.path| > 0 && RecAt(w.idx, q).fid != "" && !Stores(c, t, w, op, q) && q in ApplyOne(c, t, w, op).idx
    ensures RecAt(ApplyOne(c, t, w, op).idx, q) == RecAt(w.idx, q)
  {
    hide Do, StrmName, Ext, Lower, Stem, Links.Content, Doomed;
    DoHasEffect(c, t, w, op);
    var w1, ok := Do(c, t, w, op).0, Do(c, t, w, op).1;
    match op.kind
    case Mkdir =>
    case Upload => assert UploadEffect(t, w, w1, ok, op);
    case Adopt => assert AdoptEffect(t, w, w1, ok, op);
    case Download => assert DownloadEffect(c, t, w, w1, ok, op);
    case Retire => Sweeps.ClearOnlyRemoves(c, t, w, op);
    case Drop => Sweeps.ClearOnlyRemoves(c, t, w, op);
    case Normalize =>
    case Archive =>
  }

  // ---- one step of a run ----

  /** Operation `i` of the list stores another FID over the one that `q` has. */
  ghost predicate OverwrittenAt(c: Cloud, t: Apply.Task, w: World, ops: seq<Op>, i: nat, q: Path)
    requires BelowRoot(ops)
  {
    && i < |ops| && |ops[i].path| > 0 && Stores(c, t, StateAt(c, t, w, ops, i), ops[i], q)
    && StoredFid(c, t, StateAt(c, t, w, ops, i), ops[i]) != RecAt(StateAt(c, t, w, ops, i).idx, q).fid
  }

  /** It does so without asking the cloud to take the old one away: only the swap of a video for its
      link does, for the FID it was planned with. */
  ghost predicate OrphanedAt(c: Cloud, t: Apply.Task, w: World, ops: seq<Op>, i: nat, q: Path)
    requires BelowRoot(ops)
  {
    && OverwrittenAt(c, t, w, ops, i, q)
    && !(ops[i].kind == Upload && ops[i].isVideo && ops[i].replaceFid == RecAt(StateAt(c, t, w, ops, i).idx, q).fid)
  }

  /** It does so after the cloud has accepted to recycle the old one, with the call that follows the
      upload. */
  ghost predicate RecycledAt(c: Cloud, t: Apply.Task, w: World, ops: seq<Op>, i: nat, q: Path)
    requires BelowRoot(ops)
  {
    && OverwrittenAt(c, t, w, ops, i, q) && !OrphanedAt(c, t, w, ops, i, q)
    && c.accept(UploadCall(c, t, StateAt(c, t, w, ops, i), ops[i]) + 1)
  }

  /** The number of the call that uploads the file. */
  function UploadCall(c: Cloud, t: Apply.Task, w: World, op: Op): nat
    requires |op.path| > 0
  {
    EnsureDir(c, t, w, Parent(op.path)).0.calls
  }

  /** A confirmed clear at `q` itself, or of a folder above it. */
  ghost predicate RemovedAt(c: Cloud, t: Apply.Task, w: World, ops: seq<Op>, i: nat, q: Path)
    requires BelowRoot(ops)
  {
    && ForgottenAt(c, t, w, ops, i, q)
    && (ops[i].path == q || RecAt(StateAt(c, t, w, ops, i).idx, ops[i].path).kind == KIND_DIR)
  }

  /** A confirmed clear of something else above `q`: the record below goes with it, while the cloud was
      asked only about what the clear names. */
  ghost predicate SweptAt(c: Cloud, t: Apply.Task, w: World, ops: seq<Op>, i: nat, q: Path)
    requires BelowRoot(ops)
  {
    && ForgottenAt(c, t, w, ops, i, q)
    && ops[i].path < q && RecAt(StateAt(c, t, w, ops, i).idx, ops[i].path).kind != KIND_DIR
  }

  /** A record loses its FID in a step exactly when the step is a confirmed clear at or above it, or
      stores another FID over it. */
  lemma FidLeavesExactly(c: Cloud, t: Apply.Task, w: World, ops: seq<Op>, i: nat, q: Path)
    requires BelowRoot(ops) && i < |ops| && RecAt(StateAt(c, t, w, ops, i).idx, q).fid != ""
    ensures RecAt(StateAt(c, t, w, ops, i + 1).idx, q).fid != RecAt(StateAt(c, t, w, ops, i).idx, q).fid
      <==> ForgottenAt(c, t, w, ops, i, q) || OverwrittenAt(c, t, w, ops, i, q)
  {
    hide ApplyOne, StateAt, Stores, StoredFid, ConfirmedClear;
    var wi := StateAt(c, t, w, ops, i);
    StateStep(c, t, w, ops, i);
    assert ops[i] in ops;
    if Stores(c, t, wi, ops[i], q) {
      StoredRecord(c, t, wi, ops[i], q);
      if q !in StateAt(c, t, w, ops, i + 1).idx { ForgettingNeedsConsent(c, t, wi, ops[i], q); }
    } else if q in StateAt(c, t, w, ops, i + 1).idx {
      OthersStay(c, t, wi, ops[i], q);
    } else {
      ForgettingNeedsConsent(c, t, wi, ops[i], q);
    }
  }

  /** The swap of a video for its link takes the old FID away first: when it goes through, the cloud
      has accepted the call for it, the one after the upload. */
  lemma SwapAsksFirst(c: Cloud, t: Apply.Task, w: World, op: Op, q: Path)
    requires Stores(c, t, w, op, q) && op.kind == Upload && op.isVideo
    requires op.replaceFid != "" && op.replaceFid != StoredFid(c, t, w, op)
    ensures c.accept(UploadCall(c, t, w, op) + 1) && ApplyOne(c, t, w, op).calls == UploadCall(c, t, w, op) + 2
  {
    hide Ext, Lower, Stem, StrmName, Links.Content, EnsureFrom;
  }

  /** Up to any point of a run a record keeps its FID, or there is the first step that takes it away:
      a confirmed removal at its path or of a folder above it, a swap whose recycling was accepted, an
      overwrite that leaves an orphan, or a clear above it that only sweeps the record. */
  lemma {:induction false} FidIsKeptOrOrphaned(c: Cloud, t: Apply.Task, w: World, ops: seq<Op>, n: nat, q: Path)
    requires BelowRoot(ops) && n <= |ops| && RecAt(w.idx, q).fid != ""
    requires RecAt(StateAt(c, t, w, ops, n).idx, q).fid != RecAt(w.idx, q).fid
    ensures exists i :: 0 <= i < n && RecAt(StateAt(c, t, w, ops, i).idx, q).fid == RecAt(w.idx, q).fid
                        && (RemovedAt(c, t, w, ops, i, q) || RecycledAt(c, t, w, ops, i, q)
                            || OrphanedAt(c, t, w, ops, i, q) || SweptAt(c, t, w, ops, i, q))
                        && RecAt(StateAt(c, t, w, ops, i + 1).idx, q).fid != RecAt(w.idx, q).fid
  {
    hide ApplyOne, StateAt, Run, BelowRoot, OverwrittenAt, ConfirmedClear, UploadCall, RecycledAt, OrphanedAt;
    StateEnds(c, t, w, ops);
    var f, i := RecAt(w.idx, q).fid, n;
    while RecAt(StateAt(c, t, w, ops, i).idx, q).fid != f
      invariant 0 <= i <= n
      invariant i < n ==> RecAt(StateAt(c, t, w, ops, i + 1).idx, q).fid != f
      decreases i
    {
      i := i - 1;
    }
    FidLeavesExactly(c, t, w, ops, i, q);
    if OverwrittenAt(c, t, w, ops, i, q) {
      SwapIsAccepted(c, t, w, ops, i, q);
    } else {
      ForgottenBy(c, t, w, ops, i, q);
    }
  }

  lemma SwapIsAccepted(c: Cloud, t: Apply.Task, w: World, ops: seq<Op>, i: nat, q: Path)
    requires BelowRoot(ops) && OverwrittenAt(c, t, w, ops, i, q)
    requires RecAt(StateAt(c, t, w, ops, i).idx, q).fid != ""
    ensures OrphanedAt(c, t, w, ops, i, q) || RecycledAt(c, t, w, ops, i, q)
  {
    hide ApplyOne, StateAt, Stores, StoredFid, BelowRoot, UploadCall;
    if !OrphanedAt(c, t, w, ops, i, q) { SwapAsksFirst(c, t, StateAt(c, t, w, ops, i), ops[i], q); }
  }

  // ---- planned rounds ----

  /** A record that was there before the round and is in the way of an operation is cleared first, or
      recycled by the operation itself. */
  lemma OldRecordIsDealtWith(s: Setup, fs: Tree, idx: Index, p: Path, op: Op, q: Path)
    requires |p| > 0 && op in OpsAt(s, fs, idx, p) && op.kind in {Upload, Adopt} && RecAt(idx, q).fid != ""
    requires q == (if op.kind == Upload && op.isVideo then StrmKey(p) else p)
    ensures (op.kind == Upload && op.isVideo && op.replaceFid == RecAt(idx, q).fid) || ClearsAt(OpsAt(s, fs, idx, p), q)
  {
    hide Ext, Lower, Stem, StrmName, IsStrm, ClearsAt;
    var e := EntryAt(s, fs, p).value;
    if IsStrm(Base(p)) {
      StrmDealsWith(s, p, RecAt(idx, p), e.text, op);
    } else if s.toStrm && s.rules.IsVideoExt(Base(p)) {
      VideoDealsWith(s, idx, p, RecAt(idx, p), e.size, op, q);
    } else {
      PlainDealsWith(p, RecAt(idx, p), e.size, op);
    }
  }

  ghost predicate ClearsAt(ops: seq<Op>, q: Path) {
    exists o :: o in ops && IsClear(o) && o.path == q && o.fid != ""
  }

  lemma StrmDealsWith(s: Setup, p: Path, rec: Record, text: string, op: Op)
    requires op in DecideStrm(s, p, rec, text) && op.kind in {Upload, Adopt} && rec.fid != ""
    ensures !op.isVideo && ClearsAt(DecideStrm(s, p, rec, text), p)
  {
    assert DecideStrm(s, p, rec, text)[0] in DecideStrm(s, p, rec, text);
  }

  lemma PlainDealsWith(p: Path, rec: Record, size: int, op: Op)
    requires op in DecidePlain(p, rec, size) && op.kind in {Upload, Adopt} && rec.fid != ""
    ensures !op.isVideo && ClearsAt(DecidePlain(p, rec, size), p)
  {
    assert DecidePlain(p, rec, size)[0] in DecidePlain(p, rec, size);
  }

  lemma VideoDealsWith(s: Setup, idx: Index, p: Path, rec: Record, size: int, op: Op, q: Path)
    requires |p| > 0 && op in DecideVideo(s, idx, p, rec, size) && op.kind in {Upload, Adopt} && rec == RecAt(idx, p)
    requires q == (if op.kind == Upload && op.isVideo then StrmKey(p) else p) && RecAt(idx, q).fid != ""
    ensures (op.kind == Upload && op.isVideo && op.replaceFid == RecAt(idx, q).fid)
      || ClearsAt(DecideVideo(s, idx, p, rec, size), q)
  {
    hide Ext, Lower, Stem, StrmName, IsStrm;
    var key := StrmKey(p);
    var head := if key in idx && idx[key].kind != KIND_STRM then [ClearOp(key, idx[key])] else [];
    if op in DecidePlain(p, rec, size) {
      PlainDealsWith(p, rec, size, op);
      var o :| o in DecidePlain(p, rec, size) && IsClear(o) && o.path == p && o.fid != "";
      assert o in head + DecidePlain(p, rec, size);
    } else if head != [] {
      assert head[0] in head + [op];
    }
  }

  /** Until it is written, a record is the one from before the round, or none. */
  lemma {:induction false} UnwrittenIsOld(c: Cloud, t: Apply.Task, w: World, ops: seq<Op>, i: nat, j: nat, q: Path)
    requires BelowRoot(ops) && i <= j <= |ops| && q !in StateAt(c, t, w, ops, j).written
    ensures q !in StateAt(c, t, w, ops, i).written
    ensures q in StateAt(c, t, w, ops, j).idx ==>
      q in StateAt(c, t, w, ops, i).idx && StateAt(c, t, w, ops, j).idx[q] == StateAt(c, t, w, ops, i).idx[q]
    decreases j
  {
    hide ApplyOne, StateAt, BelowRoot;
    if i < j {
      StateStep(c, t, w, ops, j - 1);
      PutsAreWritten(c, t, StateAt(c, t, w, ops, j - 1), ops[j - 1], q);
      UnwrittenIsOld(c, t, w, ops, i, j - 1, q);
    }
  }

  /** The records that are not marked as written are old ones. */
  ghost predicate KeepsUnwritten(w: World, w2: World, q: Path) {
    q !in w2.written ==> q !in w.written && (q in w2.idx ==> q in w.idx && w2.idx[q] == w.idx[q])
  }

  /** Whatever puts a record marks it as written. */
  lemma PutsAreWritten(c: Cloud, t: Apply.Task, w: World, op: Op, q: Path)
    requires |op.path| > 0
    ensures KeepsUnwritten(w, ApplyOne(c, t, w, op), q)
  {
    hide StrmName, Ext, Lower, Stem, Links.Content, EnsureFrom, DoUpload, DoAdopt, DoRetire, DoDrop, CanMkdirAll,
      MkdirAll;
    match op.kind
    case Mkdir => FoldersAreWritten(c, w, op.path, 0, t.cloudFid, q);
    case Upload => UploadIsWritten(c, t, w, op, q);
    case Adopt => AdoptIsWritten(c, t, w, op, q);
    case Retire => ClearWritesNothing(c, t, w, op, q);
    case Drop => ClearWritesNothing(c, t, w, op, q);
    case _ =>
  }

  lemma ClearWritesNothing(c: Cloud, t: Apply.Task, w: World, op: Op, q: Path)
    requires |op.path| > 0 && IsClear(op)
    ensures KeepsUnwritten(w, ApplyOne(c, t, w, op), q)
  {
    hide ApplyOne;
    ClearKeeps(c, t, w, op);
    Sweeps.ClearOnlyRemoves(c, t, w, op);
  }

  lemma UploadIsWritten(c: Cloud, t: Apply.Task, w: World, op: Op, q: Path)
    requires |op.path| > 0 && op.kind == Upload
    ensures KeepsUnwritten(w, ApplyOne(c, t, w, op), q)
  {
    hide StrmName, Ext, Lower, Stem, Links.Content, EnsureFrom;
    FoldersAreWritten(c, w, Parent(op.path), 0, t.cloudFid, q);
  }

  lemma AdoptIsWritten(c: Cloud, t: Apply.Task, w: World, op: Op, q: Path)
    requires |op.path| > 0 && op.kind == Adopt
    ensures KeepsUnwritten(w, ApplyOne(c, t, w, op), q)
  {
    hide ApplyOne, EnsureFrom, Links.Content, Pickcode.ToID;
    FoldersAreWritten(c, w, Parent(op.path), 0, t.cloudFid, q);
    AdoptOutcome(c, t, w, op);
  }

  lemma {:induction false} FoldersAreWritten(c: Cloud, w: World, p: Path, i: nat, parentFid: string, q: Path)
    requires i <= |p|
    ensures var w2 := EnsureFrom(c, w, p, i, parentFid).0;
      && w.written <= w2.written
      && (q !in w2.written ==> (q in w2.idx <==> q in w.idx) && RecAt(w2.idx, q) == RecAt(w.idx, q))
    decreases |p| - i
  {
    if i < |p| {
      var cur := p[..i + 1];
      var fid := RecAt(w.idx, cur).fid;
      if fid != "" {
        FoldersAreWritten(c, w, p, i + 1, fid, q);
      } else {
        var f := c.folder(w.calls, parentFid, p[i]);
        if f.Some? {
          FoldersAreWritten(c, WithFolder(w, p, i, parentFid, f.value), p, i + 1, f.value, q);
        }
      }
    }
  }

  /** Operation `j` is a clear at `q` that did not go through. */
  ghost predicate RefusedAt(c: Cloud, t: Apply.Task, w: World, ops: seq<Op>, j: nat, q: Path)
    requires BelowRoot(ops)
  {
    && j < |ops| && |ops[j].path| > 0 && IsClear(ops[j]) && ops[j].path == q && ops[j].fid != ""
    && !Do(c, t, StateAt(c, t, w, ops, j), ops[j]).1
  }

  lemma ClearGoesThrough(c: Cloud, t: Apply.Task, w: World, op: Op)
    requires |op.path| > 0 && IsClear(op) && op.fid != "" && Do(c, t, w, op).1
    ensures op.path !in ApplyOne(c, t, w, op).idx
  {
    hide StrmBelow;
  }

  /** In a planned local round a record from before the round is orphaned only after a refused
      removal at its own path: an earlier operation of the round, and the cloud did not accept it. */
  lemma OrphanMeansRefusal(b: Start, c: Cloud, w: World, i: nat, q: Path)
    requires !ScanFails(b.t.setup, b.fs, b.root) && w.fs == b.fs && w.idx == b.idx && w.written == {}
    requires BelowRoot(b.Plan()) && BelowRoot(SortByPhase(b.Plan()))
    requires OrphanedAt(c, b.t, w, SortByPhase(b.Plan()), i, q)
    requires var wi := StateAt(c, b.t, w, SortByPhase(b.Plan()), i); q !in wi.written && RecAt(wi.idx, q).fid != ""
    ensures exists j :: 0 <= j < i && RefusedAt(c, b.t, w, SortByPhase(b.Plan()), j, q)
  {
    hide PlanDir, SortByPhase, StateAt, OpsAt, Stores, StoredFid, StrmName, LeftToVideo, Do, ApplyOne, InPhaseOrder;
    var ops := SortByPhase(b.Plan());
    var op := ops[i];
    StateEnds(c, b.t, w, ops);
    UnwrittenIsOld(c, b.t, w, ops, 0, i, q);
    assert op in ops;
    var o := ClearIsPlanned(b, c, StateAt(c, b.t, w, ops, i), op, q);
    var j :| 0 <= j < |ops| && ops[j] == o;
    SortIsOrdered(b.Plan());
    ClearsGoFirst(ops, j, i);
    StateStep(c, b.t, w, ops, j);
    if Do(c, b.t, StateAt(c, b.t, w, ops, j), o).1 {
      ClearGoesThrough(c, b.t, StateAt(c, b.t, w, ops, j), o);
      UnwrittenIsOld(c, b.t, w, ops, j + 1, i, q);
    }
    assert RefusedAt(c, b.t, w, ops, j, q);
  }

  lemma ClearsGoFirst(ops: seq<Op>, j: nat, i: nat)
    requires InPhaseOrder(ops) && j < |ops| && i < |ops| && IsClear(ops[j]) && !IsClear(ops[i])
    ensures j < i
  {
    assert ops[j].kind.Phase() == 0 && ops[i].kind.Phase() > 0;
  }

  lemma ClearIsPlanned(b: Start, c: Cloud, wi: World, op: Op, q: Path) returns (o: Op)
    requires !ScanFails(b.t.setup, b.fs, b.root) && op in b.Plan() && RecAt(b.idx, q).fid != ""
    requires Stores(c, b.t, wi, op, q)
    requires !(op.kind == Upload && op.isVideo && op.replaceFid == RecAt(b.idx, q).fid)
    ensures o in b.Plan() && IsClear(o) && o.path == q && o.fid != "" && !IsClear(op)
  {
    hide PlanDir, OpsAt, StrmName, LeftToVideo, Do;
    PlannedAt(b, op);
    var p := PlanDirSound(b.t.setup, b.fs, b.idx, b.root, op);
    DecisionShape(b.t.setup, b.fs, b.idx, p, op);
    OldRecordIsDealtWith(b.t.setup, b.fs, b.idx, p, op, q);
    ListedIsDecided(b.t.setup, b.fs, b.idx, p);
    PlanDirComplete(b.t.setup, b.fs, b.idx, b.root, p);
    o :| o in OpsAt(b.t.setup, b.fs, b.idx, p) && IsClear(o) && o.path == q && o.fid != "";
  }

  // ---- what a planned clear names ----

  /** In a planned local round the clear that takes a record from before the round names the FID of
      the record at its own path: at `q` itself it is the lost FID that the cloud agreed to remove. */
  lemma RemovalNamesTheFid(b: Start, c: Cloud, w: World, i: nat, q: Path)
    requires w.idx == b.idx && BelowRoot(SortByPhase(b.Plan()))
    requires ForgottenAt(c, b.t, w, SortByPhase(b.Plan()), i, q)
    requires q !in StateAt(c, b.t, w, SortByPhase(b.Plan()), i).written
    ensures var op := SortByPhase(b.Plan())[i];
      && op.fid == RecAt(b.idx, op.path).fid
      && (op.path == q ==> op.fid == RecAt(StateAt(c, b.t, w, SortByPhase(b.Plan()), i).idx, q).fid)
  {
    hide PlanDir, SortByPhase, StateAt, ConfirmedClear;
    var ops := SortByPhase(b.Plan());
    ForgottenBy(c, b.t, w, ops, i, q);
    StateEnds(c, b.t, w, ops);
    UnwrittenIsOld(c, b.t, w, ops, 0, i, q);
    assert ops[i] in b.Plan();
    Decisions.ClearsGoByKind(b.t.setup, b.fs, b.idx, b.root, ops[i]);
  }
}
