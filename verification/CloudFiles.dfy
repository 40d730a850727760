/** A plan removes or recycles cloud files by FID. When does it take a file that a round has just
    recorded, or one that a record at another path stands for? */
module CloudFiles {
  import opened Bytes
  import opened Records
  import opened Model
  import opened Plan
  import opened Decisions
  import opened Apply
  import opened Rounds
  import opened NoOscillation
  import opened VideoLinks
  import opened Replacements
  import Safety
  import Orphans
  import Sweeps
  import Pickcode

  // ---- which FIDs a plan takes ----

  /** The operation removes the cloud file, or recycles it in favour of a new upload. */
  predicate Takes(op: Op, fid: string) {
    fid != "" && ((IsClear(op) && op.fid == fid) || (op.kind == Upload && op.isVideo && op.replaceFid == fid))
  }

  /** The planner clears the record at `p`. */
  ghost predicate Cleared(s: Setup, fs: Tree, idx: Index, root: Path, p: Path) {
    || (InScope(s, fs, root, p) && |p| > 0 && !LeftToVideo(s, fs, idx, p) && Misfit(s, fs, idx, p))
    || (exists x :: InScope(s, fs, root, x) && WrongKey(s, fs, idx, x, p))
  }

  /** The planner replaces the link at `p`. */
  ghost predicate Replaced(s: Setup, fs: Tree, idx: Index, root: Path, p: Path) {
    && RecAt(idx, p).kind == KIND_STRM
    && exists x :: InScope(s, fs, root, x) && Listed(s, fs, x) && BigVideo(s, x, fs[x]) && StrmKey(x) == p
  }

  ghost predicate TakenAt(s: Setup, fs: Tree, idx: Index, root: Path, p: Path, fid: string) {
    && RecAt(idx, p).fid == fid && fid != ""
    && (Cleared(s, fs, idx, root, p) || Replaced(s, fs, idx, root, p))
  }

  // ---- one decision ----

  /** What an operation takes is the FID of a record that the planner clears or replaces. */
  lemma TakenIsDecided(s: Setup, fs: Tree, idx: Index, root: Path, x: Path, op: Op, fid: string)
    requires InScope(s, fs, root, x) && !LeftToVideo(s, fs, idx, x) && op in OpsAt(s, fs, idx, x)
    requires Takes(op, fid)
    ensures TakenAt(s, fs, idx, root, x, fid) || TakenAt(s, fs, idx, root, StrmKey(x), fid)
  {
    hide Ext, Lower, Stem, StrmName, IsStrm, LeftToVideo, OpsAt, Misfit, Rules.IsVideoExt;
    DecidedExactly(s, fs, idx, x, op);
  }

  lemma MisfitIsTaken(s: Setup, fs: Tree, idx: Index, p: Path) returns (op: Op)
    requires |p| > 0 && Misfit(s, fs, idx, p)
    ensures op in OpsAt(s, fs, idx, p) && Takes(op, RecAt(idx, p).fid) && IsClear(op) && op.path == p
  {
    hide OpsAt, IsStrm, Rules.IsVideoExt;
    op := ClearOf(p, RecAt(idx, p));
    DecidedExactly(s, fs, idx, p, op);
  }

  lemma WrongKeyIsTaken(s: Setup, fs: Tree, idx: Index, x: Path, p: Path) returns (op: Op)
    requires |x| > 0 && WrongKey(s, fs, idx, x, p) && RecAt(idx, p).fid != ""
    ensures op in OpsAt(s, fs, idx, x) && Takes(op, RecAt(idx, p).fid) && IsClear(op) && op.path == p
  {
    hide OpsAt, WrongKey;
    op := ClearOf(p, RecAt(idx, p));
    DecidedExactly(s, fs, idx, x, op);
  }

  // ---- the plan ----

  /** The plan takes the cloud file. */
  ghost predicate PlanTakes(s: Setup, fs: Tree, idx: Index, root: Path, fid: string) {
    exists op :: op in PlanDir(s, fs, idx, root) && Takes(op, fid)
  }

  /** A plan removes or recycles a cloud file exactly when a record that carries its FID does not
      describe what is at its path, or is the link of a large local video. */
  lemma FidTakenExactly(s: Setup, fs: Tree, idx: Index, root: Path, fid: string)
    requires !ScanFails(s, fs, root)
    ensures PlanTakes(s, fs, idx, root, fid) <==> exists p :: TakenAt(s, fs, idx, root, p, fid)
  {
    hide PlanDir, OpsAt, InScope, LeftToVideo, Takes, Misfit, WrongKey, BigVideo, StrmName;
    if PlanTakes(s, fs, idx, root, fid) {
      var op :| op in PlanDir(s, fs, idx, root) && Takes(op, fid);
      var x := PlanDirSound(s, fs, idx, root, op);
      TakenIsDecided(s, fs, idx, root, x, op, fid);
    }
    if p :| TakenAt(s, fs, idx, root, p, fid) {
      if Cleared(s, fs, idx, root, p) {
        var op := ClearedIsPlanned(s, fs, idx, root, p);
      } else {
        var op := ReplacedIsPlanned(s, fs, idx, root, p);
      }
    }
  }

  lemma ClearedIsPlanned(s: Setup, fs: Tree, idx: Index, root: Path, p: Path) returns (op: Op)
    requires !ScanFails(s, fs, root) && Cleared(s, fs, idx, root, p) && RecAt(idx, p).fid != ""
    ensures op in PlanDir(s, fs, idx, root) && Takes(op, RecAt(idx, p).fid) && IsClear(op) && op.path == p
  {
    hide PlanDir, OpsAt, InScope, LeftToVideo, Misfit, StrmName, IsStrm;
    if InScope(s, fs, root, p) && |p| > 0 && !LeftToVideo(s, fs, idx, p) && Misfit(s, fs, idx, p) {
      op := MisfitIsTaken(s, fs, idx, p);
      PlanDirComplete(s, fs, idx, root, p);
    } else {
      var x :| InScope(s, fs, root, x) && WrongKey(s, fs, idx, x, p);
      op := WrongKeyIsTaken(s, fs, idx, x, p);
      ListedIsDecided(s, fs, idx, x);
      PlanDirComplete(s, fs, idx, root, x);
    }
  }

  lemma ReplacedIsPlanned(s: Setup, fs: Tree, idx: Index, root: Path, p: Path) returns (op: Op)
    requires !ScanFails(s, fs, root) && Replaced(s, fs, idx, root, p) && RecAt(idx, p).fid != ""
    ensures op in PlanDir(s, fs, idx, root) && Takes(op, RecAt(idx, p).fid) && op.kind == Upload && op.isVideo
  {
    hide PlanDir, OpsAt, InScope, LeftToVideo, BigVideo, StrmName, IsStrm;
    var x :| InScope(s, fs, root, x) && Listed(s, fs, x) && BigVideo(s, x, fs[x]) && StrmKey(x) == p;
    op := BigVideoAsks(s, fs, idx, x);
    ListedIsDecided(s, fs, idx, x);
    PlanDirComplete(s, fs, idx, root, x);
  }

  // ---- what a round has recorded ----

  /** The FID of the file recorded at `q`, or of a folder above it: removing it removes the file. */
  ghost predicate Behind(idx: Index, q: Path, fid: string) {
    fid != "" && exists a :: [] < a && a <= q && RecAt(idx, a).fid == fid
  }

  /** A record that the round has not written carries the FID and is cleared. */
  ghost predicate OldCopyCleared(b: Start, w2: World, fid: string) {
    exists p :: p !in w2.written && RecAt(w2.idx, p).fid == fid && Cleared(b.t.setup, w2.fs, w2.idx, b.root, p)
  }

  /** A link that carries the FID is replaced. */
  ghost predicate LinkReplaced(b: Start, w2: World, fid: string) {
    exists p :: RecAt(w2.idx, p).fid == fid && Replaced(b.t.setup, w2.fs, w2.idx, b.root, p)
  }

  /** The second plan takes a cloud file that the round has recorded, or a folder above it, exactly
      when a record that the round has not written carries that FID and is cleared, or a link that
      carries it is replaced. Any cloud call may fail. */
  lemma RecordedFileIsTakenExactly(b: Start, c: Cloud, w: World, q: Path, fid: string)
    requires NamesFit(b) && StableCodes(b, c) && !ScanFails(b.t.setup, b.fs, b.root)
    requires w.fs == b.fs && w.idx == b.idx && w.written == {} && w.replaced == {}
    ensures BelowRoot(b.Plan())
    ensures var w2 := ApplyOps(c, b.t, w, b.Plan()).0;
      q in w2.written && b.root < q && Behind(w2.idx, q, fid) ==>
        (PlanTakes(b.t.setup, w2.fs, w2.idx, b.root, fid) <==> OldCopyCleared(b, w2, fid) || LinkReplaced(b, w2, fid))
  {
    hide PlanDir, ApplyOps, Calm, StableCodes, NamesFit, Cleared, Replaced, Takes;
    RoundIsCalm(b, c, w);
    NothingRecordedIsNamedAgain(b, c, w);
    var s, w2 := b.t.setup, ApplyOps(c, b.t, w, b.Plan()).0;
    Sweeps.CalmTree(b, w2);
    Sweeps.StillReadable(b, w2.fs);
    forall p | Cleared(s, w2.fs, w2.idx, b.root, p) && RecAt(w2.idx, p).fid != "" ensures p !in w2.written {
      var op := ClearedIsPlanned(s, w2.fs, w2.idx, b.root, p);
    }
    if fid != "" { TakenOnlyBy(b, w2, fid); }
  }

  lemma TakenOnlyBy(b: Start, w2: World, fid: string)
    requires !ScanFails(b.t.setup, w2.fs, b.root) && fid != ""
    requires forall p :: Cleared(b.t.setup, w2.fs, w2.idx, b.root, p) && RecAt(w2.idx, p).fid != "" ==> p !in w2.written
    ensures PlanTakes(b.t.setup, w2.fs, w2.idx, b.root, fid) <==> OldCopyCleared(b, w2, fid) || LinkReplaced(b, w2, fid)
  {
    hide PlanDir, Cleared, Replaced, Takes;
    FidTakenExactly(b.t.setup, w2.fs, w2.idx, b.root, fid);
    forall p ensures TakenAt(b.t.setup, w2.fs, w2.idx, b.root, p, fid) <==>
      RecAt(w2.idx, p).fid == fid
      && (Cleared(b.t.setup, w2.fs, w2.idx, b.root, p) || Replaced(b.t.setup, w2.fs, w2.idx, b.root, p))
    {}
    if OldCopyCleared(b, w2, fid) {
      var p :| RecAt(w2.idx, p).fid == fid && Cleared(b.t.setup, w2.fs, w2.idx, b.root, p);
      assert TakenAt(b.t.setup, w2.fs, w2.idx, b.root, p, fid);
    }
    if LinkReplaced(b, w2, fid) {
      var p :| RecAt(w2.idx, p).fid == fid && Replaced(b.t.setup, w2.fs, w2.idx, b.root, p);
      assert TakenAt(b.t.setup, w2.fs, w2.idx, b.root, p, fid);
    }
  }

  /** A record elsewhere that the round has not written and that carries a FID behind `q`. */
  ghost predicate Twin(w2: World, q: Path, p: Path) {
    !(p <= q) && p !in w2.written && Behind(w2.idx, q, RecAt(w2.idx, p).fid)
  }

  /** When removals are accepted, video uploads succeed, and no other record carries a FID behind
      what the round has recorded, the second plan takes none of those cloud files. */
  lemma RecordedFilesAreSafe(r: Round, q: Path, fid: string)
    requires r.Fits() && !ScanFails(r.b.t.setup, r.b.fs, r.b.root) && VideosSent(r)
    requires BelowRoot(OfPhase(r.b.Plan(), 0))
    requires Safety.AllAccepted(r.c, r.w.calls, Run(r.c, r.b.t, r.w, OfPhase(r.b.Plan(), 0)).calls)
    requires q in r.End().written && r.b.root < q && Behind(r.End().idx, q, fid)
    requires forall p :: !Twin(r.End(), q, p)
    ensures !PlanTakes(r.b.t.setup, r.End().fs, r.End().idx, r.b.root, fid)
  {
    hide SortByPhase, Safety.StateAt, NamesFit, StableCodes, ApplyOps, PlanDir, OfPhase, Run, Safety.AllAccepted,
      VideosSent, Cleared, Replaced, Round.End, Replaces, Calm, Behind, Takes;
    SentRoundIsFinal(r);
    EndIsReadable(r);
    var s, w2 := r.b.t.setup, r.End();
    forall p ensures !TakenAt(s, w2.fs, w2.idx, r.b.root, p, fid) {
      NotTakenAt(r, q, p, fid);
    }
    FidTakenExactly(s, w2.fs, w2.idx, r.b.root, fid);
  }

  lemma NotTakenAt(r: Round, q: Path, p: Path, fid: string)
    requires r.Fits() && !ScanFails(r.b.t.setup, r.End().fs, r.b.root)
    requires q in r.End().written && r.b.root < q && Behind(r.End().idx, q, fid) && !Twin(r.End(), q, p)
    requires forall op :: op in PlanDir(r.b.t.setup, r.End().fs, r.End().idx, r.b.root) ==>
      !(op.kind == Upload && op.isVideo) && !(IsClear(op) && op.path <= q)
    ensures !TakenAt(r.b.t.setup, r.End().fs, r.End().idx, r.b.root, p, fid)
  {
    hide SortByPhase, Safety.StateAt, NamesFit, StableCodes, ApplyOps, PlanDir, Cleared, Replaced, Round.End, Behind,
      Takes;
    var s, w2 := r.b.t.setup, r.End();
    if RecAt(w2.idx, p).fid == fid && fid != "" {
      if Replaced(s, w2.fs, w2.idx, r.b.root, p) {
        var o := ReplacedIsPlanned(s, w2.fs, w2.idx, r.b.root, p);
      }
      if Cleared(s, w2.fs, w2.idx, r.b.root, p) {
        var o := ClearedIsPlanned(s, w2.fs, w2.idx, r.b.root, p);
        RecordedIsNotNamed(r, o);
      }
    }
  }

  lemma EndIsReadable(r: Round)
    requires r.Fits() && !ScanFails(r.b.t.setup, r.b.fs, r.b.root)
    ensures !ScanFails(r.b.t.setup, r.End().fs, r.b.root)
  {
    hide SortByPhase, Safety.StateAt, NamesFit, StableCodes, ApplyOps, PlanDir, Calm;
    RoundIsCalm(r.b, r.c, r.w);
    Sweeps.CalmTree(r.b, r.End());
    Sweeps.StillReadable(r.b, r.End().fs);
  }

  lemma RecordedIsNotNamed(r: Round, op: Op)
    requires r.Fits() && op in PlanDir(r.b.t.setup, r.End().fs, r.End().idx, r.b.root)
    ensures op.path !in r.End().written
  {
    hide SortByPhase, Safety.StateAt, NamesFit, StableCodes, ApplyOps, PlanDir, OpsAt, BigVideo, Replaces;
    NothingRecordedIsNamedAgain(r.b, r.c, r.w);
  }

  // ---- a condition on the start and the answers ----

  /** The round may store this FID: an answer of the cloud, or a video that the plan adopts. */
  ghost predicate Stored(b: Start, c: Cloud, fid: string) {
    || (exists n :: c.upload(n).Some? && c.upload(n).value.0 == fid)
    || (exists n, pid, name :: c.folder(n, pid, name) == Some(fid))
    || (exists op :: op in b.Plan() && op.kind == Adopt && Pickcode.ToID(op.pickCode) == Some(fid))
  }

  /** A record with a FID that the plan does not ask the cloud to remove. */
  ghost predicate Remains(b: Start, p: Path) {
    RecAt(b.idx, p).fid != "" && !exists op :: op in b.Plan() && IsClear(op) && op.path == p && op.fid != ""
  }

  /** Of the records that remain, no two share a FID and none carries one that the round may store. */
  ghost predicate FidsAreNew(b: Start, c: Cloud) {
    && (forall p, q :: Remains(b, p) && Remains(b, q) && p != q ==> RecAt(b.idx, p).fid != RecAt(b.idx, q).fid)
    && (forall p :: Remains(b, p) ==> !Stored(b, c, RecAt(b.idx, p).fid))
  }

  ghost predicate Sourced(b: Start, c: Cloud, w: World) {
    forall q :: q in w.written ==> Stored(b, c, RecAt(w.idx, q).fid)
  }

  lemma {:induction false} FoldersAreSourced(b: Start, c: Cloud, w: World, p: Path, i: nat, parentFid: string)
    requires i <= |p| && Sourced(b, c, w)
    ensures Sourced(b, c, EnsureFrom(c, w, p, i, parentFid).0)
    decreases |p| - i
  {
    if i < |p| {
      var cur := p[..i + 1];
      var fid := RecAt(w.idx, cur).fid;
      if fid != "" {
        FoldersAreSourced(b, c, w, p, i + 1, fid);
      } else {
        var f := c.folder(w.calls, parentFid, p[i]);
        if f.Some? {
          FoldersAreSourced(b, c, WithFolder(w, p, i, parentFid, f.value), p, i + 1, f.value);
        }
      }
    }
  }

  lemma WorkIsSourced(b: Start, c: Cloud, w: World, op: Op)
    requires Sourced(b, c, w) && op in b.Plan() && !IsClear(op) && |op.path| > 0
    ensures Sourced(b, c, ApplyOne(c, b.t, w, op))
  {
    hide PlanDir, Ext, Lower, Stem, StrmName, IsStrm, EnsureFrom, Links.Content, MoveAndRename, Pickcode.ToID, Stored,
      BigVideo;
    PlannedAt(b, op);
    match op.kind
    case Mkdir => FoldersAreSourced(b, c, w, op.path, 0, b.t.cloudFid);
    case Upload =>
      FoldersAreSourced(b, c, w, Parent(op.path), 0, b.t.cloudFid);
      AnswerIsStored(b, c, EnsureDir(c, b.t, w, Parent(op.path)).0.calls);
    case Adopt =>
      FoldersAreSourced(b, c, w, Parent(op.path), 0, b.t.cloudFid);
      AdoptedIsStored(b, c, op);
    case _ =>
  }

  lemma AnswerIsStored(b: Start, c: Cloud, n: nat)
    ensures c.upload(n).Some? ==> Stored(b, c, c.upload(n).value.0)
  {}

  lemma AdoptedIsStored(b: Start, c: Cloud, op: Op)
    requires op in b.Plan() && op.kind == Adopt
    ensures Pickcode.ToID(op.pickCode).Some? ==> Stored(b, c, Pickcode.ToID(op.pickCode).value)
  {
    hide PlanDir, Pickcode.ToID;
  }

  lemma {:induction false} SourcedAt(r: Round, i: nat)
    requires r.Fits() && i <= |r.Ops()|
    ensures Sourced(r.b, r.c, r.At(i))
    ensures i < |r.Ops()| && IsClear(r.Ops()[i]) ==> r.At(i).written == {}
    decreases i
  {
    hide SortByPhase, Safety.StateAt, NamesFit, StableCodes, ApplyOne, Stored, PlanDir;
    if i == 0 {
      RoundEnds(r);
    } else {
      var op, w := r.Ops()[i - 1], r.At(i - 1);
      SourcedAt(r, i - 1);
      RoundStep(r, i - 1);
      if IsClear(op) {
        ClearKeeps(r.c, r.b.t, w, op);
      } else {
        WorkIsSourced(r.b, r.c, w, op);
        if i < |r.Ops()| { NoClearAfter(r, i - 1, i); }
      }
    }
  }

  /** What is unwritten at the end of a round whose removals are accepted had no removal planned. */
  lemma UnwrittenRemains(r: Round, p: Path)
    requires r.Fits() && BelowRoot(OfPhase(r.b.Plan(), 0))
    requires Safety.AllAccepted(r.c, r.w.calls, Run(r.c, r.b.t, r.w, OfPhase(r.b.Plan(), 0)).calls)
    requires p !in r.End().written && RecAt(r.End().idx, p).fid != ""
    ensures Remains(r.b, p) && RecAt(r.b.idx, p) == RecAt(r.End().idx, p)
  {
    hide SortByPhase, Safety.StateAt, NamesFit, StableCodes, PlanDir, ApplyOps, Run, Safety.AllAccepted, WorkOps;
    var clears, n := OfPhase(r.b.Plan(), 0), |r.Ops()|;
    EndIsLastState(r);
    RoundEnds(r);
    Orphans.UnwrittenIsOld(r.c, r.b.t, r.w, r.Ops(), 0, n, p);
    SortSplits(r.b.Plan());
    Orphans.UnwrittenIsOld(r.c, r.b.t, r.w, r.Ops(), |clears|, n, p);
    assert r.At(|clears|) == Run(r.c, r.b.t, r.w, clears) by { StateAfter(r, clears); }
    assert forall op :: op in clears <==> op in r.b.Plan() && IsClear(op);
    if op :| op in r.b.Plan() && IsClear(op) && op.path == p && op.fid != "" {
      Sweeps.AcceptedClearsRemove(r.c, r.b.t, r.w, clears, op);
    }
  }

  lemma StateAfter(r: Round, clears: seq<Op>)
    requires BelowRoot(r.Ops()) && BelowRoot(clears) && clears <= r.Ops()
    ensures r.At(|clears|) == Run(r.c, r.b.t, r.w, clears)
  {
    hide SortByPhase, Run;
    assert r.Ops()[..|clears|] == clears;
  }

  /** Then, once the removals are accepted, no other record carries a FID behind what is recorded. */
  lemma NewFidsHaveNoTwin(r: Round, q: Path, p: Path)
    requires r.Fits() && FidsAreNew(r.b, r.c) && BelowRoot(OfPhase(r.b.Plan(), 0))
    requires Safety.AllAccepted(r.c, r.w.calls, Run(r.c, r.b.t, r.w, OfPhase(r.b.Plan(), 0)).calls)
    ensures !Twin(r.End(), q, p)
  {
    hide SortByPhase, Safety.StateAt, NamesFit, StableCodes, Stored, PlanDir, Remains, Run, Safety.AllAccepted, OfPhase,
      ApplyOps;
    SourcedAt(r, |r.Ops()|);
    EndIsLastState(r);
    if Twin(r.End(), q, p) {
      var a :| [] < a && a <= q && RecAt(r.End().idx, a).fid == RecAt(r.End().idx, p).fid;
      UnwrittenRemains(r, p);
      if a !in r.End().written { UnwrittenRemains(r, a); }
    }
  }

  lemma EndIsLastState(r: Round)
    requires r.Fits()
    ensures r.End().idx == r.At(|r.Ops()|).idx && r.End().written == r.At(|r.Ops()|).written
  {
    hide SortByPhase, Safety.StateAt, NamesFit, StableCodes, PlanDir, Run, ArchiveFids;
    Safety.StateEnds(r.c, r.b.t, r.w, r.Ops());
  }
}
