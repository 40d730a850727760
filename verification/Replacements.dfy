/** The upload of a large video rewrites the link of its stem and recycles the video behind it. When
    does the plan after a round do that to a link the round has recorded? */
module Replacements {
  import opened Bytes
  import opened Records
  import opened Model
  import opened Plan
  import opened Apply
  import opened Rounds
  import opened NoOscillation
  import opened VideoLinks
  import Safety
  import Sweeps

  /** A large local video whose link is `q` still waits at `p`. */
  ghost predicate VideoWaits(b: Start, w2: World, q: Path, p: Path) {
    && InScope(b.t.setup, w2.fs, b.root, p) && Listed(b.t.setup, w2.fs, p) && BigVideo(b.t.setup, p, w2.fs[p])
    && StrmKey(p) == q
  }

  ghost predicate ReplacedFrom(b: Start, w2: World, q: Path, p: Path) {
    exists op :: op in PlanDir(b.t.setup, w2.fs, w2.idx, b.root) && Replaces(op, q) && op.path == p
  }

  lemma ReplacerNamesOld(s: Setup, fs: Tree, idx: Index, p: Path, op: Op)
    requires |p| > 0 && op in OpsAt(s, fs, idx, p) && Replaces(op, StrmKey(p)) && op.path == p
    ensures RecAt(idx, StrmKey(p)).kind == KIND_STRM ==> op.replaceFid == RecAt(idx, StrmKey(p)).fid
  {
    hide Ext, Lower, Stem, StrmName, IsStrm;
  }

  lemma ReplacerIsAtVideo(s: Setup, fs: Tree, idx: Index, p: Path, op: Op, q: Path)
    requires |p| > 0 && op in OpsAt(s, fs, idx, p) && Replaces(op, q)
    ensures op.path == p && Listed(s, fs, p) && BigVideo(s, p, fs[p]) && StrmKey(p) == q
  {
    hide OpsAt, BigVideo, StrmName;
    DecisionShape(s, fs, idx, p, op);
  }

  lemma WrittenLinkIsLink(b: Start, w2: World, q: Path, p: Path)
    requires NamesFit(b) && Calm(b, w2) && q in w2.written && b.root < q && |p| > 0 && StrmKey(p) == q
    ensures RecAt(w2.idx, q).kind == KIND_STRM && RecAt(w2.idx, q).fid != ""
  {
    hide Ext, Lower, Stem, StrmName, IsStrm, NamesFit;
    StrmNameIsStrm(Base(p));
    assert Settled(b.t.setup, w2, q);
    SettledKeyIsLink(b, w2, q);
  }

  /** The plan after a round replaces a link that the round has recorded, by an operation at `p`, if
      and only if a large local video of that link still waits at `p`; the operation then names the
      recorded video as the one to recycle. Any cloud call may fail. */
  lemma ReplacedExactlyByVideos(b: Start, c: Cloud, w: World, q: Path, p: Path)
    requires NamesFit(b) && StableCodes(b, c) && !ScanFails(b.t.setup, b.fs, b.root)
    requires w.fs == b.fs && w.idx == b.idx && w.written == {} && w.replaced == {}
    ensures BelowRoot(b.Plan())
    ensures var w2 := ApplyOps(c, b.t, w, b.Plan()).0;
      q in w2.written && b.root < q ==>
        && (ReplacedFrom(b, w2, q, p) <==> VideoWaits(b, w2, q, p))
        && (forall op :: op in PlanDir(b.t.setup, w2.fs, w2.idx, b.root) && Replaces(op, q) ==>
              op.replaceFid == RecAt(w2.idx, q).fid && op.replaceFid != "")
  {
    hide PlanDir, ApplyOps, Calm, StableCodes, NamesFit, OpsAt, BigVideo, Replaces, StrmName, IsStrm, LeftToVideo;
    RoundIsCalm(b, c, w);
    var s, w2 := b.t.setup, ApplyOps(c, b.t, w, b.Plan()).0;
    if q in w2.written && b.root < q {
      forall op | op in PlanDir(s, w2.fs, w2.idx, b.root) && Replaces(op, q)
        ensures op.replaceFid == RecAt(w2.idx, q).fid && op.replaceFid != "" && VideoWaits(b, w2, q, op.path)
      {
        var x := PlanDirSound(s, w2.fs, w2.idx, b.root, op);
        ReplacerIsAtVideo(s, w2.fs, w2.idx, x, op, q);
        ReplacerNamesOld(s, w2.fs, w2.idx, x, op);
        WrittenLinkIsLink(b, w2, q, x);
      }
      if VideoWaits(b, w2, q, p) { WaitingIsReplaced(b, w2, q, p); }
    }
  }

  lemma WaitingIsReplaced(b: Start, w2: World, q: Path, p: Path)
    requires Calm(b, w2) && !ScanFails(b.t.setup, b.fs, b.root) && VideoWaits(b, w2, q, p)
    ensures ReplacedFrom(b, w2, q, p)
  {
    hide PlanDir, Calm, OpsAt, BigVideo, StrmName, LeftToVideo;
    Sweeps.CalmTree(b, w2);
    Sweeps.StillReadable(b, w2.fs);
    var op := BigVideoAsks(b.t.setup, w2.fs, w2.idx, p);
    ListedIsDecided(b.t.setup, w2.fs, w2.idx, p);
    PlanDirComplete(b.t.setup, w2.fs, w2.idx, b.root, p);
  }

  // ---- when every planned video upload succeeds ----

  ghost predicate VideosSent(r: Round)
    requires BelowRoot(r.Ops())
  {
    forall i :: 0 <= i < |r.Ops()| && r.Ops()[i].kind == Upload && r.Ops()[i].isVideo && |r.Ops()[i].path| > 0 ==>
      Do(r.c, r.b.t, r.At(i), r.Ops()[i]).1
  }

  lemma SentVideoIsGone(c: Cloud, t: Apply.Task, w: World, op: Op)
    requires |op.path| > 0 && op.kind == Upload && op.isVideo && Do(c, t, w, op).1
    ensures op.path !in ApplyOne(c, t, w, op).fs
  {
    hide Ext, Lower, Stem, StrmName, Links.Content;
    EnsureKeepsFiles(c, w, Parent(op.path), 0, t.cloudFid);
  }

  /** A large video that still waits after a round was planned for upload. */
  lemma WaitingWasPlanned(b: Start, w2: World, q: Path, p: Path) returns (op: Op)
    requires Calm(b, w2) && !ScanFails(b.t.setup, b.fs, b.root) && VideoWaits(b, w2, q, p)
    ensures op in b.Plan() && op.kind == Upload && op.isVideo && op.path == p && !IsStrm(Base(p))
  {
    hide PlanDir, OpsAt, StrmName, LeftToVideo, IsStrm, Settled;
    assert KeptEntry(b, w2.fs, p);
    op := BigVideoAsks(b.t.setup, b.fs, b.idx, p);
    ListedIsDecided(b.t.setup, b.fs, b.idx, p);
    PlanDirComplete(b.t.setup, b.fs, b.idx, b.root, p);
  }

  lemma NoneWaits(r: Round, q: Path, p: Path)
    requires r.Fits() && !ScanFails(r.b.t.setup, r.b.fs, r.b.root) && VideosSent(r)
    ensures !VideoWaits(r.b, r.End(), q, p)
  {
    hide SortByPhase, Safety.StateAt, NamesFit, StableCodes, ApplyOps, PlanDir, StrmName, IsStrm, BigVideo, Calm, Do;
    RoundIsCalm(r.b, r.c, r.w);
    if VideoWaits(r.b, r.End(), q, p) {
      var op := WaitingWasPlanned(r.b, r.End(), q, p);
      var i :| 0 <= i < |r.Ops()| && r.Ops()[i] == op;
      RoundStep(r, i);
      SentVideoIsGone(r.c, r.b.t, r.At(i), op);
      StaysGone(r, i + 1, |r.Ops()|, p);
      RoundEnds(r);
    }
  }

  /** No oscillation at the paths of the round. When its removals are accepted and its video uploads
      succeed, the next plan neither names, nor clears at or above, nor replaces any path that the
      round has recorded, and it sends no large video at all. Every other call may fail. */
  lemma SentRoundIsFinal(r: Round)
    requires r.Fits() && !ScanFails(r.b.t.setup, r.b.fs, r.b.root) && VideosSent(r)
    requires BelowRoot(OfPhase(r.b.Plan(), 0))
    requires Safety.AllAccepted(r.c, r.w.calls, Run(r.c, r.b.t, r.w, OfPhase(r.b.Plan(), 0)).calls)
    ensures forall op, q :: op in PlanDir(r.b.t.setup, r.End().fs, r.End().idx, r.b.root)
                            && q in r.End().written && r.b.root < q ==>
      op.path != q && !(IsClear(op) && op.path <= q) && !Replaces(op, q)
    ensures forall op :: op in PlanDir(r.b.t.setup, r.End().fs, r.End().idx, r.b.root) ==>
      !(op.kind == Upload && op.isVideo)
  {
    hide SortByPhase, Safety.StateAt, NamesFit, StableCodes, ApplyOps, PlanDir, OfPhase, Run, Safety.AllAccepted,
      VideosSent, OpsAt, VideoWaits, BigVideo, StrmName;
    Sweeps.NothingRecordedIsSwept(r.b, r.c, r.w);
    var s, w2 := r.b.t.setup, r.End();
    forall op | op in PlanDir(s, w2.fs, w2.idx, r.b.root) ensures !(op.kind == Upload && op.isVideo) {
      if op.kind == Upload && op.isVideo { NoVideoUpload(r, op); }
    }
  }

  lemma NoVideoUpload(r: Round, op: Op)
    requires r.Fits() && !ScanFails(r.b.t.setup, r.b.fs, r.b.root) && VideosSent(r)
    requires op in PlanDir(r.b.t.setup, r.End().fs, r.End().idx, r.b.root)
    ensures !(op.kind == Upload && op.isVideo)
  {
    hide SortByPhase, Safety.StateAt, NamesFit, StableCodes, ApplyOps, PlanDir, VideosSent, OpsAt, BigVideo, StrmName;
    var s, w2 := r.b.t.setup, r.End();
    var p := PlanDirSound(s, w2.fs, w2.idx, r.b.root, op);
    DecisionShape(s, w2.fs, w2.idx, p, op);
    NoneWaits(r, StrmKey(p), p);
    if op.kind == Upload && op.isVideo { ReplacerIsAtVideo(s, w2.fs, w2.idx, p, op, StrmKey(p)); }
  }
}
