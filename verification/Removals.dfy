/** What a local round asks the cloud to take away: which files it deletes for good, and which it moves
    to the recycling folder. Any call may fail. */
module Removals {
  import opened Bytes
  import opened Records
  import opened Model
  import opened Plan
  import opened Apply
  import opened Rounds
  import opened Safety
  import Decisions
  import Converge
  import NoOscillation
  import Sweeps
  import Pickcode

  /** A record from before the round, and no link, has the one FID to be deleted. */
  predicate DeletesAt(b: Start, fids: set<string>, q: Path) {
    q in b.idx && b.idx[q].kind != KIND_STRM && fids == {b.idx[q].fid}
  }

  /** A record from before the round, a link or stored under a link's key, has the FID. */
  predicate LinkAt(b: Start, f: string, q: Path) {
    && q in b.idx && b.idx[q].fid == f
    && (b.idx[q].kind == KIND_STRM || (|q| > 0 && EndsLikeALink(Base(q))))
  }

  ghost predicate RecyclesLinks(b: Start, fids: set<string>, target: string) {
    target == b.t.tempFid && forall f :: f in fids ==> exists q :: LinkAt(b, f, q)
  }

  /** The video of a planned adoption is moved into place. */
  ghost predicate Adopts(b: Start, fids: set<string>) {
    exists op :: op in b.Plan() && op.kind == Adopt && Pickcode.ToID(op.pickCode).Some?
      && fids == {Pickcode.ToID(op.pickCode).value}
  }

  /** What a request of a local round may take away or move. */
  ghost predicate Justified(b: Start, r: Request) {
    match r
    case Delete(fids) => exists q :: DeletesAt(b, fids, q)
    case Move(fids, target) => RecyclesLinks(b, fids, target) || Adopts(b, fids)
    case SendFile(path, _) => exists op :: op in b.Plan() && op.kind == Upload && op.path == path
    case MakeFolder(_, _) => true
    case Rename(fid, _) => Adopts(b, {fid})
    case Fetch(_) => false
  }

  ghost predicate AllJustified(b: Start, w: World, w2: World) {
    w.asked <= w2.asked && forall k :: |w.asked| <= k < |w2.asked| ==> Justified(b, w2.asked[k])
  }

  lemma NothingAsked(b: Start, w: World, w2: World)
    requires w2.asked == w.asked
    ensures AllJustified(b, w, w2)
  {}

  lemma OneMoreAsked(b: Start, w: World, w1: World, w2: World, r: Request)
    requires AllJustified(b, w, w1) && w2.asked == w1.asked + [r] && Justified(b, r)
    ensures AllJustified(b, w, w2)
  {
    hide Justified;
  }

  lemma FoldersJustified(b: Start, w: World, w2: World, p: Path)
    requires FoldersAsked(b.t, w, w2, p, |p|)
    ensures AllJustified(b, w, w2)
  {
    forall k: nat | |w.asked| <= k < |w2.asked| ensures Justified(b, w2.asked[k]) {
      assert FolderAsked(b.t, w, w2, p, |p|, k);
    }
  }

  lemma UploadJustified(b: Start, c: Cloud, w: World, op: Op)
    requires op in b.Plan() && |op.path| > 0 && op.kind == Upload
    ensures AllJustified(b, w, ApplyOne(c, b.t, w, op))
  {
    hide PlanDir, EnsureFrom, ApplyOne, AllJustified, Justified, Decisions.LocalPlain, Decisions.LocalVideo, StrmName,
      OpsAt, LeftToVideo, FoldersAsked;
    var (w1, parent) := EnsureDir(c, b.t, w, Parent(op.path));
    var w2 := ApplyOne(c, b.t, w, op);
    StepHasAsked(c, b.t, w, op);
    EnsureAsks(c, b.t, w, Parent(op.path));
    FoldersJustified(b, w, w1, Parent(op.path));
    NothingAsked(b, w, w);
    if w2.asked == w.asked {
      NothingAsked(b, w, w2);
    } else if w2.asked != w1.asked {
      var send := Call(w1, SendFile(op.path, parent.value));
      SendIsJustified(b, op, parent.value);
      OneMoreAsked(b, w, w1, send, SendFile(op.path, parent.value));
      if w2.asked != send.asked {
        SwapIsJustified(b, op);
        OneMoreAsked(b, w, send, w2, Move({op.replaceFid}, b.t.tempFid));
      } else {
        SameAsked(b, w, send, w2);
      }
    } else {
      SameAsked(b, w, w1, w2);
    }
  }

  lemma SameAsked(b: Start, w: World, w1: World, w2: World)
    requires AllJustified(b, w, w1) && w2.asked == w1.asked
    ensures AllJustified(b, w, w2)
  {
    hide Justified;
  }

  lemma SendIsJustified(b: Start, op: Op, parentFid: string)
    requires op in b.Plan() && op.kind == Upload
    ensures Justified(b, SendFile(op.path, parentFid))
  {
    hide PlanDir;
  }

  lemma SwapIsJustified(b: Start, op: Op)
    requires op in b.Plan() && op.kind == Upload && op.replaceFid != ""
    ensures Justified(b, Move({op.replaceFid}, b.t.tempFid))
  {
    hide PlanDir, OpsAt, Decisions.LocalPlain, Decisions.LocalVideo, StrmName, LeftToVideo, Adopts;
    var p := PlanDirSound(b.t.setup, b.fs, b.idx, b.root, op);
    Decisions.DecidedExactly(b.t.setup, b.fs, b.idx, p, op);
    assert LinkAt(b, op.replaceFid, StrmKey(p));
  }

  lemma AdoptJustified(b: Start, c: Cloud, w: World, op: Op)
    requires op in b.Plan() && |op.path| > 0 && op.kind == Adopt
    ensures AllJustified(b, w, ApplyOne(c, b.t, w, op))
  {
    hide PlanDir, EnsureFrom, ApplyOne, Pickcode.ToID, FoldersAsked, LinkedName, Adopts, NeedsRenaming, RecyclesLinks;
    var (w1, parent) := EnsureDir(c, b.t, w, Parent(op.path));
    StepHasAsked(c, b.t, w, op);
    EnsureAsks(c, b.t, w, Parent(op.path));
    FoldersJustified(b, w, w1, Parent(op.path));
    PlannedAdoption(b, op);
  }

  lemma PlannedAdoption(b: Start, op: Op)
    requires op in b.Plan() && op.kind == Adopt
    ensures op.fid == ""
    ensures Pickcode.ToID(op.pickCode).Some? ==> Adopts(b, {Pickcode.ToID(op.pickCode).value})
  {
    hide PlanDir, OpsAt, LeftToVideo, Pickcode.ToID, Decisions.LocalLink, Decisions.DescribesLink;
    var p := PlanDirSound(b.t.setup, b.fs, b.idx, b.root, op);
    Decisions.DecidedExactly(b.t.setup, b.fs, b.idx, p, op);
  }

  ghost predicate OldRecords(b: Start, w: World) {
    forall q :: q in w.idx ==> q in b.idx && w.idx[q] == b.idx[q]
  }

  lemma LinksJustified(b: Start, w: World, p: Path)
    requires OldRecords(b, w)
    ensures RecyclesLinks(b, FidsAt(w.idx, LinksBelow(w.idx, p)), b.t.tempFid)
  {
    hide EndsLikeALink;
    forall f | f in FidsAt(w.idx, LinksBelow(w.idx, p)) ensures exists q :: LinkAt(b, f, q) {
      var q :| q in LinksBelow(w.idx, p) && RecAt(w.idx, q).fid == f;
      assert LinkAt(b, f, q);
    }
  }

  lemma ClearJustified(b: Start, c: Cloud, w: World, op: Op)
    requires op in b.Plan() && |op.path| > 0 && IsClear(op) && OldRecords(b, w)
    ensures AllJustified(b, w, ApplyOne(c, b.t, w, op))
  {
    hide PlanDir, ApplyOne, LinksBelow, FidsAt, RecyclesLinks, Adopts;
    var w2 := ApplyOne(c, b.t, w, op);
    StepHasAsked(c, b.t, w, op);
    Decisions.ClearsGoByKind(b.t.setup, b.fs, b.idx, b.root, op);
    if op.fid != "" {
      if op.kind == Retire { OneIsALink(b, op.fid, op.path); } else { assert DeletesAt(b, {op.fid}, op.path); }
    } else {
      assert op.path in w.idx && w.idx[op.path].kind != KIND_STRM ==> DeletesAt(b, {w.idx[op.path].fid}, op.path);
      LinksJustified(b, w, op.path);
    }
  }

  lemma OneIsALink(b: Start, f: string, q: Path)
    requires q in b.idx && b.idx[q].fid == f && b.idx[q].kind == KIND_STRM
    ensures RecyclesLinks(b, {f}, b.t.tempFid)
  {
    assert LinkAt(b, f, q);
  }

  lemma StepJustified(b: Start, c: Cloud, w: World, op: Op)
    requires op in b.Plan() && |op.path| > 0 && (IsClear(op) ==> OldRecords(b, w))
    ensures AllJustified(b, w, ApplyOne(c, b.t, w, op))
  {
    hide PlanDir, ApplyOne, AllJustified, OpsAt, FoldersAsked;
    if IsClear(op) {
      ClearJustified(b, c, w, op);
    } else {
      StepHasAsked(c, b.t, w, op);
      NoTransfersDown(b, op);
      match op.kind
      case Upload => UploadJustified(b, c, w, op);
      case Adopt => AdoptJustified(b, c, w, op);
      case Mkdir => FoldersJustified(b, w, ApplyOne(c, b.t, w, op), op.path);
      case Normalize => NothingAsked(b, w, ApplyOne(c, b.t, w, op));
      case _ =>
    }
  }

  /** A local plan downloads and archives nothing. */
  lemma NoTransfersDown(b: Start, op: Op)
    requires op in b.Plan()
    ensures op.kind != Download && op.kind != Archive
  {
    hide PlanDir, OpsAt, LeftToVideo;
    var p := PlanDirSound(b.t.setup, b.fs, b.idx, b.root, op);
    Decisions.DecidedExactly(b.t.setup, b.fs, b.idx, p, op);
  }

  // ---- over the whole round ----

  lemma ClearsSeeOldRecords(b: Start, c: Cloud, w: World, ops: seq<Op>, i: nat)
    requires w.idx == b.idx && BelowRoot(ops) && InPhaseOrder(ops) && i < |ops| && IsClear(ops[i])
    ensures OldRecords(b, StateAt(c, b.t, w, ops, i))
  {
    hide Run;
    forall op | op in ops[..i] ensures IsClear(op) && op in ops {
      var j :| 0 <= j < i && ops[j] == op;
      assert ops[j].kind.Phase() <= ops[i].kind.Phase();
    }
    Sweeps.ClearsOnlyRemove(c, b.t, w, ops[..i]);
  }

  lemma {:induction false} RunIsJustified(b: Start, c: Cloud, w: World, ops: seq<Op>, i: nat)
    requires w.idx == b.idx && BelowRoot(ops) && InPhaseOrder(ops) && i <= |ops|
    requires forall op :: op in ops ==> op in b.Plan()
    ensures AllJustified(b, w, StateAt(c, b.t, w, ops, i))
    decreases i
  {
    hide PlanDir, ApplyOne, StateAt, Justified, InPhaseOrder;
    if i == 0 {
      StateEnds(c, b.t, w, ops);
    } else {
      RunIsJustified(b, c, w, ops, i - 1);
      StateStep(c, b.t, w, ops, i - 1);
      if IsClear(ops[i - 1]) { ClearsSeeOldRecords(b, c, w, ops, i - 1); }
      StepJustified(b, c, StateAt(c, b.t, w, ops, i - 1), ops[i - 1]);
    }
  }

  /** Over a whole local round, any call free to fail: it deletes for good only what the index knew as
      something else than a link, it recycles only links, it moves and renames only the videos of
      planned adoptions, and it sends only planned files. */
  lemma RoundIsJustified(b: Start, c: Cloud, w: World)
    requires w.idx == b.idx
    ensures BelowRoot(b.Plan()) && AllJustified(b, w, ApplyOps(c, b.t, w, b.Plan()).0)
  {
    hide PlanDir, StateAt, SortByPhase, Run, Justified, InPhaseOrder;
    NoOscillation.PlanBelowRoot(b);
    var ops := SortByPhase(b.Plan());
    SortIsOrdered(b.Plan());
    RunIsJustified(b, c, w, ops, |ops|);
    StateEnds(c, b.t, w, ops);
    forall op | op in ops ensures op.kind != Archive { NoTransfersDown(b, op); }
    Converge.NoArchive(ops);
  }

  /** So a cloud file that the index knows as the video of a link is never deleted for good. */
  lemma LinksAreNeverDeleted(b: Start, c: Cloud, w: World, fids: set<string>, f: string)
    requires w.idx == b.idx && w.asked == []
    requires forall q :: q in b.idx && b.idx[q].fid == f ==> b.idx[q].kind == KIND_STRM
    ensures BelowRoot(b.Plan())
    ensures Delete(fids) in ApplyOps(c, b.t, w, b.Plan()).0.asked ==> f !in fids
  {
    hide PlanDir, ApplyOps;
    RoundIsJustified(b, c, w);
    if Delete(fids) in ApplyOps(c, b.t, w, b.Plan()).0.asked {
      assert Justified(b, Delete(fids));
    }
  }
}
