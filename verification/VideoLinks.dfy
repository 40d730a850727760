/** After a round, does every video that was replaced still have its own link? A link has one
    place and may be written more than once: the last writer decides. */
module VideoLinks {
  import opened Bytes
  import opened Records
  import opened Model
  import opened Plan
  import opened Apply
  import opened Rounds
  import opened NoOscillation
  import opened Safety
  import Sweeps
  import Pickcode

  /** The operation, run in `w`, writes the link `key` and the record under it. */
  predicate Writes(c: Cloud, t: Apply.Task, w: World, op: Op, key: Path) {
    && |op.path| > 0 && Do(c, t, w, op).1
    && ((op.kind == Upload && op.isVideo && op.path in w.fs && StrmKey(op.path) == key)
        || (op.kind == Adopt && op.path == key))
  }

  /** The record an upload or an adoption leaves: the cloud's own answer, or the pickcode of the
      adopted link. */
  lemma WriterWrites(c: Cloud, t: Apply.Task, w: World, op: Op, key: Path)
    requires Writes(c, t, w, op, key) && StrmKey(op.path) != op.path
    ensures var w2 := ApplyOne(c, t, w, op);
      key in w2.idx && LinkIs(t, w2, key, w2.idx[key].fid, w2.idx[key].pickCode)
    ensures op.kind == Upload ==>
      var n, w2 := EnsureDir(c, t, w, Parent(op.path)).0.calls, ApplyOne(c, t, w, op);
      w.calls <= n < w2.calls && HoldsUpload(c, t, w2, key, n) && op.path !in w2.fs
    ensures op.kind == Adopt ==> ApplyOne(c, t, w, op).idx[key].pickCode == op.pickCode
  {
    hide Ext, Lower, Stem, StrmName, Pickcode.ToID, Links.Content;
    if op.kind == Upload {
      UploadWritesLink(c, t, w, op);
    } else {
      AdoptWritesLink(c, t, w, op);
    }
  }

  lemma UploadWritesLink(c: Cloud, t: Apply.Task, w: World, op: Op)
    requires |op.path| > 0 && op.kind == Upload && op.isVideo && op.path in w.fs
    requires Do(c, t, w, op).1 && StrmKey(op.path) != op.path
    ensures var n, w2 := EnsureDir(c, t, w, Parent(op.path)).0.calls, ApplyOne(c, t, w, op);
      w.calls <= n < w2.calls && HoldsUpload(c, t, w2, StrmKey(op.path), n) && op.path !in w2.fs
  {
    hide Ext, Lower, Stem, StrmName, Links.Content;
    EnsureCallsOn(c, w, Parent(op.path), 0, t.cloudFid);
  }

  lemma AdoptWritesLink(c: Cloud, t: Apply.Task, w: World, op: Op)
    requires |op.path| > 0 && op.kind == Adopt && Do(c, t, w, op).1
    ensures var w2 := ApplyOne(c, t, w, op);
      op.path in w2.idx && LinkIs(t, w2, op.path, w2.idx[op.path].fid, op.pickCode)
  {
    hide Ext, Lower, Stem, StrmName, Pickcode.ToID, MoveAndRename, Links.Content;
  }

  // ---- everybody else leaves the link alone ----

  lemma PlainUploadKeeps(c: Cloud, t: Apply.Task, w: World, op: Op, key: Path, fid: string, pc: string)
    requires |op.path| > 0 && op.kind == Upload && MintsFids(c) && fid != "" && key != op.path
    requires LinkIs(t, w, key, fid, pc) && !Writes(c, t, w, op, key)
    ensures LinkIs(t, ApplyOne(c, t, w, op), key, fid, pc)
  {
    hide Ext, Lower, Stem, StrmName, Links.Content, MintsFids, Grown;
    EnsureGrows(c, w, Parent(op.path), 0, t.cloudFid);
    GrownKeepsLink(t, w, EnsureDir(c, t, w, Parent(op.path)).0, Parent(op.path), key, fid, pc);
  }

  lemma GrownKeepsLink(t: Apply.Task, w: World, w1: World, p: Path, key: Path, fid: string, pc: string)
    requires LinkIs(t, w, key, fid, pc) && Grown(w, w1, p) && fid != ""
    ensures LinkIs(t, w1, key, fid, pc)
  {
    hide Links.Content;
    assert RecAt(w1.idx, key) == RecAt(w.idx, key);
  }

  lemma AdoptElsewhereKeeps(c: Cloud, t: Apply.Task, w: World, op: Op, key: Path, fid: string, pc: string)
    requires |op.path| > 0 && op.kind == Adopt && MintsFids(c) && fid != ""
    requires LinkIs(t, w, key, fid, pc) && !Writes(c, t, w, op, key)
    ensures LinkIs(t, ApplyOne(c, t, w, op), key, fid, pc)
  {
    hide Ext, Lower, Stem, StrmName, Pickcode.ToID, MoveAndRename, Links.Content, MintsFids, Grown;
    EnsureGrows(c, w, Parent(op.path), 0, t.cloudFid);
    GrownKeepsLink(t, w, EnsureDir(c, t, w, Parent(op.path)).0, Parent(op.path), key, fid, pc);
  }

  lemma MkdirKeeps(c: Cloud, t: Apply.Task, w: World, op: Op, key: Path, fid: string, pc: string)
    requires |op.path| > 0 && op.kind == Mkdir && MintsFids(c) && fid != "" && LinkIs(t, w, key, fid, pc)
    ensures LinkIs(t, ApplyOne(c, t, w, op), key, fid, pc)
  {
    hide Links.Content, MintsFids, Grown;
    EnsureGrows(c, w, op.path, 0, t.cloudFid);
    GrownKeepsLink(t, w, EnsureDir(c, t, w, op.path).0, op.path, key, fid, pc);
  }

  /** Rewriting a link that reads back does not change it. */
  lemma NormalizeKeeps(c: Cloud, t: Apply.Task, w: World, op: Op, key: Path, fid: string, pc: string)
    requires |op.path| > 0 && op.kind == Normalize && LinkIs(t, w, key, fid, pc) && t.setup.links.Stable(pc)
    ensures LinkIs(t, ApplyOne(c, t, w, op), key, fid, pc)
  {}

  lemma OthersKeep(b: Start, c: Cloud, w: World, op: Op, key: Path, fid: string, pc: string)
    requires StableCodes(b, c) && op in b.Plan() && !IsClear(op) && |op.path| > 0
    requires |key| > 0 && IsStrm(Base(key)) && fid != "" && b.t.setup.links.Stable(pc)
    requires LinkIs(b.t, w, key, fid, pc) && !Writes(c, b.t, w, op, key)
    ensures LinkIs(b.t, ApplyOne(c, b.t, w, op), key, fid, pc)
  {
    hide PlanDir, ApplyOne, Writes, LinkIs, IsStrm, BigVideo;
    Sweeps.StableMints(b, c);
    PlannedAt(b, op);
    match op.kind
    case Mkdir => MkdirKeeps(c, b.t, w, op, key, fid, pc);
    case Upload => PlainUploadKeeps(c, b.t, w, op, key, fid, pc);
    case Adopt => AdoptElsewhereKeeps(c, b.t, w, op, key, fid, pc);
    case Normalize => NormalizeKeeps(c, b.t, w, op, key, fid, pc);
  }

  // ---- over the steps of a round ----

  /** A planned list, executed from `w`: the round of `b` in the cloud `c`. */
  datatype Round = Round(b: Start, c: Cloud, w: World) {
    ghost predicate Fits() {
      && NamesFit(b) && StableCodes(b, c) && BelowRoot(b.Plan()) && BelowRoot(Ops())
      && w.fs == b.fs && w.idx == b.idx && w.written == {} && w.replaced == {}
    }

    /** The operations in the order of execution. */
    ghost function Ops(): seq<Op> {
      SortByPhase(b.Plan())
    }

    ghost function At(i: nat): World
      requires BelowRoot(Ops()) && i <= |Ops()|
    {
      StateAt(c, b.t, w, Ops(), i)
    }

    ghost function End(): World
      requires BelowRoot(b.Plan())
    {
      ApplyOps(c, b.t, w, b.Plan()).0
    }

    /** Operation `i` writes the link `key`. */
    ghost predicate WritesAt(i: nat, key: Path)
      requires BelowRoot(Ops())
    {
      i < |Ops()| && Writes(c, b.t, At(i), Ops()[i], key)
    }

    /** Operation `i` takes the local file `p` away. */
    ghost predicate TakesAway(i: nat, p: Path)
      requires BelowRoot(Ops())
    {
      i < |Ops()| && p in At(i).fs && p !in At(i + 1).fs
    }

    /** The record that operation `i` leaves at `key`. */
    ghost function Left(i: nat, key: Path): Record
      requires BelowRoot(Ops()) && i < |Ops()|
    {
      RecAt(At(i + 1).idx, key)
    }

    /** No operation after `i` writes the link, or the last one that does leaves the same record. */
    ghost predicate LastWordIs(i: nat, key: Path)
      requires BelowRoot(Ops()) && i < |Ops()|
    {
      forall j :: i < j && LastWriter(j, key) ==> Left(j, key) == Left(i, key)
    }

    ghost predicate LastWriter(j: nat, key: Path)
      requires BelowRoot(Ops())
    {
      WritesAt(j, key) && forall k :: j < k ==> !WritesAt(k, key)
    }
  }

  lemma RoundStep(r: Round, i: nat)
    requires r.Fits() && i < |r.Ops()|
    ensures r.Ops()[i] in r.b.Plan() && |r.Ops()[i].path| > 0
    ensures r.At(i + 1) == ApplyOne(r.c, r.b.t, r.At(i), r.Ops()[i])
  {
    hide ApplyOne, SortByPhase, StateAt, NamesFit, StableCodes;
    assert r.Ops()[i] in r.Ops();
    StateStep(r.c, r.b.t, r.w, r.Ops(), i);
  }

  lemma RoundEnds(r: Round)
    requires r.Fits()
    ensures r.At(0) == r.w
    ensures r.At(|r.Ops()|).fs == r.End().fs && r.At(|r.Ops()|).idx == r.End().idx
  {
    hide SortByPhase, StateAt, NamesFit, StableCodes, Run;
    StateEnds(r.c, r.b.t, r.w, r.Ops());
  }

  /** After the first working operation no clear follows. */
  lemma NoClearAfter(r: Round, i: nat, j: nat)
    requires r.Fits() && i < j < |r.Ops()| && !IsClear(r.Ops()[i])
    ensures !IsClear(r.Ops()[j])
  {
    hide SortByPhase, OfPhase, NamesFit, StableCodes, InPhaseOrder, PlanDir;
    SortIsOrdered(r.b.Plan());
    LaterIsNoClear(r.Ops(), i, j);
  }

  lemma LaterIsNoClear(ops: seq<Op>, i: nat, j: nat)
    requires InPhaseOrder(ops) && i < j < |ops| && !IsClear(ops[i])
    ensures !IsClear(ops[j])
  {
    assert ops[i].kind.Phase() <= ops[j].kind.Phase();
  }

  lemma LinkStep(r: Round, k: nat, key: Path, fid: string, pc: string)
    requires r.Fits() && k < |r.Ops()| && !IsClear(r.Ops()[k]) && !r.WritesAt(k, key)
    requires |key| > 0 && IsStrm(Base(key)) && fid != "" && r.b.t.setup.links.Stable(pc)
    requires LinkIs(r.b.t, r.At(k), key, fid, pc)
    ensures LinkIs(r.b.t, r.At(k + 1), key, fid, pc)
  {
    hide SortByPhase, StateAt, NamesFit, StableCodes, ApplyOne, Writes, LinkIs, IsStrm, Links.Stable, IsClear, PlanDir;
    RoundStep(r, k);
    OthersKeep(r.b, r.c, r.At(k), r.Ops()[k], key, fid, pc);
  }

  /** Between writers the link stays as it is. */
  lemma {:induction false} LinkStays(r: Round, i: nat, j: nat, key: Path, fid: string, pc: string)
    requires r.Fits() && i < |r.Ops()| && !IsClear(r.Ops()[i]) && i < j <= |r.Ops()|
    requires |key| > 0 && IsStrm(Base(key)) && fid != "" && r.b.t.setup.links.Stable(pc)
    requires LinkIs(r.b.t, r.At(i + 1), key, fid, pc)
    requires forall k :: i < k < j ==> !r.WritesAt(k, key)
    ensures LinkIs(r.b.t, r.At(j), key, fid, pc)
    decreases j
  {
    hide SortByPhase, StateAt, NamesFit, StableCodes, Round.WritesAt, LinkIs, IsStrm, Links.Stable, IsClear, PlanDir;
    if i + 1 < j {
      LinkStays(r, i, j - 1, key, fid, pc);
      NoClearAfter(r, i, j - 1);
      LinkStep(r, j - 1, key, fid, pc);
    }
  }

  /** What a writer leaves is a link that reads back. */
  lemma WriterLeaves(r: Round, i: nat, key: Path)
    requires r.Fits() && r.WritesAt(i, key)
    ensures |key| > 0 && IsStrm(Base(key)) && !IsClear(r.Ops()[i])
    ensures var rec := r.Left(i, key);
      rec.fid != "" && r.b.t.setup.links.Stable(rec.pickCode) && LinkIs(r.b.t, r.At(i + 1), key, rec.fid, rec.pickCode)
    ensures r.Left(i, key).kind == KIND_STRM && r.Left(i, key).size == 0
  {
    hide SortByPhase, StateAt, NamesFit, ApplyOne, LinkIs, IsStrm, Links.Stable, Ext, Lower, Stem, StrmName, PlanDir,
      BigVideo, Do, StableCodes;
    RoundStep(r, i);
    var op, w := r.Ops()[i], r.At(i);
    PlannedAt(r.b, op);
    StrmNameIsStrm(Base(op.path));
    if op.kind == Upload {
      NotItsOwnLink(r.b.t.setup, r.b.fs, op);
      WriterWrites(r.c, r.b.t, w, op, key);
      UploadAnswerIsStable(r.b, r.c, r.At(i + 1), key, EnsureDir(r.c, r.b.t, w, Parent(op.path)).0.calls);
    } else {
      AdoptLeaves(r.b, r.c, w, op);
    }
    LinkRecord(r.b.t, r.At(i + 1), key, r.Left(i, key).fid, r.Left(i, key).pickCode);
  }

  lemma LinkRecord(t: Apply.Task, w: World, key: Path, fid: string, pc: string)
    requires LinkIs(t, w, key, fid, pc)
    ensures RecAt(w.idx, key) == Record(fid, pc, KIND_STRM, 0)
  {}

  lemma NotItsOwnLink(s: Setup, fs: Tree, op: Op)
    requires WorkOp(s, fs, op) && op.kind == Upload
    ensures StrmKey(op.path) != op.path
  {
    hide Ext, Lower, Stem, StrmName;
    StrmNameIsStrm(Base(op.path));
  }

  lemma UploadAnswerIsStable(b: Start, c: Cloud, w: World, key: Path, n: nat)
    requires StableCodes(b, c) && HoldsUpload(c, b.t, w, key, n)
    ensures RecAt(w.idx, key).fid != "" && b.t.setup.links.Stable(RecAt(w.idx, key).pickCode)
    ensures LinkIs(b.t, w, key, RecAt(w.idx, key).fid, RecAt(w.idx, key).pickCode)
  {
    hide PlanDir, Links.Stable;
  }

  lemma AdoptLeaves(b: Start, c: Cloud, w: World, op: Op)
    requires StableCodes(b, c) && op in b.Plan() && op.kind == Adopt && op.fid == "" && |op.path| > 0
    requires Do(c, b.t, w, op).1
    ensures var w2 := ApplyOne(c, b.t, w, op);
      var rec := RecAt(w2.idx, op.path);
      rec.fid != "" && b.t.setup.links.Stable(rec.pickCode) && LinkIs(b.t, w2, op.path, rec.fid, rec.pickCode)
  {
    hide PlanDir, Links.Stable, Pickcode.ToID, MoveAndRename, Links.Content;
    AdoptWritesLink(c, b.t, w, op);
  }

  /** The link at the end is the last writer's. */
  lemma LastWriterDecides(r: Round, i: nat, key: Path)
    requires r.Fits() && r.LastWriter(i, key)
    ensures var rec := r.Left(i, key); LinkIs(r.b.t, r.End(), key, rec.fid, rec.pickCode)
  {
    hide SortByPhase, StateAt, NamesFit, StableCodes, Writes, LinkIs, IsStrm, Links.Stable, IsClear, ApplyOps;
    WriterLeaves(r, i, key);
    var rec := r.Left(i, key);
    LinkStays(r, i, |r.Ops()|, key, rec.fid, rec.pickCode);
    RoundEnds(r);
    SameLink(r.b.t, r.At(|r.Ops()|), r.End(), key, rec.fid, rec.pickCode);
  }

  lemma SameLink(t: Apply.Task, w: World, w2: World, key: Path, fid: string, pc: string)
    requires LinkIs(t, w, key, fid, pc) && w2.fs == w.fs && w2.idx == w.idx
    ensures LinkIs(t, w2, key, fid, pc)
  {}

  lemma {:induction false} SomeoneWritesLast(r: Round, i: nat, key: Path) returns (j: nat)
    requires r.Fits() && r.WritesAt(i, key)
    ensures i <= j && r.LastWriter(j, key)
    decreases |r.Ops()| - i
  {
    hide SortByPhase, StateAt, NamesFit, StableCodes, Writes;
    if k :| i < k && r.WritesAt(k, key) {
      j := SomeoneWritesLast(r, k, key);
    } else {
      j := i;
    }
  }

  // ---- the tree at every step of a round ----

  lemma CalmBeforeWork(b: Start, w: World)
    requires TreeKept(b, w.fs) && w.written == {} && w.replaced == {}
    ensures Calm(b, w)
  {}

  lemma {:induction false} CalmAt(r: Round, i: nat)
    requires r.Fits() && i <= |r.Ops()|
    ensures Calm(r.b, r.At(i))
    ensures i < |r.Ops()| && IsClear(r.Ops()[i]) ==> r.At(i).written == {} && r.At(i).replaced == {}
    decreases i
  {
    hide SortByPhase, StateAt, NamesFit, StableCodes, ApplyOne, Calm, TreeKept, PlanDir;
    if i == 0 {
      RoundEnds(r);
      StartIsCalm(r.b, r.w);
    } else {
      var op, w := r.Ops()[i - 1], r.At(i - 1);
      CalmAt(r, i - 1);
      RoundStep(r, i - 1);
      if IsClear(op) {
        ClearKeeps(r.c, r.b.t, w, op);
        Sweeps.CalmTree(r.b, w);
        CalmBeforeWork(r.b, r.At(i));
      } else {
        WorkCalm(r.b, r.c, w, op);
        if i < |r.Ops()| { NoClearAfter(r, i - 1, i); }
      }
    }
  }

  /** A file that is no large video stays as it was, links aside. */
  lemma FileAt(r: Round, i: nat, p: Path)
    requires r.Fits() && i <= |r.Ops()| && p in r.b.fs && |p| > 0 && !IsStrm(Base(p))
    ensures p in r.At(i).fs ==> r.At(i).fs[p] == r.b.fs[p]
    ensures !BigVideo(r.b.t.setup, p, r.b.fs[p]) ==> p in r.At(i).fs
    ensures forall q :: q in r.At(i).fs && |q| > 0 && IsStrm(Base(q)) ==> !r.At(i).fs[q].Dir?
  {
    hide SortByPhase, StateAt, StableCodes, BigVideo, IsStrm, Settled;
    CalmAt(r, i);
    assert KeptEntry(r.b, r.At(i).fs, p);
    forall q | q in r.At(i).fs && |q| > 0 && IsStrm(Base(q)) ensures !r.At(i).fs[q].Dir? {
      if q in r.b.fs { assert KeptEntry(r.b, r.At(i).fs, q); }
    }
  }

  // ---- the removed videos ----

  /** The step that takes a video away writes its link, with the answer to its own upload. */
  lemma RemovalWritesLink(r: Round, i: nat, p: Path)
    requires r.Fits() && r.TakesAway(i, p)
    ensures |p| > 0 && r.Ops()[i].kind == Upload && r.Ops()[i].isVideo && r.Ops()[i].path == p
    ensures r.WritesAt(i, StrmKey(p))
    ensures exists n :: OwnUpload(r, i, p, n)
  {
    hide SortByPhase, StateAt, NamesFit, StableCodes, ApplyOne, Ext, Lower, Stem, StrmName, PlanDir, BigVideo,
      HoldsUpload;
    RoundStep(r, i);
    var op, w := r.Ops()[i], r.At(i);
    FileLeavesForLink(r.c, r.b.t, w, op, p);
    PlannedAt(r.b, op);
    NotItsOwnLink(r.b.t.setup, r.b.fs, op);
    RemovalSucceeds(r.c, r.b.t, w, op);
    WriterWrites(r.c, r.b.t, w, op, StrmKey(p));
    assert OwnUpload(r, i, p, EnsureDir(r.c, r.b.t, w, Parent(p)).0.calls);
  }

  lemma RemovalSucceeds(c: Cloud, t: Apply.Task, w: World, op: Op)
    requires |op.path| > 0 && op.kind == Upload && op.path in w.fs && op.path !in ApplyOne(c, t, w, op).fs
    ensures Do(c, t, w, op).1
  {
    hide Ext, Lower, Stem, StrmName, Links.Content;
    EnsureKeepsFiles(c, w, Parent(op.path), 0, t.cloudFid);
  }

  /** Call `n` is the upload of operation `i`, and its answer is what that operation records. */
  ghost predicate OwnUpload(r: Round, i: nat, p: Path, n: nat)
    requires BelowRoot(r.Ops()) && |p| > 0
  {
    i < |r.Ops()| && r.At(i).calls <= n < r.At(i + 1).calls && HoldsUpload(r.c, r.b.t, r.At(i + 1), StrmKey(p), n)
  }

  /** The video's link and record at the end of the round are those of its own upload. */
  ghost predicate HasOwnLink(r: Round, i: nat, p: Path)
    requires BelowRoot(r.Ops()) && BelowRoot(r.b.Plan()) && |p| > 0
  {
    exists n :: OwnUpload(r, i, p, n) && HoldsUpload(r.c, r.b.t, r.End(), StrmKey(p), n)
  }

  /** In terms of the record that the upload left. */
  lemma OwnLinkIsLeft(r: Round, i: nat, p: Path, n: nat)
    requires r.Fits() && |p| > 0 && OwnUpload(r, i, p, n)
    ensures var rec := r.Left(i, StrmKey(p));
      HasOwnLink(r, i, p) <==> LinkIs(r.b.t, r.End(), StrmKey(p), rec.fid, rec.pickCode)
  {
    hide SortByPhase, StateAt, NamesFit, StableCodes, ApplyOps, Ext, Lower, Stem, StrmName, Links.Content;
    var rec := r.Left(i, StrmKey(p));
    if LinkIs(r.b.t, r.End(), StrmKey(p), rec.fid, rec.pickCode) {
      assert HoldsUpload(r.c, r.b.t, r.End(), StrmKey(p), n);
    }
  }

  /** Every removed video was taken away by one step of the round; at the end its link is that of
      its own upload if and only if no later operation that writes the same link leaves another
      record there last. Any cloud call may fail. */
  lemma RemovedVideoKeepsItsLink(r: Round, i: nat, p: Path)
    requires r.Fits() && r.TakesAway(i, p)
    ensures |p| > 0 && exists n :: OwnUpload(r, i, p, n)
    ensures HasOwnLink(r, i, p) <==> r.LastWordIs(i, StrmKey(p))
  {
    hide SortByPhase, StateAt, NamesFit, StableCodes, Writes, ApplyOps, Ext, Lower, Stem, StrmName, OwnUpload,
      HasOwnLink, LinkIs;
    RemovalWritesLink(r, i, p);
    var n :| OwnUpload(r, i, p, n);
    OwnLinkIsLeft(r, i, p, n);
    var key := StrmKey(p);
    var j := SomeoneWritesLast(r, i, key);
    LastWriterDecides(r, j, key);
    WriterLeaves(r, i, key);
    WriterLeaves(r, j, key);
    OnlyOneIsLast(r, j, key);
    SameRecordSameLink(r.b.t, r.End(), key, r.Left(i, key), r.Left(j, key));
  }

  lemma OnlyOneIsLast(r: Round, j: nat, key: Path)
    requires BelowRoot(r.Ops()) && r.LastWriter(j, key)
    ensures forall k :: r.LastWriter(k, key) ==> k == j
  {
    hide SortByPhase, StateAt, Writes;
  }

  lemma SameRecordSameLink(t: Apply.Task, w: World, key: Path, a: Record, b: Record)
    requires LinkIs(t, w, key, b.fid, b.pickCode)
    requires a.kind == b.kind && a.size == b.size
    ensures LinkIs(t, w, key, a.fid, a.pickCode) <==> a == b
  {
    hide Links.Content;
  }

  /** A file that is gone at the end was taken away by one of the steps. */
  lemma GoneWasTaken(r: Round, p: Path) returns (i: nat)
    requires r.Fits() && p in r.b.fs && p !in r.End().fs
    ensures r.TakesAway(i, p)
  {
    hide SortByPhase, StateAt, NamesFit, StableCodes, ApplyOps;
    RoundEnds(r);
    i := |r.Ops()|;
    while p !in r.At(i).fs
      invariant 0 <= i <= |r.Ops()|
      invariant i < |r.Ops()| ==> p !in r.At(i + 1).fs
      decreases i
    {
      i := i - 1;
    }
  }

  /** Nothing else in the plan writes the link: no other video upload of the same stem, and no
      adoption of the link itself. A caller can see this before the round. */
  ghost predicate LinkIsUnshared(b: Start, p: Path)
    requires |p| > 0
  {
    forall op :: op in b.Plan() && |op.path| > 0 ==>
      && (op.kind == Upload && op.isVideo && StrmKey(op.path) == StrmKey(p) ==> op.path == p)
      && (op.kind == Adopt ==> op.path != StrmKey(p))
  }

  lemma TreeGrowsByLinks(r: Round, j: nat, p: Path)
    requires r.Fits() && j < |r.Ops()| && p !in r.At(j).fs && |p| > 0 && !IsStrm(Base(p))
    ensures p !in r.At(j + 1).fs
  {
    hide SortByPhase, StateAt, NamesFit, StableCodes, PlanDir;
    RoundStep(r, j);
    FilesAppearAsLinks(r.b, r.c, r.At(j), r.Ops()[j], p);
  }

  lemma FilesAppearAsLinks(b: Start, c: Cloud, w: World, op: Op, p: Path)
    requires op in b.Plan() && |op.path| > 0 && p !in w.fs && |p| > 0 && !IsStrm(Base(p))
    ensures p !in ApplyOne(c, b.t, w, op).fs
  {
    hide PlanDir, Ext, Lower, Stem, StrmName, IsStrm, Do, BigVideo;
    if IsClear(op) {
      ClearKeeps(c, b.t, w, op);
    } else {
      PlannedAt(b, op);
      StrmNameIsStrm(Base(op.path));
      WorkAddsLinks(c, b.t, w, op, p);
    }
  }

  lemma WorkAddsLinks(c: Cloud, t: Apply.Task, w: World, op: Op, p: Path)
    requires |op.path| > 0 && op.kind in {Mkdir, Upload, Adopt, Normalize}
    requires p !in w.fs && p != StrmKey(op.path) && (op.kind in {Adopt, Normalize} ==> p != op.path)
    ensures p !in ApplyOne(c, t, w, op).fs
  {
    hide Ext, Lower, Stem, StrmName, Pickcode.ToID, Links.Content, EnsureFrom;
    EnsureKeepsFiles(c, w, op.path, 0, t.cloudFid);
    EnsureKeepsFiles(c, w, Parent(op.path), 0, t.cloudFid);
  }

  lemma {:induction false} StaysGone(r: Round, i: nat, j: nat, p: Path)
    requires r.Fits() && i <= j <= |r.Ops()| && p !in r.At(i).fs && |p| > 0 && !IsStrm(Base(p))
    ensures p !in r.At(j).fs
    decreases j
  {
    hide SortByPhase, StateAt, NamesFit, StableCodes, IsStrm;
    if i < j {
      StaysGone(r, i, j - 1, p);
      TreeGrowsByLinks(r, j - 1, p);
    }
  }

  /** A removed video whose link nothing else in the plan writes ends with its own link. */
  lemma UnsharedLinkIsKept(r: Round, p: Path) returns (i: nat)
    requires r.Fits() && p in r.b.fs && p !in r.End().fs && |p| > 0 && LinkIsUnshared(r.b, p)
    ensures r.TakesAway(i, p) && HasOwnLink(r, i, p)
  {
    hide SortByPhase, StateAt, NamesFit, StableCodes, ApplyOps, Ext, Lower, Stem, StrmName, OwnUpload, HasOwnLink,
      LinkIs, IsStrm, Do, PlanDir, BigVideo;
    i := GoneWasTaken(r, p);
    RemovedVideoKeepsItsLink(r, i, p);
    forall j | i < j && j < |r.Ops()| ensures !r.WritesAt(j, StrmKey(p)) {
      NobodyElseWrites(r, i, p, j);
    }
  }

  lemma NobodyElseWrites(r: Round, i: nat, p: Path, j: nat)
    requires r.Fits() && r.TakesAway(i, p) && |p| > 0 && LinkIsUnshared(r.b, p) && i < j < |r.Ops()|
    ensures !r.WritesAt(j, StrmKey(p))
  {
    hide SortByPhase, StateAt, NamesFit, StableCodes, Ext, Lower, Stem, StrmName, IsStrm, Do, PlanDir, BigVideo,
      ApplyOne;
    RemovalWritesLink(r, i, p);
    RoundStep(r, i);
    PlannedAt(r.b, r.Ops()[i]);
    StaysGone(r, i + 1, j, p);
    RoundStep(r, j);
  }

  // ---- two videos of one stem ----

  /** Different uploads are answered differently. */
  ghost predicate AnswersDiffer(c: Cloud) {
    forall m, n :: m < n && c.upload(m).Some? && c.upload(n).Some? ==> c.upload(m) != c.upload(n)
  }

  lemma {:induction false} CallsAt(r: Round, i: nat, j: nat)
    requires r.Fits() && i <= j <= |r.Ops()|
    ensures r.At(i).calls <= r.At(j).calls
    decreases j
  {
    hide SortByPhase, StateAt, NamesFit, StableCodes, ApplyOne;
    if i < j {
      CallsAt(r, i, j - 1);
      RoundStep(r, j - 1);
      CallsGoOn(r.c, r.b.t, r.At(j - 1), r.Ops()[j - 1]);
    }
  }

  lemma TwoOwners(r: Round, i: nat, p: Path, j: nat, q: Path) returns (m: nat, n: nat)
    requires r.Fits() && |p| > 0 && |q| > 0 && StrmKey(p) == StrmKey(q)
    requires HasOwnLink(r, i, p) && HasOwnLink(r, j, q)
    ensures OwnUpload(r, i, p, m) && OwnUpload(r, j, q, n)
    ensures r.c.upload(m).Some? && r.c.upload(m) == r.c.upload(n)
  {
    hide SortByPhase, StateAt, NamesFit, StableCodes, ApplyOps, Ext, Lower, Stem, StrmName, LinkIs, OwnUpload;
    m :| OwnUpload(r, i, p, m) && HoldsUpload(r.c, r.b.t, r.End(), StrmKey(p), m);
    n :| OwnUpload(r, j, q, n) && HoldsUpload(r.c, r.b.t, r.End(), StrmKey(q), n);
    SameAnswer(r.c, r.b.t, r.End(), StrmKey(p), m, n);
  }

  lemma TakenOnce(r: Round, i: nat, p: Path, q: Path)
    requires r.Fits() && r.TakesAway(i, p) && r.TakesAway(i, q)
    ensures p == q
  {
    hide SortByPhase, StateAt, NamesFit, StableCodes, StrmName;
    RemovalWritesLink(r, i, p);
    RemovalWritesLink(r, i, q);
  }

  lemma OwnCall(r: Round, i: nat, p: Path, n: nat)
    requires r.Fits() && |p| > 0 && OwnUpload(r, i, p, n)
    ensures i < |r.Ops()| && r.At(i).calls <= n < r.At(i + 1).calls
  {
    hide SortByPhase, StateAt, NamesFit, StableCodes, HoldsUpload, ApplyOps, StrmName, PlanDir, BelowRoot;
  }

  lemma OtherUpload(r: Round, i: nat, p: Path, j: nat, q: Path, m: nat, n: nat)
    requires r.Fits() && i < j && |p| > 0 && |q| > 0 && OwnUpload(r, i, p, m) && OwnUpload(r, j, q, n)
    ensures m < n
  {
    hide SortByPhase, StateAt, NamesFit, StableCodes, OwnUpload, HoldsUpload, ApplyOps, StrmName, PlanDir;
    OwnCall(r, i, p, m);
    OwnCall(r, j, q, n);
    CallsAt(r, i + 1, j);
  }

  /** Two videos that share a link and are both taken away cannot both keep it: one upload ends
      without a link and without a record. */
  lemma SharedLinkLosesAnUpload(r: Round, i: nat, p: Path, j: nat, q: Path)
    requires r.Fits() && AnswersDiffer(r.c) && r.TakesAway(i, p) && r.TakesAway(j, q) && p != q
    requires |p| > 0 && |q| > 0 && StrmKey(p) == StrmKey(q)
    ensures !(HasOwnLink(r, i, p) && HasOwnLink(r, j, q))
  {
    hide SortByPhase, StateAt, NamesFit, StableCodes, StrmName, HasOwnLink, OwnUpload;
    if i == j { TakenOnce(r, i, p, q); }
    if HasOwnLink(r, i, p) && HasOwnLink(r, j, q) {
      var m, n := TwoOwners(r, i, p, j, q);
      if i < j { OtherUpload(r, i, p, j, q, m, n); } else { OtherUpload(r, j, q, i, p, n, m); }
    }
  }

  lemma SameAnswer(c: Cloud, t: Apply.Task, w: World, key: Path, m: nat, n: nat)
    requires HoldsUpload(c, t, w, key, m) && HoldsUpload(c, t, w, key, n)
    ensures c.upload(m) == c.upload(n)
  {}
}
