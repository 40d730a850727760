/** One round reaches a fixpoint (STRM generation off): plan, apply, plan again. */
module Converge {
  import opened Bytes
  import opened Records
  import opened Model
  import opened Plan
  import opened Apply
  import opened Rounds
  import Pickcode

  // ---- what the theorem assumes, and the condition it is about ----

  ghost predicate AllCallsSucceed(c: Cloud) {
    && MintsFids(c)
    && (forall n, pid, name :: c.folder(n, pid, name).Some?)
    && (forall n :: c.accept(n) && c.upload(n).Some? && c.rename(n).Some?)
  }

  /** STRM generation is off and the scan reads every directory it enters. */
  ghost predicate LinksOff(b: Start) {
    !b.t.setup.toStrm && !ScanFails(b.t.setup, b.fs, b.root)
  }

  /** What clears leave of an index when every one of them is accepted. */
  ghost function LeftByClears(idx: Index, ops: seq<Op>): Index
    decreases |ops|
  {
    if ops == [] then idx else LeftByClears(Cleared(idx, ops[0].path), ops[1..])
  }

  ghost function Kept(b: Start): Index {
    LeftByClears(b.idx, OfPhase(b.Plan(), 0))
  }

  predicate Writes(op: Op) {
    op.kind in {Mkdir, Upload, Adopt}
  }

  /** Checked before the round: an adopted pickcode decodes and survives being written and read
      back. The pickcode of a link to be normalised survives it too, unless the record goes with
      a cleared ancestor: then the rewritten link must read as no link at all. */
  predicate Lasting(s: Setup, fs: Tree, kept: Index, op: Op) {
    && (op.kind == Adopt ==> Pickcode.ToID(op.pickCode).Some? && s.links.Stable(op.pickCode))
    && (op.kind == Normalize ==>
          var pc := s.links.PickCodeOf(TextAt(fs, op.path));
          if RecAt(kept, op.path).fid != "" then s.links.Stable(pc)
          else s.links.PickCodeOf(s.links.Content(pc)) == "")
  }

  /** A path that is up to date loses its record to a clear above it, and it is not a directory
      that some planned write passes through. */
  ghost predicate Missed(b: Start, q: Path) {
    && b.Scope(q) && |q| > 0
    && OpsAt(b.t.setup, b.fs, b.idx, q) == [] && OpsAt(b.t.setup, b.fs, Kept(b), q) != []
    && !(IsDirAt(b.fs, q) && WrittenBelow(b, q))
  }

  ghost predicate WrittenBelow(b: Start, q: Path) {
    exists op :: op in b.Plan() && Writes(op) && q < op.path
  }

  ghost predicate Quiet(s: Setup, w: World, p: Path)
    requires |p| > 0
  {
    OpsAt(s, w.fs, w.idx, p) == []
  }

  // ---- facts about single decisions ----

  lemma PlainDecision(s: Setup, fs: Tree, idx: Index, p: Path, op: Op)
    requires !s.toStrm && |p| > 0 && op in OpsAt(s, fs, idx, p)
    ensures op.path == p
    ensures op.kind in {Retire, Drop, Mkdir, Upload, Adopt, Normalize}
    ensures IsClear(op) ==> op.fid != ""
    ensures op.kind == Mkdir ==> Listed(s, fs, p) && fs[p].Dir?
    ensures op.kind == Upload ==> Listed(s, fs, p) && fs[p].File? && !IsStrm(Base(p)) && !op.isVideo
    ensures op.kind in {Adopt, Normalize} ==> Listed(s, fs, p) && fs[p].File? && IsStrm(Base(p))
    ensures op.kind == Adopt ==> op == AdoptOp(p, s.links.PickCodeOf(fs[p].text)) && op.pickCode != ""
    ensures op.kind == Normalize ==> OpsAt(s, fs, idx, p) == [op] && op == NewOp(Normalize, p)
                                     && RecAt(idx, p).kind == KIND_STRM && RecAt(idx, p).fid != ""
                                     && s.links.PickCodeOf(fs[p].text) == RecAt(idx, p).pickCode != ""
    ensures op.kind == Mkdir && RecAt(idx, p).fid != "" ==> exists o :: o in OpsAt(s, fs, idx, p) && IsClear(o)
  {
    hide Ext, Lower, Stem;
    if op.kind == Mkdir && RecAt(idx, p).fid != "" {
      assert ClearOp(p, RecAt(idx, p)) in OpsAt(s, fs, idx, p);
    }
  }

  /** At most one operation per path writes. */
  lemma OneWorkOp(s: Setup, fs: Tree, idx: Index, p: Path, a: Op, b: Op)
    requires !s.toStrm && |p| > 0
    requires a in OpsAt(s, fs, idx, p) && b in OpsAt(s, fs, idx, p) && !IsClear(a) && !IsClear(b)
    ensures a == b
  {
    hide OpsAt;
    FewOps(s, fs, idx, p);
    var ops := OpsAt(s, fs, idx, p);
    var i :| 0 <= i < |ops| && ops[i] == a;
    var j :| 0 <= j < |ops| && ops[j] == b;
  }

  lemma FewOps(s: Setup, fs: Tree, idx: Index, p: Path)
    requires !s.toStrm && |p| > 0
    ensures var ops := OpsAt(s, fs, idx, p); |ops| <= 2 && (|ops| == 2 ==> IsClear(ops[0]))
  {
    hide Ext, Lower, Stem;
  }

  /** Once the clears at a path that asks for nothing else are done, it is quiet. */
  lemma OnlyClears(s: Setup, fs: Tree, idx: Index, idx2: Index, p: Path)
    requires !s.toStrm && |p| > 0
    requires OpsAt(s, fs, idx, p) != [] && forall op :: op in OpsAt(s, fs, idx, p) ==> IsClear(op)
    requires p !in idx2
    ensures OpsAt(s, fs, idx2, p) == []
  {
    hide Ext, Lower, Stem;
    var ops := OpsAt(s, fs, idx, p);
    assert ops[0] in ops && (|ops| > 1 ==> ops[1] in ops);
  }

  /** A folder is made or a link adopted only where, after the clears, nothing is indexed. */
  lemma WriteWithoutRecord(s: Setup, fs: Tree, idx: Index, p: Path, op: Op)
    requires !s.toStrm && |p| > 0 && op in OpsAt(s, fs, idx, p) && op.kind in {Mkdir, Adopt}
    ensures RecAt(idx, p).fid != "" ==> exists o :: o in OpsAt(s, fs, idx, p) && IsClear(o)
  {
    hide Ext, Lower, Stem, StrmName;
    var ops := OpsAt(s, fs, idx, p);
    if RecAt(idx, p).fid != "" { assert ops[0] in ops && IsClear(ops[0]); }
  }

  /** With STRM generation off a decision looks at the path's own entry and record only. */
  lemma SameOps(s: Setup, fs: Tree, idx: Index, fs2: Tree, idx2: Index, p: Path)
    requires !s.toStrm && |p| > 0 && RecAt(idx, p) == RecAt(idx2, p)
    requires (p in fs <==> p in fs2) && (p in fs ==> fs2[p] == fs[p])
    ensures OpsAt(s, fs, idx, p) == OpsAt(s, fs2, idx2, p)
  {}

  // ---- the effect of one working operation ----

  ghost predicate PlainWork(fs: Tree, op: Op) {
    && |op.path| > 0 && op.path in fs
    && op.kind in {Mkdir, Upload, Adopt, Normalize}
    && (op.kind == Mkdir ==> fs[op.path].Dir?)
    && (op.kind == Upload ==> fs[op.path].File? && !IsStrm(Base(op.path)) && !op.isVideo)
    && (op.kind in {Adopt, Normalize} ==> fs[op.path].File? && IsStrm(Base(op.path)))
  }

  ghost predicate SameOrNewDir(w: World, w2: World, q: Path, p: Path) {
    RecAt(w2.idx, q) == RecAt(w.idx, q)
    || ([] < q && q < p && RecAt(w.idx, q).fid == "" && IsDirRec(RecAt(w2.idx, q)))
  }

  /** Away from its own path a working operation can only add directory records to the
      ancestors, and only at a `.strm` file does it touch the local tree. */
  ghost predicate Touches(w: World, w2: World, p: Path) {
    && (forall q :: q in w.fs <==> q in w2.fs)
    && (forall q :: q in w.fs && q != p ==> w2.fs[q] == w.fs[q])
    && (p in w.fs ==> w2.fs[p] == w.fs[p] || (|p| > 0 && IsStrm(Base(p)) && w.fs[p].File? && w2.fs[p].File?))
    && (forall q :: q != p ==> SameOrNewDir(w, w2, q, p))
  }

  lemma WorkTouches(c: Cloud, t: Apply.Task, w: World, op: Op)
    requires MintsFids(c) && PlainWork(w.fs, op)
    ensures Touches(w, ApplyOne(c, t, w, op), op.path)
  {
    hide Ext, Lower, Stem;
    match op.kind
    case Mkdir => EnsureGrows(c, w, op.path, 0, t.cloudFid);
    case Upload => UploadTouches(c, t, w, op);
    case Adopt => AdoptTouches(c, t, w, op);
    case Normalize =>
  }

  lemma GrownTouches(w: World, w1: World, w2: World, p: Path)
    requires |p| > 0 && Grown(w, w1, Parent(p))
    requires forall q :: q in w1.fs <==> q in w2.fs
    requires forall q :: q in w1.fs && q != p ==> w2.fs[q] == w1.fs[q]
    requires p in w1.fs ==> w2.fs[p] == w1.fs[p] || (IsStrm(Base(p)) && w1.fs[p].File? && w2.fs[p].File?)
    requires forall q :: q != p ==> RecAt(w2.idx, q) == RecAt(w1.idx, q)
    ensures Touches(w, w2, p)
  {
    forall q | q != p ensures SameOrNewDir(w, w2, q, p) {
      assert RecAt(w2.idx, q) == RecAt(w1.idx, q);
    }
  }

  lemma UploadTouches(c: Cloud, t: Apply.Task, w: World, op: Op)
    requires MintsFids(c) && PlainWork(w.fs, op) && op.kind == Upload
    ensures Touches(w, ApplyOne(c, t, w, op), op.path)
  {
    hide Ext, Lower, Stem;
    EnsureGrows(c, w, Parent(op.path), 0, t.cloudFid);
    GrownTouches(w, EnsureDir(c, t, w, Parent(op.path)).0, ApplyOne(c, t, w, op), op.path);
  }

  lemma AdoptTouches(c: Cloud, t: Apply.Task, w: World, op: Op)
    requires MintsFids(c) && PlainWork(w.fs, op) && op.kind == Adopt
    ensures Touches(w, ApplyOne(c, t, w, op), op.path)
  {
    hide ApplyOne, Pickcode.ToID, Links.Content;
    EnsureGrows(c, w, Parent(op.path), 0, t.cloudFid);
    var w1, w2 := EnsureDir(c, t, w, Parent(op.path)).0, ApplyOne(c, t, w, op);
    AdoptOutcome(c, t, w, op);
    GrownByNothing(w, Parent(op.path));
    GrownTouches(w, if SameState(w, w2) then w else w1, w2, op.path);
  }

  lemma MkdirDone(c: Cloud, t: Apply.Task, w: World, op: Op)
    requires AllCallsSucceed(c) && PlainWork(w.fs, op) && op.kind == Mkdir
    ensures var w2 := ApplyOne(c, t, w, op);
      RecAt(w2.idx, op.path).fid != ""
      && (RecAt(w2.idx, op.path) == RecAt(w.idx, op.path) || IsDirRec(RecAt(w2.idx, op.path)))
  {
    EnsureGrows(c, w, op.path, 0, t.cloudFid);
    assert op.path[..|op.path|] == op.path;
    EnsureSucceeds(c, w, op.path, 0, t.cloudFid);
  }

  lemma UploadDone(c: Cloud, t: Apply.Task, w: World, op: Op)
    requires AllCallsSucceed(c) && PlainWork(w.fs, op) && op.kind == Upload
    ensures var w2 := ApplyOne(c, t, w, op);
      && w2.fs == w.fs
      && RecAt(w2.idx, op.path).fid != "" && RecAt(w2.idx, op.path).kind == KIND_FILE
      && RecAt(w2.idx, op.path).size == w.fs[op.path].size
  {
    hide Ext, Lower, Stem;
    EnsureGrows(c, w, Parent(op.path), 0, t.cloudFid);
    EnsureSucceeds(c, w, Parent(op.path), 0, t.cloudFid);
  }

  /** An adoption whose pickcode decodes leaves the link and the record in step; one that
      does not decode leaves link and record as they were. */
  lemma AdoptDone(c: Cloud, t: Apply.Task, w: World, op: Op)
    requires AllCallsSucceed(c) && PlainWork(w.fs, op) && op.kind == Adopt && op.fid == ""
    ensures var w2 := ApplyOne(c, t, w, op);
      if Pickcode.ToID(op.pickCode).Some? then
        && IsLinkTo(t.setup, w2.fs, op.path, op.pickCode)
        && RecAt(w2.idx, op.path) == Record(Pickcode.ToID(op.pickCode).value, op.pickCode, KIND_STRM, 0)
      else w2.fs == w.fs && w2.idx == w.idx
  {
    hide Ext, Lower, Stem;
    EnsureGrows(c, w, Parent(op.path), 0, t.cloudFid);
    EnsureSucceeds(c, w, Parent(op.path), 0, t.cloudFid);
  }

  predicate IsLinkTo(s: Setup, fs: Tree, p: Path, pickCode: string) {
    p in fs && fs[p].File? && fs[p].text == s.links.Content(pickCode)
  }

  lemma NormalizeDone(c: Cloud, t: Apply.Task, w: World, op: Op)
    requires PlainWork(w.fs, op) && op.kind == Normalize
    ensures var w2 := ApplyOne(c, t, w, op);
      var pc := t.setup.links.PickCodeOf(w.fs[op.path].text);
      && w2.idx == w.idx
      && (pc == "" ==> w2.fs == w.fs)
      && (pc != "" ==> IsLinkTo(t.setup, w2.fs, op.path, pc))
  {
    hide Ext, Lower, Stem;
  }

  predicate Decodes(op: Op) {
    op.kind == Adopt ==> Pickcode.ToID(op.pickCode).Some?
  }

  /** A write that goes through leaves every folder above it recorded. */
  lemma AncestorsRecorded(c: Cloud, t: Apply.Task, w: World, op: Op, q: Path)
    requires AllCallsSucceed(c) && PlainWork(w.fs, op) && Writes(op) && Decodes(op) && op.fid == ""
    requires [] < q && q < op.path
    ensures RecAt(ApplyOne(c, t, w, op).idx, q).fid != ""
  {
    hide Ext, Lower, Stem, StrmName, Pickcode.ToID, EnsureFrom;
    if op.kind == Mkdir {
      EnsureReaches(c, w, op.path, t.cloudFid, q);
    } else {
      EnsureReaches(c, w, Parent(op.path), t.cloudFid, q);
    }
  }

  lemma EnsureReaches(c: Cloud, w: World, p: Path, fid: string, q: Path)
    requires AllCallsSucceed(c) && [] < q && q <= p
    ensures EnsureFrom(c, w, p, 0, fid).1.Some? && RecAt(EnsureFrom(c, w, p, 0, fid).0.idx, q).fid != ""
  {
    EnsureGrows(c, w, p, 0, fid);
    EnsureSucceeds(c, w, p, 0, fid);
    assert q == p[..|q|];
  }

  // ---- what a plan holds ----

  lemma PlannedPlainly(b: Start, op: Op)
    requires LinksOff(b) && op in b.Plan()
    ensures b.Scope(op.path) && op in OpsAt(b.t.setup, b.fs, b.idx, op.path)
    ensures !IsClear(op) ==> PlainWork(b.fs, op)
    ensures op.kind in {Retire, Drop, Mkdir, Upload, Adopt, Normalize}
  {
    var p := PlanDirSound(b.t.setup, b.fs, b.idx, b.root, op);
    PlainDecision(b.t.setup, b.fs, b.idx, p, op);
  }

  ghost predicate SameShape(fs0: Tree, fs: Tree) {
    && (forall q :: q in fs0 <==> q in fs)
    && (forall q :: q in fs0 ==> fs[q] == fs0[q] || (|q| > 0 && IsStrm(Base(q)) && fs0[q].File? && fs[q].File?))
  }

  ghost predicate NoneAt(ops: seq<Op>, p: Path) {
    forall op :: op in ops ==> op.path != p
  }

  ghost predicate FromPlan(b: Start, rem: seq<Op>) {
    forall op :: op in rem ==> op in b.Plan() && !IsClear(op)
  }

  /** How many operations other than clears a list holds for one path. */
  function CountAt(ops: seq<Op>, p: Path): nat {
    if ops == [] then 0
    else (if ops[0].path == p && !IsClear(ops[0]) then 1 else 0) + CountAt(ops[1..], p)
  }

  lemma {:induction false} CountConcat(a: seq<Op>, b: seq<Op>, p: Path)
    ensures CountAt(a + b, p) == CountAt(a, p) + CountAt(b, p)
    decreases |a|
  {
    if a == [] {
      assert a + b == b;
    } else {
      assert (a + b)[1..] == a[1..] + b;
      CountConcat(a[1..], b, p);
    }
  }

  lemma {:induction false} CountOfPhases(ops: seq<Op>, p: Path)
    ensures CountAt(OfPhase(ops, 1), p) + CountAt(OfPhase(ops, 2), p) + CountAt(OfPhase(ops, 3), p)
          + CountAt(OfPhase(ops, 4), p) == CountAt(ops, p)
    decreases |ops|
  {
    if ops != [] {
      CountOfPhases(ops[1..], p);
      forall k: nat ensures CountAt(OfPhase(ops, k), p)
        == (if ops[0].kind.Phase() == k && ops[0].path == p && !IsClear(ops[0]) then 1 else 0)
           + CountAt(OfPhase(ops[1..], k), p)
      {
        var head := if ops[0].kind.Phase() == k then [ops[0]] else [];
        CountConcat(head, OfPhase(ops[1..], k), p);
      }
    }
  }

  lemma WorkCount(ops: seq<Op>, p: Path)
    ensures CountAt(WorkOps(ops), p) == CountAt(ops, p)
  {
    CountOfPhases(ops, p);
    CountConcat(OfPhase(ops, 1), OfPhase(ops, 2), p);
    CountConcat(OfPhase(ops, 1) + OfPhase(ops, 2), OfPhase(ops, 3), p);
    CountConcat(OfPhase(ops, 1) + OfPhase(ops, 2) + OfPhase(ops, 3), OfPhase(ops, 4), p);
  }

  lemma {:induction false} CountedIsThere(ops: seq<Op>, op: Op)
    requires op in ops && !IsClear(op)
    ensures CountAt(ops, op.path) > 0
    decreases |ops|
  {
    if ops[0] != op { CountedIsThere(ops[1..], op); }
  }

  lemma CountHere(s: Setup, fs: Tree, idx: Index, q: Path, p: Path)
    requires |q| > 0
    ensures CountAt(OpsAt(s, fs, idx, q), p) <= 1
    ensures CountAt(OpsAt(s, fs, idx, q), p) > 0 ==> p == q
  {
    hide Ext, Lower, Stem, StrmName, IsStrm, DecideStrm, DecidePlain, DecideVideo;
    var rec := RecAt(idx, q);
    match EntryAt(s, fs, q)
    case None => ClearsThenOne(DecideMissing(q, rec), q, p);
    case Some(Dir(_)) => ClearsThenOne(DecideDir(q, rec), q, p);
    case Some(Unreadable) =>
    case Some(File(size, text)) =>
      StrmIsShort(s, q, rec, text);
      PlainIsShort(q, rec, size);
      VideoIsShort(s, idx, q, rec, size);
      ClearsThenOne(OpsAt(s, fs, idx, q), q, p);
  }

  /** At most one operation works, the last one, and at `q`; clears may come before it. */
  ghost predicate Short(ops: seq<Op>, q: Path) {
    && (forall i :: 0 <= i < |ops| - 1 ==> IsClear(ops[i]))
    && (forall op :: op in ops && !IsClear(op) ==> op.path == q)
  }

  lemma StrmIsShort(s: Setup, q: Path, rec: Record, text: string)
    ensures Short(DecideStrm(s, q, rec, text), q)
  {}

  lemma PlainIsShort(q: Path, rec: Record, size: int)
    ensures Short(DecidePlain(q, rec, size), q)
  {}

  lemma VideoIsShort(s: Setup, idx: Index, q: Path, rec: Record, size: int)
    requires |q| > 0
    ensures Short(DecideVideo(s, idx, q, rec, size), q)
  {
    hide Ext, Lower, Stem, StrmName;
  }

  lemma {:induction false} ClearsThenOne(ops: seq<Op>, q: Path, p: Path)
    requires Short(ops, q)
    ensures CountAt(ops, p) <= 1 && (CountAt(ops, p) > 0 ==> p == q)
    decreases |ops|
  {
    if |ops| > 1 {
      assert forall i :: 0 <= i < |ops[1..]| - 1 ==> ops[1..][i] == ops[i + 1];
      ClearsThenOne(ops[1..], q, p);
      assert IsClear(ops[0]);
    } else if |ops| == 1 {
      assert ops[1..] == [] && ops[0] in ops;
    }
  }

  /** A plan holds at most one working operation per path, and only for paths below `dir`. */
  lemma {:induction false} PlanDirCount(s: Setup, fs: Tree, idx: Index, dir: Path, p: Path)
    ensures CountAt(PlanDir(s, fs, idx, dir), p) <= 1
    ensures CountAt(PlanDir(s, fs, idx, dir), p) > 0 ==> dir < p
    decreases Below(fs, dir), 2, 0
  {
    if IsDirAt(fs, dir) && fs[dir].readable {
      ScanNamesDistinct(s, fs, idx, dir);
      PlanNamesCount(s, fs, idx, dir, ScanNames(s, fs, idx, dir), 0, p);
    }
  }

  lemma {:induction false} PlanNamesCount(s: Setup, fs: Tree, idx: Index, dir: Path, names: seq<string>, i: nat,
      p: Path)
    requires i <= |names|
    requires forall k, m :: 0 <= k < m < |names| ==> names[k] != names[m]
    ensures CountAt(PlanNames(s, fs, idx, dir, names, i), p) <= 1
    ensures CountAt(PlanNames(s, fs, idx, dir, names, i), p) > 0 ==>
      dir < p && exists k :: i <= k < |names| && names[k] == p[|dir|]
    decreases Below(fs, dir), 1, |names| - i
  {
    if i < |names| {
      var q := dir + [names[i]];
      PlanNamesCount(s, fs, idx, dir, names, i + 1, p);
      CountHere(s, fs, idx, q, p);
      assert Parent(q) == dir && q[|dir|] == names[i];
      var below := if Listed(s, fs, q) && fs[q].Dir? then PlanDir(s, fs, idx, q) else [];
      if Listed(s, fs, q) && fs[q].Dir? {
        assert q in Below(fs, dir) && q !in Below(fs, q);
        PlanDirCount(s, fs, idx, q, p);
      }
      CountConcat(OpsAt(s, fs, idx, q), below, p);
      var here := if Claimed(s, fs, dir, names, i) then [] else PlanAt(s, fs, idx, q);
      CountConcat(here, PlanNames(s, fs, idx, dir, names, i + 1), p);
    }
  }

  lemma ClearsAndWork(b: Start)
    requires LinksOff(b)
    ensures BelowRoot(b.Plan()) && BelowRoot(OfPhase(b.Plan(), 0)) && BelowRoot(WorkOps(b.Plan()))
    ensures FromPlan(b, WorkOps(b.Plan()))
    ensures forall op :: op in OfPhase(b.Plan(), 0) <==> op in b.Plan() && IsClear(op)
    ensures forall op :: op in b.Plan() && IsClear(op) ==> op.fid != ""
    ensures ArchiveFids(SortByPhase(b.Plan())) == []
  {
    forall op | op in b.Plan() ensures |op.path| > 0 && op.kind != Archive && (IsClear(op) ==> op.fid != "") {
      PlannedPlainly(b, op);
      PlainDecision(b.t.setup, b.fs, b.idx, op.path, op);
    }
    NoArchive(SortByPhase(b.Plan()));
  }

  lemma {:induction false} NoArchive(ops: seq<Op>)
    requires forall op :: op in ops ==> op.kind != Archive
    ensures ArchiveFids(ops) == []
    decreases |ops|
  {
    if ops != [] {
      assert ops[0] in ops && forall op :: op in ops[1..] ==> op in ops;
      NoArchive(ops[1..]);
    }
  }

  // ---- the clearing phase ----

  lemma ClearDone(c: Cloud, t: Apply.Task, w: World, op: Op)
    requires AllCallsSucceed(c) && IsClear(op) && op.fid != "" && |op.path| > 0
    ensures var w2 := ApplyOne(c, t, w, op); w2.fs == w.fs && w2.idx == Cleared(w.idx, op.path)
  {}

  lemma {:induction false} ClearsRun(c: Cloud, t: Apply.Task, w: World, ops: seq<Op>)
    requires AllCallsSucceed(c) && BelowRoot(ops)
    requires forall op :: op in ops ==> IsClear(op) && op.fid != ""
    ensures var w2 := Run(c, t, w, ops);
      && w2.fs == w.fs && w2.idx == LeftByClears(w.idx, ops)
      && (forall q :: q in w2.idx ==> q in w.idx && w2.idx[q] == w.idx[q])
      && (forall q :: q in w.idx && (forall op :: op in ops ==> !(op.path <= q)) ==> q in w2.idx)
      && (forall op :: op in ops ==> op.path !in w2.idx)
    decreases |ops|
  {
    if ops != [] {
      assert ops[0] in ops && forall op :: op in ops[1..] ==> op in ops;
      ClearDone(c, t, w, ops[0]);
      var w1 := ApplyOne(c, t, w, ops[0]);
      ClearsRun(c, t, w1, ops[1..]);
      forall op | op in ops ensures op.path !in Run(c, t, w, ops).idx {
        if op == ops[0] { assert op.path !in w1.idx; } else { assert op in ops[1..]; }
      }
    }
  }

  lemma {:induction false} LeftFacts(idx: Index, ops: seq<Op>)
    ensures var left := LeftByClears(idx, ops);
      && (forall q :: q in left ==> q in idx && left[q] == idx[q])
      && (forall op :: op in ops ==> op.path !in left)
    decreases |ops|
  {
    if ops != [] {
      assert forall op :: op in ops ==> op == ops[0] || op in ops[1..];
      LeftFacts(Cleared(idx, ops[0].path), ops[1..]);
    }
  }

  /** The planned clears take the records at their own paths, and change no record they leave. */
  lemma KeptFacts(b: Start)
    requires LinksOff(b)
    ensures forall q :: q in Kept(b) ==> q in b.idx && Kept(b)[q] == b.idx[q]
    ensures forall op :: op in b.Plan() && IsClear(op) ==> op.path !in Kept(b)
  {
    ClearsAndWork(b);
    LeftFacts(b.idx, OfPhase(b.Plan(), 0));
  }

  /** Nothing is recorded after the clears where a folder is to be made or a link adopted. */
  lemma NothingKeptAtWrites(b: Start, op: Op)
    requires LinksOff(b) && op in b.Plan() && op.kind in {Mkdir, Adopt}
    ensures RecAt(Kept(b), op.path).fid == ""
  {
    PlannedPlainly(b, op);
    KeptFacts(b);
    var p := op.path;
    WriteWithoutRecord(b.t.setup, b.fs, b.idx, p, op);
    PlanDirComplete(b.t.setup, b.fs, b.idx, b.root, p);
    if RecAt(b.idx, p).fid != "" {
      var o :| o in OpsAt(b.t.setup, b.fs, b.idx, p) && IsClear(o);
      PlainDecision(b.t.setup, b.fs, b.idx, p, o);
      assert o in b.Plan();
    }
  }

  /** What a round leaves, split at the phase border. */
  lemma RoundSplits(b: Start, c: Cloud, w: World)
    requires LinksOff(b)
    ensures BelowRoot(b.Plan()) && BelowRoot(OfPhase(b.Plan(), 0)) && BelowRoot(WorkOps(b.Plan()))
    ensures ApplyOps(c, b.t, w, b.Plan()).0
         == Run(c, b.t, Run(c, b.t, w, OfPhase(b.Plan(), 0)), WorkOps(b.Plan()))
  {
    ClearsAndWork(b);
    SortSplits(b.Plan());
    RunConcat(c, b.t, w, OfPhase(b.Plan(), 0), WorkOps(b.Plan()));
  }

  /** A link just written for the recorded pickcode is quiet exactly when it reads back. */
  lemma FreshLink(s: Setup, fs: Tree, idx: Index, p: Path, pc: string)
    requires |p| > 0 && Listed(s, fs, p) && IsStrm(Base(p)) && IsLinkTo(s, fs, p, pc) && pc != ""
    requires RecAt(idx, p).kind == KIND_STRM && RecAt(idx, p).fid != "" && RecAt(idx, p).pickCode == pc
    ensures OpsAt(s, fs, idx, p) == [] <==> s.links.Stable(pc)
  {
    hide Ext, Lower, Stem;
  }

  // ---- the state of every path while the working phases run ----

  ghost predicate Ran(b: Start, rem: seq<Op>, op: Op) {
    op in b.Plan() && !IsClear(op) && NoneAt(rem, op.path)
  }

  ghost predicate SameEntry(fs: Tree, fs2: Tree, q: Path) {
    (q in fs <==> q in fs2) && (q in fs ==> fs2[q] == fs[q])
  }

  /** Nothing has run at `q`: its entry is as before, and its record as the clears left it, or
      a new folder record for a directory that a planned write passes through. */
  ghost predicate Waiting(b: Start, w: World, q: Path) {
    && SameEntry(b.fs, w.fs, q)
    && (RecAt(w.idx, q) == RecAt(Kept(b), q) || Reopened(b, w, q))
  }

  ghost predicate Reopened(b: Start, w: World, q: Path) {
    && Listed(b.t.setup, b.fs, q) && b.fs[q].Dir? && RecAt(Kept(b), q).fid == ""
    && IsDirRec(RecAt(w.idx, q)) && WrittenBelow(b, q)
  }

  /** What has run at its path: the record names what is there. */
  ghost predicate Done(b: Start, w: World, op: Op)
    requires |op.path| > 0
  {
    var p, r, links := op.path, RecAt(w.idx, op.path), b.t.setup.links;
    && (op.kind == Mkdir ==> SameEntry(b.fs, w.fs, p) && IsDirRec(r))
    && (op.kind == Upload ==> SameEntry(b.fs, w.fs, p) && r.fid != "" && r.kind == KIND_FILE
                              && p in b.fs && b.fs[p].File? && r.size == b.fs[p].size)
    && (op.kind == Adopt && Decodes(op) ==>
          IsLinkTo(b.t.setup, w.fs, p, op.pickCode)
          && r == Record(Pickcode.ToID(op.pickCode).value, op.pickCode, KIND_STRM, 0))
    && (op.kind == Adopt && !Decodes(op) ==> SameEntry(b.fs, w.fs, p) && r.fid == "")
    && (op.kind == Normalize ==>
          IsLinkTo(b.t.setup, w.fs, p, links.PickCodeOf(TextAt(b.fs, p))) && r == RecAt(Kept(b), p))
  }

  ghost predicate Passed(b: Start, rem: seq<Op>, w: World) {
    forall q, o :: b.Scope(q) && Ran(b, rem, o) && Writes(o) && Decodes(o) && q < o.path ==> RecAt(w.idx, q).fid != ""
  }

  ghost predicate Idle(b: Start, q: Path) {
    forall op :: op in b.Plan() && op.path == q ==> IsClear(op)
  }

  ghost predicate Tracking(b: Start, rem: seq<Op>, w: World) {
    && FromPlan(b, rem) && SameShape(b.fs, w.fs)
    && (forall p :: CountAt(rem, p) <= 1)
    && (forall q :: b.Scope(q) && (!NoneAt(rem, q) || Idle(b, q)) ==> Waiting(b, w, q))
    && (forall op :: Ran(b, rem, op) && |op.path| > 0 ==> Done(b, w, op))
    && Passed(b, rem, w)
  }

  lemma OncePerPath(b: Start, p: Path)
    requires LinksOff(b)
    ensures CountAt(WorkOps(b.Plan()), p) <= 1
  {
    hide OpsAt, PlanDir, CountAt, WorkOps;
    WorkCount(b.Plan(), p);
    PlanDirCount(b.t.setup, b.fs, b.idx, b.root, p);
  }

  lemma WaitingAtFirst(b: Start, w1: World, q: Path)
    requires w1.fs == b.fs && w1.idx == Kept(b)
    ensures Waiting(b, w1, q)
  {}

  /** After the clears nothing has run. */
  lemma TrackingStarts(b: Start, w1: World)
    requires LinksOff(b) && w1.fs == b.fs && w1.idx == Kept(b)
    ensures Tracking(b, WorkOps(b.Plan()), w1)
  {
    hide OpsAt, PlanDir, CountAt, WorkOps, Kept, Waiting, Done, Writes, Decodes, LinksOff;
    ClearsAndWork(b);
    forall p ensures CountAt(WorkOps(b.Plan()), p) <= 1 { OncePerPath(b, p); }
    forall q ensures Waiting(b, w1, q) { WaitingAtFirst(b, w1, q); }
    forall op | op in b.Plan() && !IsClear(op) ensures !NoneAt(WorkOps(b.Plan()), op.path) {
      assert op in WorkOps(b.Plan());
    }
  }

  /** An operation makes its own path done. */
  lemma DoneHere(b: Start, c: Cloud, w: World, op: Op)
    requires LinksOff(b) && AllCallsSucceed(c) && SameShape(b.fs, w.fs)
    requires op in b.Plan() && !IsClear(op) && |op.path| > 0 && Waiting(b, w, op.path)
    ensures Done(b, ApplyOne(c, b.t, w, op), op)
  {
    hide Ext, Lower, Stem, PlanDir, Kept, Decide, Do;
    PlannedPlainly(b, op);
    PlainDecision(b.t.setup, b.fs, b.idx, op.path, op);
    WorkTouches(c, b.t, w, op);
    match op.kind
    case Mkdir => NothingKeptAtWrites(b, op); MkdirDone(c, b.t, w, op);
    case Upload => UploadDone(c, b.t, w, op);
    case Adopt => NothingKeptAtWrites(b, op); AdoptDone(c, b.t, w, op);
    case Normalize => NormalizeDone(c, b.t, w, op);
  }

  /** An operation elsewhere leaves a waiting path waiting. */
  lemma WaitingElsewhere(b: Start, c: Cloud, w: World, op: Op, q: Path)
    requires LinksOff(b) && AllCallsSucceed(c) && SameShape(b.fs, w.fs)
    requires op in b.Plan() && !IsClear(op) && |op.path| > 0
    requires b.Scope(q) && q != op.path && Waiting(b, w, q)
    ensures Waiting(b, ApplyOne(c, b.t, w, op), q)
  {
    hide Ext, Lower, Stem, PlanDir, Kept, Decide, Do, OpsAt;
    var w2 := ApplyOne(c, b.t, w, op);
    PlannedPlainly(b, op);
    WorkTouches(c, b.t, w, op);
    assert SameOrNewDir(w, w2, q, op.path);
    if RecAt(w2.idx, q) != RecAt(w.idx, q) {
      AncestorInScope(b, q, op.path);
      if op.kind == Normalize { NormalizeDone(c, b.t, w, op); }
      assert Writes(op);
    }
  }

  /** An operation elsewhere leaves what is done done. */
  lemma DoneElsewhere(b: Start, c: Cloud, w: World, op: Op, o: Op)
    requires LinksOff(b) && AllCallsSucceed(c) && SameShape(b.fs, w.fs)
    requires op in b.Plan() && !IsClear(op) && |op.path| > 0
    requires o in b.Plan() && !IsClear(o) && |o.path| > 0 && o.path != op.path && Done(b, w, o)
    ensures Done(b, ApplyOne(c, b.t, w, op), o)
  {
    hide Ext, Lower, Stem, PlanDir, Kept, Decide, Do, OpsAt;
    var w2 := ApplyOne(c, b.t, w, op);
    PlannedPlainly(b, op);
    PlannedPlainly(b, o);
    WorkTouches(c, b.t, w, op);
    assert SameOrNewDir(w, w2, o.path, op.path);
    if o.path < op.path { AncestorInScope(b, o.path, op.path); }
  }

  lemma PassedStays(b: Start, c: Cloud, rem: seq<Op>, w: World)
    requires LinksOff(b) && AllCallsSucceed(c) && rem != [] && |rem[0].path| > 0 && Tracking(b, rem, w)
    ensures Passed(b, rem[1..], ApplyOne(c, b.t, w, rem[0]))
  {
    hide Ext, Lower, Stem, PlanDir, Kept, Decide, Do, OpsAt, Done, Waiting;
    var op, rest, w2 := rem[0], rem[1..], ApplyOne(c, b.t, w, rem[0]);
    assert op in rem && rem == [op] + rest;
    PlannedPlainly(b, op);
    WorkTouches(c, b.t, w, op);
    forall q, o | b.Scope(q) && Ran(b, rest, o) && Writes(o) && Decodes(o) && q < o.path
      ensures RecAt(w2.idx, q).fid != ""
    {
      PlannedPlainly(b, o);
      if o.path == op.path {
        SameOp(b, o, op);
        AncestorsRecorded(c, b.t, w, op, q);
      } else {
        assert Ran(b, rem, o);
        if q == op.path {
          AncestorInScope(b, q, o.path);
          MkdirDone(c, b.t, w, op);
        } else {
          assert SameOrNewDir(w, w2, q, op.path);
        }
      }
    }
  }

  lemma SameOp(b: Start, o: Op, op: Op)
    requires LinksOff(b) && o in b.Plan() && op in b.Plan() && !IsClear(o) && !IsClear(op) && o.path == op.path
    ensures o == op && |op.path| > 0 && op.fid == ""
  {
    PlannedPlainly(b, o);
    PlannedPlainly(b, op);
    OneWorkOp(b.t.setup, b.fs, b.idx, op.path, o, op);
    WorkHasNoFid(b.t.setup, b.fs, b.idx, op.path, op);
  }

  lemma WorkHasNoFid(s: Setup, fs: Tree, idx: Index, p: Path, op: Op)
    requires !s.toStrm && |p| > 0 && op in OpsAt(s, fs, idx, p) && !IsClear(op)
    ensures op.fid == ""
  {
    hide Ext, Lower, Stem;
  }

  lemma TrackingStep(b: Start, c: Cloud, rem: seq<Op>, w: World)
    requires LinksOff(b) && AllCallsSucceed(c) && rem != [] && |rem[0].path| > 0 && Tracking(b, rem, w)
    ensures Tracking(b, rem[1..], ApplyOne(c, b.t, w, rem[0]))
  {
    hide Ext, Lower, Stem, PlanDir, Kept, Decide, Do, OpsAt, Done, Waiting, ApplyOne, Passed, PlainWork, Touches,
      SameShape;
    var op, rest, w2 := rem[0], rem[1..], ApplyOne(c, b.t, w, rem[0]);
    var p := op.path;
    assert op in rem && rem == [op] + rest;
    PlannedPlainly(b, op);
    ShapeAfter(b, c, w, op);
    PassedStays(b, c, rem, w);
    DoneHere(b, c, w, op);
    NoneLeft(rem);
    forall q | b.Scope(q) && (!NoneAt(rest, q) || Idle(b, q)) ensures Waiting(b, w2, q) {
      assert q != p;
      WaitingElsewhere(b, c, w, op, q);
    }
    forall o | Ran(b, rest, o) && |o.path| > 0 ensures Done(b, w2, o) {
      if o.path == p { SameOp(b, o, op); } else { DoneElsewhere(b, c, w, op, o); }
    }
  }

  lemma ShapeAfter(b: Start, c: Cloud, w: World, op: Op)
    requires LinksOff(b) && AllCallsSucceed(c) && SameShape(b.fs, w.fs)
    requires op in b.Plan() && !IsClear(op) && |op.path| > 0
    ensures SameShape(b.fs, ApplyOne(c, b.t, w, op).fs)
  {
    hide Ext, Lower, Stem, PlanDir, ApplyOne, OpsAt;
    PlannedPlainly(b, op);
    WorkTouches(c, b.t, w, op);
  }

  /** With one operation per path, the rest holds none for the first one's path. */
  lemma NoneLeft(rem: seq<Op>)
    requires rem != [] && (forall op :: op in rem ==> !IsClear(op)) && forall p :: CountAt(rem, p) <= 1
    ensures NoneAt(rem[1..], rem[0].path) && forall p :: CountAt(rem[1..], p) <= 1
  {
    assert forall op :: op in rem[1..] ==> op in rem;
    forall op | op in rem[1..] ensures op.path != rem[0].path {
      CountedIsThere(rem[1..], op);
      assert CountAt(rem, op.path) <= 1;
      assert rem[0] in rem;
    }
    forall p ensures CountAt(rem[1..], p) <= 1 { assert CountAt(rem, p) <= 1; }
  }

  lemma {:induction false} TrackingRun(b: Start, c: Cloud, rem: seq<Op>, w: World)
    requires LinksOff(b) && AllCallsSucceed(c) && Tracking(b, rem, w) && BelowRoot(rem)
    ensures Tracking(b, [], Run(c, b.t, w, rem))
    decreases |rem|
  {
    hide Tracking;
    if rem != [] {
      assert rem[0] in rem && forall op :: op in rem[1..] ==> op in rem;
      TrackingStep(b, c, rem, w);
      TrackingRun(b, c, rem[1..], ApplyOne(c, b.t, w, rem[0]));
    }
  }

  // ---- which paths the next plan leaves alone ----

  /** A path where an operation ran is quiet exactly when the operation lasts. */
  lemma DoneIsQuiet(b: Start, w: World, op: Op)
    requires LinksOff(b) && SameShape(b.fs, w.fs) && op in b.Plan() && !IsClear(op) && |op.path| > 0
    requires Done(b, w, op)
    ensures Quiet(b.t.setup, w, op.path) <==> Lasting(b.t.setup, b.fs, Kept(b), op)
  {
    hide Ext, Lower, Stem, PlanDir, Kept;
    PlannedPlainly(b, op);
    PlainDecision(b.t.setup, b.fs, b.idx, op.path, op);
    match op.kind
    case Mkdir =>
    case Upload =>
    case Adopt =>
      if Decodes(op) { FreshLink(b.t.setup, w.fs, w.idx, op.path, op.pickCode); }
    case Normalize =>
      KeptLink(b, op);
      var pc := b.t.setup.links.PickCodeOf(TextAt(b.fs, op.path));
      if RecAt(Kept(b), op.path).fid != "" {
        FreshLink(b.t.setup, w.fs, w.idx, op.path, pc);
      } else {
      }
  }

  lemma KeptLink(b: Start, op: Op)
    requires LinksOff(b) && op in b.Plan() && op.kind == Normalize
    ensures RecAt(Kept(b), op.path).fid != "" ==> RecAt(Kept(b), op.path) == RecAt(b.idx, op.path)
  {
    KeptFacts(b);
  }

  /** A path where nothing ran is quiet unless the clears made the plan miss it. */
  lemma IdleIsQuiet(b: Start, w: World, q: Path)
    requires LinksOff(b) && b.Scope(q) && Idle(b, q) && Waiting(b, w, q)
    requires !Missed(b, q)
    requires WrittenBelow(b, q) && IsDirAt(b.fs, q) ==> RecAt(w.idx, q).fid != ""
    ensures Quiet(b.t.setup, w, q)
  {
    hide Ext, Lower, Stem, PlanDir, Kept, Decide, OpsAt;
    var s := b.t.setup;
    if Reopened(b, w, q) {
      FolderIsQuiet(s, w.fs, w.idx, q);
    } else {
      SameOps(s, b.fs, Kept(b), w.fs, w.idx, q);
      if OpsAt(s, b.fs, b.idx, q) != [] {
        OnlyClearsHere(b, q);
      } else if RecAt(w.idx, q).fid != "" {
        KeptFacts(b);
        SameOps(s, b.fs, b.idx, b.fs, Kept(b), q);
      }
    }
  }

  lemma FolderIsQuiet(s: Setup, fs: Tree, idx: Index, q: Path)
    requires Listed(s, fs, q) && fs[q].Dir? && IsDirRec(RecAt(idx, q))
    ensures OpsAt(s, fs, idx, q) == []
  {}

  lemma OnlyClearsHere(b: Start, q: Path)
    requires LinksOff(b) && b.Scope(q) && Idle(b, q) && OpsAt(b.t.setup, b.fs, b.idx, q) != []
    ensures OpsAt(b.t.setup, b.fs, Kept(b), q) == []
  {
    hide Ext, Lower, Stem, PlanDir, Kept, Decide, OpsAt;
    var ops := OpsAt(b.t.setup, b.fs, b.idx, q);
    PlanDirComplete(b.t.setup, b.fs, b.idx, b.root, q);
    KeptFacts(b);
    forall op | op in ops ensures IsClear(op) && op.path == q && op in b.Plan() {
      PlainDecision(b.t.setup, b.fs, b.idx, q, op);
    }
    assert ops[0] in ops;
    OnlyClears(b.t.setup, b.fs, b.idx, Kept(b), q);
  }

  // ---- the round ----

  lemma RoundTracks(b: Start, c: Cloud, w: World)
    requires LinksOff(b) && AllCallsSucceed(c) && w.idx == b.idx && w.fs == b.fs
    ensures BelowRoot(b.Plan()) && Tracking(b, [], ApplyOps(c, b.t, w, b.Plan()).0)
  {
    hide PlanDir, OpsAt, Tracking;
    RoundSplits(b, c, w);
    ClearsAndWork(b);
    ClearsRun(c, b.t, w, OfPhase(b.Plan(), 0));
    var w1 := Run(c, b.t, w, OfPhase(b.Plan(), 0));
    TrackingStarts(b, w1);
    TrackingRun(b, c, WorkOps(b.Plan()), w1);
  }

  /** A planned operation that does not last leaves its path to be planned again, and a missed
      path is planned as if the round had only cleared. */
  lemma PlannedAgain(b: Start, c: Cloud, w: World, q: Path)
    requires LinksOff(b) && AllCallsSucceed(c) && w.idx == b.idx && w.fs == b.fs
    requires Missed(b, q) || exists op :: op in b.Plan() && op.path == q && !Lasting(b.t.setup, b.fs, Kept(b), op)
    ensures BelowRoot(b.Plan())
    ensures var w2 := ApplyOps(c, b.t, w, b.Plan()).0;
      exists op :: op in PlanDir(b.t.setup, w2.fs, w2.idx, b.root) && op.path == q
                   && (Missed(b, q) ==> op in OpsAt(b.t.setup, b.fs, Kept(b), q))
  {
    hide PlanDir, OpsAt, Kept, Lasting, ApplyOps, Done, Waiting;
    var s := b.t.setup;
    RoundTracks(b, c, w);
    var w2 := ApplyOps(c, b.t, w, b.Plan()).0;
    AgainIsLoud(b, w2, q);
    PlanDirComplete(s, w2.fs, w2.idx, b.root, q);
    var again := OpsAt(s, w2.fs, w2.idx, q);
    assert again[0] in again;
    PlainDecision(s, w2.fs, w2.idx, q, again[0]);
  }

  lemma AgainIsLoud(b: Start, w2: World, q: Path)
    requires LinksOff(b) && Tracking(b, [], w2)
    requires Missed(b, q) || exists op :: op in b.Plan() && op.path == q && !Lasting(b.t.setup, b.fs, Kept(b), op)
    ensures b.Scope(q) && |q| > 0 && !Quiet(b.t.setup, w2, q)
    ensures Missed(b, q) ==> OpsAt(b.t.setup, w2.fs, w2.idx, q) == OpsAt(b.t.setup, b.fs, Kept(b), q)
  {
    hide PlanDir, OpsAt, Kept, Done;
    if Missed(b, q) {
      QuietIsUnplanned(b, q);
      assert Waiting(b, w2, q);
      SameOps(b.t.setup, b.fs, Kept(b), w2.fs, w2.idx, q);
    } else {
      var op :| op in b.Plan() && op.path == q && !Lasting(b.t.setup, b.fs, Kept(b), op);
      PlannedPlainly(b, op);
      assert Ran(b, [], op);
      DoneIsQuiet(b, w2, op);
    }
  }

  lemma QuietIsUnplanned(b: Start, q: Path)
    requires LinksOff(b) && b.Scope(q) && |q| > 0 && OpsAt(b.t.setup, b.fs, b.idx, q) == []
    ensures forall op :: op in b.Plan() ==> op.path != q
  {
    hide PlanDir;
    forall op | op in b.Plan() ensures op.path != q { PlannedPlainly(b, op); }
  }

  /** When every planned operation lasts and no path is missed, the second plan is empty. */
  lemma LastingRoundConverges(b: Start, c: Cloud, w: World)
    requires LinksOff(b) && AllCallsSucceed(c) && w.idx == b.idx && w.fs == b.fs
    requires forall op :: op in b.Plan() ==> Lasting(b.t.setup, b.fs, Kept(b), op)
    requires forall q :: !Missed(b, q)
    ensures BelowRoot(b.Plan())
    ensures var w2 := ApplyOps(c, b.t, w, b.Plan()).0; PlanDir(b.t.setup, w2.fs, w2.idx, b.root) == []
  {
    hide PlanDir, OpsAt, Kept, Lasting, Missed, ApplyOps, Done, Waiting;
    RoundTracks(b, c, w);
    var w2 := ApplyOps(c, b.t, w, b.Plan()).0;
    forall p | InScope(b.t.setup, w2.fs, b.root, p) ensures OpsAt(b.t.setup, w2.fs, w2.idx, p) == [] {
      EveryPathIsQuiet(b, w2, p);
    }
    QuietScanIsEmpty(b.t.setup, w2.fs, w2.idx, b.root);
  }

  lemma EveryPathIsQuiet(b: Start, w2: World, p: Path)
    requires LinksOff(b) && Tracking(b, [], w2) && b.Scope(p)
    requires forall op :: op in b.Plan() ==> Lasting(b.t.setup, b.fs, Kept(b), op)
    requires !Missed(b, p)
    ensures |p| > 0 && Quiet(b.t.setup, w2, p)
  {
    hide PlanDir, OpsAt, Kept, Done, Waiting, Missed;
    if Idle(b, p) {
      if WrittenBelow(b, p) {
        var op :| op in b.Plan() && Writes(op) && p < op.path;
        assert Ran(b, [], op) && Decodes(op);
      }
      IdleIsQuiet(b, w2, p);
    } else {
      var op :| op in b.Plan() && op.path == p && !IsClear(op);
      assert Ran(b, [], op);
      DoneIsQuiet(b, w2, op);
    }
  }

  /** One round converges exactly when every planned link operation lasts and no path is
      missed: planning again over what the round left behind then yields nothing. For every
      tree, index and start directory, with STRM generation off and every cloud call answered. */
  lemma OneRoundConverges(b: Start, c: Cloud, w: World)
    requires LinksOff(b) && AllCallsSucceed(c) && w.idx == b.idx && w.fs == b.fs
    ensures BelowRoot(b.Plan())
    ensures var w2 := ApplyOps(c, b.t, w, b.Plan()).0;
      PlanDir(b.t.setup, w2.fs, w2.idx, b.root) == [] <==>
        ((forall op :: op in b.Plan() ==> Lasting(b.t.setup, b.fs, Kept(b), op)) && forall q :: !Missed(b, q))
  {
    hide PlanDir, Lasting, Missed, Kept, ApplyOps;
    RoundSplits(b, c, w);
    if q :| Missed(b, q) {
      PlannedAgain(b, c, w, q);
    } else if op :| op in b.Plan() && !Lasting(b.t.setup, b.fs, Kept(b), op) {
      PlannedAgain(b, c, w, op.path);
    } else {
      LastingRoundConverges(b, c, w);
    }
  }

  // ---- records below a conflicting one ----

  /** No index record lies below a local directory that the index knows as a file or link. */
  ghost predicate NothingBuried(fs: Tree, idx: Index) {
    forall p, q {:trigger IsDirAt(fs, p), q in idx} ::
      (p in idx && q in idx && p < q && IsDirAt(fs, p) && idx[p].fid != "") ==> idx[p].kind == KIND_DIR
  }

  predicate LinkSound(s: Setup, fs: Tree, op: Op) {
    && (op.kind == Adopt ==> Pickcode.ToID(op.pickCode).Some? && s.links.Stable(op.pickCode))
    && (op.kind == Normalize ==> s.links.Stable(s.links.PickCodeOf(TextAt(fs, op.path))))
  }

  lemma {:induction false} KeptOutside(idx: Index, ops: seq<Op>, q: Path)
    requires forall op :: op in ops ==> !(op.path <= q)
    ensures RecAt(LeftByClears(idx, ops), q) == RecAt(idx, q)
    decreases |ops|
  {
    if ops != [] {
      assert ops[0] in ops && forall op :: op in ops[1..] ==> op in ops;
      KeptOutside(Cleared(idx, ops[0].path), ops[1..], q);
    }
  }

  /** Without buried records a path in scope loses its record only to a clear at that path. */
  lemma KeptUnlessCleared(b: Start, q: Path)
    requires LinksOff(b) && NothingBuried(b.fs, b.idx) && b.Scope(q)
    requires forall op :: op in b.Plan() && IsClear(op) ==> op.path != q
    ensures RecAt(Kept(b), q) == RecAt(b.idx, q)
  {
    hide Ext, Lower, Stem, PlanDir;
    ClearsAndWork(b);
    KeptFacts(b);
    if q in b.idx {
      forall op | op in OfPhase(b.Plan(), 0) ensures !(op.path <= q) {
        if op.path <= q {
          PlannedPlainly(b, op);
          AncestorInScope(b, op.path, q);
          ClearAboveBuries(b, op, q);
        }
      }
      KeptOutside(b.idx, OfPhase(b.Plan(), 0), q);
    }
  }

  lemma ClearAboveBuries(b: Start, op: Op, q: Path)
    requires LinksOff(b) && NothingBuried(b.fs, b.idx) && |op.path| > 0 && op.path < q
    requires Listed(b.t.setup, b.fs, op.path) && b.fs[op.path].Dir?
    requires op in OpsAt(b.t.setup, b.fs, b.idx, op.path) && IsClear(op)
    ensures q !in b.idx
  {
    assert IsDirAt(b.fs, op.path);
  }

  /** Without buried records nothing is missed, and lasting is a matter of the link alone. */
  lemma UnburiedRound(b: Start, c: Cloud, w: World)
    requires LinksOff(b) && NothingBuried(b.fs, b.idx) && AllCallsSucceed(c) && w.idx == b.idx && w.fs == b.fs
    ensures BelowRoot(b.Plan())
    ensures var w2 := ApplyOps(c, b.t, w, b.Plan()).0;
      (PlanDir(b.t.setup, w2.fs, w2.idx, b.root) == [] <==>
        forall op :: op in b.Plan() ==> LinkSound(b.t.setup, b.fs, op))
  {
    hide PlanDir, OpsAt, Kept, NothingBuried, ApplyOps, Listed;
    OneRoundConverges(b, c, w);
    forall q ensures !Missed(b, q) {
      if Missed(b, q) {
        QuietIsUnplanned(b, q);
        KeptUnlessCleared(b, q);
        SameOps(b.t.setup, b.fs, b.idx, b.fs, Kept(b), q);
      }
    }
    forall op | op in b.Plan()
      ensures Lasting(b.t.setup, b.fs, Kept(b), op) <==> LinkSound(b.t.setup, b.fs, op)
    {
      if op.kind == Normalize { NormalizedIsKept(b, op); }
    }
  }

  lemma NormalizedIsKept(b: Start, op: Op)
    requires LinksOff(b) && NothingBuried(b.fs, b.idx) && op in b.Plan() && op.kind == Normalize
    ensures RecAt(Kept(b), op.path).fid != ""
  {
    hide PlanDir, Kept;
    PlannedPlainly(b, op);
    PlainDecision(b.t.setup, b.fs, b.idx, op.path, op);
    forall o | o in b.Plan() && IsClear(o) ensures o.path != op.path { PlannedPlainly(b, o); }
    KeptUnlessCleared(b, op.path);
  }

  /** A record that is buried and not blocked is lost with the clear, and its unchanged file is
      planned again. */
  lemma BuriedRecordIsSentAgain(b: Start, c: Cloud, w: World, p: Path, q: Path)
    requires LinksOff(b) && AllCallsSucceed(c) && w.idx == b.idx && w.fs == b.fs
    requires b.Scope(p) && Listed(b.t.setup, b.fs, p) && b.fs[p].Dir?
    requires RecAt(b.idx, p).fid != "" && RecAt(b.idx, p).kind != KIND_DIR && !Blocked(b.idx, p)
    requires p < q && b.Scope(q) && Listed(b.t.setup, b.fs, q) && b.fs[q].File?
    requires RecAt(b.idx, q).fid != "" && OpsAt(b.t.setup, b.fs, b.idx, q) == []
    ensures BelowRoot(b.Plan())
    ensures var w2 := ApplyOps(c, b.t, w, b.Plan()).0;
      exists op :: op in PlanDir(b.t.setup, w2.fs, w2.idx, b.root) && op.path == q && op.kind in {Upload, Adopt}
  {
    hide Ext, Lower, Stem, PlanDir, OpsAt, Decide, ApplyOps;
    ClearsAndWork(b);
    PlanDirComplete(b.t.setup, b.fs, b.idx, b.root, p);
    ConflictIsCleared(b.t.setup, b.fs, b.idx, p);
    ClearsErase(b.idx, OfPhase(b.Plan(), 0), ClearOp(p, RecAt(b.idx, p)), q);
    NoRecordAsks(b.t.setup, b.fs, b.idx, Kept(b), q);
    PlannedAgain(b, c, w, q);
  }

  lemma {:induction false} ClearsErase(idx: Index, ops: seq<Op>, clear: Op, q: Path)
    requires clear in ops && clear.path < q && !Blocked(idx, clear.path)
    ensures q !in LeftByClears(idx, ops)
    decreases |ops|
  {
    var idx1 := Cleared(idx, ops[0].path);
    if ops[0] != clear {
      assert clear in ops[1..] && !Blocked(idx1, clear.path);
      ClearsErase(idx1, ops[1..], clear, q);
    } else {
      LeftFacts(idx1, ops[1..]);
    }
  }

  lemma ConflictIsCleared(s: Setup, fs: Tree, idx: Index, p: Path)
    requires Listed(s, fs, p) && fs[p].Dir? && RecAt(idx, p).fid != "" && RecAt(idx, p).kind != KIND_DIR
    ensures ClearOp(p, RecAt(idx, p)) in OpsAt(s, fs, idx, p)
  {}

  lemma NoRecordAsks(s: Setup, fs: Tree, idx: Index, idx2: Index, q: Path)
    requires !s.toStrm && Listed(s, fs, q) && fs[q].File? && RecAt(idx, q).fid != "" && OpsAt(s, fs, idx, q) == []
    requires RecAt(idx2, q).fid == ""
    ensures OpsAt(s, fs, idx2, q) != [] && forall op :: op in OpsAt(s, fs, idx2, q) ==> op.kind in {Upload, Adopt}
  {
    hide Ext, Lower, Stem;
  }
}
