/** What a round can never lose: index records leave only with a clear the cloud accepted, local
    files leave only for a link to their uploaded copy, and what cannot be read is not treated
    as deleted. Any cloud call may fail. */
module Safety {
  import opened Bytes
  import opened Records
  import opened Model
  import opened Plan
  import opened Apply
  import opened Rounds
  import NoOscillation
  import Pickcode

  // ---- index records ----

  /** The cloud accepted every removal it was asked for in its calls `from` to `to`. */
  ghost predicate AllAccepted(c: Cloud, from: nat, to: nat) {
    forall n :: from <= n < to ==> c.accept(n)
  }

  lemma AcceptedPart(c: Cloud, from: nat, to: nat, from2: nat, to2: nat)
    requires AllAccepted(c, from, to) && from <= from2 && to2 <= to
    ensures AllAccepted(c, from2, to2)
  {}

  /** The operation is a clear at or above `q`, asked the cloud, and had every call accepted. */
  ghost predicate ConfirmedClear(c: Cloud, t: Apply.Task, w: World, op: Op, q: Path)
    requires |op.path| > 0
  {
    && IsClear(op) && op.path <= q
    && w.calls < ApplyOne(c, t, w, op).calls
    && AllAccepted(c, w.calls, ApplyOne(c, t, w, op).calls)
  }

  /** One operation: only a clear removes records, its own path and what lies below it, and only
      after the cloud has accepted every removal it asked for. */
  lemma ForgettingNeedsConsent(c: Cloud, t: Apply.Task, w: World, op: Op, q: Path)
    requires |op.path| > 0 && q in w.idx && q !in ApplyOne(c, t, w, op).idx
    ensures ConfirmedClear(c, t, w, op, q)
  {
    hide Ext, Lower, Stem, StrmName, Pickcode.ToID, MoveAndRename, StrmBelow, EnsureFrom, Links.Content, CanMkdirAll,
      MkdirAll, DoRetire, DoDrop;
    match op.kind
    case Mkdir => RecordsStay(c, w, op.path, 0, t.cloudFid, q);
    case Upload => RecordsStay(c, w, Parent(op.path), 0, t.cloudFid, q);
    case Adopt => RecordsStay(c, w, Parent(op.path), 0, t.cloudFid, q);
    case Retire => RetireHasConsent(c, t, w, op);
    case Drop => DropHasConsent(c, t, w, op);
    case _ =>
  }

  lemma {:induction false} RecordsStay(c: Cloud, w: World, p: Path, i: nat, parentFid: string, q: Path)
    requires i <= |p| && q in w.idx
    ensures q in EnsureFrom(c, w, p, i, parentFid).0.idx
    decreases |p| - i
  {
    if i < |p| {
      var cur := p[..i + 1];
      var fid := RecAt(w.idx, cur).fid;
      if fid != "" {
        RecordsStay(c, w, p, i + 1, fid, q);
      } else {
        var f := c.folder(w.calls, parentFid, p[i]);
        if f.Some? { RecordsStay(c, WithFolder(w, p, i, parentFid, f.value), p, i + 1, f.value, q); }
      }
    }
  }

  lemma RetireHasConsent(c: Cloud, t: Apply.Task, w: World, op: Op)
    requires DoRetire(c, t, w, op).0.idx != w.idx
    ensures var w2 := DoRetire(c, t, w, op).0;
      w2.idx == Cleared(w.idx, op.path) && w.calls < w2.calls && AllAccepted(c, w.calls, w2.calls)
    ensures DoRetire(c, t, w, op).1
  {
    hide Cleared, StrmBelow;
  }

  /** A directory without a FID in the operation takes two removals, and both are accepted. */
  lemma DropHasConsent(c: Cloud, t: Apply.Task, w: World, op: Op)
    requires DoDrop(c, t, w, op).0.idx != w.idx
    ensures var w2 := DoDrop(c, t, w, op).0;
      w2.idx == Cleared(w.idx, op.path) && w.calls < w2.calls && AllAccepted(c, w.calls, w2.calls)
    ensures DoDrop(c, t, w, op).1
  {
    hide Cleared, StrmBelow;
  }

  lemma {:induction false} EnsureCallsOn(c: Cloud, w: World, p: Path, i: nat, parentFid: string)
    requires i <= |p|
    ensures EnsureFrom(c, w, p, i, parentFid).0.calls >= w.calls
    decreases |p| - i
  {
    if i < |p| {
      var cur := p[..i + 1];
      var fid := RecAt(w.idx, cur).fid;
      if fid != "" {
        EnsureCallsOn(c, w, p, i + 1, fid);
      } else {
        var f := c.folder(w.calls, parentFid, p[i]);
        if f.Some? { EnsureCallsOn(c, WithFolder(w, p, i, parentFid, f.value), p, i + 1, f.value); }
      }
    }
  }

  lemma MoveCallsOn(c: Cloud, w: World, p: Path)
    requires |p| > 0
    ensures forall fid, parentFid :: MoveAndRename(c, w, p, fid, parentFid).0.calls >= w.calls
  {
    hide Ext, TrimSuffix;
  }

  lemma UploadCallsOn(c: Cloud, t: Apply.Task, w: World, op: Op)
    requires |op.path| > 0
    ensures DoUpload(c, t, w, op).0.calls >= w.calls
  {
    hide Ext, Lower, Stem, StrmName, EnsureFrom, Links.Content;
    EnsureCallsOn(c, w, Parent(op.path), 0, t.cloudFid);
  }

  lemma AdoptCallsOn(c: Cloud, t: Apply.Task, w: World, op: Op)
    requires |op.path| > 0
    ensures DoAdopt(c, t, w, op).0.calls >= w.calls
  {
    hide Pickcode.ToID, MoveAndRename, EnsureFrom, Links.Content;
    EnsureCallsOn(c, w, Parent(op.path), 0, t.cloudFid);
    MoveCallsOn(c, EnsureDir(c, t, w, Parent(op.path)).0, op.path);
  }

  lemma CallsGoOn(c: Cloud, t: Apply.Task, w: World, op: Op)
    requires |op.path| > 0
    ensures ApplyOne(c, t, w, op).calls >= w.calls
  {
    hide Ext, Lower, Stem, StrmName, DoUpload, DoAdopt, EnsureFrom, StrmBelow, Cleared, Links.Content;
    match op.kind
    case Mkdir => EnsureCallsOn(c, w, op.path, 0, t.cloudFid);
    case Upload => UploadCallsOn(c, t, w, op);
    case Adopt => AdoptCallsOn(c, t, w, op);
    case _ =>
  }

  lemma {:induction false} RunCallsOn(c: Cloud, t: Apply.Task, w: World, ops: seq<Op>)
    requires BelowRoot(ops)
    ensures Run(c, t, w, ops).calls >= w.calls
    decreases |ops|
  {
    hide ApplyOne;
    if ops != [] {
      assert ops[0] in ops && forall op :: op in ops[1..] ==> op in ops;
      CallsGoOn(c, t, w, ops[0]);
      RunCallsOn(c, t, ApplyOne(c, t, w, ops[0]), ops[1..]);
    }
  }

  /** The state before operation `i` of a list. */
  ghost function StateAt(c: Cloud, t: Apply.Task, w: World, ops: seq<Op>, i: nat): World
    requires BelowRoot(ops) && i <= |ops|
  {
    assert forall op :: op in ops[..i] ==> op in ops;
    Run(c, t, w, ops[..i])
  }

  lemma StateStep(c: Cloud, t: Apply.Task, w: World, ops: seq<Op>, i: nat)
    requires BelowRoot(ops) && i < |ops|
    ensures |ops[i].path| > 0
    ensures StateAt(c, t, w, ops, i + 1) == ApplyOne(c, t, StateAt(c, t, w, ops, i), ops[i])
  {
    hide ApplyOne;
    assert ops[i] in ops;
    assert ops[..i + 1] == ops[..i] + [ops[i]];
    assert (forall op :: op in ops[..i] ==> op in ops) && forall op :: op in [ops[i]] ==> op in ops;
    RunConcat(c, t, w, ops[..i], [ops[i]]);
    var w1 := Run(c, t, w, ops[..i]);
    assert [ops[i]][1..] == [];
    assert Run(c, t, w1, [ops[i]]) == Run(c, t, ApplyOne(c, t, w1, ops[i]), []);
  }

  lemma StateEnds(c: Cloud, t: Apply.Task, w: World, ops: seq<Op>)
    requires BelowRoot(ops)
    ensures StateAt(c, t, w, ops, 0) == w && StateAt(c, t, w, ops, |ops|) == Run(c, t, w, ops)
  {
    assert ops[..0] == [] && ops[..|ops|] == ops;
  }

  /** Operation `i` of the list takes the record at `q` away: it is a clear at or above `q`, it
      asked the cloud, and every one of its own calls was accepted. */
  ghost predicate ForgottenAt(c: Cloud, t: Apply.Task, w: World, ops: seq<Op>, i: nat, q: Path)
    requires BelowRoot(ops)
  {
    && i < |ops| && ops[i] in ops
    && q in StateAt(c, t, w, ops, i).idx && q !in StateAt(c, t, w, ops, i + 1).idx
    && ConfirmedClear(c, t, StateAt(c, t, w, ops, i), ops[i], q)
  }

  lemma ForgottenBy(c: Cloud, t: Apply.Task, w: World, ops: seq<Op>, i: nat, q: Path)
    requires BelowRoot(ops) && ForgottenAt(c, t, w, ops, i, q)
    ensures i < |ops| && ops[i] in ops && IsClear(ops[i]) && ops[i].path <= q
  {}

  /** Over a whole run a failed call never costs a record: a record that is gone was taken by one
      confirmed clear at its path or above. */
  lemma {:induction false} RecordsLeaveOnlyWithConsent(c: Cloud, t: Apply.Task, w: World, ops: seq<Op>, q: Path)
    requires BelowRoot(ops) && q in w.idx && q !in Run(c, t, w, ops).idx
    ensures exists i :: ForgottenAt(c, t, w, ops, i, q)
  {
    hide ApplyOne, StateAt, ConfirmedClear, BelowRoot, Run;
    StateEnds(c, t, w, ops);
    var i := |ops|;
    while q !in StateAt(c, t, w, ops, i).idx
      invariant 0 <= i <= |ops|
      invariant i < |ops| ==> q !in StateAt(c, t, w, ops, i + 1).idx
      decreases i
    {
      i := i - 1;
    }
    StateStep(c, t, w, ops, i);
    ForgettingNeedsConsent(c, t, StateAt(c, t, w, ops, i), ops[i], q);
    assert ForgottenAt(c, t, w, ops, i, q);
  }

  // ---- local files ----

  /** The link `key` and the record under it are those of the cloud's upload `n`. */
  predicate HoldsUpload(c: Cloud, t: Apply.Task, w: World, key: Path, n: nat) {
    c.upload(n).Some? && LinkIs(t, w, key, c.upload(n).value.0, c.upload(n).value.1)
  }

  predicate LinkIs(t: Apply.Task, w: World, key: Path, fid: string, pickCode: string) {
    && key in w.fs && w.fs[key].File? && w.fs[key].text == t.setup.links.Content(pickCode)
    && key in w.idx && w.idx[key] == Record(fid, pickCode, KIND_STRM, 0)
  }

  /** The link beside `p` is that of an upload among the cloud's calls `from` to `to`. */
  ghost predicate LeftALink(c: Cloud, t: Apply.Task, w2: World, p: Path, from: nat, to: nat)
    requires |p| > 0
  {
    exists n :: from <= n < to && HoldsUpload(c, t, w2, StrmKey(p), n)
  }

  /** One operation: the only file it can take away is a video it has just uploaded itself, and
      then the link to that upload is there, or the target of its own transfer that breaks off. */
  lemma FileLeavesForLink(c: Cloud, t: Apply.Task, w: World, op: Op, p: Path)
    requires |op.path| > 0 && p in w.fs && p !in ApplyOne(c, t, w, op).fs
    ensures (op.kind == Upload && op.isVideo && op.path == p) || (op.kind == Download && BreaksOff(c, w, op, p))
    ensures op.kind == Upload && StrmKey(p) != p ==>
      var w2 := ApplyOne(c, t, w, op); LeftALink(c, t, w2, p, w.calls, w2.calls)
  {
    hide Ext, Lower, Stem, StrmName, Pickcode.ToID, MoveAndRename, StrmBelow, Cleared, Links.Content;
    match op.kind
    case Mkdir => EnsureKeepsFiles(c, w, op.path, 0, t.cloudFid);
    case Upload => UploadLeavesLink(c, t, w, op, p);
    case Adopt => EnsureKeepsFiles(c, w, Parent(op.path), 0, t.cloudFid);
    case _ =>
  }

  lemma UploadLeavesLink(c: Cloud, t: Apply.Task, w: World, op: Op, p: Path)
    requires |op.path| > 0 && op.kind == Upload && p in w.fs && p !in ApplyOne(c, t, w, op).fs
    ensures op.isVideo && op.path == p
    ensures StrmKey(p) != p ==> var w2 := ApplyOne(c, t, w, op); LeftALink(c, t, w2, p, w.calls, w2.calls)
  {
    hide Ext, Lower, Stem, StrmName, Links.Content, EnsureFrom;
    EnsureKeepsFiles(c, w, Parent(op.path), 0, t.cloudFid);
    EnsureCallsOn(c, w, Parent(op.path), 0, t.cloudFid);
    var w1, w2 := EnsureDir(c, t, w, Parent(op.path)).0, ApplyOne(c, t, w, op);
    if StrmKey(p) != p { assert HoldsUpload(c, t, w2, StrmKey(p), w1.calls); }
  }

  /** The upload of a video, or a transfer. */
  predicate MayTake(op: Op) {
    (op.kind == Upload && op.isVideo) || (op.kind == Download && !op.isVideo)
  }

  /** Over a whole run: a local file that is gone was the target of a video upload, or of a
      transfer. */
  lemma {:induction false} FilesLeaveOnlyByUpload(c: Cloud, t: Apply.Task, w: World, ops: seq<Op>, p: Path)
    requires BelowRoot(ops) && p in w.fs && p !in Run(c, t, w, ops).fs
    ensures exists op :: op in ops && op.path == p && MayTake(op)
    decreases |ops|
  {
    hide ApplyOne;
    assert ops[0] in ops && forall op :: op in ops[1..] ==> op in ops;
    var w1 := ApplyOne(c, t, w, ops[0]);
    if p in w1.fs {
      FilesLeaveOnlyByUpload(c, t, w1, ops[1..], p);
    } else {
      FileLeavesForLink(c, t, w, ops[0], p);
    }
  }

  /** A planned round takes away only videos: listed files of at least the threshold size, with
      STRM generation on. Every other local file is still there, whatever the cloud answers. */
  lemma RoundKeepsFiles(b: Start, c: Cloud, w: World, p: Path)
    requires w.fs == b.fs && p in b.fs
    ensures BelowRoot(b.Plan())
    ensures p !in ApplyOps(c, b.t, w, b.Plan()).0.fs ==> NoOscillation.BigVideo(b.t.setup, p, b.fs[p])
  {
    hide PlanDir, ApplyOne, Run, SortByPhase, ArchiveFids;
    NoOscillation.PlanBelowRoot(b);
    var sorted := SortByPhase(b.Plan());
    assert forall op :: op in sorted ==> op in b.Plan();
    if p !in Run(c, b.t, w, sorted).fs {
      FilesLeaveOnlyByUpload(c, b.t, w, sorted, p);
      var op :| op in sorted && op.path == p && MayTake(op);
      NoOscillation.PlannedAt(b, op);
    }
  }

  // ---- what cannot be read ----

  /** An entry that is there but cannot be examined is never cleared for that, and is cleared at
      all only as the link of a local video whose key the index holds for something else. */
  lemma UnreadableIsNotDeleted(b: Start, op: Op)
    requires op in b.Plan() && IsClear(op)
    requires Listed(b.t.setup, b.fs, op.path) && b.fs[op.path].Unreadable?
    ensures b.t.setup.toStrm && IsStrm(Base(op.path))
    ensures op.path in b.idx && b.idx[op.path].kind != KIND_STRM
  {
    hide Ext, Lower, Stem, StrmName;
    var s := b.t.setup;
    var p := PlanDirSound(s, b.fs, b.idx, b.root, op);
    StrmNameIsStrm(Base(p));
    NoOscillation.DecisionShape(s, b.fs, b.idx, p, op);
    KeyClearNeedsLinks(s, b.fs, b.idx, p, op);
  }

  lemma KeyClearNeedsLinks(s: Setup, fs: Tree, idx: Index, p: Path, op: Op)
    requires |p| > 0 && op in OpsAt(s, fs, idx, p)
    ensures op.path != p ==> s.toStrm
    ensures op.path == p && Listed(s, fs, p) ==> !fs[p].Unreadable?
  {
    hide Ext, Lower, Stem, StrmName;
  }
}
