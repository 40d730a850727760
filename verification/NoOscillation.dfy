/** STRM generation on, cloud calls that may fail: what one round records, the next plan
    leaves alone. */
module NoOscillation {
  import opened Bytes
  import opened Records
  import opened Model
  import opened Plan
  import opened Apply
  import opened Rounds
  import Pickcode

  /** No directory is called `*.strm`, and the link of a listed video is listed too. */
  ghost predicate NamesFit(b: Start) {
    && (forall p :: p in b.fs && |p| > 0 && IsStrm(Base(p)) ==> !b.fs[p].Dir?)
    && (forall n {:trigger StrmName(n)} :: b.t.setup.rules.IsVideoExt(n) && !b.t.setup.rules.excluded(n) ==>
          !b.t.setup.rules.excluded(StrmName(n)))
    && (b.t.setup.excludeDir.Some? && |b.t.setup.excludeDir.value| > 0 ==> !IsStrm(Base(b.t.setup.excludeDir.value)))
  }

  /** The pickcodes of this round survive being written to a link and read back. */
  ghost predicate StableCodes(b: Start, c: Cloud) {
    && StableUploads(b, c)
    && (forall op :: op in b.Plan() && op.kind == Adopt ==> b.t.setup.links.Stable(op.pickCode))
  }

  ghost predicate StableUploads(b: Start, c: Cloud) {
    && MintsFids(c)
    && (forall n :: c.upload(n).Some? ==> b.t.setup.links.Stable(c.upload(n).value.1))
  }

  predicate BigVideo(s: Setup, p: Path, e: Entry) {
    |p| > 0 && s.toStrm && e.File? && !IsStrm(Base(p)) && s.rules.IsVideo(Base(p), e.size)
  }

  /** Index, file system and cloud record agree at `q`. */
  ghost predicate Settled(s: Setup, w: World, q: Path) {
    && Listed(s, w.fs, q) && RecAt(w.idx, q).fid != ""
    && SettledEntry(s, q, w.fs[q], RecAt(w.idx, q))
  }

  predicate SettledEntry(s: Setup, q: Path, e: Entry, r: Record)
    requires |q| > 0
  {
    match e
    case Dir(_) => r.kind == KIND_DIR
    case Unreadable => false
    case File(size, text) =>
      if IsStrm(Base(q)) then r.kind == KIND_STRM && s.links.Stable(r.pickCode) && text == s.links.Content(r.pickCode)
      else r.kind == KIND_FILE && r.size == size && !BigVideo(s, q, e)
  }

  /** The operation uploads a large video whose link is `q`: link and record are rewritten, and the
      cloud video behind the old record is recycled. */
  predicate Replaces(op: Op, q: Path) {
    |op.path| > 0 && op.kind == Upload && op.isVideo && StrmKey(op.path) == q
  }

  // ---- decisions, STRM generation on or off ----

  ghost predicate WorkOp(s: Setup, fs: Tree, op: Op) {
    && Listed(s, fs, op.path)
    && match op.kind
       case Mkdir => fs[op.path].Dir?
       case Upload => fs[op.path].File? && !IsStrm(Base(op.path)) && (op.isVideo <==> BigVideo(s, op.path, fs[op.path]))
       case Adopt => fs[op.path].File? && IsStrm(Base(op.path)) && op.fid == ""
       case Normalize => fs[op.path].File? && IsStrm(Base(op.path))
       case _ => false
  }

  lemma DecisionShape(s: Setup, fs: Tree, idx: Index, p: Path, op: Op)
    requires |p| > 0 && op in OpsAt(s, fs, idx, p)
    ensures |op.path| > 0
    ensures !IsClear(op) ==> op.path == p && WorkOp(s, fs, op)
    ensures IsClear(op) ==> op.path == p || (op.path == StrmKey(p) && op.path in idx && idx[op.path].kind != KIND_STRM)
  {
    var rec := RecAt(idx, p);
    match EntryAt(s, fs, p)
    case None =>
    case Some(Dir(_)) =>
    case Some(Unreadable) =>
    case Some(File(size, text)) =>
      if IsStrm(Base(p)) {
      } else if s.toStrm && s.rules.IsVideoExt(Base(p)) {
        VideoShape(s, idx, p, rec, size, op);
      } else {
        assert op in DecidePlain(p, rec, size);
      }
  }

  lemma VideoShape(s: Setup, idx: Index, p: Path, rec: Record, size: int, op: Op)
    requires |p| > 0 && op in DecideVideo(s, idx, p, rec, size)
    ensures !IsClear(op) ==> op.path == p && op.kind == Upload && (op.isVideo <==> s.rules.IsVideo(Base(p), size))
    ensures IsClear(op) ==> op.path == p || (op.path == StrmKey(p) && op.path in idx && idx[op.path].kind != KIND_STRM)
  {
    hide StrmName, Lower, Ext;
    var key := StrmKey(p);
    var conflict := key in idx && idx[key].kind != KIND_STRM;
    if conflict && op == ClearOp(key, idx[key]) {
    } else if op in DecidePlain(p, rec, size) {
    } else {
      assert s.rules.IsVideo(Base(p), size);
    }
  }

  lemma BigVideoIsFile(s: Setup, p: Path, e: Entry)
    requires BigVideo(s, p, e)
    ensures e.File? && |p| > 0 && s.toStrm
  {}

  /** A large listed video always asks for an upload, which replaces the video its link stands for. */
  lemma BigVideoAsks(s: Setup, fs: Tree, idx: Index, p: Path) returns (op: Op)
    requires Listed(s, fs, p) && BigVideo(s, p, fs[p])
    ensures op in OpsAt(s, fs, idx, p) && op.path == p && Replaces(op, StrmKey(p))
    ensures RecAt(idx, StrmKey(p)).kind == KIND_STRM ==> op.replaceFid == RecAt(idx, StrmKey(p)).fid
  {
    hide Ext, Lower, Stem, StrmName;
    var ops := OpsAt(s, fs, idx, p);
    op := ops[|ops| - 1];
  }

  lemma PlannedAt(b: Start, op: Op)
    requires op in b.Plan()
    ensures |op.path| > 0
    ensures !IsClear(op) ==> b.Scope(op.path) && WorkOp(b.t.setup, b.fs, op)
  {
    var p := PlanDirSound(b.t.setup, b.fs, b.idx, b.root, op);
    DecisionShape(b.t.setup, b.fs, b.idx, p, op);
  }

  // ---- the invariant ----

  /** The round changes the local tree only by writing links and by removing replaced videos. */
  ghost predicate TreeKept(b: Start, fs: Tree) {
    && (forall q :: q in b.fs ==> KeptEntry(b, fs, q))
    && (forall q :: q in fs && q !in b.fs ==> |q| > 0 && IsStrm(Base(q)) && fs[q].File?)
  }

  ghost predicate KeptEntry(b: Start, fs: Tree, q: Path)
    requires q in b.fs
  {
    if q in fs then fs[q] == b.fs[q] || (|q| > 0 && IsStrm(Base(q)) && !b.fs[q].Dir? && fs[q].File?)
    else BigVideo(b.t.setup, q, b.fs[q])
  }

  ghost predicate Calm(b: Start, w: World) {
    && TreeKept(b, w.fs)
    && (forall q :: q in w.written && b.root < q ==> Settled(b.t.setup, w, q))
    && (forall q :: q in w.replaced ==> |q| > 0 && !IsStrm(Base(q)) && q !in w.fs)
  }

  lemma DirStays(b: Start, fs: Tree, q: Path)
    requires TreeKept(b, fs) && Listed(b.t.setup, b.fs, q) && b.fs[q].Dir?
    ensures Listed(b.t.setup, fs, q) && fs[q].Dir?
  {
    assert KeptEntry(b, fs, q);
  }

  /** Creating the folders above a planned path keeps everything settled. */
  lemma EnsureIsCalm(b: Start, c: Cloud, w: World, p: Path, up: Path)
    requires MintsFids(c) && Calm(b, w) && b.Scope(p)
    requires up == Parent(p) || (up == p && Listed(b.t.setup, b.fs, p) && b.fs[p].Dir?)
    ensures var w2 := EnsureDir(c, b.t, w, up).0;
      Calm(b, w2) && w2.fs == w.fs && w2.replaced == w.replaced
  {
    hide Ext, Lower, Stem;
    EnsureGrows(c, w, up, 0, b.t.cloudFid);
    var w2 := EnsureDir(c, b.t, w, up).0;
    forall q | q in w2.written && b.root < q ensures Settled(b.t.setup, w2, q) {
      if q !in w.written {
        if q != p { AncestorInScope(b, q, p); }
        DirStays(b, w.fs, q);
      } else {
        assert Settled(b.t.setup, w, q);
        assert RecAt(w2.idx, q) == RecAt(w.idx, q);
      }
    }
  }

  /** Writing a link and its record together settles its path and disturbs no other. */
  lemma LinkIsCalm(b: Start, w: World, w2: World, q: Path, fid: string, pc: string)
    requires NamesFit(b) && Calm(b, w) && |q| > 0 && IsStrm(Base(q)) && !b.t.setup.rules.excluded(Base(q))
    requires b.t.setup.links.Stable(pc) && fid != ""
    requires var text := b.t.setup.links.Content(pc); w2.fs == w.fs[q := File(|text|, text)]
    requires w2.idx == w.idx[q := Record(fid, pc, KIND_STRM, 0)]
    requires w2.written == w.written + {q} && w2.replaced == w.replaced
    ensures Calm(b, w2)
  {
    hide Ext, Lower, Stem;
    hide Lower, Ext, BigVideo;
    var text := b.t.setup.links.Content(pc);
    assert w2.fs == w.fs[q := File(|text|, text)];
    LinkKeepsTree(b, w.fs, w2.fs, q, File(|text|, text));
    forall r | r in w2.written && b.root < r ensures Settled(b.t.setup, w2, r) {
      if r != q { SettledElsewhere(b.t.setup, w, w2, r); }
    }
  }

  lemma LinkKeepsTree(b: Start, fs: Tree, fs2: Tree, q: Path, e: Entry)
    requires NamesFit(b) && TreeKept(b, fs) && |q| > 0 && IsStrm(Base(q))
    requires e.File? && fs2 == fs[q := e]
    ensures TreeKept(b, fs2)
  {
    forall r | r in b.fs ensures KeptEntry(b, fs2, r) { assert KeptEntry(b, fs, r); }
  }

  lemma SettledElsewhere(s: Setup, w: World, w2: World, r: Path)
    requires Settled(s, w, r) && RecAt(w2.idx, r) == RecAt(w.idx, r)
    requires r in w2.fs && w2.fs[r] == w.fs[r]
    ensures Settled(s, w2, r)
  {}

  /** Removing a big video: nothing recorded depends on it. */
  lemma RemovalIsCalm(b: Start, w: World, w2: World, p: Path)
    requires Calm(b, w) && p in b.fs && BigVideo(b.t.setup, p, b.fs[p])
    requires w2.fs == w.fs - {p} && w2.idx == w.idx && w2.written == w.written && w2.replaced == w.replaced + {p}
    ensures Calm(b, w2)
  {
    hide Ext, Lower, Stem, PlanDir, StrmName;
    assert KeptEntry(b, w.fs, p);
    forall r | r in b.fs ensures KeptEntry(b, w2.fs, r) { assert KeptEntry(b, w.fs, r); }
    forall r | r in w2.written && b.root < r ensures Settled(b.t.setup, w2, r) {
      assert Settled(b.t.setup, w, r);
      assert r != p;
    }
  }

  lemma SameStateCalm(b: Start, w: World, w2: World)
    requires Calm(b, w) && SameState(w, w2)
    ensures Calm(b, w2)
  {
    forall q | q in w2.written && b.root < q ensures Settled(b.t.setup, w2, q) {
      assert Settled(b.t.setup, w, q);
    }
  }

  lemma MkdirCalm(b: Start, c: Cloud, w: World, op: Op)
    requires StableCodes(b, c) && Calm(b, w)
    requires b.Scope(op.path) && WorkOp(b.t.setup, b.fs, op) && op.kind == Mkdir
    ensures Calm(b, ApplyOne(c, b.t, w, op))
  {
    hide Ext, Lower, Stem;
    EnsureIsCalm(b, c, w, op.path, op.path);
    SameStateCalm(b, EnsureDir(c, b.t, w, op.path).0, ApplyOne(c, b.t, w, op));
  }

  lemma PlainRecordCalm(b: Start, w: World, w2: World, p: Path, r: Record)
    requires Calm(b, w) && |p| > 0 && Listed(b.t.setup, w.fs, p) && w.fs[p].File? && !IsStrm(Base(p))
    requires !BigVideo(b.t.setup, p, w.fs[p])
    requires r.fid != "" && r.kind == KIND_FILE && r.size == w.fs[p].size
    requires w2.fs == w.fs && w2.idx == w.idx[p := r] && w2.written == w.written + {p} && w2.replaced == w.replaced
    ensures Calm(b, w2)
  {
    hide Ext, Lower, Stem;
    forall q | q in w2.written && b.root < q ensures Settled(b.t.setup, w2, q) {
      if q != p { SettledElsewhere(b.t.setup, w, w2, q); }
    }
  }

  lemma UploadTarget(b: Start, w: World, op: Op)
    requires Calm(b, w) && WorkOp(b.t.setup, b.fs, op) && op.kind == Upload
    ensures op.path in w.fs ==> w.fs[op.path] == b.fs[op.path] && Listed(b.t.setup, w.fs, op.path)
  {
    assert KeptEntry(b, w.fs, op.path);
  }

  lemma UploadCalm(b: Start, c: Cloud, w: World, op: Op)
    requires NamesFit(b) && StableCodes(b, c) && Calm(b, w)
    requires b.Scope(op.path) && WorkOp(b.t.setup, b.fs, op) && op.kind == Upload
    ensures Calm(b, ApplyOne(c, b.t, w, op))
  {
    hide Ext, Lower, Stem, StrmName, Calm, BigVideo, EnsureFrom, Send, Listed, IsStrm, NamesFit;
    var p, w2 := op.path, ApplyOne(c, b.t, w, op);
    UploadTarget(b, w, op);
    EnsureIsCalm(b, c, w, p, Parent(p));
    var (w1, parent) := EnsureDir(c, b.t, w, Parent(p));
    if p !in w.fs {
      SameStateCalm(b, w, w2);
    } else if parent.None? {
      SameStateCalm(b, w1, w2);
    } else {
      SendCalm(b, c, w1, op, parent.value);
      SameStateCalm(b, Send(c, b.t, w1, op, w.fs[p].size, parent.value).0, w2);
    }
  }

  lemma SendCalm(b: Start, c: Cloud, w: World, op: Op, parent: string)
    requires NamesFit(b) && StableUploads(b, c) && Calm(b, w)
    requires WorkOp(b.t.setup, b.fs, op) && op.kind == Upload && op.path in w.fs
    ensures op.path in b.fs && Calm(b, Send(c, b.t, w, op, b.fs[op.path].size, parent).0)
  {
    hide Ext, Lower, Stem, PlanDir, StrmName;
    UploadTarget(b, w, op);
    var w2 := Send(c, b.t, w, op, b.fs[op.path].size, parent).0;
    hide Calm, BigVideo, ReplaceWithStrm, IsStrm;
    if c.upload(w.calls).None? {
      SameStateCalm(b, w, w2);
    } else {
      SentCalm(b, c, w, op, parent, c.upload(w.calls).value.0, c.upload(w.calls).value.1);
    }
  }

  lemma SentCalm(b: Start, c: Cloud, w: World, op: Op, parent: string, fid: string, pc: string)
    requires NamesFit(b) && Calm(b, w) && fid != "" && b.t.setup.links.Stable(pc)
    requires c.upload(w.calls) == Some((fid, pc))
    requires WorkOp(b.t.setup, b.fs, op) && op.kind == Upload && op.path in w.fs
    ensures Calm(b, Send(c, b.t, w, op, b.fs[op.path].size, parent).0)
  {
    hide Ext, Lower, Stem, PlanDir, StrmName, Calm, BigVideo, ReplaceWithStrm, IsStrm, NamesFit, Links.Content;
    UploadTarget(b, w, op);
    var size := b.fs[op.path].size;
    var up := Call(w, SendFile(op.path, parent)).(stats := w.stats.(uploaded := w.stats.uploaded + 1));
    SameStateCalm(b, w, up);
    if op.isVideo {
      ReplaceCalm(b, c, up, op, fid, pc);
    } else {
      PlainRecordCalm(b, up, Send(c, b.t, w, op, size, parent).0, op.path, Record(fid, "", KIND_FILE, size));
    }
  }

  lemma ReplaceCalm(b: Start, c: Cloud, w: World, op: Op, fid: string, pc: string)
    requires NamesFit(b) && Calm(b, w) && fid != "" && b.t.setup.links.Stable(pc)
    requires WorkOp(b.t.setup, b.fs, op) && op.kind == Upload && op.isVideo
    ensures Calm(b, ReplaceWithStrm(c, b.t, w, op, fid, pc).0)
  {
    hide Ext, Lower, Stem;
    var w2 := ReplaceWithStrm(c, b.t, w, op, fid, pc).0;
    var recycle := op.replaceFid != "" && op.replaceFid != fid;
    hide Calm, BigVideo, IsStrm, StrmName;
    if (recycle && !c.accept(w.calls)) || IsDirectory(w.fs, StrmKey(op.path)) {
      SameStateCalm(b, w, w2);
    } else {
      SwapCalm(b, w, w2, op.path, fid, pc);
    }
  }

  lemma SwapTarget(b: Start, p: Path)
    requires NamesFit(b) && Listed(b.t.setup, b.fs, p) && BigVideo(b.t.setup, p, b.fs[p])
    ensures var key := StrmKey(p); key != p && |key| > 0 && IsStrm(Base(key)) && !b.t.setup.rules.excluded(Base(key))
  {
    hide Ext, Lower, Stem, StrmName;
    StrmNameIsStrm(Base(p));
  }

  /** The original goes, the link and its record come. */
  lemma SwapCalm(b: Start, w: World, w2: World, p: Path, fid: string, pc: string)
    requires NamesFit(b) && Calm(b, w) && fid != "" && b.t.setup.links.Stable(pc)
    requires Listed(b.t.setup, b.fs, p) && BigVideo(b.t.setup, p, b.fs[p])
    requires var text := b.t.setup.links.Content(pc); w2.fs == w.fs[StrmKey(p) := File(|text|, text)] - {p}
    requires w2.idx == w.idx[StrmKey(p) := Record(fid, pc, KIND_STRM, 0)]
    requires w2.written == w.written + {StrmKey(p)} && w2.replaced == w.replaced + {p}
    ensures Calm(b, w2)
  {
    hide Ext, Lower, Stem, Calm, BigVideo, IsStrm, StrmName, NamesFit, Links.Content;
    SwapTarget(b, p);
    var key, text := StrmKey(p), b.t.setup.links.Content(pc);
    var gone := w.(fs := w.fs - {p}, replaced := w.replaced + {p});
    RemovalIsCalm(b, w, gone, p);
    assert w2.fs == gone.fs[key := File(|text|, text)];
    LinkIsCalm(b, gone, w2, key, fid, pc);
  }

  lemma AdoptCalm(b: Start, c: Cloud, w: World, op: Op)
    requires NamesFit(b) && StableCodes(b, c) && Calm(b, w) && op in b.Plan()
    requires b.Scope(op.path) && WorkOp(b.t.setup, b.fs, op) && op.kind == Adopt
    ensures Calm(b, ApplyOne(c, b.t, w, op))
  {
    hide ApplyOne, Calm, EnsureDir, PlanDir, IsStrm, NamesFit, Links.Content;
    var p, w2 := op.path, ApplyOne(c, b.t, w, op);
    EnsureIsCalm(b, c, w, p, Parent(p));
    var w1 := EnsureDir(c, b.t, w, Parent(p)).0;
    AdoptOutcome(c, b.t, w, op);
    if SameState(w, w2) {
      SameStateCalm(b, w, w2);
    } else if SameState(w1, w2) {
      SameStateCalm(b, w1, w2);
    } else {
      LinkIsCalm(b, w1, w2, p, Pickcode.ToID(op.pickCode).value, op.pickCode);
    }
  }

  lemma NormalizeCalm(b: Start, c: Cloud, w: World, op: Op)
    requires NamesFit(b) && Calm(b, w)
    requires WorkOp(b.t.setup, b.fs, op) && op.kind == Normalize
    ensures Calm(b, ApplyOne(c, b.t, w, op))
  {
    hide Ext, Lower, Stem, StrmName, IsStrm, Links.Content, NamesFit;
    var s, p, w2 := b.t.setup, op.path, ApplyOne(c, b.t, w, op);
    var pc := s.links.PickCodeOf(TextAt(w.fs, p));
    if pc == "" || IsDirectory(w.fs, p) {
      SameStateCalm(b, w, w2);
    } else {
      var text := s.links.Content(pc);
      LinkKeepsTree(b, w.fs, w2.fs, p, File(|text|, text));
      forall q | q in w2.written && b.root < q ensures Settled(s, w2, q) {
        assert Settled(s, w, q);
        if q != p { SettledElsewhere(s, w, w2, q); }
      }
    }
  }

  lemma ClearKeeps(c: Cloud, t: Apply.Task, w: World, op: Op)
    requires IsClear(op) && |op.path| > 0
    ensures var w2 := ApplyOne(c, t, w, op); w2.fs == w.fs && w2.written == w.written && w2.replaced == w.replaced
  {}

  lemma WorkCalm(b: Start, c: Cloud, w: World, op: Op)
    requires NamesFit(b) && StableCodes(b, c) && Calm(b, w) && op in b.Plan() && !IsClear(op) && |op.path| > 0
    ensures Calm(b, ApplyOne(c, b.t, w, op))
  {
    PlannedAt(b, op);
    match op.kind
    case Mkdir => MkdirCalm(b, c, w, op);
    case Upload => UploadCalm(b, c, w, op);
    case Adopt => AdoptCalm(b, c, w, op);
    case Normalize => NormalizeCalm(b, c, w, op);
  }

  lemma {:induction false} ClearsKeep(c: Cloud, t: Apply.Task, w: World, ops: seq<Op>)
    requires BelowRoot(ops) && forall op :: op in ops ==> IsClear(op)
    ensures var w2 := Run(c, t, w, ops); w2.fs == w.fs && w2.written == w.written && w2.replaced == w.replaced
    decreases |ops|
  {
    if ops != [] {
      assert ops[0] in ops && forall op :: op in ops[1..] ==> op in ops;
      ClearKeeps(c, t, w, ops[0]);
      ClearsKeep(c, t, ApplyOne(c, t, w, ops[0]), ops[1..]);
    }
  }

  lemma {:induction false} WorksCalm(b: Start, c: Cloud, w: World, ops: seq<Op>)
    requires NamesFit(b) && StableCodes(b, c) && Calm(b, w) && BelowRoot(ops)
    requires forall op :: op in ops ==> op in b.Plan() && !IsClear(op)
    ensures Calm(b, Run(c, b.t, w, ops))
    decreases |ops|
  {
    if ops != [] {
      assert ops[0] in ops && forall op :: op in ops[1..] ==> op in ops;
      WorkCalm(b, c, w, ops[0]);
      WorksCalm(b, c, ApplyOne(c, b.t, w, ops[0]), ops[1..]);
    }
  }

  lemma PlanBelowRoot(b: Start)
    ensures BelowRoot(b.Plan())
  {
    forall op | op in b.Plan() ensures |op.path| > 0 { PlannedAt(b, op); }
  }

  lemma StartIsCalm(b: Start, w: World)
    requires w.fs == b.fs && w.written == {} && w.replaced == {}
    ensures Calm(b, w)
  {}

  lemma RoundIsCalm(b: Start, c: Cloud, w: World)
    requires NamesFit(b) && StableCodes(b, c)
    requires w.fs == b.fs && w.idx == b.idx && w.written == {} && w.replaced == {}
    ensures BelowRoot(b.Plan()) && Calm(b, ApplyOps(c, b.t, w, b.Plan()).0)
  {
    hide Ext, Lower, Stem, PlanDir, StrmName, WorkOps, OfPhase, SortByPhase, ArchiveFids, Calm, Run;
    PlanBelowRoot(b);
    var clears, works := OfPhase(b.Plan(), 0), WorkOps(b.Plan());
    SortSplits(b.Plan());
    RunConcat(c, b.t, w, clears, works);
    ClearsKeep(c, b.t, w, clears);
    var w1 := Run(c, b.t, w, clears);
    StartIsCalm(b, w1);
    WorksCalm(b, c, w1, works);
    SameStateCalm(b, Run(c, b.t, w1, works), ApplyOps(c, b.t, w, b.Plan()).0);
  }

  // ---- the second plan ----

  lemma SettledIsQuiet(s: Setup, w: World, p: Path, op: Op)
    requires |p| > 0 && Settled(s, w, p) && op in OpsAt(s, w.fs, w.idx, p)
    ensures op.path != p
  {
    hide Ext, Lower, Stem, StrmName;
    StrmNameIsStrm(Base(p));
  }

  lemma SettledKeyIsLink(b: Start, w: World, q: Path)
    requires NamesFit(b) && Calm(b, w) && |q| > 0 && IsStrm(Base(q)) && Settled(b.t.setup, w, q)
    ensures RecAt(w.idx, q).kind == KIND_STRM
  {
    if q in b.fs { assert KeptEntry(b, w.fs, q); }
  }

  /** No operation of the next plan, neither a clear nor an upload, names a path that the round has
      recorded below its start directory. A video that was replaced by its link is not sent again;
      at most its old record is cleared. The link is replaced only from a large local video of its
      stem that is still there. Any cloud call may fail. */
  lemma NothingRecordedIsNamedAgain(b: Start, c: Cloud, w: World)
    requires NamesFit(b) && StableCodes(b, c)
    requires w.fs == b.fs && w.idx == b.idx && w.written == {} && w.replaced == {}
    ensures BelowRoot(b.Plan())
    ensures var w2 := ApplyOps(c, b.t, w, b.Plan()).0;
      forall op :: op in PlanDir(b.t.setup, w2.fs, w2.idx, b.root) ==>
        && op.path !in w2.written && (op.path in w2.replaced ==> IsClear(op))
        && (forall q :: Replaces(op, q) ==> op.path in w2.fs && BigVideo(b.t.setup, op.path, w2.fs[op.path]))
  {
    RoundIsCalm(b, c, w);
    var s, w2 := b.t.setup, ApplyOps(c, b.t, w, b.Plan()).0;
    forall op | op in PlanDir(s, w2.fs, w2.idx, b.root)
      ensures op.path !in w2.written && (op.path in w2.replaced ==> IsClear(op))
      ensures forall q :: Replaces(op, q) ==> op.path in w2.fs && BigVideo(s, op.path, w2.fs[op.path])
    {
      var p := PlanDirSound(s, w2.fs, w2.idx, b.root, op);
      DecisionShape(s, w2.fs, w2.idx, p, op);
      SecondPlanAt(b, w2, p, op);
    }
  }

  lemma SecondPlanAt(b: Start, w2: World, p: Path, op: Op)
    requires NamesFit(b) && Calm(b, w2) && b.root < p && op in OpsAt(b.t.setup, w2.fs, w2.idx, p)
    ensures op.path !in w2.written && (op.path in w2.replaced ==> IsClear(op))
  {
    var s := b.t.setup;
    DecisionShape(s, w2.fs, w2.idx, p, op);
    StrmNameIsStrm(Base(p));
    if op.path == p {
      if p in w2.written { SettledIsQuiet(s, w2, p, op); }
    } else {
      assert b.root < op.path;
      if op.path in w2.written { SettledKeyIsLink(b, w2, op.path); }
    }
  }
}
