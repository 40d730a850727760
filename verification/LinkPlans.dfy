/** With every call granted and no two answers alike, the plan alone tells which removed video ends
    with its own link. */
module LinkPlans {
  import opened Bytes
  import opened Records
  import opened Model
  import opened Plan
  import opened Apply
  import opened Rounds
  import opened NoOscillation
  import opened Safety
  import opened VideoLinks
  import Converge
  import Pickcode

  /** A planned operation that rewrites the link `key`: the upload of a large video of that stem, or
      an adoption of the link itself whose pickcode decodes. */
  predicate Rewrites(op: Op, key: Path) {
    || Replaces(op, key)
    || (|op.path| > 0 && op.kind == Adopt && op.path == key && op.fid == "" && Pickcode.ToID(op.pickCode).Some?)
  }

  ghost predicate AllGranted(c: Cloud) {
    && (forall n, pid, name :: c.folder(n, pid, name).Some?)
    && (forall n :: c.accept(n) && c.upload(n).Some? && c.rename(n).Some?)
  }

  /** No two uploads are answered alike, nor is one like a video that the plan adopts. */
  ghost predicate AnswersAreNew(r: Round) {
    && AnswersDiffer(r.c)
    && (forall op, n {:trigger op in r.b.Plan(), r.c.upload(n)} :: op in r.b.Plan() && op.kind == Adopt ==>
          r.c.upload(n).Some? ==> Some(r.c.upload(n).value.0) != Pickcode.ToID(op.pickCode))
  }

  // ---- a planned operation that rewrites a link does so ----

  lemma UploadRewrites(c: Cloud, t: Apply.Task, w: World, op: Op, key: Path)
    requires AllGranted(c) && Replaces(op, key) && op.path in w.fs && w.fs[op.path].File? && !IsDirectory(w.fs, key)
    ensures Writes(c, t, w, op, key)
  {
    hide StrmName, Links.Content;
    EnsureSucceeds(c, w, Parent(op.path), 0, t.cloudFid);
    EnsureKeepsFiles(c, w, Parent(op.path), 0, t.cloudFid);
  }

  lemma AdoptRewrites(c: Cloud, t: Apply.Task, w: World, op: Op, key: Path)
    requires AllGranted(c) && op.kind == Adopt && Rewrites(op, key) && !IsDirectory(w.fs, key)
    ensures Writes(c, t, w, op, key)
  {
    hide StrmName, Links.Content, Pickcode.ToID, Ext, TrimSuffix;
    EnsureSucceeds(c, w, Parent(op.path), 0, t.cloudFid);
    EnsureKeepsFiles(c, w, Parent(op.path), 0, t.cloudFid);
  }

  /** Only such an operation can. */
  lemma WriterRewrites(r: Round, j: nat, key: Path)
    requires r.Fits() && r.WritesAt(j, key)
    ensures Rewrites(r.Ops()[j], key)
  {
    hide SortByPhase, StateAt, NamesFit, StableCodes, PlanDir, BigVideo, Ext, Lower, Stem, StrmName, IsStrm;
    RoundStep(r, j);
    PlannedAt(r.b, r.Ops()[j]);
  }

  // ---- each video is uploaded once ----

  lemma {:induction false} TwoCount(ops: seq<Op>, i: nat, j: nat)
    requires i < j < |ops| && !IsClear(ops[i]) && !IsClear(ops[j]) && ops[i].path == ops[j].path
    ensures Converge.CountAt(ops, ops[j].path) >= 2
    decreases i
  {
    if i > 0 {
      TwoCount(ops[1..], i - 1, j - 1);
    } else {
      assert ops[1..][j - 1] == ops[j];
      Converge.CountedIsThere(ops[1..], ops[j]);
    }
  }

  lemma {:induction false} ClearsDoNotCount(ops: seq<Op>, p: Path)
    requires forall op :: op in ops ==> IsClear(op)
    ensures Converge.CountAt(ops, p) == 0
  {
    if ops != [] {
      assert ops[0] in ops && forall op :: op in ops[1..] ==> op in ops;
      ClearsDoNotCount(ops[1..], p);
    }
  }

  lemma OneWorkerPerPath(b: Start, i: nat, j: nat)
    requires i < |SortByPhase(b.Plan())| && j < |SortByPhase(b.Plan())|
    requires var ops := SortByPhase(b.Plan()); !IsClear(ops[i]) && !IsClear(ops[j]) && ops[i].path == ops[j].path
    ensures i == j
  {
    hide SortByPhase, OfPhase, WorkOps, PlanDir, Converge.CountAt;
    var ops, p := SortByPhase(b.Plan()), SortByPhase(b.Plan())[i].path;
    SortSplits(b.Plan());
    Converge.CountConcat(OfPhase(b.Plan(), 0), WorkOps(b.Plan()), p);
    ClearsDoNotCount(OfPhase(b.Plan(), 0), p);
    Converge.WorkCount(b.Plan(), p);
    Converge.PlanDirCount(b.t.setup, b.fs, b.idx, b.root, p);
    if i < j { TwoCount(ops, i, j); } else if j < i { TwoCount(ops, j, i); }
  }

  // ---- what stands in the way of a later writer ----

  lemma GoneByThen(r: Round, p: Path, n: nat) returns (i: nat)
    requires r.Fits() && n <= |r.Ops()| && p in r.b.fs && p !in r.At(n).fs
    ensures i < n && r.TakesAway(i, p)
  {
    hide SortByPhase, StateAt, NamesFit, StableCodes, PlanDir;
    RoundEnds(r);
    i := n;
    while p !in r.At(i).fs
      invariant 0 <= i <= n
      invariant i < n ==> p !in r.At(i + 1).fs
      decreases i
    {
      i := i - 1;
    }
  }

  /** A video is there until its own upload. */
  lemma StillThere(r: Round, j: nat)
    requires r.Fits() && j < |r.Ops()| && r.Ops()[j].kind == Upload && r.Ops()[j].isVideo
    ensures |r.Ops()[j].path| > 0 && r.Ops()[j].path in r.At(j).fs && r.At(j).fs[r.Ops()[j].path].File?
    ensures !IsDirectory(r.At(j).fs, StrmKey(r.Ops()[j].path))
  {
    hide SortByPhase, StateAt, NamesFit, StableCodes, PlanDir, IsStrm, StrmName, Ext, Lower, Stem;
    RoundStep(r, j);
    var p := r.Ops()[j].path;
    PlannedAt(r.b, r.Ops()[j]);
    FileAt(r, j, p);
    StrmNameIsStrm(Base(p));
    if p !in r.At(j).fs {
      var k := GoneByThen(r, p, j);
      RemovalWritesLink(r, k, p);
      OneWorkerPerPath(r.b, k, j);
    }
  }

  lemma LinkIsNoFolder(r: Round, j: nat, p: Path, key: Path)
    requires r.Fits() && j <= |r.Ops()| && p in r.b.fs && |p| > 0 && !IsStrm(Base(p)) && |key| > 0 && IsStrm(Base(key))
    ensures !IsDirectory(r.At(j).fs, key)
  {
    hide SortByPhase, StateAt, NamesFit, StableCodes, IsStrm, BigVideo, PlanDir;
    FileAt(r, j, p);
  }

  lemma PlannedRewriteWrites(r: Round, i: nat, p: Path, j: nat)
    requires r.Fits() && AllGranted(r.c) && r.TakesAway(i, p) && |p| > 0 && j < |r.Ops()|
      && Rewrites(r.Ops()[j], StrmKey(p))
    ensures r.WritesAt(j, StrmKey(p))
  {
    hide SortByPhase, StateAt, NamesFit, StableCodes, PlanDir, IsStrm, StrmName, Ext, Lower, Stem, Pickcode.ToID,
      Writes, AllGranted, BigVideo, ApplyOne;
    var op := r.Ops()[j];
    if op.kind == Upload {
      StillThere(r, j);
      UploadRewrites(r.c, r.b.t, r.At(j), op, StrmKey(p));
    } else {
      VideoWasThere(r, i, p);
      LinkIsNoFolder(r, j, p, StrmKey(p));
      AdoptRewrites(r.c, r.b.t, r.At(j), op, StrmKey(p));
    }
  }

  lemma VideoWasThere(r: Round, i: nat, p: Path)
    requires r.Fits() && r.TakesAway(i, p) && |p| > 0
    ensures p in r.b.fs && !IsStrm(Base(p)) && IsStrm(Base(StrmKey(p)))
  {
    hide SortByPhase, StateAt, NamesFit, StableCodes, PlanDir, IsStrm, StrmName, Ext, Lower, Stem, BigVideo, ApplyOne;
    RemovalWritesLink(r, i, p);
    RoundStep(r, i);
    PlannedAt(r.b, r.Ops()[i]);
    StrmNameIsStrm(Base(p));
  }

  // ---- different answers leave different records ----

  lemma HeldRecord(c: Cloud, t: Apply.Task, w: World, key: Path, n: nat)
    requires HoldsUpload(c, t, w, key, n)
    ensures c.upload(n).Some?
    ensures RecAt(w.idx, key) == Record(c.upload(n).value.0, c.upload(n).value.1, KIND_STRM, 0)
  {}

  lemma OwnRecord(r: Round, i: nat, p: Path, n: nat)
    requires r.Fits() && |p| > 0 && OwnUpload(r, i, p, n)
    ensures r.c.upload(n).Some?
    ensures r.Left(i, StrmKey(p)) == Record(r.c.upload(n).value.0, r.c.upload(n).value.1, KIND_STRM, 0)
  {
    hide SortByPhase, StateAt, NamesFit, StableCodes, PlanDir, StrmName, HoldsUpload;
    HeldRecord(r.c, r.b.t, r.At(i + 1), StrmKey(p), n);
  }

  lemma WritingUploadOwns(r: Round, j: nat, key: Path) returns (n: nat)
    requires r.Fits() && r.WritesAt(j, key) && r.Ops()[j].kind == Upload
    ensures |r.Ops()[j].path| > 0 && StrmKey(r.Ops()[j].path) == key && OwnUpload(r, j, r.Ops()[j].path, n)
  {
    hide SortByPhase, StateAt, NamesFit, StableCodes, PlanDir, Ext, Lower, Stem, StrmName, BigVideo, IsStrm,
      HoldsUpload, ApplyOne;
    RoundStep(r, j);
    var op := r.Ops()[j];
    PlannedAt(r.b, op);
    NotItsOwnLink(r.b.t.setup, r.b.fs, op);
    WriterWrites(r.c, r.b.t, r.At(j), op, key);
    n := EnsureDir(r.c, r.b.t, r.At(j), Parent(op.path)).0.calls;
  }

  lemma AdoptedFid(c: Cloud, t: Apply.Task, w: World, op: Op)
    requires |op.path| > 0 && op.kind == Adopt && op.fid == "" && Do(c, t, w, op).1
    ensures Some(RecAt(ApplyOne(c, t, w, op).idx, op.path).fid) == Pickcode.ToID(op.pickCode)
  {
    hide Pickcode.ToID, MoveAndRename, Links.Content;
  }

  lemma LaterWriterDiffers(r: Round, i: nat, p: Path, j: nat)
    requires r.Fits() && AnswersAreNew(r) && r.TakesAway(i, p) && |p| > 0 && i < j && r.WritesAt(j, StrmKey(p))
    ensures r.Left(j, StrmKey(p)) != r.Left(i, StrmKey(p))
  {
    hide SortByPhase, StateAt, NamesFit, StableCodes, PlanDir, Ext, Lower, Stem, StrmName, BigVideo, IsStrm,
      OwnUpload, Pickcode.ToID, ApplyOne;
    RemovalWritesLink(r, i, p);
    var m :| OwnUpload(r, i, p, m);
    OwnRecord(r, i, p, m);
    RoundStep(r, j);
    var op := r.Ops()[j];
    if op.kind == Upload {
      var n := WritingUploadOwns(r, j, StrmKey(p));
      OwnRecord(r, j, op.path, n);
      OtherUpload(r, i, p, j, op.path, m, n);
    } else {
      PlannedAt(r.b, op);
      AdoptedFid(r.c, r.b.t, r.At(j), op);
    }
  }

  /** With every call granted and no two answers alike, a removed video ends with its own link if and
      only if no later operation of the sorted plan rewrites the link. */
  lemma LastWordOnThePlan(r: Round, i: nat, p: Path)
    requires r.Fits() && r.TakesAway(i, p) && AllGranted(r.c) && AnswersAreNew(r)
    ensures |p| > 0
    ensures HasOwnLink(r, i, p) <==> forall j :: i < j < |r.Ops()| ==> !Rewrites(r.Ops()[j], StrmKey(p))
  {
    hide SortByPhase, StateAt, NamesFit, StableCodes, PlanDir, StrmName, OwnUpload, HasOwnLink, Rewrites, AllGranted,
      AnswersAreNew, Writes, ApplyOps;
    RemovedVideoKeepsItsLink(r, i, p);
    var key := StrmKey(p);
    if j :| i < j < |r.Ops()| && Rewrites(r.Ops()[j], key) {
      PlannedRewriteWrites(r, i, p, j);
      var l := SomeoneWritesLast(r, j, key);
      LaterWriterDiffers(r, i, p, l);
    } else {
      forall j | i < j && r.LastWriter(j, key) ensures r.Left(j, key) == r.Left(i, key) {
        WriterRewrites(r, j, key);
      }
    }
  }
}
