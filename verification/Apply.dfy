/** Executing a plan (internal/mirror/apply.go, cloud.go): what each operation does to the
    index, the local tree and the counters. The functions are the specification; the methods
    of class `Applier` carry the operations out on mutable fields. */
module Apply {
  import opened Bytes
  import opened Records
  import opened Model
  import Pickcode

  datatype Stats = Stats(uploaded: int, downloaded: int, strmGenerated: int, deleted: int, failed: int)

  /** What a call asks of the cloud. A batch of FIDs is one call; their order does not matter. */
  datatype Request =
    | MakeFolder(parentFid: string, name: string)
    | SendFile(path: Path, parentFid: string)
    | Move(fids: set<string>, targetFid: string)
    | Delete(fids: set<string>)
    | Rename(fid: string, name: string)
    | Fetch(pickCode: string)

  /** Everything an operation can change. `calls` numbers the cloud calls made so far and `asked` lists
      what they asked, `written` collects the index paths written, `replaced` the originals swapped
      for a link. */
  datatype World = World(idx: Index, fs: Tree, calls: nat, stats: Stats, written: set<Path>, replaced: set<Path>,
      asked: seq<Request>)

  /** A file download: refused before the target is created, broken off while it is being
      written (the target is then removed), or done. */
  datatype Transfer = Refused | Broken | Fetched(size: int, text: string)

  /** The cloud's answer to its n-th call: what happens there is not under our control. */
  datatype Cloud = Cloud(
    folder: (nat, string, string) -> Option<string>,  // CreateFolder(parent FID, name): FID
    upload: nat -> Option<(string, string)>,          // UploadHelper: FID and pickcode
    accept: nat -> bool,                              // MoveFile, DeleteFile
    rename: nat -> Option<string>,                    // RenameFile: the name it ended up with
    fetch: nat -> Transfer)

  /** `cloudFid` is the task's folder in the cloud, `tempFid` the recycling folder. */
  datatype Task = Task(setup: Setup, cloudFid: string, tempFid: string)

  function Call(w: World, r: Request): World {
    w.(calls := w.calls + 1, asked := w.asked + [r])
  }

  /** `Retire` in cloud.go: what is recycled can be found again. */
  function Recycle(t: Task, fids: set<string>): Request {
    Move(fids, t.tempFid)
  }

  function PutRec(w: World, p: Path, r: Record): World {
    w.(idx := w.idx[p := r], written := w.written + {p})
  }

  // ---- ClearTree on component paths ----

  /** Some index key lies between `p` and `p/` in byte order: a sibling (or something below
      one) whose name extends `p`'s by a byte below '/'. The delete loop stops there. */
  predicate Blocks(p: Path, j: Path) {
    && |p| > 0 && |j| >= |p| && Parent(p) == j[..|p| - 1]
    && Base(p) < j[|p| - 1] && j[|p| - 1][|Base(p)|] < '/'
  }

  predicate Blocked(idx: Index, p: Path) {
    exists j :: j in idx && Blocks(p, j)
  }

  predicate Doomed(idx: Index, p: Path, q: Path) {
    q == p || (p < q && !Blocked(idx, p))
  }

  function Cleared(idx: Index, p: Path): Index {
    map q | q in idx && !Doomed(idx, p, q) :: idx[q]
  }

  function ClearTree(w: World, p: Path): World {
    w.(idx := Cleared(w.idx, p))
  }

  // ---- EnsureLocalDir ----

  /** The folder of component `i` is asked for, made as `fid`, and recorded. */
  function WithFolder(w: World, p: Path, i: nat, parentFid: string, fid: string): World
    requires i < |p|
  {
    PutRec(Call(w, MakeFolder(parentFid, p[i])), p[..i + 1], Record(fid, "", KIND_DIR, 0))
  }

  /** From component `i` on, with `parentFid` the folder of `p[..i]`. An indexed FID is used
      as it is; a missing one costs a call and is recorded as a directory. */
  function EnsureFrom(c: Cloud, w: World, p: Path, i: nat, parentFid: string): (World, Option<string>)
    requires i <= |p|
    decreases |p| - i
  {
    if i == |p| then (w, Some(parentFid))
    else
      var cur := p[..i + 1];
      var fid := RecAt(w.idx, cur).fid;
      if fid != "" then EnsureFrom(c, w, p, i + 1, fid)
      else
        match c.folder(w.calls, parentFid, p[i])
        case None => (Call(w, MakeFolder(parentFid, p[i])), None)
        case Some(f) => EnsureFrom(c, WithFolder(w, p, i, parentFid, f), p, i + 1, f)
  }

  function EnsureDir(c: Cloud, t: Task, w: World, p: Path): (World, Option<string>) {
    EnsureFrom(c, w, p, 0, t.cloudFid)
  }

  // ---- local files ----

  /** `WriteStrmFile`: fails on a directory. */
  function WriteLink(t: Task, w: World, p: Path, pickCode: string): Option<World> {
    if IsDirectory(w.fs, p) then None
    else
      var text := t.setup.links.Content(pickCode);
      Some(w.(fs := w.fs[p := File(|text|, text)]))
  }

  predicate IsDirectory(fs: Tree, p: Path) {
    p in fs && fs[p].Dir?
  }

  /** `os.MkdirAll`: fails when a component is not a directory. */
  predicate CanMkdirAll(fs: Tree, p: Path) {
    forall i :: 0 <= i <= |p| ==> p[..i] in fs ==> fs[p[..i]].Dir?
  }

  function MkdirAll(fs: Tree, p: Path): Tree {
    map q | q in fs.Keys + (set i | 0 <= i <= |p| :: p[..i]) :: if q in fs then fs[q] else Dir(true)
  }

  /** `os.Create` opens or truncates the target, and a broken copy removes it; neither works on a
      directory. */
  function Discarded(fs: Tree, p: Path): Tree {
    if IsDirectory(fs, p) then fs else fs - {p}
  }

  // ---- one operation; the flag says whether it succeeded ----

  function DoMkdir(c: Cloud, t: Task, w: World, op: Op): (World, bool) {
    var (w1, fid) := EnsureDir(c, t, w, op.path);
    (w1, fid.Some?)
  }

  function DoUpload(c: Cloud, t: Task, w: World, op: Op): (World, bool)
    requires |op.path| > 0
  {
    if op.path !in w.fs then (w, true)
    else if w.fs[op.path].Unreadable? then (w, false)
    else
      var (w1, parent) := EnsureDir(c, t, w, Parent(op.path));
      if parent.None? || w.fs[op.path].Dir? then (w1, false)
      else Send(c, t, w1, op, w.fs[op.path].size, parent.value)
  }

  /** The transfer itself and what is recorded about it. */
  function Send(c: Cloud, t: Task, w: World, op: Op, size: int, parentFid: string): (World, bool)
    requires |op.path| > 0
  {
    var w0 := Call(w, SendFile(op.path, parentFid));
    match c.upload(w.calls)
    case None => (w0, false)
    case Some((fid, pickCode)) =>
      var w1 := w0.(stats := w.stats.(uploaded := w.stats.uploaded + 1));
      if !op.isVideo then (PutRec(w1, op.path, Record(fid, "", KIND_FILE, size)), true)
      else ReplaceWithStrm(c, t, w1, op, fid, pickCode)
  }

  /** An old video is recycled first unless the upload reused its FID; then the link is
      written, the original goes away, and the record is stored under the `.strm` key. */
  function ReplaceWithStrm(c: Cloud, t: Task, w: World, op: Op, fid: string, pickCode: string): (World, bool)
    requires |op.path| > 0
  {
    var recycle := op.replaceFid != "" && op.replaceFid != fid;
    var w0 := if recycle then Call(w, Recycle(t, {op.replaceFid})) else w;
    if recycle && !c.accept(w.calls) then (w0, false)
    else
      var w1 := if recycle then w0.(stats := w.stats.(deleted := w.stats.deleted + 1)) else w;
      var key := StrmKey(op.path);
      match WriteLink(t, w1, key, pickCode)
      case None => (w1, false)
      case Some(w2) =>
        var w3 := w2.(stats := w2.stats.(strmGenerated := w2.stats.strmGenerated + 1),
                      fs := w2.fs - {op.path}, replaced := w2.replaced + {op.path});
        (PutRec(w3, key, Record(fid, pickCode, KIND_STRM, 0)), true)
  }

  /** Move the video into place, give it the link's name, and rename once more when the
      cloud added an extension of its own. Only the calls move on. */
  function MoveAndRename(c: Cloud, w: World, p: Path, fid: string, parentFid: string): (r: (World, bool))
    requires |p| > 0
    ensures r.0 == w.(calls := r.0.calls, asked := r.0.asked)
  {
    var w1 := Call(w, Move({fid}, parentFid));
    if !c.accept(w.calls) then (w1, false)
    else
      var origName := TrimSuffix(Base(p), ".strm");
      var w2 := Call(w1, Rename(fid, origName));
      match c.rename(w.calls + 1)
      case None => (w2, false)
      case Some(newName) =>
        var ext := Ext(newName);
        if ext != "" && newName != origName + ext then
          (Call(w2, Rename(fid, origName + ext)), c.rename(w.calls + 2).Some?)
        else (w2, true)
  }

  function DoAdopt(c: Cloud, t: Task, w: World, op: Op): (World, bool)
    requires |op.path| > 0
  {
    var id := if op.fid != "" then Some(op.fid) else Pickcode.ToID(op.pickCode);
    if id.None? then (w, false)
    else
      var (w1, parent) := EnsureDir(c, t, w, Parent(op.path));
      if parent.None? then (w1, false)
      else
        var (w2, moved) := MoveAndRename(c, w1, op.path, id.value, parent.value);
        if !moved then (w2, false)
        else
          match WriteLink(t, w2, op.path, op.pickCode)
          case None => (w2, false)
          case Some(w3) =>
            var w4 := PutRec(w3, op.path, Record(id.value, op.pickCode, KIND_STRM, 0));
            (w4.(stats := w4.stats.(strmGenerated := w4.stats.strmGenerated + 1)), true)
  }

  /** The text `ReadStrmFile` would see: nothing when the file cannot be read. */
  function TextAt(fs: Tree, p: Path): string {
    if p in fs && fs[p].File? then fs[p].text else ""
  }

  function DoNormalize(t: Task, w: World, op: Op): (World, bool) {
    var pc := t.setup.links.PickCodeOf(TextAt(w.fs, op.path));
    if pc == "" then (w, true)
    else
      match WriteLink(t, w, op.path, pc)
      case None => (w, false)
      case Some(w1) => (w1, true)
  }

  function DoDownload(c: Cloud, t: Task, w: World, op: Op): (World, bool)
    requires |op.path| > 0
  {
    if !CanMkdirAll(w.fs, Parent(op.path)) then (w, false)
    else
      var w1 := w.(fs := MkdirAll(w.fs, Parent(op.path)));
      if op.isVideo then
        match WriteLink(t, w1, op.path, op.pickCode)
        case None => (w1, false)
        case Some(w2) =>
          var w3 := w2.(stats := w2.stats.(strmGenerated := w2.stats.strmGenerated + 1));
          (PutRec(w3, op.path, Record(op.fid, op.pickCode, KIND_STRM, 0)), true)
      else
        var w0 := Call(w1, Fetch(op.pickCode));
        match c.fetch(w1.calls)
        case Refused => (w0, false)
        case Broken => (w0.(fs := Discarded(w1.fs, op.path)), false)
        case Fetched(size, text) =>
          if IsDirectory(w1.fs, op.path) then (w0, false)
          else
            var w2 := w0.(fs := w1.fs[op.path := File(size, text)],
                                stats := w1.stats.(downloaded := w1.stats.downloaded + 1));
            (PutRec(w2, op.path, Record(op.fid, "", KIND_FILE, size)), true)
  }

  /** `ListStrmFids` reports one FID per `.strm` key below `p` that has one. */
  function StrmBelow(idx: Index, p: Path): set<Path> {
    set q | q in idx && p < q && IsStrmKeyEnd(Base(q)) && idx[q].fid != ""
  }

  /** The case-insensitive suffix test of `ListStrmFids`. */
  predicate IsStrmKeyEnd(name: string) {
    |name| >= 5 && Lower(name[|name| - 5..]) == ".strm"
  }

  /** `CollectStrmFids`: whose videos to recycle and what to delete. */
  function Collected(idx: Index, p: Path): (set<Path>, set<Path>) {
    if p !in idx then ({}, {})
    else if idx[p].kind == KIND_STRM then ({p}, {})
    else if idx[p].kind == KIND_DIR then (StrmBelow(idx, p), {p})
    else ({}, {p})
  }

  function FidsAt(idx: Index, ps: set<Path>): set<string> {
    set p | p in ps :: RecAt(idx, p).fid
  }

  function Counted(w: World, n: nat): World {
    w.(stats := w.stats.(deleted := w.stats.deleted + n))
  }

  function DoRetire(c: Cloud, t: Task, w: World, op: Op): (World, bool) {
    var move := Collected(w.idx, op.path).0;
    var (n, fids) := if op.fid != "" then (1, {op.fid}) else (|move|, FidsAt(w.idx, move));
    if n == 0 then (w, true)
    else
      var w1 := Call(w, Recycle(t, fids));
      if !c.accept(w.calls) then (w1, false) else (ClearTree(Counted(w1, n), op.path), true)
  }

  /** With a FID the item goes at once, a directory with all that is in it; without one the videos
      below are recycled first. */
  function DoDrop(c: Cloud, t: Task, w: World, op: Op): (World, bool) {
    if op.fid != "" then
      var w1 := Call(w, Delete({op.fid}));
      if !c.accept(w.calls) then (w1, false) else (ClearTree(Counted(w1, 1), op.path), true)
    else
      var (move, del) := Collected(w.idx, op.path);
      if move == {} && del == {} then (w, true)
      else
        var w1 := if move != {} then Call(w, Recycle(t, FidsAt(w.idx, move))) else w;
        if move != {} && !c.accept(w.calls) then (w1, false)
        else
          var w2 := if del != {} then Call(w1, Delete(FidsAt(w.idx, del))) else w1;
          if del != {} && !c.accept(w1.calls) then (w2, false)
          else (ClearTree(Counted(w2, |move| + |del|), op.path), true)
  }

  function Do(c: Cloud, t: Task, w: World, op: Op): (World, bool)
    requires |op.path| > 0
  {
    match op.kind
    case Mkdir => DoMkdir(c, t, w, op)
    case Upload => DoUpload(c, t, w, op)
    case Adopt => DoAdopt(c, t, w, op)
    case Download => DoDownload(c, t, w, op)
    case Retire => DoRetire(c, t, w, op)
    case Drop => DoDrop(c, t, w, op)
    case Normalize => DoNormalize(t, w, op)
    case Archive => (w, true)
  }

  /** `applyOne`: a failure is counted and the batch goes on. */
  function ApplyOne(c: Cloud, t: Task, w: World, op: Op): World
    requires |op.path| > 0
  {
    var (w1, ok) := Do(c, t, w, op);
    if ok then w1 else w1.(stats := w1.stats.(failed := w1.stats.failed + 1))
  }

  // ---- the whole batch ----

  ghost predicate BelowRoot(ops: seq<Op>) {
    forall op :: op in ops ==> |op.path| > 0
  }

  function Run(c: Cloud, t: Task, w: World, ops: seq<Op>): World
    requires BelowRoot(ops)
    decreases |ops|
  {
    if ops == [] then w
    else
      assert ops[0] in ops && forall op :: op in ops[1..] ==> op in ops;
      Run(c, t, ApplyOne(c, t, w, ops[0]), ops[1..])
  }

  lemma {:induction false} RunConcat(c: Cloud, t: Task, w: World, a: seq<Op>, b: seq<Op>)
    requires BelowRoot(a) && BelowRoot(b)
    ensures BelowRoot(a + b) && Run(c, t, w, a + b) == Run(c, t, Run(c, t, w, a), b)
    decreases |a|
  {
    assert forall op :: op in a + b ==> op in a || op in b;
    if a == [] {
      assert a + b == b;
    } else {
      assert (a + b)[1..] == a[1..] + b;
      assert a[0] in a && forall op :: op in a[1..] ==> op in a;
      RunConcat(c, t, ApplyOne(c, t, w, a[0]), a[1..], b);
    }
  }

  function OfPhase(ops: seq<Op>, k: nat): (r: seq<Op>)
    ensures forall op :: op in r <==> op in ops && op.kind.Phase() == k
  {
    if ops == [] then []
    else (if ops[0].kind.Phase() == k then [ops[0]] else []) + OfPhase(ops[1..], k)
  }

  /** `slices.SortStableFunc` by phase: plan order within a phase. */
  function SortByPhase(ops: seq<Op>): (r: seq<Op>)
    ensures forall op :: op in r <==> op in ops
  {
    OfPhase(ops, 0) + OfPhase(ops, 1) + OfPhase(ops, 2) + OfPhase(ops, 3) + OfPhase(ops, 4)
  }

  /** Everything but the clears, in execution order. */
  function WorkOps(ops: seq<Op>): (r: seq<Op>)
    ensures forall op :: op in r <==> op in ops && !IsClear(op)
  {
    OfPhase(ops, 1) + OfPhase(ops, 2) + OfPhase(ops, 3) + OfPhase(ops, 4)
  }

  lemma SortSplits(ops: seq<Op>)
    ensures SortByPhase(ops) == OfPhase(ops, 0) + WorkOps(ops)
  {
    assert OfPhase(ops, 0) + OfPhase(ops, 1) + OfPhase(ops, 2) + OfPhase(ops, 3) + OfPhase(ops, 4)
        == OfPhase(ops, 0) + (OfPhase(ops, 1) + OfPhase(ops, 2) + OfPhase(ops, 3) + OfPhase(ops, 4));
  }

  /** Clears, then new folders, then what goes up, then what comes down, then the archive. */
  predicate Earlier(a: OpKind, b: OpKind) {
    || (a in {Retire, Drop} && b !in {Retire, Drop})
    || (a == Mkdir && b in {Upload, Adopt, Download, Normalize, Archive})
    || (a in {Upload, Adopt} && b in {Download, Normalize, Archive})
    || (a in {Download, Normalize} && b == Archive)
  }

  lemma PhasesInOrder(a: OpKind, b: OpKind)
    ensures a.Phase() < b.Phase() <==> Earlier(a, b)
  {}

  ghost predicate InPhaseOrder(ops: seq<Op>) {
    forall i, j :: 0 <= i < j < |ops| ==> ops[i].kind.Phase() <= ops[j].kind.Phase()
  }

  lemma {:induction false} OfPhaseConcat(a: seq<Op>, b: seq<Op>, k: nat)
    ensures OfPhase(a + b, k) == OfPhase(a, k) + OfPhase(b, k)
  {
    if a == [] {
      assert a + b == b;
    } else {
      assert (a + b)[1..] == a[1..] + b;
      OfPhaseConcat(a[1..], b, k);
    }
  }

  lemma {:induction false} OfPhaseTwice(ops: seq<Op>, j: nat, k: nat)
    ensures OfPhase(OfPhase(ops, j), k) == if j == k then OfPhase(ops, k) else []
  {
    if ops != [] {
      OfPhaseTwice(ops[1..], j, k);
      var head := if ops[0].kind.Phase() == j then [ops[0]] else [];
      OfPhaseConcat(head, OfPhase(ops[1..], j), k);
      assert head != [] ==> head[1..] == [];
    }
  }

  lemma {:induction false} PhaseFirst(ops: seq<Op>, k: nat) returns (rest: seq<Op>)
    requires InPhaseOrder(ops) && forall op :: op in ops ==> op.kind.Phase() >= k
    ensures ops == OfPhase(ops, k) + rest && InPhaseOrder(rest)
    ensures forall op :: op in rest ==> op.kind.Phase() >= k + 1
  {
    hide OfPhase, InPhaseOrder;
    rest := ops;
    if ops == [] || ops[0].kind.Phase() > k {
      AllAbove(ops, k);
      NoneOfPhase(ops, k);
    } else {
      PhaseStep(ops, k);
      rest := PhaseFirst(ops[1..], k);
      assert ops == [ops[0]] + (OfPhase(ops[1..], k) + rest);
    }
  }

  lemma PhaseStep(ops: seq<Op>, k: nat)
    requires InPhaseOrder(ops) && ops != [] && ops[0].kind.Phase() <= k
    requires forall op :: op in ops ==> op.kind.Phase() >= k
    ensures InPhaseOrder(ops[1..]) && (forall op :: op in ops[1..] ==> op.kind.Phase() >= k)
    ensures OfPhase(ops, k) == [ops[0]] + OfPhase(ops[1..], k)
  {
    assert ops[0] in ops && forall op :: op in ops[1..] ==> op in ops;
  }

  lemma AllAbove(ops: seq<Op>, k: nat)
    requires InPhaseOrder(ops) && (ops == [] || ops[0].kind.Phase() > k)
    ensures forall op :: op in ops ==> op.kind.Phase() >= k + 1
  {}

  lemma NoneOfPhase(ops: seq<Op>, k: nat)
    requires forall op :: op in ops ==> op.kind.Phase() != k
    ensures OfPhase(ops, k) == []
  {
    if OfPhase(ops, k) != [] { assert OfPhase(ops, k)[0] in OfPhase(ops, k); }
  }

  lemma PhaseSplit(ops: seq<Op>, k: nat) returns (rest: seq<Op>)
    requires InPhaseOrder(ops) && forall op :: op in ops ==> op.kind.Phase() >= k
    ensures ops == OfPhase(ops, k) + rest && InPhaseOrder(rest)
    ensures forall op :: op in rest ==> op.kind.Phase() >= k + 1
    ensures forall j: nat :: j > k ==> OfPhase(rest, j) == OfPhase(ops, j)
  {
    hide OfPhase, InPhaseOrder;
    rest := PhaseFirst(ops, k);
    forall j: nat | j > k ensures OfPhase(rest, j) == OfPhase(ops, j) {
      OfPhaseConcat(OfPhase(ops, k), rest, j);
      OfPhaseTwice(ops, k, j);
    }
  }

  ghost predicate StableOrderOf(r: seq<Op>, ops: seq<Op>) {
    InPhaseOrder(r) && forall k: nat :: OfPhase(r, k) == OfPhase(ops, k)
  }

  /** The sort is the stable sort by phase, and the only one: a list is in phase order and
      keeps the plan order within every phase exactly when it is the sorted list. */
  lemma SortIsStable(ops: seq<Op>, r: seq<Op>)
    ensures r == SortByPhase(ops) <==> StableOrderOf(r, ops)
  {
    hide OfPhase, InPhaseOrder;
    SortKeepsPhases(ops);
    SortIsOrdered(ops);
    assert StableOrderOf(SortByPhase(ops), ops);
    if StableOrderOf(r, ops) { StableOrderIsUnique(ops, r); }
  }

  lemma StableOrderIsUnique(ops: seq<Op>, r: seq<Op>)
    requires StableOrderOf(r, ops)
    ensures r == SortByPhase(ops)
  {
    hide OfPhase, InPhaseOrder;
    var r1 := PhaseSplit(r, 0);
    var r2 := PhaseSplit(r1, 1);
    var r3 := PhaseSplit(r2, 2);
    var r4 := PhaseSplit(r3, 3);
    var r5 := PhaseSplit(r4, 4);
    if r5 != [] { HasAPhase(r5); }
    assert r == SortByPhase(ops);
  }

  lemma HasAPhase(ops: seq<Op>)
    requires ops != []
    ensures exists op :: op in ops && op.kind.Phase() <= 4
  {
    assert ops[0] in ops;
  }

  lemma SortKeepsPhases(ops: seq<Op>)
    ensures forall k: nat :: OfPhase(SortByPhase(ops), k) == OfPhase(ops, k)
  {
    hide OfPhase;
    var a, b, c, d, e := OfPhase(ops, 0), OfPhase(ops, 1), OfPhase(ops, 2), OfPhase(ops, 3), OfPhase(ops, 4);
    forall k: nat ensures OfPhase(SortByPhase(ops), k) == OfPhase(ops, k) {
      OfPhaseConcat(a + b + c + d, e, k);
      OfPhaseConcat(a + b + c, d, k);
      OfPhaseConcat(a + b, c, k);
      OfPhaseConcat(a, b, k);
      OfPhaseTwice(ops, 0, k);
      OfPhaseTwice(ops, 1, k);
      OfPhaseTwice(ops, 2, k);
      OfPhaseTwice(ops, 3, k);
      OfPhaseTwice(ops, 4, k);
      if k > 4 { NoneOfPhase(ops, k); }
    }
  }

  lemma SortIsOrdered(ops: seq<Op>)
    ensures InPhaseOrder(SortByPhase(ops))
  {
    hide OfPhase;
    OrderedJoin(OfPhase(ops, 0), OfPhase(ops, 1), 0);
    OrderedJoin(OfPhase(ops, 0) + OfPhase(ops, 1), OfPhase(ops, 2), 1);
    OrderedJoin(OfPhase(ops, 0) + OfPhase(ops, 1) + OfPhase(ops, 2), OfPhase(ops, 3), 2);
    OrderedJoin(OfPhase(ops, 0) + OfPhase(ops, 1) + OfPhase(ops, 2) + OfPhase(ops, 3), OfPhase(ops, 4), 3);
  }

  lemma OrderedJoin(a: seq<Op>, b: seq<Op>, k: nat)
    requires InPhaseOrder(a) || (forall op :: op in a ==> op.kind.Phase() == k)
    requires forall op :: op in a ==> op.kind.Phase() <= k
    requires forall op :: op in b ==> op.kind.Phase() == k + 1
    ensures InPhaseOrder(a + b)
    ensures forall op :: op in a + b ==> op.kind.Phase() <= k + 1
  {
    var r := a + b;
    forall i, j | 0 <= i < j < |r| ensures r[i].kind.Phase() <= r[j].kind.Phase() {
      assert (i < |a| ==> r[i] in a) && (i >= |a| ==> r[i] in b);
      assert (j < |a| ==> r[j] in a) && (j >= |a| ==> r[j] in b);
    }
  }

  /** The FIDs `Apply` collects for the closing bulk move. */
  function ArchiveFids(ops: seq<Op>): seq<string> {
    if ops == [] then []
    else (if ops[0].kind == Archive && ops[0].fid != "" then [ops[0].fid] else []) + ArchiveFids(ops[1..])
  }

  function ArchiveAll(c: Cloud, t: Task, w: World, fids: seq<string>): (World, bool) {
    if fids == [] then (w, true)
    else
      var w1 := Call(w, Recycle(t, set f | f in fids));
      if !c.accept(w.calls) then (w1, false) else (Counted(w1, |fids|), true)
  }

  function ApplyOps(c: Cloud, t: Task, w: World, ops: seq<Op>): (World, bool)
    requires BelowRoot(ops)
  {
    var sorted := SortByPhase(ops);
    ArchiveAll(c, t, Run(c, t, w, sorted), ArchiveFids(sorted))
  }

  // ---- effects shared by the proofs about whole rounds ----

  predicate IsDirRec(r: Record) {
    r.fid != "" && r == Record(r.fid, "", KIND_DIR, 0)
  }

  /** The cloud never hands out an empty FID. */
  ghost predicate MintsFids(c: Cloud) {
    && (forall n, pid, name :: c.folder(n, pid, name) != Some(""))
    && (forall n :: c.upload(n).Some? ==> c.upload(n).value.0 != "")
  }

  /** `w2` differs from `w` only in new directory records on the way to `p`. */
  ghost predicate Grown(w: World, w2: World, p: Path) {
    && w2.fs == w.fs && w2.replaced == w.replaced && w2.stats == w.stats
    && (forall q :: RecAt(w2.idx, q) == RecAt(w.idx, q)
          || ([] < q && q <= p && RecAt(w.idx, q).fid == "" && IsDirRec(RecAt(w2.idx, q))))
    && (forall q :: q in w2.written && q !in w.written ==> [] < q && q <= p && IsDirRec(RecAt(w2.idx, q)))
    && w.written <= w2.written
  }

  lemma GrownTransitive(w: World, w1: World, w2: World, p: Path)
    requires Grown(w, w1, p) && Grown(w1, w2, p)
    ensures Grown(w, w2, p)
  {
    forall q ensures RecAt(w2.idx, q) == RecAt(w.idx, q)
      || ([] < q && q <= p && RecAt(w.idx, q).fid == "" && IsDirRec(RecAt(w2.idx, q)))
    {
      assert RecAt(w1.idx, q) == RecAt(w.idx, q) || RecAt(w.idx, q).fid == "";
    }
  }

  lemma GrownByNothing(w: World, p: Path)
    ensures Grown(w, w, p) && forall r :: Grown(w, Call(w, r), p)
  {}

  lemma GrownByFolder(w: World, p: Path, q: Path, fid: string, r: Request)
    requires [] < q && q <= p && RecAt(w.idx, q).fid == "" && fid != ""
    ensures Grown(w, PutRec(Call(w, r), q, Record(fid, "", KIND_DIR, 0)), p)
  {}

  lemma {:induction false} EnsureOnlyGrows(c: Cloud, w: World, p: Path, i: nat, parentFid: string)
    requires i <= |p| && MintsFids(c)
    ensures Grown(w, EnsureFrom(c, w, p, i, parentFid).0, p)
    decreases |p| - i
  {
    hide Grown;
    GrownByNothing(w, p);
    if i < |p| {
      var cur := p[..i + 1];
      var fid := RecAt(w.idx, cur).fid;
      if fid != "" {
        EnsureOnlyGrows(c, w, p, i + 1, fid);
      } else {
        var f := c.folder(w.calls, parentFid, p[i]);
        if f.Some? {
          var w1 := WithFolder(w, p, i, parentFid, f.value);
          GrownByFolder(w, p, cur, f.value, MakeFolder(parentFid, p[i]));
          EnsureOnlyGrows(c, w1, p, i + 1, f.value);
          GrownTransitive(w, w1, EnsureFrom(c, w1, p, i + 1, f.value).0, p);
        }
      }
    }
  }

  /** `EnsureLocalDir` only adds directory records, and on success every ancestor has one. */
  lemma EnsureGrows(c: Cloud, w: World, p: Path, i: nat, parentFid: string)
    requires i <= |p| && MintsFids(c)
    ensures var (w2, fid) := EnsureFrom(c, w, p, i, parentFid);
      Grown(w, w2, p)
      && (fid.Some? ==> forall k :: i < k <= |p| ==> RecAt(w2.idx, p[..k]).fid != "")
  {
    hide Grown, EnsureFrom;
    EnsureOnlyGrows(c, w, p, i, parentFid);
    EnsureRecords(c, w, p, i, parentFid);
  }

  /** The descent arrives when every folder request is granted. */
  lemma {:induction false} EnsureSucceeds(c: Cloud, w: World, p: Path, i: nat, parentFid: string)
    requires i <= |p| && forall n, pid, name :: c.folder(n, pid, name).Some?
    ensures EnsureFrom(c, w, p, i, parentFid).1.Some?
    decreases |p| - i
  {
    if i < |p| {
      var cur := p[..i + 1];
      var fid := RecAt(w.idx, cur).fid;
      if fid != "" {
        EnsureSucceeds(c, w, p, i + 1, fid);
      } else {
        var f := c.folder(w.calls, parentFid, p[i]).value;
        EnsureSucceeds(c, WithFolder(w, p, i, parentFid, f), p, i + 1, f);
      }
    }
  }

  // ---- what one operation promises, said without the operation ----

  ghost predicate SameState(w: World, w2: World) {
    w2.fs == w.fs && w2.idx == w.idx && w2.written == w.written && w2.replaced == w.replaced
  }

  /** An adoption does nothing, or creates folders, or writes link and record after that. */
  lemma AdoptOutcome(c: Cloud, t: Task, w: World, op: Op)
    requires |op.path| > 0 && op.kind == Adopt
    ensures var w1, w2 := EnsureDir(c, t, w, Parent(op.path)).0, ApplyOne(c, t, w, op);
      var id := if op.fid != "" then Some(op.fid) else Pickcode.ToID(op.pickCode);
      var text := t.setup.links.Content(op.pickCode);
      || SameState(w, w2)
      || SameState(w1, w2)
      || (id.Some? && w2.fs == w1.fs[op.path := File(|text|, text)]
          && w2.idx == w1.idx[op.path := Record(id.value, op.pickCode, KIND_STRM, 0)]
          && w2.written == w1.written + {op.path} && w2.replaced == w1.replaced)
  {
    hide EnsureDir, MoveAndRename, Pickcode.ToID, Links.Content, Ext, Lower, Stem;
  }

  /** Records with a FID stay, except at the given places. */
  ghost predicate KnownKept(w: World, w2: World, except: set<Path>) {
    forall q :: RecAt(w.idx, q).fid != "" && q !in except ==> RecAt(w2.idx, q) == RecAt(w.idx, q)
  }

  predicate LinkFile(t: Task, fs: Tree, p: Path, pickCode: string) {
    p in fs && fs[p] == File(|t.setup.links.Content(pickCode)|, t.setup.links.Content(pickCode))
  }

  /** The file at `p` is the link for this pickcode, as a reader of the configuration expects it. */
  ghost predicate HoldsLink(t: Task, fs: Tree, p: Path, pickCode: string) {
    && p in fs && fs[p].File? && fs[p].size == |fs[p].text|
    && IsLinkText(t.setup.links.strmURL, pickCode, fs[p].text)
  }

  lemma LinkFileHoldsLink(t: Task, fs: Tree, p: Path, pickCode: string)
    ensures LinkFile(t, fs, p, pickCode) <==> HoldsLink(t, fs, p, pickCode)
  {
    hide IsLinkText, Links.Content;
    if p in fs && fs[p].File? { ContentIsLinkText(t.setup.links, pickCode, fs[p].text); }
  }

  /** A file that is gone is skipped. A failure leaves files and known records alone. Success
      records a plain file with its size, or swaps a video for its link. */
  ghost predicate UploadEffect(t: Task, w: World, w2: World, ok: bool, op: Op)
    requires |op.path| > 0
  {
    var key := StrmKey(op.path);
    && (op.path !in w.fs ==> ok && w2 == w)
    && (!ok ==> w2.fs == w.fs && w2.replaced == w.replaced && KnownKept(w, w2, {}))
    && (!ok ==> w2.stats.strmGenerated == w.stats.strmGenerated && w2.stats.downloaded == w.stats.downloaded)
    && (ok && op.path in w.fs ==> w.fs[op.path].File? && w2.stats.uploaded == w.stats.uploaded + 1)
    && (ok && op.path in w.fs && !op.isVideo ==>
          && w2.fs == w.fs && w2.stats == w.stats.(uploaded := w.stats.uploaded + 1)
          && op.path in w2.idx && w2.idx[op.path] == Record(w2.idx[op.path].fid, "", KIND_FILE, w.fs[op.path].size)
          && KnownKept(w, w2, {op.path}))
    && (ok && op.path in w.fs && op.isVideo ==>
          && key in w2.idx && w2.idx[key].kind == KIND_STRM && w2.idx[key].size == 0 && KnownKept(w, w2, {key})
          && (key != op.path ==> HoldsLink(t, w2.fs, key, w2.idx[key].pickCode))
          && op.path !in w2.fs && op.path in w2.replaced && w2.fs.Keys == w.fs.Keys + {key} - {op.path}
          && w2.stats.strmGenerated == w.stats.strmGenerated + 1)
  }

  /** The swap changes nothing until the link is written; the old video is counted as deleted
      exactly when it is another one. */
  ghost predicate SwapEffect(t: Task, w: World, w2: World, ok: bool, op: Op, fid: string, pickCode: string)
    requires |op.path| > 0
  {
    var key, recycles := StrmKey(op.path), op.replaceFid != "" && op.replaceFid != fid;
    && (!ok ==> w2.fs == w.fs && w2.idx == w.idx && w2.written == w.written && w2.replaced == w.replaced)
    && (!ok ==> w2.stats.strmGenerated == w.stats.strmGenerated)
    && (ok ==>
          && w2.idx == w.idx[key := Record(fid, pickCode, KIND_STRM, 0)]
          && (key != op.path ==> HoldsLink(t, w2.fs, key, pickCode))
          && op.path !in w2.fs && w2.replaced == w.replaced + {op.path}
          && w2.stats == w.stats.(strmGenerated := w.stats.strmGenerated + 1,
                                  deleted := w.stats.deleted + if recycles then 1 else 0))
  }

  /** An adoption leaves link and record in step, or nothing but new folders. */
  ghost predicate AdoptEffect(t: Task, w: World, w2: World, ok: bool, op: Op) {
    && (!ok ==> w2.fs == w.fs && w2.stats == w.stats && KnownKept(w, w2, {}))
    && (ok ==>
          && HoldsLink(t, w2.fs, op.path, op.pickCode) && w2.fs.Keys == w.fs.Keys + {op.path}
          && op.path in w2.idx && w2.idx[op.path] == Record(w2.idx[op.path].fid, op.pickCode, KIND_STRM, 0)
          && (op.fid != "" ==> w2.idx[op.path].fid == op.fid)
          && KnownKept(w, w2, {op.path})
          && w2.stats == w.stats.(strmGenerated := w.stats.strmGenerated + 1))
  }

  /** Normalising touches nothing but the one file. */
  ghost predicate NormalizeEffect(t: Task, w: World, w2: World, ok: bool, op: Op) {
    var pc := t.setup.links.PickCodeOf(TextAt(w.fs, op.path));
    && w2 == w.(fs := w2.fs)
    && (!ok || pc == "" ==> w2.fs == w.fs)
    && (ok && pc != "" ==> HoldsLink(t, w2.fs, op.path, pc) && w2.fs == w.fs[op.path := w2.fs[op.path]])
  }

  /** The download is a transfer that breaks off while it writes the file `p`. */
  predicate BreaksOff(c: Cloud, w: World, op: Op, p: Path)
    requires |op.path| > 0
  {
    && !op.isVideo && op.path == p && CanMkdirAll(w.fs, Parent(p))
    && c.fetch(w.calls).Broken? && !IsDirectory(w.fs, p)
  }

  /** A finished download and its record agree; a failed one leaves index and counters alone. No
      other file is lost either way, and the target exactly when its transfer breaks off. */
  ghost predicate DownloadEffect(c: Cloud, t: Task, w: World, w2: World, ok: bool, op: Op)
    requires |op.path| > 0
  {
    && (forall q :: q in w.fs && q != op.path ==> q in w2.fs && w2.fs[q] == w.fs[q])
    && (op.path in w.fs ==> (op.path !in w2.fs <==> BreaksOff(c, w, op, op.path)))
    && (!ok ==> w2.idx == w.idx && w2.stats == w.stats && w2.written == w.written)
    && (!ok && op.path in w.fs && op.path in w2.fs ==> w2.fs[op.path] == w.fs[op.path])
    && (ok ==>
          && op.path in w2.fs && w2.fs[op.path].File? && op.path in w2.idx
          && w2.idx == w.idx[op.path := w2.idx[op.path]] && w2.idx[op.path].fid == op.fid)
    && (ok && op.isVideo ==>
          && HoldsLink(t, w2.fs, op.path, op.pickCode) && w2.idx[op.path] == Record(op.fid, op.pickCode, KIND_STRM, 0)
          && w2.stats == w.stats.(strmGenerated := w.stats.strmGenerated + 1))
    && (ok && !op.isVideo ==>
          && w2.idx[op.path] == Record(op.fid, "", KIND_FILE, w2.fs[op.path].size)
          && w2.stats == w.stats.(downloaded := w.stats.downloaded + 1))
  }

  /** A clear never touches a local file; what fails or has nothing to do leaves the index and the
      counters alone, and what succeeds clears the tree and counts at least one removal. */
  ghost predicate ClearEffect(w: World, w2: World, ok: bool, op: Op) {
    && w2.fs == w.fs && w2.written == w.written && w2.replaced == w.replaced
    && (!ok ==> w2.idx == w.idx && w2.stats == w.stats && w2.calls > w.calls)
    && (ok && w2.calls == w.calls ==> w2 == w)
    && (ok && w2.calls > w.calls ==>
          && w2.idx == Cleared(w.idx, op.path)
          && w2.stats == w.stats.(deleted := w2.stats.deleted) && w2.stats.deleted > w.stats.deleted)
    && (op.fid != "" ==> w2.calls == w.calls + 1 && (ok ==> w2.stats.deleted == w.stats.deleted + 1))
  }

  /** What any operation promises. */
  ghost predicate OpEffect(c: Cloud, t: Task, w: World, w2: World, ok: bool, op: Op)
    requires |op.path| > 0
  {
    match op.kind
    case Mkdir => w2.fs == w.fs && w2.stats == w.stats && w2.replaced == w.replaced && KnownKept(w, w2, {})
    case Upload => UploadEffect(t, w, w2, ok, op)
    case Adopt => AdoptEffect(t, w, w2, ok, op)
    case Download => DownloadEffect(c, t, w, w2, ok, op)
    case Retire => ClearEffect(w, w2, ok, op)
    case Drop => ClearEffect(w, w2, ok, op)
    case Normalize => NormalizeEffect(t, w, w2, ok, op)
    case Archive => ok && w2 == w
  }

  /** A step of a batch: the operation's promise, and a failure counted. */
  ghost predicate StepEffect(c: Cloud, t: Task, w: World, w2: World, ok: bool, op: Op)
    requires |op.path| > 0
  {
    && OpEffect(c, t, w, w2.(stats := w2.stats.(failed := w.stats.failed)), ok, op)
    && w2.stats.failed == w.stats.failed + if ok then 0 else 1
  }

  lemma {:induction false} EnsureKeepsKnown(c: Cloud, w: World, p: Path, i: nat, parentFid: string)
    requires i <= |p|
    ensures var w2 := EnsureFrom(c, w, p, i, parentFid).0;
      KnownKept(w, w2, {}) && w2.fs == w.fs && w2.stats == w.stats && w2.replaced == w.replaced
    decreases |p| - i
  {
    if i < |p| {
      var cur := p[..i + 1];
      var fid := RecAt(w.idx, cur).fid;
      if fid != "" {
        EnsureKeepsKnown(c, w, p, i + 1, fid);
      } else {
        var f := c.folder(w.calls, parentFid, p[i]);
        if f.Some? {
          EnsureKeepsKnown(c, WithFolder(w, p, i, parentFid, f.value), p, i + 1, f.value);
        }
      }
    }
  }

  lemma SwapHasEffect(c: Cloud, t: Task, w: World, op: Op, fid: string, pickCode: string)
    requires |op.path| > 0
    ensures var (w2, ok) := ReplaceWithStrm(c, t, w, op, fid, pickCode); SwapEffect(t, w, w2, ok, op, fid, pickCode)
  {
    hide StrmName, Links.Content, HoldsLink;
    LinkFileHoldsLink(t, ReplaceWithStrm(c, t, w, op, fid, pickCode).0.fs, StrmKey(op.path), pickCode);
  }

  lemma SendHasEffect(c: Cloud, t: Task, w: World, op: Op, parentFid: string)
    requires |op.path| > 0 && op.path in w.fs && w.fs[op.path].File?
    ensures var (w2, ok) := Send(c, t, w, op, w.fs[op.path].size, parentFid); UploadEffect(t, w, w2, ok, op)
  {
    hide StrmName, Links.Content, Ext, Lower, Stem, ReplaceWithStrm, HoldsLink;
    if op.isVideo && c.upload(w.calls).Some? {
      var (fid, pickCode) := c.upload(w.calls).value;
      var w1 := Call(w, SendFile(op.path, parentFid)).(stats := w.stats.(uploaded := w.stats.uploaded + 1));
      SwapHasEffect(c, t, w1, op, fid, pickCode);
      SwapKeepsKeys(c, t, w1, op, fid, pickCode);
    }
  }

  lemma SwapKeepsKeys(c: Cloud, t: Task, w: World, op: Op, fid: string, pickCode: string)
    requires |op.path| > 0
    ensures var (w2, ok) := ReplaceWithStrm(c, t, w, op, fid, pickCode);
      && (ok ==> w2.fs.Keys == w.fs.Keys + {StrmKey(op.path)} - {op.path})
      && w2.stats.downloaded == w.stats.downloaded
  {
    hide StrmName, Links.Content;
  }

  lemma UploadHasEffect(c: Cloud, t: Task, w: World, op: Op)
    requires |op.path| > 0
    ensures var (w2, ok) := DoUpload(c, t, w, op); UploadEffect(t, w, w2, ok, op)
  {
    hide StrmName, Links.Content, Ext, Lower, Stem, Send, HoldsLink;
    EnsureKeepsKnown(c, w, Parent(op.path), 0, t.cloudFid);
    var (w1, parent) := EnsureDir(c, t, w, Parent(op.path));
    if op.path in w.fs && w.fs[op.path].File? && parent.Some? {
      SendHasEffect(c, t, w1, op, parent.value);
      var (w2, ok) := Send(c, t, w1, op, w.fs[op.path].size, parent.value);
    }
  }

  lemma AdoptHasEffect(c: Cloud, t: Task, w: World, op: Op)
    requires |op.path| > 0
    ensures var (w2, ok) := DoAdopt(c, t, w, op); AdoptEffect(t, w, w2, ok, op)
  {
    hide Links.Content, Pickcode.ToID, MoveAndRename, HoldsLink;
    EnsureKeepsKnown(c, w, Parent(op.path), 0, t.cloudFid);
    LinkFileHoldsLink(t, DoAdopt(c, t, w, op).0.fs, op.path, op.pickCode);
  }

  lemma NormalizeHasEffect(t: Task, w: World, op: Op)
    ensures var (w2, ok) := DoNormalize(t, w, op); NormalizeEffect(t, w, w2, ok, op)
  {
    hide Links.Content, HoldsLink;
    LinkFileHoldsLink(t, DoNormalize(t, w, op).0.fs, op.path, t.setup.links.PickCodeOf(TextAt(w.fs, op.path)));
  }

  lemma MkdirAllKeeps(fs: Tree, p: Path)
    ensures forall q :: q in fs ==> q in MkdirAll(fs, p) && MkdirAll(fs, p)[q] == fs[q]
    ensures forall q :: q in MkdirAll(fs, p) && q !in fs ==> MkdirAll(fs, p)[q].Dir?
  {}

  lemma DownloadHasEffect(c: Cloud, t: Task, w: World, op: Op)
    requires |op.path| > 0
    ensures var (w2, ok) := DoDownload(c, t, w, op); DownloadEffect(c, t, w, w2, ok, op)
  {
    hide Links.Content, CanMkdirAll, MkdirAll, HoldsLink;
    MkdirAllKeeps(w.fs, Parent(op.path));
    LinkFileHoldsLink(t, DoDownload(c, t, w, op).0.fs, op.path, op.pickCode);
  }

  lemma RetireHasEffect(c: Cloud, t: Task, w: World, op: Op)
    ensures var (w2, ok) := DoRetire(c, t, w, op); ClearEffect(w, w2, ok, op)
  {
    hide Cleared, StrmBelow;
  }

  lemma DropHasEffect(c: Cloud, t: Task, w: World, op: Op)
    ensures var (w2, ok) := DoDrop(c, t, w, op); ClearEffect(w, w2, ok, op)
  {
    hide Cleared, StrmBelow;
  }

  lemma DoHasEffect(c: Cloud, t: Task, w: World, op: Op)
    requires |op.path| > 0
    ensures OpEffect(c, t, w, Do(c, t, w, op).0, Do(c, t, w, op).1, op)
  {
    hide UploadEffect, AdoptEffect, DownloadEffect, ClearEffect, NormalizeEffect, StrmName, Ext, Lower, Stem;
    match op.kind
    case Mkdir => EnsureKeepsKnown(c, w, op.path, 0, t.cloudFid);
    case Upload => UploadHasEffect(c, t, w, op);
    case Adopt => AdoptHasEffect(c, t, w, op);
    case Download => DownloadHasEffect(c, t, w, op);
    case Retire => RetireHasEffect(c, t, w, op);
    case Drop => DropHasEffect(c, t, w, op);
    case Normalize => NormalizeHasEffect(t, w, op);
    case Archive =>
  }

  /** No operation counts a failure itself; the step around it does. */
  lemma DoCountsNoFailure(c: Cloud, t: Task, w: World, op: Op)
    requires |op.path| > 0
    ensures Do(c, t, w, op).0.stats.failed == w.stats.failed
  {
    hide StrmName, Ext, Lower, Stem, Pickcode.ToID, MoveAndRename, StrmBelow, Cleared, Links.Content, CanMkdirAll,
      MkdirAll, EnsureFrom;
    EnsureKeepsKnown(c, w, op.path, 0, t.cloudFid);
    EnsureKeepsKnown(c, w, Parent(op.path), 0, t.cloudFid);
    match op.kind
    case Mkdir =>
    case Upload =>
    case Adopt =>
    case Download =>
    case Retire =>
    case Drop =>
    case Normalize =>
    case Archive =>
  }

  lemma StepHasEffect(c: Cloud, t: Task, w: World, op: Op)
    requires |op.path| > 0
    ensures exists ok :: StepEffect(c, t, w, ApplyOne(c, t, w, op), ok, op)
  {
    hide OpEffect, Do;
    DoHasEffect(c, t, w, op);
    DoCountsNoFailure(c, t, w, op);
    var (w1, ok) := Do(c, t, w, op);
    var w2 := ApplyOne(c, t, w, op);
    assert w2.(stats := w2.stats.(failed := w.stats.failed)) == w1;
    assert StepEffect(c, t, w, w2, ok, op);
  }

  // ---- what one operation asks of the cloud ----

  /** Request `k` creates the folder of component `i`, which the index did not know, in the folder
      above it. */
  predicate AsksFolder(t: Task, w: World, w2: World, p: Path, k: nat, i: nat) {
    && i < |p| && k < |w2.asked| && RecAt(w.idx, p[..i + 1]).fid == ""
    && w2.asked[k] == MakeFolder(if i == 0 then t.cloudFid else RecAt(w2.idx, p[..i]).fid, p[i])
  }

  /** The new requests all create missing folders on the way to `p`, down to component `n`. */
  ghost predicate FoldersAsked(t: Task, w: World, w2: World, p: Path, n: nat) {
    && w.asked <= w2.asked && w2.calls == w.calls + (|w2.asked| - |w.asked|)
    && forall k: nat :: |w.asked| <= k < |w2.asked| ==> FolderAsked(t, w, w2, p, n, k)
  }

  ghost predicate FolderAsked(t: Task, w: World, w2: World, p: Path, n: nat, k: nat) {
    exists i: nat :: i < n && AsksFolder(t, w, w2, p, k, i)
  }

  /** The name a link stands for. */
  predicate LinkedName(p: Path, name: string)
    requires |p| > 0
  {
    Base(p) == name + ".strm" || (Base(p) == name && !(|name| >= 5 && name[|name| - 5..] == ".strm"))
  }

  /** The name the cloud gave the file has an extension, and is not the wanted name with that. */
  predicate NeedsRenaming(c: Cloud, calls: nat, name: string) {
    var answer := c.rename(calls + 1);
    answer.Some? && Ext(answer.value) != "" && answer.value != name + Ext(answer.value)
  }

  /** Move the video, rename it, and rename it again when that is needed; a refusal ends it. */
  function MoveRequests(c: Cloud, calls: nat, name: string, fid: string, parentFid: string): seq<Request> {
    [Move({fid}, parentFid)]
      + (if !c.accept(calls) then []
         else if !NeedsRenaming(c, calls, name) then [Rename(fid, name)]
         else [Rename(fid, name), Rename(fid, name + Ext(c.rename(calls + 1).value))])
  }

  /** The requests for moving the video of the link `p` take the log from `asked` to `asked2`. */
  ghost predicate MoveAsks(c: Cloud, w: World, asked2: seq<Request>, p: Path, fid: string, parentFid: string)
    requires |p| > 0
  {
    exists name :: LinkedName(p, name) && asked2 == w.asked + MoveRequests(c, w.calls, name, fid, parentFid)
  }

  ghost predicate MoveEffect(c: Cloud, w: World, w2: World, ok: bool, p: Path, fid: string, parentFid: string)
    requires |p| > 0
  {
    && w2 == w.(calls := w2.calls, asked := w2.asked) && w2.calls == w.calls + (|w2.asked| - |w.asked|)
    && MoveAsks(c, w, w2.asked, p, fid, parentFid)
    && (ok <==> c.accept(w.calls) && c.rename(w.calls + 1).Some?
                && (|w2.asked| == |w.asked| + 3 ==> c.rename(w.calls + 2).Some?))
  }

  /** An upload sends the file once, into the folder of its directory; a swap then recycles the old
      video when it is another one. */
  ghost predicate UploadAsks(c: Cloud, t: Task, w: World, w2: World, op: Op)
    requires |op.path| > 0
  {
    var (w1, parent) := EnsureDir(c, t, w, Parent(op.path));
    var up := c.upload(w1.calls);
    var recycles := up.Some? && op.isVideo && op.replaceFid != "" && op.replaceFid != up.value.0;
    if op.path !in w.fs || w.fs[op.path].Unreadable? then w2.asked == w.asked
    else if parent.None? || w.fs[op.path].Dir? then w2.asked == w1.asked
    else w2.asked == w1.asked + [SendFile(op.path, parent.value)]
                       + (if recycles then [Move({op.replaceFid}, t.tempFid)] else [])
  }

  ghost predicate AdoptAsks(c: Cloud, t: Task, w: World, w2: World, op: Op)
    requires |op.path| > 0
  {
    var (w1, parent) := EnsureDir(c, t, w, Parent(op.path));
    var id := if op.fid != "" then Some(op.fid) else Pickcode.ToID(op.pickCode);
    if id.None? then w2.asked == w.asked
    else if parent.None? then w2.asked == w1.asked
    else MoveAsks(c, w1, w2.asked, op.path, id.value, parent.value)
  }

  /** The record at `p` is a link's, or `q` is a link's key with a FID below the directory `p`. */
  predicate RecordsLink(idx: Index, p: Path, q: Path) {
    && p in idx && q in idx
    && (if q == p then idx[p].kind == KIND_STRM
        else idx[p].kind == KIND_DIR && p < q && EndsLikeALink(Base(q)) && idx[q].fid != "")
  }

  function LinksBelow(idx: Index, p: Path): set<Path> {
    set q | q in idx && RecordsLink(idx, p, q)
  }

  /** One request recycles the links below, when there is one. */
  function RecycleBelow(t: Task, idx: Index, p: Path): seq<Request> {
    if LinksBelow(idx, p) == {} then [] else [Move(FidsAt(idx, LinksBelow(idx, p)), t.tempFid)]
  }

  /** Only links are recycled here: the one named, or without a FID the one at the path or those below. */
  ghost predicate RetireAsks(t: Task, w: World, w2: World, op: Op) {
    && w2.asked == w.asked + (if op.fid != "" then [Move({op.fid}, t.tempFid)] else RecycleBelow(t, w.idx, op.path))
    && (op.fid == "" && w2.idx != w.idx ==>
          w2.stats.deleted == w.stats.deleted + |LinksBelow(w.idx, op.path)|)
  }

  /** What is deleted is the item named, or without a FID the record at the path unless it is a link,
      once the cloud has agreed to recycle the links below. */
  ghost predicate DropAsks(c: Cloud, t: Task, w: World, w2: World, op: Op) {
    var links := RecycleBelow(t, w.idx, op.path);
    var item := if op.path in w.idx && w.idx[op.path].kind != KIND_STRM then [Delete({w.idx[op.path].fid})] else [];
    && w2.asked == w.asked + (if op.fid != "" then [Delete({op.fid})]
                              else if links != [] && !c.accept(w.calls) then links
                              else links + item)
    && (op.fid == "" && w2.idx != w.idx ==>
          w2.stats.deleted == w.stats.deleted + |LinksBelow(w.idx, op.path)| + |item|)
  }

  /** The requests of one operation, in order. */
  ghost predicate OpAsks(c: Cloud, t: Task, w: World, w2: World, op: Op)
    requires |op.path| > 0
  {
    match op.kind
    case Mkdir => FoldersAsked(t, w, w2, op.path, |op.path|)
    case Upload => UploadAsks(c, t, w, w2, op)
    case Adopt => AdoptAsks(c, t, w, w2, op)
    case Download =>
      w2.asked == w.asked + (if !op.isVideo && CanMkdirAll(w.fs, Parent(op.path)) then [Fetch(op.pickCode)] else [])
    case Retire => RetireAsks(t, w, w2, op)
    case Drop => DropAsks(c, t, w, w2, op)
    case Normalize => w2.asked == w.asked
    case Archive => w2.asked == w.asked
  }

  lemma {:induction false} EnsureFromAsks(c: Cloud, t: Task, w0: World, w: World, p: Path, i: nat, parentFid: string)
    requires i <= |p| && parentFid == (if i == 0 then t.cloudFid else RecAt(w.idx, p[..i]).fid)
    requires FoldersAsked(t, w0, w, p, i)
    requires forall j :: i < j <= |p| ==> RecAt(w.idx, p[..j]) == RecAt(w0.idx, p[..j])
    ensures FoldersAsked(t, w0, EnsureFrom(c, w, p, i, parentFid).0, p, |p|)
    decreases |p| - i
  {
    hide FoldersAsked;
    if i == |p| {
    } else {
      var cur := p[..i + 1];
      var fid := RecAt(w.idx, cur).fid;
      if fid != "" {
        AskedOn(t, w0, w, w, p, i, "");
        EnsureFromAsks(c, t, w0, w, p, i + 1, fid);
      } else {
        var f := c.folder(w.calls, parentFid, p[i]);
        var w1 := Call(w, MakeFolder(parentFid, p[i]));
        if f.Some? {
          AskedOn(t, w0, w, PutRec(w1, cur, Record(f.value, "", KIND_DIR, 0)), p, i, f.value);
          EnsureFromAsks(c, t, w0, PutRec(w1, cur, Record(f.value, "", KIND_DIR, 0)), p, i + 1, f.value);
        } else {
          AskedOn(t, w0, w, w1, p, i, "");
          AskedDown(t, w0, w1, p, i + 1);
        }
      }
    }
  }

  lemma AskedDown(t: Task, w: World, w2: World, p: Path, n: nat)
    requires n <= |p| && FoldersAsked(t, w, w2, p, n)
    ensures FoldersAsked(t, w, w2, p, |p|)
  {
    forall k: nat | |w.asked| <= k < |w2.asked| ensures FolderAsked(t, w, w2, p, |p|, k) {
      assert FolderAsked(t, w, w2, p, n, k);
    }
  }

  lemma AskedOn(t: Task, w0: World, w: World, w1: World, p: Path, i: nat, fid: string)
    requires i < |p| && FoldersAsked(t, w0, w, p, i)
    requires forall j :: 0 <= j <= |p| && j != i + 1 ==> RecAt(w1.idx, p[..j]) == RecAt(w.idx, p[..j])
    requires (w1.asked == w.asked && w1.calls == w.calls)
      || (RecAt(w0.idx, p[..i + 1]).fid == "" && w1.calls == w.calls + 1
          && w1.asked == w.asked + [MakeFolder(if i == 0 then t.cloudFid else RecAt(w.idx, p[..i]).fid, p[i])])
    ensures FoldersAsked(t, w0, w1, p, i + 1)
  {
    var n := i + 1;
    forall k: nat | |w0.asked| <= k < |w1.asked| ensures FolderAsked(t, w0, w1, p, n, k) {
      if k < |w.asked| {
        assert FolderAsked(t, w0, w, p, i, k);
        var j: nat :| j < i && AsksFolder(t, w0, w, p, k, j);
        assert AsksFolder(t, w0, w1, p, k, j);
      } else {
        assert AsksFolder(t, w0, w1, p, k, i);
      }
    }
  }

  lemma EnsureAsks(c: Cloud, t: Task, w: World, p: Path)
    ensures FoldersAsked(t, w, EnsureDir(c, t, w, p).0, p, |p|)
  {
    EnsureFromAsks(c, t, w, w, p, 0, t.cloudFid);
  }

  lemma MoveHasEffect(c: Cloud, w: World, p: Path, fid: string, parentFid: string)
    requires |p| > 0
    ensures var (w2, ok) := MoveAndRename(c, w, p, fid, parentFid); MoveEffect(c, w, w2, ok, p, fid, parentFid)
  {
    hide Ext;
    var name := TrimSuffix(Base(p), ".strm");
    assert LinkedName(p, name);
    var w2 := MoveAndRename(c, w, p, fid, parentFid).0;
    assert w2.asked == w.asked + MoveRequests(c, w.calls, name, fid, parentFid);
  }

  lemma UploadHasAsked(c: Cloud, t: Task, w: World, op: Op)
    requires |op.path| > 0
    ensures UploadAsks(c, t, w, DoUpload(c, t, w, op).0, op)
  {
    hide EnsureFrom, StrmName, Links.Content;
    EnsureKeepsFiles(c, w, Parent(op.path), 0, t.cloudFid);
  }

  lemma AdoptHasAsked(c: Cloud, t: Task, w: World, op: Op)
    requires |op.path| > 0
    ensures AdoptAsks(c, t, w, DoAdopt(c, t, w, op).0, op)
  {
    hide EnsureFrom, MoveAndRename, MoveAsks, Pickcode.ToID, Links.Content;
    var (w1, parent) := EnsureDir(c, t, w, Parent(op.path));
    var id := if op.fid != "" then Some(op.fid) else Pickcode.ToID(op.pickCode);
    if id.Some? && parent.Some? {
      MoveHasEffect(c, w1, op.path, id.value, parent.value);
    }
  }

  lemma LinksAreCollected(idx: Index, p: Path)
    ensures Collected(idx, p).0 == LinksBelow(idx, p)
  {
    hide IsStrmKeyEnd, EndsLikeALink;
    forall q | q in idx && |q| > 0 ensures IsStrmKeyEnd(Base(q)) <==> EndsLikeALink(Base(q)) {
      KeyEndExactly(Base(q));
    }
  }

  lemma KeyEndExactly(name: string)
    ensures IsStrmKeyEnd(name) <==> EndsLikeALink(name)
  {
    hide Lower;
    if |name| >= 5 { LowersToStrm(name[|name| - 5..]); }
  }

  lemma RetireHasAsked(c: Cloud, t: Task, w: World, op: Op)
    ensures RetireAsks(t, w, DoRetire(c, t, w, op).0, op)
  {
    hide Cleared, Collected, FidsAt, LinksBelow;
    LinksAreCollected(w.idx, op.path);
  }

  lemma DropHasAsked(c: Cloud, t: Task, w: World, op: Op)
    ensures DropAsks(c, t, w, DoDrop(c, t, w, op).0, op)
  {
    hide Cleared, StrmBelow, LinksBelow;
    LinksAreCollected(w.idx, op.path);
    var del := Collected(w.idx, op.path).1;
    assert del != {} ==> FidsAt(w.idx, del) == {w.idx[op.path].fid};
  }

  lemma DoHasAsked(c: Cloud, t: Task, w: World, op: Op)
    requires |op.path| > 0
    ensures OpAsks(c, t, w, Do(c, t, w, op).0, op)
  {
    hide UploadAsks, AdoptAsks, RetireAsks, DropAsks, FoldersAsked, EnsureFrom, DoUpload, DoAdopt, DoRetire, DoDrop,
      CanMkdirAll, MkdirAll, Links.Content;
    match op.kind
    case Mkdir => EnsureAsks(c, t, w, op.path);
    case Upload => UploadHasAsked(c, t, w, op);
    case Adopt => AdoptHasAsked(c, t, w, op);
    case Retire => RetireHasAsked(c, t, w, op);
    case Drop => DropHasAsked(c, t, w, op);
    case _ =>
  }

  lemma StillAsked(t: Task, w: World, w1: World, w2: World, p: Path, n: nat)
    requires FoldersAsked(t, w, w1, p, n) && w2 == w1.(stats := w2.stats)
    ensures FoldersAsked(t, w, w2, p, n)
  {
    forall k: nat | |w.asked| <= k < |w2.asked| ensures FolderAsked(t, w, w2, p, n, k) {
      assert FolderAsked(t, w, w1, p, n, k);
      var i: nat :| i < n && AsksFolder(t, w, w1, p, k, i);
      assert AsksFolder(t, w, w2, p, k, i);
    }
  }

  lemma StepHasAsked(c: Cloud, t: Task, w: World, op: Op)
    requires |op.path| > 0
    ensures OpAsks(c, t, w, ApplyOne(c, t, w, op), op)
  {
    hide Do, EnsureFrom, MoveAsks, CanMkdirAll, LinksBelow, Pickcode.ToID, FoldersAsked;
    DoHasAsked(c, t, w, op);
    if op.kind == Mkdir { StillAsked(t, w, Do(c, t, w, op).0, ApplyOne(c, t, w, op), op.path, |op.path|); }
  }

  // ---- the program's form ----

  /** `Applier`: the only place that changes the index, the local tree and the counters. */
  class Applier {
    const c: Cloud
    const t: Task
    var idx: Index
    var fs: Tree
    var calls: nat
    var stats: Stats
    var written: set<Path>
    var replaced: set<Path>
    var asked: seq<Request>

    /** The state as one value. */
    function Now(): World
      reads this
    {
      World(idx, fs, calls, stats, written, replaced, asked)
    }

    constructor (c: Cloud, t: Task, w: World)
      ensures this.c == c && this.t == t && Now() == w
    {
      this.c, this.t := c, t;
      idx, fs, calls, stats, written, replaced := w.idx, w.fs, w.calls, w.stats, w.written, w.replaced;
      asked := w.asked;
    }

    /** Every call of the cloud is preceded by its request. */
    method Ask(r: Request)
      modifies this
      ensures Now() == Call(old(Now()), r)
    {
      calls := calls + 1;
      asked := asked + [r];
    }

    method Put(p: Path, r: Record)
      modifies this
      ensures Now() == PutRec(old(Now()), p, r)
    {
      idx := idx[p := r];
      written := written + {p};
    }

    method Clear(p: Path)
      modifies this
      ensures Now() == ClearTree(old(Now()), p)
    {
      idx := Cleared(idx, p);
    }

    /** `EnsureLocalDir`: walk down the components, creating what the index does not know. */
    method Ensure(p: Path) returns (fid: Option<string>)
      modifies this
      ensures (Now(), fid) == EnsureDir(c, t, old(Now()), p)
      ensures FoldersAsked(t, old(Now()), Now(), p, |p|)
    {
      hide FoldersAsked;
      EnsureAsks(c, t, Now(), p);
      var parentFid := t.cloudFid;
      ghost var start := Now();
      for i := 0 to |p|
        invariant EnsureFrom(c, Now(), p, i, parentFid) == EnsureDir(c, t, start, p)
      {
        var cur := p[..i + 1];
        var known := RecAt(idx, cur).fid;
        if known != "" {
          parentFid := known;
        } else {
          var made := c.folder(calls, parentFid, p[i]);
          Ask(MakeFolder(parentFid, p[i]));
          if made.None? { return None; }
          parentFid := made.value;
          Put(cur, Record(made.value, "", KIND_DIR, 0));
        }
      }
      return Some(parentFid);
    }

    method WriteStrmFile(p: Path, pickCode: string) returns (ok: bool)
      modifies this
      ensures match WriteLink(t, old(Now()), p, pickCode)
              case None => !ok && Now() == old(Now())
              case Some(w) => ok && Now() == w
    {
      ok := !(p in fs && fs[p].Dir?);
      if ok {
        var text := t.setup.links.Content(pickCode);
        fs := fs[p := File(|text|, text)];
      }
    }

    method UploadFile(op: Op) returns (ok: bool)
      requires |op.path| > 0
      modifies this
      ensures (Now(), ok) == DoUpload(c, t, old(Now()), op)
      ensures UploadEffect(t, old(Now()), Now(), ok, op) && UploadAsks(c, t, old(Now()), Now(), op)
    {
      hide UploadEffect, UploadAsks, ReplaceWithStrm, EnsureFrom, StrmName, Ext, Lower, Stem, Links.Content;
      UploadHasEffect(c, t, Now(), op);
      UploadHasAsked(c, t, Now(), op);
      if op.path !in fs { return true; }
      var e := fs[op.path];
      if e.Unreadable? { return false; }
      var parent := Ensure(Parent(op.path));
      EnsureKeepsFiles(c, old(Now()), Parent(op.path), 0, t.cloudFid);
      if parent.None? || e.Dir? { return false; }
      var up := c.upload(calls);
      Ask(SendFile(op.path, parent.value));
      if up.None? { return false; }
      stats := stats.(uploaded := stats.uploaded + 1);
      if !op.isVideo {
        Put(op.path, Record(up.value.0, "", KIND_FILE, e.size));
        return true;
      }
      ok := SwapForLink(op, up.value.0, up.value.1);
    }

    /** `replaceWithStrm`. */
    method SwapForLink(op: Op, fid: string, pickCode: string) returns (ok: bool)
      requires |op.path| > 0
      modifies this
      ensures (Now(), ok) == ReplaceWithStrm(c, t, old(Now()), op, fid, pickCode)
      ensures SwapEffect(t, old(Now()), Now(), ok, op, fid, pickCode)
    {
      hide StrmName, SwapEffect, Links.Content, WriteLink, PutRec;
      SwapHasEffect(c, t, Now(), op, fid, pickCode);
      if op.replaceFid != "" && op.replaceFid != fid {
        Ask(Recycle(t, {op.replaceFid}));
        if !c.accept(calls - 1) { return false; }
        stats := stats.(deleted := stats.deleted + 1);
      }
      var key := StrmKey(op.path);
      var wrote := WriteStrmFile(key, pickCode);
      if !wrote { return false; }
      stats := stats.(strmGenerated := stats.strmGenerated + 1);
      fs := fs - {op.path};
      replaced := replaced + {op.path};
      Put(key, Record(fid, pickCode, KIND_STRM, 0));
      return true;
    }

    method MoveIntoPlace(p: Path, fid: string, parentFid: string) returns (ok: bool)
      requires |p| > 0
      modifies this
      ensures (Now(), ok) == MoveAndRename(c, old(Now()), p, fid, parentFid)
      ensures MoveEffect(c, old(Now()), Now(), ok, p, fid, parentFid)
    {
      hide Ext, TrimSuffix, MoveEffect;
      MoveHasEffect(c, Now(), p, fid, parentFid);
      Ask(Move({fid}, parentFid));
      if !c.accept(calls - 1) { return false; }
      var origName := TrimSuffix(Base(p), ".strm");
      var newName := c.rename(calls);
      Ask(Rename(fid, origName));
      if newName.None? { return false; }
      var ext := Ext(newName.value);
      if ext != "" && newName.value != origName + ext {
        var again := c.rename(calls);
        Ask(Rename(fid, origName + ext));
        if again.None? { return false; }
      }
      return true;
    }

    method AdoptLink(op: Op) returns (ok: bool)
      requires |op.path| > 0
      modifies this
      ensures (Now(), ok) == DoAdopt(c, t, old(Now()), op)
      ensures AdoptEffect(t, old(Now()), Now(), ok, op) && AdoptAsks(c, t, old(Now()), Now(), op)
    {
      hide MoveAndRename, MoveEffect, Pickcode.ToID, AdoptEffect, AdoptAsks;
      AdoptHasAsked(c, t, Now(), op);
      AdoptHasEffect(c, t, Now(), op);
      var fid := op.fid;
      if fid == "" {
        var id := Pickcode.ToID(op.pickCode);
        if id.None? { return false; }
        fid := id.value;
      }
      var parent := Ensure(Parent(op.path));
      if parent.None? { return false; }
      var moved := MoveIntoPlace(op.path, fid, parent.value);
      if !moved { return false; }
      var wrote := WriteStrmFile(op.path, op.pickCode);
      if !wrote { return false; }
      Put(op.path, Record(fid, op.pickCode, KIND_STRM, 0));
      stats := stats.(strmGenerated := stats.strmGenerated + 1);
      return true;
    }

    method NormalizeLink(op: Op) returns (ok: bool)
      modifies this
      ensures (Now(), ok) == DoNormalize(t, old(Now()), op)
      ensures NormalizeEffect(t, old(Now()), Now(), ok, op)
    {
      hide NormalizeEffect;
      NormalizeHasEffect(t, Now(), op);
      var pc := t.setup.links.PickCodeOf(TextAt(fs, op.path));
      if pc == "" { return true; }
      ok := WriteStrmFile(op.path, pc);
    }

    method DownloadFile(op: Op) returns (ok: bool)
      requires |op.path| > 0
      modifies this
      ensures (Now(), ok) == DoDownload(c, t, old(Now()), op)
      ensures DownloadEffect(c, t, old(Now()), Now(), ok, op)
    {
      hide DownloadEffect;
      DownloadHasEffect(c, t, Now(), op);
      if !CanMkdirAll(fs, Parent(op.path)) { return false; }
      fs := MkdirAll(fs, Parent(op.path));
      if op.isVideo {
        var wrote := WriteStrmFile(op.path, op.pickCode);
        if !wrote { return false; }
        stats := stats.(strmGenerated := stats.strmGenerated + 1);
        Put(op.path, Record(op.fid, op.pickCode, KIND_STRM, 0));
        return true;
      }
      var body := c.fetch(calls);
      Ask(Fetch(op.pickCode));
      if body.Refused? || IsDirectory(fs, op.path) { return false; }
      if body.Broken? {
        fs := fs - {op.path};
        return false;
      }
      fs := fs[op.path := File(body.size, body.text)];
      stats := stats.(downloaded := stats.downloaded + 1);
      Put(op.path, Record(op.fid, "", KIND_FILE, body.size));
      return true;
    }

    method RetireVideos(op: Op) returns (ok: bool)
      modifies this
      ensures (Now(), ok) == DoRetire(c, t, old(Now()), op)
      ensures ClearEffect(old(Now()), Now(), ok, op) && RetireAsks(t, old(Now()), Now(), op)
    {
      hide ClearEffect, RetireAsks;
      RetireHasEffect(c, t, Now(), op);
      RetireHasAsked(c, t, Now(), op);
      var n, fids := 1, {op.fid};
      if op.fid == "" {
        var move := Collected(idx, op.path).0;
        n, fids := |move|, FidsAt(idx, move);
      }
      if n == 0 { return true; }
      Ask(Recycle(t, fids));
      if !c.accept(calls - 1) { return false; }
      stats := stats.(deleted := stats.deleted + n);
      Clear(op.path);
      return true;
    }

    method DropItem(op: Op) returns (ok: bool)
      modifies this
      ensures (Now(), ok) == DoDrop(c, t, old(Now()), op)
      ensures ClearEffect(old(Now()), Now(), ok, op) && DropAsks(c, t, old(Now()), Now(), op)
    {
      hide ClearEffect, DropAsks;
      DropHasEffect(c, t, Now(), op);
      DropHasAsked(c, t, Now(), op);
      if op.fid == "" {
        var (move, del) := Collected(idx, op.path);
        if move == {} && del == {} { return true; }
        if move != {} {
          Ask(Recycle(t, FidsAt(idx, move)));
          if !c.accept(calls - 1) { return false; }
        }
        if del != {} {
          Ask(Delete(FidsAt(idx, del)));
          if !c.accept(calls - 1) { return false; }
        }
        stats := stats.(deleted := stats.deleted + |move| + |del|);
        Clear(op.path);
        return true;
      }
      Ask(Delete({op.fid}));
      if !c.accept(calls - 1) { return false; }
      stats := stats.(deleted := stats.deleted + 1);
      Clear(op.path);
      return true;
    }

    method Execute(op: Op)
      requires |op.path| > 0
      modifies this
      ensures Now() == ApplyOne(c, t, old(Now()), op)
      ensures (exists ok :: StepEffect(c, t, old(Now()), Now(), ok, op)) && OpAsks(c, t, old(Now()), Now(), op)
    {
      hide StepEffect, OpAsks;
      StepHasEffect(c, t, Now(), op);
      StepHasAsked(c, t, Now(), op);
      var ok := true;
      match op.kind {
        case Mkdir => var fid := Ensure(op.path); ok := fid.Some?;
        case Upload => ok := UploadFile(op);
        case Adopt => ok := AdoptLink(op);
        case Download => ok := DownloadFile(op);
        case Retire => ok := RetireVideos(op);
        case Drop => ok := DropItem(op);
        case Normalize => ok := NormalizeLink(op);
        case Archive =>
      }
      if !ok { stats := stats.(failed := stats.failed + 1); }
    }

    /** `Apply`: phases in order, one operation after the other, archives in bulk at the end. */
    method ApplyPlan(ops: seq<Op>) returns (ok: bool)
      requires BelowRoot(ops)
      modifies this
      ensures (Now(), ok) == ApplyOps(c, t, old(Now()), ops)
    {
      hide ApplyOne, OfPhase, SortByPhase, Run, ArchiveFids, BelowRoot;
      var ordered := SortByPhase(ops);
      SortedBelowRoot(ops);
      var archiveFids: seq<string> := [];
      ghost var all := Run(c, t, Now(), ordered);
      assert ordered[0..] == ordered;
      for i := 0 to |ordered|
        invariant BelowRoot(ordered[i..]) && Run(c, t, Now(), ordered[i..]) == all
        invariant archiveFids + ArchiveFids(ordered[i..]) == ArchiveFids(ordered)
      {
        var op := ordered[i];
        RunStep(c, t, Now(), ordered, i);
        if op.kind == Archive {
          ArchiveWaits(c, t, Now(), op);
          if op.fid != "" { archiveFids := archiveFids + [op.fid]; }
        } else {
          Execute(op);
        }
      }
      RunOver(c, t, Now(), ordered);
      assert archiveFids == ArchiveFids(ordered);
      if archiveFids == [] { return true; }
      Ask(Recycle(t, set f | f in archiveFids));
      if !c.accept(calls - 1) { return false; }
      stats := stats.(deleted := stats.deleted + |archiveFids|);
      return true;
    }
  }

  lemma SortedBelowRoot(ops: seq<Op>)
    requires BelowRoot(ops)
    ensures BelowRoot(SortByPhase(ops))
  {}

  lemma RunStep(c: Cloud, t: Task, w: World, ops: seq<Op>, i: nat)
    requires i < |ops| && BelowRoot(ops[i..])
    ensures |ops[i].path| > 0 && BelowRoot(ops[i + 1..])
    ensures Run(c, t, w, ops[i..]) == Run(c, t, ApplyOne(c, t, w, ops[i]), ops[i + 1..])
    ensures ArchiveFids(ops[i..])
         == (if ops[i].kind == Archive && ops[i].fid != "" then [ops[i].fid] else []) + ArchiveFids(ops[i + 1..])
  {
    hide ApplyOne;
    assert ops[i..][0] == ops[i] && ops[i..][1..] == ops[i + 1..];
    assert ops[i] in ops[i..] && forall op :: op in ops[i..][1..] ==> op in ops[i..];
  }

  lemma RunOver(c: Cloud, t: Task, w: World, ops: seq<Op>)
    requires BelowRoot(ops[|ops|..])
    ensures Run(c, t, w, ops[|ops|..]) == w && ArchiveFids(ops[|ops|..]) == []
  {
    assert ops[|ops|..] == [];
  }

  lemma ArchiveWaits(c: Cloud, t: Task, w: World, op: Op)
    requires op.kind == Archive && |op.path| > 0
    ensures ApplyOne(c, t, w, op) == w
  {}

  lemma {:induction false} EnsureKeepsFiles(c: Cloud, w: World, p: Path, i: nat, parentFid: string)
    requires i <= |p|
    ensures EnsureFrom(c, w, p, i, parentFid).0.fs == w.fs
    decreases |p| - i
  {
    if i < |p| {
      var cur := p[..i + 1];
      var fid := RecAt(w.idx, cur).fid;
      if fid != "" {
        EnsureKeepsFiles(c, w, p, i + 1, fid);
      } else {
        var f := c.folder(w.calls, parentFid, p[i]);
        if f.Some? { EnsureKeepsFiles(c, WithFolder(w, p, i, parentFid, f.value), p, i + 1, f.value); }
      }
    }
  }

  // ---- the index as a cache of the cloud's folder tree ----

  /** `home(p)` is the FID of the cloud folder mapped to `p`; the cloud answers accordingly. */
  ghost predicate Honest(c: Cloud, t: Task, home: Path -> string) {
    && home([]) == t.cloudFid
    && (forall n, p, name :: HonestAnswer(c, home, n, p, name))
  }

  ghost predicate HonestAnswer(c: Cloud, home: Path -> string, n: nat, p: Path, name: string) {
    var made := c.folder(n, home(p), name);
    made.Some? ==> made.value == home(p + [name])
  }

  /** Every record on the way to `p` that has an FID names the folder at its own path. */
  ghost predicate Agrees(idx: Index, home: Path -> string, p: Path) {
    forall q :: [] < q && q <= p && RecAt(idx, q).fid != "" ==> RecAt(idx, q).fid == home(q)
  }

  lemma {:induction false} EnsureFollowsHome(c: Cloud, t: Task, home: Path -> string, w: World, p: Path, i: nat)
    requires Honest(c, t, home) && Agrees(w.idx, home, p) && i <= |p|
    ensures var (w2, fid) := EnsureFrom(c, w, p, i, home(p[..i]));
      Agrees(w2.idx, home, p) && (fid.Some? ==> fid.value == home(p))
    decreases |p| - i
  {
    hide Agrees, Honest;
    if i == |p| {
      assert p[..i] == p;
    } else {
      var cur := p[..i + 1];
      var fid := RecAt(w.idx, cur).fid;
      if fid != "" {
        KnownIsHome(w.idx, home, p, cur);
        EnsureFollowsHome(c, t, home, w, p, i + 1);
      } else {
        AnswerIsHome(c, t, home, w, p, i);
        var made := c.folder(w.calls, home(p[..i]), p[i]);
        if made.Some? {
          AgreesAfterPut(w.idx, home, p, cur);
          EnsureFollowsHome(c, t, home, WithFolder(w, p, i, home(p[..i]), made.value), p, i + 1);
        }
      }
    }
  }

  lemma KnownIsHome(idx: Index, home: Path -> string, p: Path, q: Path)
    requires Agrees(idx, home, p) && [] < q && q <= p && RecAt(idx, q).fid != ""
    ensures RecAt(idx, q).fid == home(q)
  {}

  lemma AnswerIsHome(c: Cloud, t: Task, home: Path -> string, w: World, p: Path, i: nat)
    requires Honest(c, t, home) && i < |p|
    ensures var made := c.folder(w.calls, home(p[..i]), p[i]); made.Some? ==> made.value == home(p[..i + 1])
  {
    assert HonestAnswer(c, home, w.calls, p[..i], p[i]);
    assert p[..i + 1] == p[..i] + [p[i]];
  }

  lemma AgreesAfterPut(idx: Index, home: Path -> string, p: Path, q: Path)
    requires Agrees(idx, home, p)
    ensures Agrees(idx[q := Record(home(q), "", KIND_DIR, 0)], home, p)
  {}

  /** Known records are left alone, and on success every ancestor has an FID. */
  lemma {:induction false} EnsureRecords(c: Cloud, w: World, p: Path, i: nat, parentFid: string)
    requires i <= |p| && forall n, pid, name :: c.folder(n, pid, name) != Some("")
    ensures var (w2, fid) := EnsureFrom(c, w, p, i, parentFid);
      && (forall q :: RecAt(w.idx, q).fid != "" ==> RecAt(w2.idx, q) == RecAt(w.idx, q))
      && (fid.Some? ==> forall k :: i < k <= |p| ==> RecAt(w2.idx, p[..k]).fid != "")
    decreases |p| - i
  {
    if i < |p| {
      var cur := p[..i + 1];
      var fid := RecAt(w.idx, cur).fid;
      if fid != "" {
        EnsureRecords(c, w, p, i + 1, fid);
      } else {
        var made := c.folder(w.calls, parentFid, p[i]);
        if made.Some? {
          EnsureRecords(c, WithFolder(w, p, i, parentFid, made.value), p, i + 1, made.value);
        }
      }
    }
  }

  lemma {:induction false} KnownNeedsNoCall(c: Cloud, w: World, p: Path, i: nat, parentFid: string)
    requires i <= |p| && forall k :: i < k <= |p| ==> RecAt(w.idx, p[..k]).fid != ""
    ensures EnsureFrom(c, w, p, i, parentFid)
         == (w, Some(if i == |p| then parentFid else RecAt(w.idx, p).fid))
    decreases |p| - i
  {
    assert p[..|p|] == p;
    if i < |p| { KnownNeedsNoCall(c, w, p, i + 1, RecAt(w.idx, p[..i + 1]).fid); }
  }

  /** Directory cache agreement: a successful call returns the FID of the mapped folder,
      keeps the agreement, leaves known records alone and records every ancestor; calling it
      again changes nothing, makes no cloud call and returns the same FID. */
  lemma EnsureAgreesWithCloud(c: Cloud, t: Task, home: Path -> string, w: World, p: Path)
    requires Honest(c, t, home) && Agrees(w.idx, home, p)
    requires forall n, pid, name :: c.folder(n, pid, name) != Some("")
    ensures var (w2, fid) := EnsureDir(c, t, w, p);
      && Agrees(w2.idx, home, p)
      && (forall q :: RecAt(w.idx, q).fid != "" ==> RecAt(w2.idx, q) == RecAt(w.idx, q))
      && (fid.Some? ==> fid.value == home(p) && EnsureDir(c, t, w2, p) == (w2, fid))
      && (fid.Some? ==> forall k :: 0 < k <= |p| ==> RecAt(w2.idx, p[..k]).fid == home(p[..k]))
  {
    assert p[..0] == [];
    EnsureFollowsHome(c, t, home, w, p, 0);
    EnsureRecords(c, w, p, 0, t.cloudFid);
    var (w2, fid) := EnsureDir(c, t, w, p);
    if fid.Some? {
      assert p[..|p|] == p;
      KnownNeedsNoCall(c, w2, p, 0, t.cloudFid);
      forall k | 0 < k <= |p| ensures RecAt(w2.idx, p[..k]).fid == home(p[..k]) {
        KnownIsHome(w2.idx, home, p, p[..k]);
      }
    }
  }
}
