/** Concrete starts on which a round does not leave everything in place, and the general facts
    that decide them. */
module Inputs {
  import opened Bytes
  import opened Records
  import opened Model
  import opened Plan
  import opened Apply
  import opened Rounds
  import opened NoOscillation
  import opened VideoLinks
  import opened CloudSync
  import opened Downloads
  import Safety
  import opened Replacements
  import opened Orphans
  import Sweeps
  import Converge
  import Pickcode

  /** Uploads and folders are always granted; removals may be refused. */
  ghost predicate SendsSucceed(c: Cloud) {
    && (forall n, pid, name :: c.folder(n, pid, name).Some?)
    && (forall n :: c.upload(n).Some?)
  }

  ghost predicate RefusesRemovals(c: Cloud) {
    forall n :: !c.accept(n)
  }

  ghost predicate GrantsRemovals(c: Cloud) {
    forall n :: c.accept(n)
  }

  // ---- what is sent is recorded or replaced ----

  lemma IndexOfOp(ops: seq<Op>, op: Op) returns (i: nat)
    requires op in ops
    ensures i < |ops| && ops[i] == op
  {
    i :| 0 <= i < |ops| && ops[i] == op;
  }

  lemma PlainUploadRecords(c: Cloud, t: Apply.Task, w: World, op: Op)
    requires SendsSucceed(c) && |op.path| > 0 && op.kind == Upload && !op.isVideo
    requires op.path in w.fs && w.fs[op.path].File?
    ensures op.path in ApplyOne(c, t, w, op).written
  {
    EnsureSucceeds(c, w, Parent(op.path), 0, t.cloudFid);
  }

  lemma {:induction false} WrittenStays(r: Round, i: nat, j: nat, q: Path)
    requires r.Fits() && i <= j <= |r.Ops()| && q in r.At(i).written
    ensures q in r.At(j).written
    decreases j
  {
    hide SortByPhase, Safety.StateAt, NamesFit, StableCodes, ApplyOne, PlanDir;
    if i < j {
      WrittenStays(r, i, j - 1, q);
      RoundStep(r, j - 1);
      var op, w := r.Ops()[j - 1], r.At(j - 1);
      if IsClear(op) {
        ClearKeeps(r.c, r.b.t, w, op);
      } else {
        Sweeps.StableMints(r.b, r.c);
        Sweeps.WrittenNear(r.c, r.b.t, w, op);
      }
    }
  }

  lemma PlannedUploadIsRecorded(r: Round, op: Op)
    requires r.Fits() && SendsSucceed(r.c) && op in r.b.Plan() && op.kind == Upload && !op.isVideo
    ensures op.path in r.End().written
  {
    hide SortByPhase, Safety.StateAt, NamesFit, StableCodes, ApplyOne, PlanDir, BigVideo, IsStrm, Run, SendsSucceed;
    PlannedAt(r.b, op);
    var i := IndexOfOp(r.Ops(), op);
    FileAt(r, i, op.path);
    PlainUploadRecords(r.c, r.b.t, r.At(i), op);
    RoundStep(r, i);
    WrittenStays(r, i + 1, |r.Ops()|, op.path);
    Safety.StateEnds(r.c, r.b.t, r.w, r.Ops());
  }

  lemma VideoLeaves(c: Cloud, t: Apply.Task, w: World, op: Op)
    requires SendsSucceed(c) && GrantsRemovals(c) && |op.path| > 0 && op.kind == Upload && op.isVideo
    requires op.path in w.fs && w.fs[op.path].File? && !IsDirectory(w.fs, StrmKey(op.path))
    ensures op.path !in ApplyOne(c, t, w, op).fs
  {
    hide StrmName;
    EnsureSucceeds(c, w, Parent(op.path), 0, t.cloudFid);
    EnsureKeepsFiles(c, w, Parent(op.path), 0, t.cloudFid);
  }

  lemma PlannedVideoIsTaken(r: Round, op: Op)
    requires r.Fits() && SendsSucceed(r.c) && GrantsRemovals(r.c) && op in r.b.Plan() && op.kind == Upload && op.isVideo
    ensures op.path in r.b.fs && op.path !in r.End().fs
  {
    hide SortByPhase, Safety.StateAt, NamesFit, StableCodes, ApplyOne, PlanDir, BigVideo, IsStrm, StrmName, Ext,
      Lower, Stem, ApplyOps;
    PlannedAt(r.b, op);
    StrmNameIsStrm(Base(op.path));
    var i := IndexOfOp(r.Ops(), op);
    FileAt(r, i, op.path);
    if op.path in r.At(i).fs { VideoLeaves(r.c, r.b.t, r.At(i), op); }
    RoundStep(r, i);
    StaysGoneFrom(r, i, op.path);
    RoundEnds(r);
  }

  lemma StaysGoneFrom(r: Round, i: nat, p: Path)
    requires r.Fits() && i < |r.Ops()| && |p| > 0 && !IsStrm(Base(p)) && (p !in r.At(i).fs || p !in r.At(i + 1).fs)
    ensures p !in r.At(|r.Ops()|).fs
  {
    hide SortByPhase, Safety.StateAt, NamesFit, StableCodes, IsStrm;
    if p !in r.At(i).fs { StaysGone(r, i, |r.Ops()|, p); } else { StaysGone(r, i + 1, |r.Ops()|, p); }
  }

  // ---- a refused clear ----

  lemma NoConsent(c: Cloud, from: nat, to: nat)
    requires RefusesRemovals(c)
    ensures from < to ==> !Safety.AllAccepted(c, from, to)
  {
    if from < to { assert !c.accept(from); }
  }

  lemma ConflictStep(r: Round, i: nat, a: Path)
    requires r.Fits() && RefusesRemovals(r.c) && i < |r.Ops()|
    requires Listed(r.b.t.setup, r.b.fs, a) && r.b.fs[a].Dir? && Sweeps.Conflict(r.At(i).idx, a)
    ensures Sweeps.Conflict(r.At(i + 1).idx, a)
  {
    hide SortByPhase, Safety.StateAt, StableCodes, ApplyOne, PlanDir, BigVideo, IsStrm, StrmName, Ext, Lower, Stem;
    RoundStep(r, i);
    var op, w, w2 := r.Ops()[i], r.At(i), r.At(i + 1);
    if IsClear(op) {
      NoConsent(r.c, w.calls, ApplyOne(r.c, r.b.t, w, op).calls);
      if a !in w2.idx { Safety.ForgettingNeedsConsent(r.c, r.b.t, w, op, a); }
      Sweeps.ClearOnlyRemoves(r.c, r.b.t, w, op);
    } else {
      PlannedAt(r.b, op);
      StrmNameIsStrm(Base(op.path));
      Sweeps.StableMints(r.b, r.c);
      Sweeps.RecordsNear(r.c, r.b.t, w, op, a);
    }
  }

  lemma {:induction false} ConflictStays(r: Round, i: nat, a: Path)
    requires r.Fits() && RefusesRemovals(r.c) && i <= |r.Ops()|
    requires Listed(r.b.t.setup, r.b.fs, a) && r.b.fs[a].Dir? && Sweeps.Conflict(r.b.idx, a)
    ensures Sweeps.Conflict(r.At(i).idx, a)
    decreases i
  {
    hide SortByPhase, Safety.StateAt, NamesFit, StableCodes, Sweeps.Conflict, RefusesRemovals;
    if i == 0 {
      RoundEnds(r);
    } else {
      ConflictStays(r, i - 1, a);
      ConflictStep(r, i - 1, a);
    }
  }

  /** A directory indexed as something else, a new file below it, and a cloud that refuses
      removals: the round records the file, and the next plan clears above it. */
  lemma RefusedClearSweeps(r: Round, a: Path, op: Op)
    requires r.Fits() && SendsSucceed(r.c) && RefusesRemovals(r.c) && !ScanFails(r.b.t.setup, r.b.fs, r.b.root)
    requires Listed(r.b.t.setup, r.b.fs, a) && r.b.fs[a].Dir? && Sweeps.Conflict(r.b.idx, a)
    requires op in r.b.Plan() && op.kind == Upload && !op.isVideo && r.b.root < a && a < op.path
    ensures op.path in r.End().written && Sweeps.SweptBy(r.b, r.End(), op.path)
  {
    hide SortByPhase, Safety.StateAt, NamesFit, StableCodes, PlanDir, ApplyOps, RefusesRemovals, SendsSucceed,
      Sweeps.Conflict, Sweeps.SweptBy;
    PlannedUploadIsRecorded(r, op);
    ConflictStays(r, |r.Ops()|, a);
    RoundEnds(r);
    Sweeps.SweptExactlyByConflicts(r.b, r.c, r.w, op.path);
  }

  // ---- the concrete starts ----

  function Plain(toStrm: bool, videoExts: set<string>): Setup {
    Setup(Rules(videoExts, _ => false), toStrm, None, SimpleLinks())
  }

  const LINK_PREFIX: string := "/download?pickcode="

  function SimpleLinks(): Links {
    Links("", t => t, t => if LINK_PREFIX <= t then t[|LINK_PREFIX|..] else "")
  }

  lemma SimpleIsStable(pickCode: string)
    requires pickCode != ""
    ensures SimpleLinks().Stable(pickCode)
  {
    assert TrimSlashes("") == "";
    assert SimpleLinks().Content(pickCode) == LINK_PREFIX + pickCode;
  }

  /** The n-th upload gets its own FID. */
  function Fid(n: nat): (f: string)
    ensures |f| == n + 1
  {
    seq(n + 1, _ => 'f')
  }

  function Answering(accepts: bool): Cloud {
    Cloud((n, pid, name) => Some("d"), (n: nat) => Some((Fid(n), "p")), n => accepts, n => Some(""), n => Refused)
  }

  lemma ExtOf(stem: string, ext: string)
    requires ext != "" && ext[0] == '.' && '.' !in ext[1..]
    ensures Ext(stem + ext) == ext && Stem(stem + ext) == stem
  {
    var n := stem + ext;
    var i := LastIndexByte(n, '.');
    LastIndexMeaning(n, '.');
    assert n[|stem|] == '.';
    forall k | |stem| < k < |n| ensures n[k] != '.' { assert n[k] == ext[1..][k - |stem| - 1]; }
    forall k | i < k < |n| ensures n[k] != '.' { assert n[i + 1..][k - i - 1] == n[k]; }
    assert n[|stem|..] == ext;
  }

  const DIR: Path := ["d"]
  const INNER: Path := ["d", "f"]

  /** Local `d/f` in a directory `d` that the index has as a file. */
  function DirForFile(): Start {
    Start(Apply.Task(Plain(false, {}), "root", "recycled"),
      map[[] := Dir(true), DIR := Dir(true), INNER := File(1, "")],
      map[DIR := Record("x", "", KIND_FILE, 1)], [])
  }

  function Fresh(b: Start): World {
    World(b.idx, b.fs, 0, Stats(0, 0, 0, 0, 0), {}, {}, [])
  }

  lemma NotStrm(name: string)
    requires '.' !in name
    ensures !IsStrm(name)
  {
    LastIndexMeaning(name, '.');
    assert Ext(name) == "";
  }

  lemma FitsWhenSimple(b: Start, c: Cloud)
    requires forall p :: p in b.fs && |p| > 0 ==> !IsStrm(Base(p))
    requires b.t.setup == Plain(b.t.setup.toStrm, b.t.setup.rules.videoExts) && c == Answering(c.accept(0))
    ensures Round(b, c, Fresh(b)).Fits() && SendsSucceed(c)
  {
    hide Ext, Lower, Stem, StrmName, IsStrm, PlanDir, SortByPhase, Links.Stable;
    PlanBelowRoot(b);
    assert forall op :: op in SortByPhase(b.Plan()) ==> op in b.Plan();
    SimpleIsStable("p");
    forall op | op in b.Plan() ensures op.kind != Adopt {
      if !IsClear(op) { PlannedAt(b, op); }
    }
  }

  /** One refused removal, and the file that the round has just recorded is swept by the next
      plan: the clear it repeats at `d` takes the record of `d/f` with it. */
  lemma RefusedClearExample()
    ensures var r := Round(DirForFile(), Answering(false), Fresh(DirForFile()));
      r.Fits() && INNER in r.End().written && Sweeps.SweptBy(r.b, r.End(), INNER)
  {
    hide DirForFile, PlanDir, ApplyOps, SortByPhase, Safety.StateAt, Sweeps.SweptBy, Sweeps.Conflict, Answering,
      GrantsRemovals, SendsSucceed;
    var b := DirForFile();
    DirForFileFacts();
    FitsWhenSimple(b, Answering(false));
    InnerIsSent();
    RefusedClearSweeps(Round(b, Answering(false), Fresh(b)), DIR, UploadOp(INNER, 1));
  }

  lemma DirForFileFacts()
    ensures var b := DirForFile();
      && (forall p :: p in b.fs && |p| > 0 ==> !IsStrm(Base(p)))
      && b.t.setup == Plain(false, {}) && b.t.setup.rules.videoExts == {} && !b.t.setup.toStrm
      && Listed(b.t.setup, b.fs, DIR) && b.fs[DIR].Dir? && Sweeps.Conflict(b.idx, DIR)
      && b.root < DIR && DIR < INNER
    ensures Answering(false) == Answering(Answering(false).accept(0)) && RefusesRemovals(Answering(false))
  {
    hide IsStrm;
    NotStrm("d");
    NotStrm("f");
  }

  lemma InnerIsSent()
    ensures var b := DirForFile(); UploadOp(INNER, 1) in b.Plan() && !ScanFails(b.t.setup, b.fs, b.root)
  {
    hide PlanDir, Ext, Lower, Stem;
    var b := DirForFile();
    var s := b.t.setup;
    NotStrm("f");
    assert Parent(INNER) == DIR && DIR[..1] == DIR;
    assert InScope(s, b.fs, [], INNER);
    assert OpsAt(s, b.fs, b.idx, INNER) == [UploadOp(INNER, 1)];
    PlanDirComplete(s, b.fs, b.idx, [], INNER);
    ListedIsDecided(s, b.fs, b.idx, INNER);
    assert UploadOp(INNER, 1) in OpsAt(s, b.fs, b.idx, INNER);
  }

  const FIRST: Path := ["a.mkv"]
  const SECOND: Path := ["a.mp4"]

  /** Two large videos of one stem, nothing indexed, links on. */
  function TwoVideos(): Start {
    Start(Apply.Task(Plain(true, {".mkv", ".mp4"}), "root", "recycled"),
      map[[] := Dir(true), FIRST := File(VIDEO_THRESHOLD, ""), SECOND := File(VIDEO_THRESHOLD, "")], map[], [])
  }

  lemma TwoVideoNames()
    ensures Ext("a.mkv") == ".mkv" && Ext("a.mp4") == ".mp4" && Stem("a.mkv") == "a" == Stem("a.mp4")
    ensures !IsStrm("a.mkv") && !IsStrm("a.mp4")
    ensures Lower(".mkv") == ".mkv" && Lower(".mp4") == ".mp4"
  {
    ExtOf("a", ".mkv");
    ExtOf("a", ".mp4");
    assert "a" + ".mkv" == "a.mkv" && "a" + ".mp4" == "a.mp4";
  }

  lemma VideoIsSent(p: Path)
    requires p == FIRST || p == SECOND
    ensures UploadOp(p, VIDEO_THRESHOLD).(isVideo := true, replaceFid := "") in TwoVideos().Plan()
  {
    hide PlanDir, Ext, Lower, Stem;
    var b := TwoVideos();
    var s := b.t.setup;
    TwoVideoNames();
    assert Parent(p) == [];
    assert InScope(s, b.fs, [], p);
    var op := UploadOp(p, VIDEO_THRESHOLD).(isVideo := true, replaceFid := "");
    assert OpsAt(s, b.fs, b.idx, p) == [op];
    PlanDirComplete(s, b.fs, b.idx, [], p);
    ListedIsDecided(s, b.fs, b.idx, p);
    assert op in OpsAt(s, b.fs, b.idx, p);
  }

  /** Every call succeeds, both originals are gone, and one of the two uploads has neither a
      link nor a record at the end. */
  lemma TwoVideosExample() returns (i: nat, j: nat)
    ensures var r := Round(TwoVideos(), Answering(true), Fresh(TwoVideos()));
      && r.Fits() && r.TakesAway(i, FIRST) && r.TakesAway(j, SECOND)
      && !(HasOwnLink(r, i, FIRST) && HasOwnLink(r, j, SECOND))
  {
    hide PlanDir, Ext, Lower, Stem, IsStrm, HasOwnLink, ApplyOps, SortByPhase, Safety.StateAt;
    var b, c := TwoVideos(), Answering(true);
    var r := Round(b, c, Fresh(b));
    TwoVideoNames();
    FitsWhenSimple(b, c);
    VideoIsSent(FIRST);
    VideoIsSent(SECOND);
    PlannedVideoIsTaken(r, UploadOp(FIRST, VIDEO_THRESHOLD).(isVideo := true, replaceFid := ""));
    PlannedVideoIsTaken(r, UploadOp(SECOND, VIDEO_THRESHOLD).(isVideo := true, replaceFid := ""));
    i := GoneWasTaken(r, FIRST);
    j := GoneWasTaken(r, SECOND);
    SharedLinkLosesAnUpload(r, i, FIRST, j, SECOND);
  }

  // ---- a link to adopt beside a large video of its stem ----

  const LINK: Path := ["a.strm"]

  lemma KeyOfVideos()
    ensures StrmKey(FIRST) == LINK && StrmKey(SECOND) == LINK && IsStrm("a.strm") && StrmName("a.mp4") == "a.strm"
  {
    hide Ext, Lower, Stem, IsStrm;
    TwoVideoNames();
    assert "a" + ".strm" == "a.strm";
    StrmNameIsStrm("a.mp4");
    assert Parent(FIRST) == [] == Parent(SECOND);
  }

  function Code(): string {
    Pickcode.Encode("a", 1, "0000")
  }

  lemma CodeDecodes()
    ensures Pickcode.ToID(Code()).Some? && Code() != ""
  {
    Pickcode.DecodeAfterEncode("a", 1, "0000");
  }

  /** Links on, nothing indexed: `a.strm` leads to a video in the cloud, `a.mkv` waits beside it. */
  function LinkBesideVideo(): Start {
    Start(Apply.Task(Plain(true, {".mkv"}), "root", "recycled"),
      map[[] := Dir(true), FIRST := File(VIDEO_THRESHOLD, ""), LINK := File(1, LINK_PREFIX + Code())], map[], [])
  }

  /** Everything is granted but uploads. */
  function NoUploads(): Cloud {
    Answering(true).(upload := n => None)
  }

  lemma LinkAnswers()
    ensures var b := LinkBesideVideo(); OpsAt(b.t.setup, b.fs, b.idx, LINK) == [AdoptOp(LINK, Code())]
    ensures var b := LinkBesideVideo(); !ScanFails(b.t.setup, b.fs, [])
    ensures AdoptOp(LINK, Code()) in LinkBesideVideo().Plan()
  {
    hide PlanDir, Ext, Lower, Stem, StrmName, IsStrm, Code;
    var b := LinkBesideVideo();
    CodeDecodes();
    KeyOfVideos();
    assert (LINK_PREFIX + Code())[|LINK_PREFIX|..] == Code();
    assert b.t.setup.links.PickCodeOf(LINK_PREFIX + Code()) == Code();
    assert Parent(LINK) == [] && InScope(b.t.setup, b.fs, [], LINK);
    ListedIsDecided(b.t.setup, b.fs, b.idx, LINK);
    PlanDirComplete(b.t.setup, b.fs, b.idx, [], LINK);
    assert AdoptOp(LINK, Code()) in OpsAt(b.t.setup, b.fs, b.idx, LINK);
  }

  lemma OnlyThatLink(op: Op)
    requires op in LinkBesideVideo().Plan() && op.kind == Adopt
    ensures op == AdoptOp(LINK, Code())
  {
    hide PlanDir, Ext, Lower, Stem, StrmName, IsStrm, Code, OpsAt;
    var b := LinkBesideVideo();
    TwoVideoNames();
    LinkAnswers();
    var p := PlanDirSound(b.t.setup, b.fs, b.idx, b.root, op);
    DecisionShape(b.t.setup, b.fs, b.idx, p, op);
    assert p == LINK;
  }

  lemma LinkNamesFit()
    ensures NamesFit(LinkBesideVideo()) && StableUploads(LinkBesideVideo(), NoUploads())
  {
    hide Ext, Lower, Stem, StrmName, IsStrm, Links.Stable, Code;
    TwoVideoNames();
  }

  lemma LinkRoundFits()
    ensures Round(LinkBesideVideo(), NoUploads(), Fresh(LinkBesideVideo())).Fits()
  {
    hide PlanDir, Ext, Lower, Stem, StrmName, IsStrm, SortByPhase, Links.Stable, Code, NamesFit, StableUploads;
    var b := LinkBesideVideo();
    PlanBelowRoot(b);
    LinkNamesFit();
    CodeDecodes();
    SimpleIsStable(Code());
    assert forall op :: op in SortByPhase(b.Plan()) ==> op in b.Plan();
    forall op | op in b.Plan() && op.kind == Adopt ensures b.t.setup.links.Stable(op.pickCode) { OnlyThatLink(op); }
  }

  lemma AdoptionIsRecorded(c: Cloud, t: Apply.Task, w: World, op: Op)
    requires |op.path| == 1 && op.kind == Adopt && op.fid == "" && Pickcode.ToID(op.pickCode).Some?
    requires GrantsRemovals(c) && (forall n :: c.rename(n) == Some("")) && !IsDirectory(w.fs, op.path)
    ensures op.path in ApplyOne(c, t, w, op).written
  {
    hide Pickcode.ToID, Links.Content;
    assert Ext("") == "";
  }

  lemma NoVideoGoes(r: Round, p: Path)
    requires r.Fits() && p in r.b.fs && forall n :: r.c.upload(n).None?
    ensures p in r.End().fs
  {
    hide SortByPhase, Safety.StateAt, NamesFit, StableCodes, PlanDir, ApplyOps, StrmName, OwnUpload;
    if p !in r.End().fs {
      var i := GoneWasTaken(r, p);
      RemovalWritesLink(r, i, p);
      var n :| OwnUpload(r, i, p, n);
      OwnUploadWasGranted(r, i, p, n);
    }
  }

  lemma OwnUploadWasGranted(r: Round, i: nat, p: Path, n: nat)
    requires r.Fits() && |p| > 0 && OwnUpload(r, i, p, n)
    ensures r.c.upload(n).Some?
  {
    hide SortByPhase, Safety.StateAt, NamesFit, StableCodes, PlanDir;
  }

  lemma LinkIsAdopted()
    ensures var r := Round(LinkBesideVideo(), NoUploads(), Fresh(LinkBesideVideo()));
      r.Fits() && LINK in r.End().written
  {
    hide SortByPhase, Safety.StateAt, NamesFit, StableCodes, ApplyOne, PlanDir, IsStrm, Run, Code, BigVideo,
      LinkBesideVideo;
    var r := Round(LinkBesideVideo(), NoUploads(), Fresh(LinkBesideVideo()));
    LinkRoundFits();
    LinkAnswers();
    CodeDecodes();
    var i := IndexOfOp(r.Ops(), AdoptOp(LINK, Code()));
    LinkStaysFile(r, i);
    AdoptionIsRecorded(r.c, r.b.t, r.At(i), r.Ops()[i]);
    RoundStep(r, i);
    WrittenStays(r, i + 1, |r.Ops()|, LINK);
    Safety.StateEnds(r.c, r.b.t, r.w, r.Ops());
  }

  lemma LinkStaysFile(r: Round, i: nat)
    requires r.b == LinkBesideVideo() && r.Fits() && i <= |r.Ops()|
    ensures !IsDirectory(r.At(i).fs, LINK)
  {
    hide SortByPhase, Safety.StateAt, NamesFit, StableCodes, IsStrm, BigVideo, PlanDir;
    TwoVideoNames();
    KeyOfVideos();
    FileAt(r, i, FIRST);
  }

  /** Removals are accepted, the link is adopted and recorded, and the next plan still contains the
      refused upload of `a.mkv`, now in place of the video that was just adopted. */
  lemma AdoptedLinkIsReplacedExample() returns (op: Op)
    ensures var r := Round(LinkBesideVideo(), NoUploads(), Fresh(LinkBesideVideo()));
      && r.Fits() && GrantsRemovals(r.c) && !ScanFails(r.b.t.setup, r.b.fs, r.b.root) && LINK in r.End().written
      && op in PlanDir(r.b.t.setup, r.End().fs, r.End().idx, r.b.root) && Replaces(op, LINK)
      && op.replaceFid == RecAt(r.End().idx, LINK).fid
  {
    hide SortByPhase, Safety.StateAt, NamesFit, StableCodes, ApplyOps, PlanDir, IsStrm, Run, Code, StrmName, Replaces,
      BigVideo, OpsAt;
    var r := Round(LinkBesideVideo(), NoUploads(), Fresh(LinkBesideVideo()));
    LinkIsAdopted();
    LinkAnswers();
    KeyOfVideos();
    VideoStillWaits(r);
    ReplacedExactlyByVideos(r.b, r.c, r.w, LINK, FIRST);
    op :| op in PlanDir(r.b.t.setup, r.End().fs, r.End().idx, r.b.root) && Replaces(op, LINK) && op.path == FIRST;
  }

  lemma VideoStillWaits(r: Round)
    requires r == Round(LinkBesideVideo(), NoUploads(), Fresh(LinkBesideVideo())) && r.Fits()
    ensures VideoWaits(r.b, r.End(), LINK, FIRST)
  {
    hide SortByPhase, Safety.StateAt, NamesFit, StableCodes, ApplyOps, PlanDir, IsStrm, Ext, Lower, Stem, StrmName,
      Code;
    TwoVideoNames();
    KeyOfVideos();
    NoVideoGoes(r, FIRST);
    NoVideoGoes(r, []);
    FileAt(r, |r.Ops()|, FIRST);
    RoundEnds(r);
    RoundIsCalm(r.b, r.c, r.w);
    Sweeps.CalmTree(r.b, r.End());
    Sweeps.DirsAreOld(r.b, r.End().fs, []);
    assert Parent(FIRST) == [];
  }

  // ---- an upload that the cloud answers with a FID it knows ----

  /** Links on: the large `a.mkv` was sent as "G" while links were off. */
  function SentBefore(): Start {
    Start(Apply.Task(Plain(true, {".mkv"}), "root", "recycled"),
      map[[] := Dir(true), FIRST := File(VIDEO_THRESHOLD, "")],
      map[FIRST := Record("G", "p", KIND_FILE, VIDEO_THRESHOLD)], [])
  }

  /** An instant upload: the cloud has the content, and answers with the file it has. */
  function Reusing(): Cloud {
    Answering(true).(upload := n => Some(("G", "p")))
  }

  function SendFirst(): Op {
    UploadOp(FIRST, VIDEO_THRESHOLD).(isVideo := true)
  }

  lemma SentBeforePlan()
    ensures SentBefore().Plan() == [SendFirst()]
    ensures var b := SentBefore(); NamesFit(b) && !ScanFails(b.t.setup, b.fs, [])
  {
    hide Ext, Lower, Stem, StrmName, IsStrm, PlanDir, OpsAt;
    var b := SentBefore();
    FirstAsks();
    TwoVideoNames();
    PlanOfOne(b.t.setup, b.fs, b.idx, "a.mkv");
  }

  lemma FirstAsks()
    ensures var b := SentBefore(); OpsAt(b.t.setup, b.fs, b.idx, FIRST) == [SendFirst()]
  {
    hide Ext, Lower, Stem, StrmName, IsStrm;
    TwoVideoNames();
    KeyOfVideos();
  }

  /** A tree of one file, which is all that the index knows. */
  lemma PlanOfOne(s: Setup, fs: Tree, idx: Index, n: string)
    requires IsDirAt(fs, []) && fs[[]].readable && Listing(s, fs, []) == {n} == ChildNames(idx, [])
    requires [n] in fs && !fs[[n]].Dir?
    ensures PlanDir(s, fs, idx, []) == OpsAt(s, fs, idx, [n])
  {
    hide SortedSeq, Listing, ChildNames, Covered, Decide;
    ScanNamesDistinct(s, fs, idx, []);
    var names := ScanNames(s, fs, idx, []);
    assert n in names && names[0] in names && names == [n];
    assert [] + [n] == [n];
    assert PlanNames(s, fs, idx, [], names, 1) == [];
    assert PlanAt(s, fs, idx, [n]) == OpsAt(s, fs, idx, [n]);
  }

  lemma FirstIsSent()
    ensures var b := SentBefore(); var w2 := ApplyOne(Reusing(), b.t, Fresh(b), SendFirst());
      && w2.idx == b.idx[LINK := Record("G", "p", KIND_STRM, 0)] && w2.written == {LINK}
      && FIRST !in w2.fs && [] in w2.fs && w2.fs[[]] == Dir(true) && (forall p :: p in w2.fs ==> p == [] || p == LINK)
      && LINK in w2.fs && w2.fs[LINK].File?
      && Do(Reusing(), b.t, Fresh(b), SendFirst()).1
  {
    hide Ext, Lower, Stem, StrmName;
    KeyOfVideos();
    assert Parent(FIRST) == [] == Parent(LINK);
  }

  lemma SentBeforeFits()
    ensures Round(SentBefore(), Reusing(), Fresh(SentBefore())).Fits()
    ensures VideosSent(Round(SentBefore(), Reusing(), Fresh(SentBefore())))
  {
    hide PlanDir, Ext, Lower, Stem, StrmName, IsStrm, SortByPhase, Links.Stable, NamesFit, Safety.StateAt, Do;
    var r := Round(SentBefore(), Reusing(), Fresh(SentBefore()));
    SentBeforePlan();
    SortedAlone(SendFirst());
    SimpleIsStable("p");
    FirstIsSent();
    assert r.Ops() == [SendFirst()];
    Safety.StateEnds(r.c, r.b.t, r.w, r.Ops());
  }

  /** Every call succeeds, the only copy is "G", and the next plan removes it: the record of the old
      upload still stands at `a.mkv`, which is gone. */
  lemma ReusedFidExample()
    ensures var r := Round(SentBefore(), Reusing(), Fresh(SentBefore()));
      && r.Fits() && GrantsRemovals(r.c) && !ScanFails(r.b.t.setup, r.b.fs, r.b.root) && VideosSent(r)
      && LINK in r.End().written && RecAt(r.End().idx, LINK).fid == "G" && FIRST !in r.End().fs
      && NewOp(Drop, FIRST).(fid := "G") in PlanDir(r.b.t.setup, r.End().fs, r.End().idx, r.b.root)
  {
    hide PlanDir, Ext, Lower, Stem, StrmName, IsStrm, SortByPhase, NamesFit, StableCodes, Safety.StateAt, ApplyOps,
      ApplyOne, OpsAt, LeftToVideo, Fresh;
    var r := Round(SentBefore(), Reusing(), Fresh(SentBefore()));
    SentBeforePlan();
    SentBeforeFits();
    RoundAlone(r.c, r.b.t, r.w, SendFirst());
    FirstIsSent();
    var s, w2 := r.b.t.setup, r.End();
    assert Parent(FIRST) == [] && InScope(s, w2.fs, [], FIRST);
    OldCopyIsDropped(w2);
    PlanDirComplete(s, w2.fs, w2.idx, [], FIRST);
  }

  lemma OldCopyIsDropped(w2: World)
    requires w2.idx == SentBefore().idx[LINK := Record("G", "p", KIND_STRM, 0)]
    requires forall p :: p in w2.fs ==> p == [] || p == LINK
    ensures var s := SentBefore().t.setup;
      NewOp(Drop, FIRST).(fid := "G") in OpsAt(s, w2.fs, w2.idx, FIRST) && !LeftToVideo(s, w2.fs, w2.idx, FIRST)
  {
    hide Ext, Lower, Stem, StrmName;
    TwoVideoNames();
    KeyOfVideos();
  }

  // ---- a changed file, and a removal that is refused ----

  const LEAF: Path := ["f"]

  /** `f` was sent as "A" with one byte and now has two: the plan drops "A" and uploads `f`. */
  function ChangedFile(): Start {
    Start(Apply.Task(Plain(false, {}), "root", "recycled"), map[[] := Dir(true), LEAF := File(2, "")],
      map[LEAF := Record("A", "", KIND_FILE, 1)], [])
  }

  lemma ChangedFileIsSent()
    ensures var b := ChangedFile(); UploadOp(LEAF, 2) in b.Plan() && NewOp(Drop, LEAF).(fid := "A") in b.Plan()
  {
    hide PlanDir, Ext, Lower, Stem;
    var b := ChangedFile();
    NotStrm("f");
    assert Parent(LEAF) == [] && InScope(b.t.setup, b.fs, [], LEAF);
    assert OpsAt(b.t.setup, b.fs, b.idx, LEAF) == [NewOp(Drop, LEAF).(fid := "A"), UploadOp(LEAF, 2)];
    PlanDirComplete(b.t.setup, b.fs, b.idx, [], LEAF);
    ListedIsDecided(b.t.setup, b.fs, b.idx, LEAF);
    assert UploadOp(LEAF, 2) in OpsAt(b.t.setup, b.fs, b.idx, LEAF);
    assert NewOp(Drop, LEAF).(fid := "A") in OpsAt(b.t.setup, b.fs, b.idx, LEAF);
  }

  lemma PlainUploadStores(c: Cloud, t: Apply.Task, w: World, op: Op)
    requires SendsSucceed(c) && |op.path| > 0 && op.kind == Upload && !op.isVideo
    requires op.path in w.fs && w.fs[op.path].File?
    ensures Stores(c, t, w, op, op.path)
  {
    EnsureSucceeds(c, w, Parent(op.path), 0, t.cloudFid);
  }

  lemma NothingAccepted(r: Round, i: nat)
    requires r.Fits() && RefusesRemovals(r.c) && i < |r.Ops()|
    ensures !RecycledAt(r.c, r.b.t, r.w, r.Ops(), i, LEAF)
    ensures !RemovedAt(r.c, r.b.t, r.w, r.Ops(), i, LEAF) && !SweptAt(r.c, r.b.t, r.w, r.Ops(), i, LEAF)
  {
    hide SortByPhase, Safety.StateAt, NamesFit, StableCodes, UploadCall, OrphanedAt, OverwrittenAt;
  }

  lemma FirstByteTells(n: nat)
    ensures Fid(n) != "A"
  {
    assert Fid(n)[0] == 'f';
  }

  lemma NewFidIsStored(w: World, op: Op)
    requires |op.path| > 0 && op.kind == Upload
    ensures StoredFid(Answering(false), ChangedFile().t, w, op) != "A"
  {
    hide Fid;
    FirstByteTells(EnsureDir(Answering(false), ChangedFile().t, w, Parent(op.path)).0.calls);
  }

  /** The removal of "A" is refused, the upload goes through and takes over the record: nothing was
      removed in the cloud, and nothing knows "A" any more. */
  lemma OrphanedCopyExample() returns (i: nat)
    ensures var r := Round(ChangedFile(), Answering(false), Fresh(ChangedFile()));
      r.Fits() && OrphanedAt(r.c, r.b.t, r.w, r.Ops(), i, LEAF) && i < |r.Ops()| && RecAt(r.At(i).idx, LEAF).fid == "A"
  {
    hide SortByPhase, Safety.StateAt, NamesFit, StableCodes, ApplyOne, PlanDir, BigVideo, IsStrm, Run, Answering,
      RecycledAt, RemovedAt, SweptAt, OrphanedAt, Stores, StoredFid;
    var r := Round(ChangedFile(), Answering(false), Fresh(ChangedFile()));
    ChangedFileIsSent();
    ChangedFileFacts();
    FitsWhenSimple(r.b, r.c);
    var k := IndexOfOp(r.Ops(), UploadOp(LEAF, 2));
    FileAt(r, k, LEAF);
    PlainUploadStores(r.c, r.b.t, r.At(k), r.Ops()[k]);
    RoundStep(r, k);
    StoredRecord(r.c, r.b.t, r.At(k), r.Ops()[k], LEAF);
    NewFidIsStored(r.At(k), r.Ops()[k]);
    FidIsKeptOrOrphaned(r.c, r.b.t, r.w, r.Ops(), k + 1, LEAF);
    i :| 0 <= i < k + 1 && RecAt(r.At(i).idx, LEAF).fid == "A"
      && (RemovedAt(r.c, r.b.t, r.w, r.Ops(), i, LEAF) || RecycledAt(r.c, r.b.t, r.w, r.Ops(), i, LEAF)
          || OrphanedAt(r.c, r.b.t, r.w, r.Ops(), i, LEAF) || SweptAt(r.c, r.b.t, r.w, r.Ops(), i, LEAF));
    NothingAccepted(r, i);
  }

  lemma ChangedFileFacts()
    ensures var b := ChangedFile();
      && (forall p :: p in b.fs && |p| > 0 ==> !IsStrm(Base(p)))
      && b.t.setup == Plain(false, {}) && b.t.setup.rules.videoExts == {} && !b.t.setup.toStrm
      && !BigVideo(b.t.setup, LEAF, b.fs[LEAF])
    ensures Answering(false) == Answering(Answering(false).accept(0)) && RefusesRemovals(Answering(false))
  {
    hide IsStrm;
    NotStrm("f");
  }

  // ---- download rounds ----

  function Fetching(): Cloud {
    Answering(true).(fetch := n => Fetched(1, ""))
  }

  function PullTask(): Apply.Task {
    Apply.Task(Plain(false, {}), "root", "recycled")
  }

  /** `d` is gone locally and indexed as a file; in the cloud it is now a folder with `d/f`. */
  function FolderForFile(): Pull {
    Pull(PullTask(), CloudCfg(false, false, false), map[[] := Dir(true)], map[DIR := Record("x", "", KIND_FILE, 1)],
      [CloudItem(DIR, "D", "", 0, true, false), CloudItem(INNER, "F", "", 1, false, false)])
  }

  /** `f` is settled, and the cloud holds a second copy of the same name. */
  function StaleDouble(): Pull {
    Pull(PullTask(), CloudCfg(false, true, false), map[[] := Dir(true), LEAF := File(1, "")],
      map[LEAF := Record("A", "", KIND_FILE, 1)],
      [CloudItem(LEAF, "A", "", 1, false, false), CloudItem(LEAF, "B", "", 1, false, false)])
  }

  function StartOf(b: Pull): World {
    World(b.idx, b.fs, 0, Stats(0, 0, 0, 0, 0), {}, {}, [])
  }

  lemma PlainItem(it: CloudItem)
    requires |it.path| > 0 && it.fid != "" && !it.isVideo && forall k :: 0 <= k < |it.path| ==> '.' !in it.path[k]
    ensures GoodItem(PullTask().setup, it) && GoodPath(PullTask().setup, it.path) && !Video(PullTask().setup, it)
  {
    hide Ext, Lower, Stem, StrmName, IsStrm;
    forall k | 0 <= k < |it.path| ensures GoodAt(PullTask().setup, it.path, k) { NotStrm(it.path[k]); }
    NotStrm(Base(it.path));
  }

  lemma TwoItems(s: Setup, cfg: CloudCfg, fs: Tree, idx: Index, x: CloudItem, y: CloudItem)
    requires |x.path| > 0 && |y.path| > 0 && !cfg.archive
    ensures Rooted([x, y])
      && PlanCloud(s, cfg, fs, idx, [x, y]) == OpsForItem(s, cfg, fs, idx, x) + OpsForItem(s, cfg, fs, idx, y)
  {
    hide OpsForItem;
    var items := [x, y];
    assert items[..0] == [] && items[..1] == [x] && items[..2] == items;
    NoItems(s, cfg, fs, idx);
    OneMoreItem(s, cfg, fs, idx, items, 0);
    OneMoreItem(s, cfg, fs, idx, items, 1);
  }

  function DownloadInner(): Op {
    NewOp(Download, INNER).(fid := "F", size := 1)
  }

  lemma FolderForFilePlan()
    ensures FolderForFile().Ok() && FolderForFile().Plan() == [DownloadInner()]
  {
    hide PlanCloud, GoodItem, GoodPath, Video;
    var b := FolderForFile();
    PlainItem(b.items[0]);
    PlainItem(b.items[1]);
    TwoItems(b.t.setup, b.cfg, b.fs, b.idx, b.items[0], b.items[1]);
    assert OpsForItem(b.t.setup, b.cfg, b.fs, b.idx, b.items[0]) == [];
    assert OpsForItem(b.t.setup, b.cfg, b.fs, b.idx, b.items[1]) == [DownloadInner()];
  }

  lemma SortedAlone(op: Op)
    ensures SortByPhase([op]) == [op]
  {
    hide SortByPhase, OfPhase;
    SortIsStable([op], [op]);
  }

  lemma RunAlone(c: Cloud, t: Apply.Task, w: World, op: Op)
    requires |op.path| > 0
    ensures BelowRoot([op]) && Run(c, t, w, [op]) == ApplyOne(c, t, w, op)
  {
    hide ApplyOne;
    assert [op][1..] == [];
  }

  lemma RoundAlone(c: Cloud, t: Apply.Task, w: World, op: Op)
    requires |op.path| > 0 && op.kind != Archive
    ensures BelowRoot([op]) && ApplyOps(c, t, w, [op]).0 == ApplyOne(c, t, w, op)
  {
    hide ApplyOne, Run, SortByPhase;
    SortedAlone(op);
    RunAlone(c, t, w, op);
    assert [op][1..] == [];
    assert ArchiveFids([op]) == [];
  }

  lemma InnerArrives()
    ensures var b := FolderForFile(); var w2 := ApplyOne(Fetching(), b.t, StartOf(b), DownloadInner());
      && w2.written == {INNER} && IsDirAt(w2.fs, DIR)
      && (forall q :: q in w2.fs && w2.fs[q].Dir? ==> w2.fs[q].readable)
  {
    var b := FolderForFile();
    assert Parent(INNER) == DIR && DIR[..0] == [] && DIR[..1] == DIR;
    assert CanMkdirAll(b.fs, DIR);
    assert DIR[..1] in MkdirAll(b.fs, DIR);
  }

  /** Every call succeeds, and the next local plan still clears at a folder that the round has
      just created, which takes the record of the downloaded file with it. */
  lemma FolderForFileExample()
    ensures var b, c := FolderForFile(), Fetching();
      b.Ok() && BelowRoot(b.Plan())
      && var w2 := ApplyOps(c, b.t, StartOf(b), b.Plan()).0;
         INNER in w2.written && InTheWay(b, b.idx, w2, [], DIR) && !LeftAlone(b, w2, [])
  {
    hide PlanCloud, ApplyOps, ApplyOne, LeftAlone, GoodItems, GoodPath, PlanDir, InTheWay;
    var b, c := FolderForFile(), Fetching();
    FolderForFilePlan();
    RoundAlone(c, b.t, StartOf(b), DownloadInner());
    InnerArrives();
    DirIsInTheWay(ApplyOne(c, b.t, StartOf(b), DownloadInner()));
    DownloadsAreLeftAlone(b, c, StartOf(b), []);
  }

  lemma DirIsInTheWay(w2: World)
    requires w2.written == {INNER} && IsDirAt(w2.fs, DIR)
    ensures InTheWay(FolderForFile(), FolderForFile().idx, w2, [], DIR)
  {}

  /** Two cloud files of one name, and a place that is free. */
  function TwoOfOneName(): Pull {
    Pull(PullTask(), CloudCfg(false, false, false), map[[] := Dir(true)], map[],
      [CloudItem(LEAF, "A", "", 1, false, false), CloudItem(LEAF, "B", "", 1, false, false)])
  }

  /** The first transfer is done, every later one breaks off. */
  function BreakingLater(): Cloud {
    Answering(true).(fetch := n => if n == 0 then Fetched(1, "") else Broken)
  }

  function LeafDownload(fid: string): Op {
    NewOp(Download, LEAF).(fid := fid, size := 1)
  }

  lemma TwoOfOneNamePlan()
    ensures TwoOfOneName().Ok() && TwoOfOneName().Plan() == [LeafDownload("A"), LeafDownload("B")]
  {
    hide PlanCloud, GoodItem, GoodPath, Video;
    var b := TwoOfOneName();
    PlainItem(b.items[0]);
    PlainItem(b.items[1]);
    TwoItems(b.t.setup, b.cfg, b.fs, b.idx, b.items[0], b.items[1]);
    assert OpsForItem(b.t.setup, b.cfg, b.fs, b.idx, b.items[0]) == [LeafDownload("A")];
    assert OpsForItem(b.t.setup, b.cfg, b.fs, b.idx, b.items[1]) == [LeafDownload("B")];
  }

  lemma RoundOfTwo(c: Cloud, t: Apply.Task, w: World, x: Op, y: Op)
    requires |x.path| > 0 && |y.path| > 0 && x.kind == Download && y.kind == Download
    ensures BelowRoot([x, y]) && ApplyOps(c, t, w, [x, y]).0 == ApplyOne(c, t, ApplyOne(c, t, w, x), y)
  {
    hide ApplyOne, SortByPhase, OfPhase, ArchiveFids;
    SortIsStable([x, y], [x, y]);
    assert [x, y][1..] == [y] && [y][1..] == [];
    Converge.NoArchive([x, y]);
    assert Run(c, t, w, [x, y]) == Run(c, t, ApplyOne(c, t, w, x), [y]);
    RunAlone(c, t, ApplyOne(c, t, w, x), y);
  }

  lemma LandsThenBreaks()
    ensures var b, c := TwoOfOneName(), BreakingLater();
      var w1 := ApplyOne(c, b.t, StartOf(b), LeafDownload("A"));
      var w2 := ApplyOne(c, b.t, w1, LeafDownload("B"));
      && w2.fs == b.fs && w2.idx == map[LEAF := Record("A", "", KIND_FILE, 1)] && w2.written == {LEAF}
  {
    var b := TwoOfOneName();
    assert Parent(LEAF) == [] && CanMkdirAll(b.fs, []) && MkdirAll(b.fs, []) == b.fs;
    var fs1 := b.fs[LEAF := File(1, "")];
    assert CanMkdirAll(fs1, []) && MkdirAll(fs1, []) == fs1;
  }

  /** The first of two files of one name is downloaded, the transfer of the second breaks off and
      takes the file away, and the next local plan drops the first one in the cloud. Nothing is in
      the way. */
  lemma BrokenDoubleExample()
    ensures var b, c := TwoOfOneName(), BreakingLater();
      b.Ok() && BelowRoot(b.Plan())
      && var w2 := ApplyOps(c, b.t, StartOf(b), b.Plan()).0;
         && Lost(w2, [], LEAF) && !LeftAlone(b, w2, []) && (forall a :: !InTheWay(b, b.idx, w2, [], a))
         && NewOp(Drop, LEAF).(fid := "A") in PlanDir(b.t.setup, w2.fs, w2.idx, [])
  {
    hide PlanCloud, ApplyOps, ApplyOne, LeftAlone, GoodItems, GoodPath, PlanDir, OpsAt, IsStrm, LeftToVideo;
    var b, c := TwoOfOneName(), BreakingLater();
    TwoOfOneNamePlan();
    RoundOfTwo(c, b.t, StartOf(b), LeafDownload("A"), LeafDownload("B"));
    LandsThenBreaks();
    var w2 := ApplyOps(c, b.t, StartOf(b), b.Plan()).0;
    LeftAloneUnlessInTheWay(b, c, StartOf(b), []);
    assert Parent(LEAF) == [];
    NotStrm("f");
    TornAsks(b.t.setup, w2, LEAF);
    NoLinkIsOwn(b.t.setup, w2.fs, w2.idx, LEAF);
    PlanDirComplete(b.t.setup, w2.fs, w2.idx, [], LEAF);
  }

  // ---- an item that was moved in the cloud ----

  const OLD: Path := ["old"]

  /** "A" is indexed under `old`, gone locally, and is now called `f` in the cloud. */
  function MovedInCloud(): Pull {
    Pull(PullTask(), CloudCfg(false, false, false), map[[] := Dir(true)], map[OLD := Record("A", "", KIND_FILE, 1)],
      [CloudItem(LEAF, "A", "", 1, false, false)])
  }

  lemma MovedInCloudPlan()
    ensures MovedInCloud().Ok() && MovedInCloud().Plan() == [LeafDownload("A")]
  {
    hide PlanCloud, GoodItem, GoodPath, Video;
    var b := MovedInCloud();
    PlainItem(b.items[0]);
    OneItem(b.t.setup, b.cfg, b.fs, b.idx, b.items[0]);
    assert OpsForItem(b.t.setup, b.cfg, b.fs, b.idx, b.items[0]) == [LeafDownload("A")];
  }

  lemma MovedItemLands()
    ensures var b := MovedInCloud(); var w2 := ApplyOne(Fetching(), b.t, StartOf(b), LeafDownload("A"));
      && w2.idx == b.idx[LEAF := Record("A", "", KIND_FILE, 1)] && w2.written == {LEAF}
      && w2.fs == b.fs[LEAF := File(1, "")]
  {
    var b := MovedInCloud();
    assert Parent(LEAF) == [] && CanMkdirAll(b.fs, []) && MkdirAll(b.fs, []) == b.fs;
  }

  /** The round downloads the item under its new name, and the next local plan drops it in the cloud
      under its old one. */
  lemma MovedItemExample()
    ensures var b, c := MovedInCloud(), Fetching();
      b.Ok() && BelowRoot(b.Plan())
      && var w2 := ApplyOps(c, b.t, StartOf(b), b.Plan()).0;
         && LEAF in w2.written && Held(b, w2, "A") && !FidsAreFresh(b, w2)
         && NewOp(Drop, OLD).(fid := "A") in PlanDir(b.t.setup, w2.fs, w2.idx, [])
  {
    hide PlanCloud, ApplyOps, ApplyOne, GoodItems, GoodPath, PlanDir, OpsAt, IsStrm, LeftToVideo;
    var b, c := MovedInCloud(), Fetching();
    MovedInCloudPlan();
    RoundAlone(c, b.t, StartOf(b), LeafDownload("A"));
    MovedItemLands();
    var w2 := ApplyOps(c, b.t, StartOf(b), b.Plan()).0;
    assert Holds(b, w2, LEAF, "A") && OldCopy(b, OLD, "A") && !AboveDownload(w2, OLD);
    assert Parent(OLD) == [];
    NotStrm("old");
    NoLinkIsOwn(b.t.setup, w2.fs, w2.idx, OLD);
    TornAsks(b.t.setup, w2, OLD);
    PlanDirComplete(b.t.setup, w2.fs, w2.idx, [], OLD);
  }

  /** "X" is indexed as the folder `old`, gone locally, and is now called `d` in the cloud. */
  function MovedFolder(): Pull {
    FolderForFile().(idx := map[OLD := Record("X", "", KIND_DIR, 0)],
      items := [CloudItem(DIR, "X", "", 0, true, false), CloudItem(INNER, "F", "", 1, false, false)])
  }

  lemma MovedFolderPlan()
    ensures MovedFolder().Ok() && MovedFolder().Plan() == [DownloadInner()]
  {
    hide PlanCloud, GoodItem, GoodPath, Video;
    var b := MovedFolder();
    PlainItem(b.items[0]);
    PlainItem(b.items[1]);
    TwoItems(b.t.setup, b.cfg, b.fs, b.idx, b.items[0], b.items[1]);
    assert OpsForItem(b.t.setup, b.cfg, b.fs, b.idx, b.items[0]) == [];
    assert OpsForItem(b.t.setup, b.cfg, b.fs, b.idx, b.items[1]) == [DownloadInner()];
  }

  lemma InnerLands()
    ensures var b := MovedFolder(); var w2 := ApplyOne(Fetching(), b.t, StartOf(b), DownloadInner());
      && w2.idx == b.idx[INNER := Record("F", "", KIND_FILE, 1)] && w2.written == {INNER}
      && OLD !in w2.fs && IsDirAt(w2.fs, []) && (forall q :: q in w2.fs && w2.fs[q].Dir? ==> w2.fs[q].readable)
  {
    var b := MovedFolder();
    assert Parent(INNER) == DIR && DIR[..0] == [] && DIR[..1] == DIR;
    assert CanMkdirAll(b.fs, DIR);
  }

  /** The round downloads `d/f`, and the next local plan removes the cloud folder that holds it. */
  lemma MovedFolderExample()
    ensures var b, c := MovedFolder(), Fetching();
      b.Ok() && BelowRoot(b.Plan())
      && var w2 := ApplyOps(c, b.t, StartOf(b), b.Plan()).0;
         && INNER in w2.written && Holds(b, w2, INNER, "X") && !FidsAreFresh(b, w2)
         && NewOp(Drop, OLD).(fid := "X") in PlanDir(b.t.setup, w2.fs, w2.idx, [])
  {
    hide PlanCloud, ApplyOps, ApplyOne, GoodItems, GoodPath, PlanDir, OpsAt, IsStrm, LeftToVideo;
    var b, c := MovedFolder(), Fetching();
    MovedFolderPlan();
    RoundAlone(c, b.t, StartOf(b), DownloadInner());
    InnerLands();
    var w2 := ApplyOps(c, b.t, StartOf(b), b.Plan()).0;
    assert b.items[0].isDir && b.items[0].path < INNER && OLD[0] != INNER[0];
    assert Holds(b, w2, INNER, "X") && OldCopy(b, OLD, "X") && !AboveDownload(w2, OLD);
    assert Parent(OLD) == [] && InScope(b.t.setup, w2.fs, [], OLD);
    NotStrm("old");
    NoLinkIsOwn(b.t.setup, w2.fs, w2.idx, OLD);
    MissingAsks(b.t.setup, w2, OLD);
    PlanDirComplete(b.t.setup, w2.fs, w2.idx, [], OLD);
  }

  lemma MissingAsks(s: Setup, w: World, q: Path)
    requires |q| > 0 && q !in w.fs && RecAt(w.idx, q).fid != ""
    ensures ClearOp(q, RecAt(w.idx, q)) in OpsAt(s, w.fs, w.idx, q)
  {}

  // ---- a download and a large local video of one stem ----

  /** Links both ways: `a.mkv` waits locally, and the cloud holds `a.mp4`. */
  function VideoBothSides(): Pull {
    Pull(Apply.Task(Plain(true, {".mkv", ".mp4"}), "root", "recycled"), CloudCfg(true, false, false),
      map[[] := Dir(true), FIRST := File(VIDEO_THRESHOLD, "")], map[],
      [CloudItem(SECOND, "F", "p", 1, false, true)])
  }

  function LinkDownload(): Op {
    NewOp(Download, LINK).(fid := "F", pickCode := "p", size := 1, isVideo := true)
  }

  lemma VideoBothSidesPlan()
    ensures VideoBothSides().Ok() && VideoBothSides().Plan() == [LinkDownload()]
  {
    hide PlanCloud, Ext, Lower, Stem, StrmName, IsStrm, Links.Stable;
    var b := VideoBothSides();
    var it := b.items[0];
    KeyOfVideos();
    TwoVideoNames();
    SimpleIsStable("p");
    assert GoodItem(b.t.setup, it) && GoodAt(b.t.setup, it.path, 0);
    OneItem(b.t.setup, b.cfg, b.fs, b.idx, it);
    assert OpsForItem(b.t.setup, b.cfg, b.fs, b.idx, it) == [LinkDownload()];
  }

  lemma OneItem(s: Setup, cfg: CloudCfg, fs: Tree, idx: Index, x: CloudItem)
    requires |x.path| > 0 && !cfg.archive
    ensures Rooted([x]) && PlanCloud(s, cfg, fs, idx, [x]) == OpsForItem(s, cfg, fs, idx, x)
  {
    hide OpsForItem;
    assert [x][..0] == [] && [x][..1] == [x];
    NoItems(s, cfg, fs, idx);
    OneMoreItem(s, cfg, fs, idx, [x], 0);
  }

  lemma LinkArrives()
    ensures var b := VideoBothSides(); var w2 := ApplyOne(Fetching(), b.t, StartOf(b), LinkDownload());
      && w2.written == {LINK} && w2.idx == map[LINK := Record("F", "p", KIND_STRM, 0)]
      && (forall q :: q in w2.fs <==> q in b.fs || q == LINK) && (forall q :: q in b.fs ==> w2.fs[q] == b.fs[q])
      && !w2.fs[LINK].Dir?
  {
    var b := VideoBothSides();
    assert Parent(LINK) == [] && CanMkdirAll(b.fs, []) && MkdirAll(b.fs, []) == b.fs;
  }

  lemma FirstIsBig(fs: Tree)
    requires FIRST in fs && fs[FIRST] == File(VIDEO_THRESHOLD, "")
    ensures var s := VideoBothSides().t.setup;
      Listed(s, fs, FIRST) && BigVideo(s, FIRST, fs[FIRST])
  {
    hide Ext, Lower, Stem;
    TwoVideoNames();
  }

  /** Every call succeeds and nothing is in the way, but the next local plan uploads `a.mkv` in place
      of the video that the round has just downloaded the link of. */
  lemma RivalVideoExample() returns (op: Op)
    ensures var b, c := VideoBothSides(), Fetching();
      b.Ok() && BelowRoot(b.Plan())
      && var w2 := ApplyOps(c, b.t, StartOf(b), b.Plan()).0;
         && Rival(b, w2, [], FIRST) && !LeftAlone(b, w2, []) && (forall a :: !InTheWay(b, b.idx, w2, [], a))
         && op in PlanDir(b.t.setup, w2.fs, w2.idx, []) && Replaces(op, LINK) && op.replaceFid == "F"
  {
    hide PlanCloud, ApplyOps, ApplyOne, LeftAlone, GoodItems, GoodPath, PlanDir, OpsAt, IsStrm, LeftToVideo, StrmName,
      BigVideo, Replaces;
    var b, c := VideoBothSides(), Fetching();
    VideoBothSidesPlan();
    RoundAlone(c, b.t, StartOf(b), LinkDownload());
    LinkArrives();
    KeyOfVideos();
    var w2 := ApplyOps(c, b.t, StartOf(b), b.Plan()).0;
    FirstIsBig(b.fs);
    FirstIsBig(w2.fs);
    assert Parent(FIRST) == [];
    LeftAloneUnlessInTheWay(b, c, StartOf(b), []);
    op := BigVideoAsks(b.t.setup, w2.fs, w2.idx, FIRST);
    ListedIsDecided(b.t.setup, w2.fs, w2.idx, FIRST);
    PlanDirComplete(b.t.setup, w2.fs, w2.idx, [], FIRST);
  }

  function DropDouble(): Op {
    NewOp(Drop, LEAF).(fid := "B")
  }

  lemma StaleDoublePlan()
    ensures StaleDouble().Ok() && StaleDouble().Plan() == [DropDouble()]
  {
    hide PlanCloud, GoodItem, GoodPath, Video;
    var b := StaleDouble();
    PlainItem(b.items[0]);
    PlainItem(b.items[1]);
    TwoItems(b.t.setup, b.cfg, b.fs, b.idx, b.items[0], b.items[1]);
    assert OpsForItem(b.t.setup, b.cfg, b.fs, b.idx, b.items[0]) == [];
    assert OpsForItem(b.t.setup, b.cfg, b.fs, b.idx, b.items[1]) == [DropDouble()];
  }

  lemma DoubleIsDropped()
    ensures StaleDouble().Ok() && SortByPhase(StaleDouble().Plan()) == [DropDouble()]
    ensures BelowRoot([DropDouble()]) && DropsAt(StaleDouble(), Fetching(), StartOf(StaleDouble()), 0, LEAF)
  {
    hide SortByPhase, PlanCloud, GoodItems, Safety.StateAt, ApplyOne;
    StaleDoublePlan();
    SortedAlone(DropDouble());
    Safety.StateEnds(Fetching(), StaleDouble().t, StartOf(StaleDouble()), [DropDouble()]);
  }

  /** A settled file whose cloud double is dropped loses its record and is planned for upload. */
  lemma StaleDoubleExample()
    ensures var b, c := StaleDouble(), Fetching();
      b.Ok() && BelowRoot(b.Plan())
      && OpsAt(b.t.setup, b.fs, b.idx, LEAF) == []
      && var w2 := ApplyOps(c, b.t, StartOf(b), b.Plan()).0;
         OpsAt(b.t.setup, w2.fs, w2.idx, LEAF) == [UploadOp(LEAF, 1)]
  {
    hide PlanCloud, ApplyOps, GoodItems, SortByPhase, DropsAt, OpsAt, SurvivorKept, GoodPath;
    var b, c := StaleDouble(), Fetching();
    DoubleIsDropped();
    LeafAnswers();
    SurvivorIsKeptUnlessDropped(b, c, StartOf(b), b.items[0]);
  }

  lemma LeafAnswers()
    ensures var b := StaleDouble();
      OpsAt(b.t.setup, b.fs, b.idx, LEAF) == [] && OpsAt(b.t.setup, b.fs, map[], LEAF) == [UploadOp(LEAF, 1)]
  {
    hide Ext, Lower, Stem, IsStrm;
    NotStrm("f");
  }
}
