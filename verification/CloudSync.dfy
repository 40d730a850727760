/** The cloud to local direction (PlanCloud in internal/mirror/plan.go, BuildIndex in
    internal/mirror/scan.go) and how it fits the local planner. */
module CloudSync {
  import opened Bytes
  import opened Records
  import opened Model
  import opened Plan

  /** One entry of the cloud snapshot; `path` is relative to the cloud root. */
  datatype CloudItem = CloudItem(path: Path, fid: string, pickCode: string, size: int, isDir: bool, isVideo: bool)

  datatype CloudCfg = CloudCfg(toStrm: bool, dropStale: bool, archive: bool)

  predicate Video(s: Setup, it: CloudItem)
    requires |it.path| > 0
  {
    it.isVideo || s.rules.IsVideoExt(Base(it.path))
  }

  ghost predicate Rooted(items: seq<CloudItem>) {
    forall i :: 0 <= i < |items| ==> |items[i].path| > 0
  }

  // ---- PlanCloud ----

  function SavePath(s: Setup, toStrm: bool, it: CloudItem): Path
    requires |it.path| > 0
  {
    if Video(s, it) && toStrm then StrmKey(it.path) else it.path
  }

  /** `os.Stat` succeeds. */
  predicate Exists(fs: Tree, p: Path) {
    p in fs && !fs[p].Unreadable?
  }

  /** The local deletion wins: a path that is indexed but gone is not downloaded again. */
  function OpsForItem(s: Setup, cfg: CloudCfg, fs: Tree, idx: Index, it: CloudItem): seq<Op>
    requires |it.path| > 0
  {
    var p := SavePath(s, cfg.toStrm, it);
    if it.isDir then []
    else if Exists(fs, p) then
      if cfg.dropStale && p in idx && idx[p].fid != it.fid then [NewOp(Drop, p).(fid := it.fid)] else []
    else if p in idx then []
    else [NewOp(Download, p).(fid := it.fid, pickCode := it.pickCode, size := it.size,
                              isVideo := Video(s, it) && cfg.toStrm)]
  }

  function OpsForItems(s: Setup, cfg: CloudCfg, fs: Tree, idx: Index, items: seq<CloudItem>): seq<Op>
    requires Rooted(items)
  {
    if items == [] then []
    else
      assert Rooted(items[..|items| - 1]);
      OpsForItems(s, cfg, fs, idx, items[..|items| - 1]) + OpsForItem(s, cfg, fs, idx, items[|items| - 1])
  }

  function ArchiveOps(items: seq<CloudItem>): seq<Op> {
    if items == [] then []
    else
      var it := items[|items| - 1];
      ArchiveOps(items[..|items| - 1])
        + (if it.isDir && |it.path| == 1 then [NewOp(Archive, it.path).(fid := it.fid)] else [])
  }

  function PlanCloud(s: Setup, cfg: CloudCfg, fs: Tree, idx: Index, items: seq<CloudItem>): seq<Op>
    requires Rooted(items)
  {
    OpsForItems(s, cfg, fs, idx, items) + (if cfg.archive then ArchiveOps(items) else [])
  }

  lemma NoItems(s: Setup, cfg: CloudCfg, fs: Tree, idx: Index)
    ensures OpsForItems(s, cfg, fs, idx, []) == [] && ArchiveOps([]) == []
  {}

  lemma OneMoreItem(s: Setup, cfg: CloudCfg, fs: Tree, idx: Index, items: seq<CloudItem>, i: nat)
    requires Rooted(items) && i < |items|
    ensures Rooted(items[..i]) && Rooted(items[..i + 1])
    ensures OpsForItems(s, cfg, fs, idx, items[..i + 1])
         == OpsForItems(s, cfg, fs, idx, items[..i]) + OpsForItem(s, cfg, fs, idx, items[i])
  {
    hide OpsForItem;
    assert items[..i + 1][..i] == items[..i];
  }

  lemma OneMoreFolder(items: seq<CloudItem>, i: nat)
    requires i < |items|
    ensures ArchiveOps(items[..i + 1]) == ArchiveOps(items[..i])
      + (if items[i].isDir && |items[i].path| == 1 then [NewOp(Archive, items[i].path).(fid := items[i].fid)] else [])
  {
    assert items[..i + 1][..i] == items[..i];
  }

  /** `PlanCloud`'s two loops. */
  method PlanCloudTree(s: Setup, cfg: CloudCfg, fs: Tree, idx: Index, items: seq<CloudItem>) returns (ops: seq<Op>)
    requires Rooted(items)
    ensures ops == PlanCloud(s, cfg, fs, idx, items)
  {
    hide Ext, Lower, Stem, StrmName, OpsForItems, ArchiveOps;
    ops := [];
    NoItems(s, cfg, fs, idx);
    for i := 0 to |items|
      invariant Rooted(items[..i]) && ops == OpsForItems(s, cfg, fs, idx, items[..i])
    {
      OneMoreItem(s, cfg, fs, idx, items, i);
      var it := items[i];
      if !it.isDir {
        var genStrm := Video(s, it) && cfg.toStrm;
        var savePath := if genStrm then StrmKey(it.path) else it.path;
        if Exists(fs, savePath) {
          if cfg.dropStale && savePath in idx && idx[savePath].fid != it.fid {
            ops := ops + [NewOp(Drop, savePath).(fid := it.fid)];
          }
        } else if savePath !in idx {
          ops := ops + [NewOp(Download, savePath).(fid := it.fid, pickCode := it.pickCode, size := it.size,
                                                   isVideo := genStrm)];
        }
      }
    }
    assert items[..|items|] == items;
    if cfg.archive {
      ghost var files := ops;
      for i := 0 to |items|
        invariant ops == files + ArchiveOps(items[..i])
      {
        OneMoreFolder(items, i);
        var it := items[i];
        if it.isDir && |it.path| == 1 {
          ops := ops + [NewOp(Archive, it.path).(fid := it.fid)];
        }
      }
      assert items[..|items|] == items;
    }
  }

  lemma {:induction false} FromOneItem(s: Setup, cfg: CloudCfg, fs: Tree, idx: Index, items: seq<CloudItem>, op: Op)
    requires Rooted(items)
    ensures op in OpsForItems(s, cfg, fs, idx, items)
      <==> exists i :: 0 <= i < |items| && op in OpsForItem(s, cfg, fs, idx, items[i])
    decreases |items|
  {
    hide OpsForItem;
    if items != [] {
      var n := |items| - 1;
      var front := items[..n];
      assert Rooted(front);
      FromOneItem(s, cfg, fs, idx, front, op);
      if op in OpsForItems(s, cfg, fs, idx, front) {
        var i :| 0 <= i < |front| && op in OpsForItem(s, cfg, fs, idx, front[i]);
        assert op in OpsForItem(s, cfg, fs, idx, items[i]);
      }
      if i :| 0 <= i < |items| && op in OpsForItem(s, cfg, fs, idx, items[i]) {
        if i < n { assert items[i] == front[i]; }
      }
    }
  }

  ghost predicate IsPlanned(s: Setup, cfg: CloudCfg, fs: Tree, idx: Index, items: seq<CloudItem>, kind: OpKind,
      p: Path, fid: string)
    requires Rooted(items)
  {
    exists op :: op in PlanCloud(s, cfg, fs, idx, items) && op.kind == kind && op.path == p && op.fid == fid
  }

  predicate LandsAt(s: Setup, cfg: CloudCfg, it: CloudItem, p: Path, fid: string) {
    |it.path| > 0 && !it.isDir && SavePath(s, cfg.toStrm, it) == p && it.fid == fid
  }

  /** The local side wins: a cloud file is downloaded exactly when its place is free and the
      index has never known it, and dropped exactly when it is a stale double of a local file. */
  lemma LocalSideWins(s: Setup, cfg: CloudCfg, fs: Tree, idx: Index, items: seq<CloudItem>, p: Path, fid: string)
    requires Rooted(items)
    ensures IsPlanned(s, cfg, fs, idx, items, Download, p, fid) <==>
      (exists i :: 0 <= i < |items| && LandsAt(s, cfg, items[i], p, fid)) && !Exists(fs, p) && p !in idx
    ensures IsPlanned(s, cfg, fs, idx, items, Drop, p, fid) <==>
      && (exists i :: 0 <= i < |items| && LandsAt(s, cfg, items[i], p, fid))
      && cfg.dropStale && Exists(fs, p) && p in idx && idx[p].fid != fid
  {
    hide SavePath, PlanCloud, LandsAt, Asks, IsPlanned, Exists;
    PlannedByItem(s, cfg, fs, idx, items, Download, p, fid);
    PlannedByItem(s, cfg, fs, idx, items, Drop, p, fid);
    forall i | 0 <= i < |items|
      ensures Asks(s, cfg, fs, idx, items[i], Download, p, fid) <==>
        LandsAt(s, cfg, items[i], p, fid) && !Exists(fs, p) && p !in idx
      ensures Asks(s, cfg, fs, idx, items[i], Drop, p, fid) <==>
        LandsAt(s, cfg, items[i], p, fid) && cfg.dropStale && Exists(fs, p) && p in idx && idx[p].fid != fid
    {
      AskedAt(s, cfg, fs, idx, items[i], p, fid);
    }
  }

  ghost predicate Asks(s: Setup, cfg: CloudCfg, fs: Tree, idx: Index, it: CloudItem, kind: OpKind, p: Path, fid: string)
    requires |it.path| > 0
  {
    exists op :: op in OpsForItem(s, cfg, fs, idx, it) && op.kind == kind && op.path == p && op.fid == fid
  }

  ghost predicate ItemAsks(s: Setup, cfg: CloudCfg, fs: Tree, idx: Index, items: seq<CloudItem>, kind: OpKind,
      p: Path, fid: string)
    requires Rooted(items)
  {
    exists i :: 0 <= i < |items| && Asks(s, cfg, fs, idx, items[i], kind, p, fid)
  }

  lemma AskedAt(s: Setup, cfg: CloudCfg, fs: Tree, idx: Index, it: CloudItem, p: Path, fid: string)
    requires |it.path| > 0
    ensures Asks(s, cfg, fs, idx, it, Download, p, fid) <==>
      LandsAt(s, cfg, it, p, fid) && !Exists(fs, p) && p !in idx
    ensures Asks(s, cfg, fs, idx, it, Drop, p, fid) <==>
      LandsAt(s, cfg, it, p, fid) && cfg.dropStale && Exists(fs, p) && p in idx && idx[p].fid != fid
  {
    hide SavePath, Exists, Video;
    var ops := OpsForItem(s, cfg, fs, idx, it);
    if ops != [] { assert ops[0] in ops; }
  }

  lemma {:induction false} ArchivesOnly(items: seq<CloudItem>, op: Op)
    requires op in ArchiveOps(items)
    ensures op.kind == Archive && |op.path| > 0
    decreases |items|
  {
    if op in ArchiveOps(items[..|items| - 1]) { ArchivesOnly(items[..|items| - 1], op); }
  }

  lemma PlannedByItem(s: Setup, cfg: CloudCfg, fs: Tree, idx: Index, items: seq<CloudItem>, kind: OpKind, p: Path,
      fid: string)
    requires Rooted(items) && kind != Archive
    ensures IsPlanned(s, cfg, fs, idx, items, kind, p, fid) <==> ItemAsks(s, cfg, fs, idx, items, kind, p, fid)
  {
    hide OpsForItem, OpsForItems, ArchiveOps, PlanCloud, Asks;
    if op :| op in PlanCloud(s, cfg, fs, idx, items) && op.kind == kind && op.path == p && op.fid == fid {
      PlannedOnce(s, cfg, fs, idx, items, op);
      var i :| 0 <= i < |items| && op in OpsForItem(s, cfg, fs, idx, items[i]);
      AsksBy(s, cfg, fs, idx, items[i], op);
    }
    if i :| 0 <= i < |items| && Asks(s, cfg, fs, idx, items[i], kind, p, fid) {
      var op := AskedBy(s, cfg, fs, idx, items[i], kind, p, fid);
      PlannedOnce(s, cfg, fs, idx, items, op);
    }
  }

  /** Anything but an archive is planned exactly when some item asks for it. */
  lemma PlannedOnce(s: Setup, cfg: CloudCfg, fs: Tree, idx: Index, items: seq<CloudItem>, op: Op)
    requires Rooted(items) && op.kind != Archive
    ensures op in PlanCloud(s, cfg, fs, idx, items)
      <==> exists i :: 0 <= i < |items| && op in OpsForItem(s, cfg, fs, idx, items[i])
  {
    hide OpsForItem, OpsForItems, ArchiveOps;
    FromOneItem(s, cfg, fs, idx, items, op);
    if op in ArchiveOps(items) { ArchivesOnly(items, op); }
  }

  lemma AsksBy(s: Setup, cfg: CloudCfg, fs: Tree, idx: Index, it: CloudItem, op: Op)
    requires |it.path| > 0 && op in OpsForItem(s, cfg, fs, idx, it)
    ensures Asks(s, cfg, fs, idx, it, op.kind, op.path, op.fid)
  {
    hide OpsForItem;
  }

  lemma AskedBy(s: Setup, cfg: CloudCfg, fs: Tree, idx: Index, it: CloudItem, kind: OpKind, p: Path,
      fid: string) returns (op: Op)
    requires |it.path| > 0 && Asks(s, cfg, fs, idx, it, kind, p, fid)
    ensures op in OpsForItem(s, cfg, fs, idx, it) && op.kind == kind && op.path == p && op.fid == fid
  {
    hide OpsForItem;
    op :| op in OpsForItem(s, cfg, fs, idx, it) && op.kind == kind && op.path == p && op.fid == fid;
  }

  // ---- BuildIndex ----

  function IndexKey(s: Setup, toStrm: bool, it: CloudItem): Path
    requires |it.path| > 0
  {
    if !it.isDir && Video(s, it) && toStrm then StrmKey(it.path) else it.path
  }

  /** A video is recorded as a link whether or not links are generated. */
  function IndexRecord(s: Setup, it: CloudItem): Record
    requires |it.path| > 0
  {
    if it.isDir then Record(it.fid, "", KIND_DIR, 0)
    else Record(it.fid, it.pickCode, if Video(s, it) then KIND_STRM else KIND_FILE, it.size)
  }

  function Indexed(s: Setup, toStrm: bool, idx: Index, items: seq<CloudItem>): Index
    requires Rooted(items)
  {
    if items == [] then idx
    else
      var it := items[|items| - 1];
      assert Rooted(items[..|items| - 1]);
      Indexed(s, toStrm, idx, items[..|items| - 1])[IndexKey(s, toStrm, it) := IndexRecord(s, it)]
  }

  method BuildIndex(s: Setup, toStrm: bool, idx0: Index, items: seq<CloudItem>) returns (idx: Index)
    requires Rooted(items)
    ensures idx == Indexed(s, toStrm, idx0, items)
  {
    idx := idx0;
    for i := 0 to |items|
      invariant Rooted(items[..i]) && idx == Indexed(s, toStrm, idx0, items[..i])
    {
      assert items[..i + 1][..i] == items[..i];
      var it := items[i];
      if it.isDir {
        idx := idx[it.path := Record(it.fid, "", KIND_DIR, 0)];
      } else if it.isVideo || s.rules.IsVideoExt(Base(it.path)) {
        var key := if toStrm then StrmKey(it.path) else it.path;
        idx := idx[key := Record(it.fid, it.pickCode, KIND_STRM, it.size)];
      } else {
        idx := idx[it.path := Record(it.fid, it.pickCode, KIND_FILE, it.size)];
      }
    }
    assert items[..|items|] == items;
  }

  // ---- the local image of a cloud tree ----

  function ImageEntry(s: Setup, toStrm: bool, it: CloudItem): Entry
    requires |it.path| > 0
  {
    if it.isDir then Dir(true)
    else if Video(s, it) && toStrm then
      File(|s.links.Content(it.pickCode)|, s.links.Content(it.pickCode))
    else File(it.size, "")
  }

  /** The local tree that mirrors the snapshot: links for videos when links are generated. */
  function Image(s: Setup, toStrm: bool, items: seq<CloudItem>): Tree
    requires Rooted(items)
  {
    if items == [] then map[[] := Dir(true)]
    else
      var it := items[|items| - 1];
      assert Rooted(items[..|items| - 1]);
      Image(s, toStrm, items[..|items| - 1])[IndexKey(s, toStrm, it) := ImageEntry(s, toStrm, it)]
  }

  /** What the snapshot must satisfy: FIDs are present, no name ends in `.strm`, pickcodes of
      videos read back, and nothing is excluded from local scans. */
  ghost predicate GoodItem(s: Setup, it: CloudItem) {
    && |it.path| > 0 && it.fid != "" && !IsStrm(Base(it.path))
    && (!it.isDir && Video(s, it) ==> s.links.Stable(it.pickCode))
    && !s.rules.excluded(Base(it.path)) && !s.rules.excluded(StrmName(Base(it.path)))
    && s.excludeDir != Some(it.path) && s.excludeDir != Some(StrmKey(it.path))
  }

  ghost predicate GoodItems(s: Setup, items: seq<CloudItem>) {
    forall i :: 0 <= i < |items| ==> GoodItem(s, items[i])
  }

  /** Of several items with one path the last one decides: it is written last. */
  predicate LastAt(items: seq<CloudItem>, i: nat) {
    i < |items| && forall j :: i < j < |items| ==> items[j].path != items[i].path
  }

  ghost predicate FolderAt(items: seq<CloudItem>, p: Path) {
    exists j: nat :: LastAt(items, j) && items[j].path == p && items[j].isDir
  }

  /** Every path on the way is a folder, so a scan gets there. */
  ghost predicate Reachable(items: seq<CloudItem>, p: Path) {
    forall k :: 0 < k < |p| ==> FolderAt(items, p[..k])
  }

  /** A video that the snapshot shows as the last item of its path, where a scan gets. */
  ghost predicate ShowsVideo(s: Setup, items: seq<CloudItem>, i: nat)
    requires Rooted(items)
  {
    LastAt(items, i) && Reachable(items, items[i].path) && !items[i].isDir && Video(s, items[i])
  }

  predicate ComesFrom(s: Setup, toStrm: bool, it: CloudItem, idx: Index, fs: Tree, k: Path) {
    && |it.path| > 0 && IndexKey(s, toStrm, it) == k && k in idx && k in fs
    && idx[k] == IndexRecord(s, it) && fs[k] == ImageEntry(s, toStrm, it)
  }

  /** Index and image agree on a key: same keys, and entry and record come from one item. */
  ghost predicate Mirrored(s: Setup, toStrm: bool, items: seq<CloudItem>, idx: Index, fs: Tree, k: Path) {
    && (k in fs <==> k in idx)
    && (k in fs ==> exists i :: 0 <= i < |items| && ComesFrom(s, toStrm, items[i], idx, fs, k))
  }

  lemma {:induction false} ImageMirrors(s: Setup, toStrm: bool, idx0: Index, items: seq<CloudItem>, k: Path)
    requires Rooted(items) && k != [] && k !in idx0
    ensures Mirrored(s, toStrm, items, Indexed(s, toStrm, idx0, items), Image(s, toStrm, items), k)
    decreases |items|
  {
    if items != [] {
      var n := |items| - 1;
      var front, it := items[..n], items[n];
      assert Rooted(front);
      ImageMirrors(s, toStrm, idx0, front, k);
      var idx, fs := Indexed(s, toStrm, idx0, items), Image(s, toStrm, items);
      if k == IndexKey(s, toStrm, it) {
        assert items[n] == it;
      } else if k in fs {
        var i :| 0 <= i < |front|
          && ComesFrom(s, toStrm, front[i], Indexed(s, toStrm, idx0, front), Image(s, toStrm, front), k);
        assert items[i] == front[i];
      }
    }
  }

  /** A mirrored path is quiet unless it is a video kept as a plain file. */
  lemma MirroredVerdict(s: Setup, idx: Index, fs: Tree, it: CloudItem, k: Path)
    requires GoodItem(s, it) && ComesFrom(s, s.toStrm, it, idx, fs, k)
    ensures |k| > 0 && Listed(s, fs, k)
    ensures OpsAt(s, fs, idx, k) == [] <==> it.isDir || s.toStrm || !Video(s, it)
  {
    hide Ext, Lower, Stem, StrmName, IsStrm, OpsAt;
    StrmNameIsStrm(Base(it.path));
    if !it.isDir && Video(s, it) && s.toStrm {
      LinkVerdict(s, idx, fs, it, k);
    } else {
      PlainVerdict(s, idx, fs, it);
    }
  }

  lemma LinkVerdict(s: Setup, idx: Index, fs: Tree, it: CloudItem, k: Path)
    requires GoodItem(s, it) && ComesFrom(s, true, it, idx, fs, k)
    requires !it.isDir && Video(s, it) && |k| > 0 && IsStrm(Base(k)) && Listed(s, fs, k)
    ensures OpsAt(s, fs, idx, k) == []
  {
    hide Ext, Lower, Stem, StrmName;
  }

  lemma PlainVerdict(s: Setup, idx: Index, fs: Tree, it: CloudItem)
    requires GoodItem(s, it) && ComesFrom(s, s.toStrm, it, idx, fs, it.path)
    requires it.isDir || !Video(s, it) || !s.toStrm
    ensures Listed(s, fs, it.path)
    ensures OpsAt(s, fs, idx, it.path) == [] <==> it.isDir || !Video(s, it)
  {
    hide Ext, Lower, Stem, StrmName;
  }

  /** Cross-direction quiet. After indexing a cloud snapshot, planning over its local image asks
      for nothing exactly when links are generated or the snapshot shows no video: with link
      generation off every video is indexed as a link and would be sent again. The snapshot may
      hold several items of one path, and items below files. */
  lemma IndexedImageIsQuiet(s: Setup, idx0: Index, items: seq<CloudItem>)
    requires Rooted(items) && GoodItems(s, items)
    requires forall q :: q in idx0 ==> q == []
    ensures var idx, fs := Indexed(s, s.toStrm, idx0, items), Image(s, s.toStrm, items);
      PlanDir(s, fs, idx, []) == [] <==> s.toStrm || forall i :: 0 <= i < |items| ==> !ShowsVideo(s, items, i)
  {
    hide Image, Indexed, ShowsVideo, GoodItems, PlanDir, OpsAt;
    var idx, fs := Indexed(s, s.toStrm, idx0, items), Image(s, s.toStrm, items);
    if s.toStrm || forall i :: 0 <= i < |items| ==> !ShowsVideo(s, items, i) {
      forall p | InScope(s, fs, [], p) ensures OpsAt(s, fs, idx, p) == [] {
        ScopeIsQuiet(s, idx0, items, p);
      }
      QuietScanIsEmpty(s, fs, idx, []);
    } else {
      var i :| 0 <= i < |items| && ShowsVideo(s, items, i);
      PlainVideoIsLoud(s, idx0, items, i);
    }
  }

  lemma ScopeIsQuiet(s: Setup, idx0: Index, items: seq<CloudItem>, p: Path)
    requires Rooted(items) && GoodItems(s, items) && forall q :: q in idx0 ==> q == []
    requires s.toStrm || forall i :: 0 <= i < |items| ==> !ShowsVideo(s, items, i)
    requires |p| > 0 && InScope(s, Image(s, s.toStrm, items), [], p)
    ensures OpsAt(s, Image(s, s.toStrm, items), Indexed(s, s.toStrm, idx0, items), p) == []
  {
    hide Image, Indexed, ShowsVideo, OpsAt, GoodItem;
    var idx, fs := Indexed(s, s.toStrm, idx0, items), Image(s, s.toStrm, items);
    ImageMirrors(s, s.toStrm, idx0, items, p);
    if p !in fs {
      NothingAsks(s, fs, idx, p);
    } else if s.toStrm {
      var i :| 0 <= i < |items| && ComesFrom(s, s.toStrm, items[i], idx, fs, p);
      MirroredVerdict(s, idx, fs, items[i], p);
    } else {
      var i := LastEntry(s, idx0, items, p);
      ScopeIsReachable(s, idx0, items, p);
      assert !ShowsVideo(s, items, i);
      MirroredVerdict(s, idx, fs, items[i], p);
      HiddenIsNoVideo(s, items, i);
    }
  }

  lemma NothingAsks(s: Setup, fs: Tree, idx: Index, p: Path)
    requires |p| > 0 && p !in fs && p !in idx
    ensures OpsAt(s, fs, idx, p) == []
  {}

  lemma HiddenIsNoVideo(s: Setup, items: seq<CloudItem>, i: nat)
    requires Rooted(items) && LastAt(items, i) && Reachable(items, items[i].path) && !ShowsVideo(s, items, i)
    ensures items[i].isDir || !Video(s, items[i])
  {}

  /** With links off an entry of the image, and its record, are those of the last item of its path. */
  lemma {:induction false} LastEntry(s: Setup, idx0: Index, items: seq<CloudItem>, k: Path) returns (i: nat)
    requires Rooted(items) && !s.toStrm && k != [] && k !in idx0 && k in Image(s, s.toStrm, items)
    ensures LastAt(items, i) && items[i].path == k
    ensures ComesFrom(s, s.toStrm, items[i], Indexed(s, s.toStrm, idx0, items), Image(s, s.toStrm, items), k)
    decreases |items|
  {
    var n := |items| - 1;
    var front := items[..n];
    assert Rooted(front);
    if k == items[n].path {
      i := n;
    } else {
      i := LastEntry(s, idx0, front, k);
      assert items[i] == front[i] && forall j :: 0 <= j < n ==> items[j] == front[j];
    }
  }

  lemma {:induction false} PathIsInImage(s: Setup, items: seq<CloudItem>, i: nat)
    requires Rooted(items) && !s.toStrm && i < |items|
    ensures items[i].path in Image(s, s.toStrm, items)
    decreases |items|
  {
    var n := |items| - 1;
    var front := items[..n];
    assert Rooted(front);
    if i < n {
      assert front[i] == items[i];
      PathIsInImage(s, front, i);
    }
  }

  /** A folder of the image is a folder of the snapshot, and the other way round. */
  lemma FolderInImage(s: Setup, idx0: Index, items: seq<CloudItem>, p: Path)
    requires Rooted(items) && !s.toStrm && p != [] && p !in idx0
    ensures FolderAt(items, p) <==> IsDirAt(Image(s, s.toStrm, items), p)
    ensures IsDirAt(Image(s, s.toStrm, items), p) ==> Image(s, s.toStrm, items)[p].readable
  {
    hide Image, Indexed;
    if p in Image(s, s.toStrm, items) {
      var i := LastEntry(s, idx0, items, p);
      forall j: nat | LastAt(items, j) && items[j].path == p ensures j == i {}
    }
    if j: nat :| LastAt(items, j) && items[j].path == p && items[j].isDir { PathIsInImage(s, items, j); }
  }

  lemma ScopeIsReachable(s: Setup, idx0: Index, items: seq<CloudItem>, p: Path)
    requires Rooted(items) && !s.toStrm && forall q :: q in idx0 ==> q == []
    requires InScope(s, Image(s, s.toStrm, items), [], p)
    ensures Reachable(items, p)
  {
    hide Image;
    var d := Parent(p);
    forall k | 0 < k < |p| ensures FolderAt(items, p[..k]) {
      assert p[..k] == d[..k];
      FolderInImage(s, idx0, items, p[..k]);
    }
  }

  lemma ReachableIsInScope(s: Setup, idx0: Index, items: seq<CloudItem>, p: Path)
    requires Rooted(items) && GoodItems(s, items) && !s.toStrm && forall q :: q in idx0 ==> q == []
    requires |p| > 0 && Reachable(items, p)
    ensures InScope(s, Image(s, s.toStrm, items), [], p)
  {
    hide Image, StrmName, IsStrm;
    var fs, d := Image(s, s.toStrm, items), Parent(p);
    RootStays(s, items);
    forall k | 0 < k <= |d| ensures Listed(s, fs, d[..k]) && fs[d[..k]].Dir? {
      assert p[..k] == d[..k];
      FolderInImage(s, idx0, items, p[..k]);
      var j: nat :| LastAt(items, j) && items[j].path == p[..k] && items[j].isDir;
      assert GoodItem(s, items[j]);
    }
    assert d != [] ==> d == d[..|d|];
  }

  lemma PlainVideoIsLoud(s: Setup, idx0: Index, items: seq<CloudItem>, i: nat)
    requires Rooted(items) && GoodItems(s, items) && forall q :: q in idx0 ==> q == []
    requires !s.toStrm && i < |items| && ShowsVideo(s, items, i)
    ensures PlanDir(s, Image(s, s.toStrm, items), Indexed(s, s.toStrm, idx0, items), []) != []
  {
    hide Image, Indexed, PlanDir, OpsAt, LeftToVideo, GoodItem;
    var idx, fs := Indexed(s, s.toStrm, idx0, items), Image(s, s.toStrm, items);
    var p := items[i].path;
    PathIsInImage(s, items, i);
    var l := LastEntry(s, idx0, items, p);
    assert l == i;
    MirroredVerdict(s, idx, fs, items[i], p);
    ReachableIsInScope(s, idx0, items, p);
    AllReadable(s, idx0, items);
    ListedIsDecided(s, fs, idx, p);
    PlanDirComplete(s, fs, idx, [], p);
    assert OpsAt(s, fs, idx, p)[0] in OpsAt(s, fs, idx, p);
  }

  lemma {:induction false} RootStays(s: Setup, items: seq<CloudItem>)
    requires Rooted(items)
    ensures IsDirAt(Image(s, s.toStrm, items), []) && Image(s, s.toStrm, items)[[]].readable
    decreases |items|
  {
    if items != [] {
      assert Rooted(items[..|items| - 1]);
      RootStays(s, items[..|items| - 1]);
    }
  }

  lemma AllReadable(s: Setup, idx0: Index, items: seq<CloudItem>)
    requires Rooted(items) && forall q :: q in idx0 ==> q == []
    ensures !ScanFails(s, Image(s, s.toStrm, items), [])
  {
    var fs := Image(s, s.toStrm, items);
    RootStays(s, items);
    forall d | Scanned(s, fs, [], d) ensures fs[d].readable {
      if d != [] { ImageMirrors(s, s.toStrm, idx0, items, d); }
    }
  }
}
