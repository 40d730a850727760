/** What a cloud snapshot does to a plan, to a round and to the index, said item by item. */
module CloudRounds {
  import opened Bytes
  import opened Records
  import opened Model
  import opened Apply
  import opened CloudSync

  // ---- the plan ----

  /** A video that is kept as a link. */
  predicate AsLink(s: Setup, toStrm: bool, it: CloudItem)
    requires |it.path| > 0
  {
    toStrm && !it.isDir && (it.isVideo || s.rules.IsVideoExt(Base(it.path)))
  }

  function PlaceOf(s: Setup, toStrm: bool, it: CloudItem): Path
    requires |it.path| > 0
  {
    if AsLink(s, toStrm, it) then Parent(it.path) + [StrmName(Base(it.path))] else it.path
  }

  predicate TopFolder(it: CloudItem) {
    it.isDir && |it.path| == 1
  }

  /** The planner wants this operation because of the item. */
  predicate WantedFor(s: Setup, cfg: CloudCfg, fs: Tree, idx: Index, it: CloudItem, op: Op)
    requires |it.path| > 0
  {
    var p := PlaceOf(s, cfg.toStrm, it);
    match op.kind
    case Download =>
      && !it.isDir && !Exists(fs, p) && p !in idx
      && op == Op(Download, p, it.size, AsLink(s, cfg.toStrm, it), it.fid, it.pickCode, "")
    case Drop =>
      && !it.isDir && Exists(fs, p) && p in idx && idx[p].fid != it.fid && cfg.dropStale
      && op == Op(Drop, p, 0, false, it.fid, "", "")
    case Archive => TopFolder(it) && cfg.archive && op == Op(Archive, it.path, 0, false, it.fid, "", "")
    case _ => false
  }

  lemma ItemWants(s: Setup, cfg: CloudCfg, fs: Tree, idx: Index, it: CloudItem, op: Op)
    requires |it.path| > 0
    ensures op.kind != Archive ==> (op in OpsForItem(s, cfg, fs, idx, it) <==> WantedFor(s, cfg, fs, idx, it, op))
    ensures op in OpsForItem(s, cfg, fs, idx, it) ==> op.kind != Archive
  {
    hide Stem, Ext, Lower, Exists;
  }

  /** Operation `k` of the plan is wanted because of item `at[k]`. */
  ghost predicate PlannedFor(s: Setup, cfg: CloudCfg, fs: Tree, idx: Index, items: seq<CloudItem>, ops: seq<Op>,
      at: seq<nat>)
    requires Rooted(items)
  {
    && |at| == |ops|
    && forall k :: 0 <= k < |ops| ==> at[k] < |items| && WantedFor(s, cfg, fs, idx, items[at[k]], ops[k])
  }

  /** First what the files ask for, then the folders to archive, each in the order of the snapshot and
      each item once. */
  ghost predicate InSnapshotOrder(ops: seq<Op>, at: seq<nat>)
    requires |at| == |ops|
  {
    forall k, l :: 0 <= k < l < |ops| ==>
      && (ops[k].kind == Archive ==> ops[l].kind == Archive)
      && ((ops[k].kind == Archive <==> ops[l].kind == Archive) ==> at[k] < at[l])
  }

  /** One more item, with at most one operation of the kinds that are there. */
  lemma OneMorePlanned(s: Setup, cfg: CloudCfg, fs: Tree, idx: Index, items: seq<CloudItem>, ops: seq<Op>,
      at: seq<nat>, own: seq<Op>)
    requires Rooted(items) && items != [] && Rooted(items[..|items| - 1]) && |own| <= 1
    requires PlannedFor(s, cfg, fs, idx, items[..|items| - 1], ops, at) && InSnapshotOrder(ops, at)
    requires forall op :: op in own ==> WantedFor(s, cfg, fs, idx, items[|items| - 1], op)
    requires forall o, op :: o in ops && op in own ==> (o.kind == Archive <==> op.kind == Archive)
    ensures var at2 := at + (if own == [] then [] else [|items| - 1]);
      PlannedFor(s, cfg, fs, idx, items, ops + own, at2) && InSnapshotOrder(ops + own, at2)
  {
    hide WantedFor;
    var front := items[..|items| - 1];
    assert forall k :: 0 <= k < |at| ==> front[at[k]] == items[at[k]];
    if own != [] {
      assert own[0] in own && ops + own == ops + [own[0]];
      assert forall k :: 0 <= k < |ops| ==> ops[k] in ops;
    } else {
      assert ops + own == ops;
    }
  }

  lemma {:induction false} FilesInOrder(s: Setup, cfg: CloudCfg, fs: Tree, idx: Index, items: seq<CloudItem>)
    returns (at: seq<nat>)
    requires Rooted(items)
    ensures var ops := OpsForItems(s, cfg, fs, idx, items);
      && PlannedFor(s, cfg, fs, idx, items, ops, at) && InSnapshotOrder(ops, at)
      && forall op :: op in ops ==> op.kind != Archive
    decreases |items|
  {
    hide OpsForItem, WantedFor, PlannedFor, InSnapshotOrder;
    if items == [] {
      at := [];
      EmptyPlan(s, cfg, fs, idx);
    } else {
      var n := |items| - 1;
      assert Rooted(items[..n]);
      var at0 := FilesInOrder(s, cfg, fs, idx, items[..n]);
      var own := OpsForItem(s, cfg, fs, idx, items[n]);
      AtMostOne(s, cfg, fs, idx, items[n]);
      forall op | op in own ensures op.kind != Archive && WantedFor(s, cfg, fs, idx, items[n], op) {
        ItemWants(s, cfg, fs, idx, items[n], op);
      }
      OneMorePlanned(s, cfg, fs, idx, items, OpsForItems(s, cfg, fs, idx, items[..n]), at0, own);
      at := at0 + (if own == [] then [] else [n]);
    }
  }

  lemma EmptyPlan(s: Setup, cfg: CloudCfg, fs: Tree, idx: Index)
    ensures PlannedFor(s, cfg, fs, idx, [], [], []) && InSnapshotOrder([], [])
  {}

  lemma AtMostOne(s: Setup, cfg: CloudCfg, fs: Tree, idx: Index, it: CloudItem)
    requires |it.path| > 0
    ensures |OpsForItem(s, cfg, fs, idx, it)| <= 1
  {
    hide Stem, Ext, Lower, Exists;
  }

  function ArchiveOf(it: CloudItem): seq<Op> {
    if TopFolder(it) then [Op(Archive, it.path, 0, false, it.fid, "", "")] else []
  }

  lemma OneMoreArchive(items: seq<CloudItem>)
    requires items != []
    ensures ArchiveOps(items) == ArchiveOps(items[..|items| - 1]) + ArchiveOf(items[|items| - 1])
  {}

  lemma ArchiveWanted(s: Setup, cfg: CloudCfg, fs: Tree, idx: Index, it: CloudItem, op: Op)
    requires |it.path| > 0 && cfg.archive
    ensures op in ArchiveOf(it) <==> op.kind == Archive && WantedFor(s, cfg, fs, idx, it, op)
  {
    hide StrmName;
  }

  lemma {:induction false} FoldersInOrder(s: Setup, cfg: CloudCfg, fs: Tree, idx: Index, items: seq<CloudItem>)
    returns (at: seq<nat>)
    requires Rooted(items) && cfg.archive
    ensures var ops := ArchiveOps(items);
      && PlannedFor(s, cfg, fs, idx, items, ops, at) && InSnapshotOrder(ops, at)
      && forall op :: op in ops ==> op.kind == Archive
    decreases |items|
  {
    hide WantedFor, PlannedFor, InSnapshotOrder, ArchiveOf;
    if items == [] {
      at := [];
      EmptyPlan(s, cfg, fs, idx);
    } else {
      var n := |items| - 1;
      assert Rooted(items[..n]);
      var at0 := FoldersInOrder(s, cfg, fs, idx, items[..n]);
      var own := ArchiveOf(items[n]);
      OneMoreArchive(items);
      OneArchive(items[n]);
      forall op | op in own ensures op.kind == Archive && WantedFor(s, cfg, fs, idx, items[n], op) {
        ArchiveWanted(s, cfg, fs, idx, items[n], op);
      }
      OneMorePlanned(s, cfg, fs, idx, items, ArchiveOps(items[..n]), at0, own);
      at := at0 + (if own == [] then [] else [n]);
    }
  }

  lemma OneArchive(it: CloudItem)
    ensures |ArchiveOf(it)| <= 1
  {}

  lemma {:induction false} ArchivesFrom(items: seq<CloudItem>, op: Op, i: nat)
    requires i < |items| && op in ArchiveOf(items[i])
    ensures op in ArchiveOps(items)
    decreases |items|
  {
    hide ArchiveOf;
    OneMoreArchive(items);
    if i < |items| - 1 {
      assert items[..|items| - 1][i] == items[i];
      ArchivesFrom(items[..|items| - 1], op, i);
    }
  }

  lemma JoinPlans(s: Setup, cfg: CloudCfg, fs: Tree, idx: Index, items: seq<CloudItem>, a: seq<Op>, at: seq<nat>,
      b: seq<Op>, bt: seq<nat>)
    requires Rooted(items) && PlannedFor(s, cfg, fs, idx, items, a, at) && PlannedFor(s, cfg, fs, idx, items, b, bt)
    requires InSnapshotOrder(a, at) && InSnapshotOrder(b, bt)
    requires (forall op :: op in a ==> op.kind != Archive) && forall op :: op in b ==> op.kind == Archive
    ensures PlannedFor(s, cfg, fs, idx, items, a + b, at + bt) && InSnapshotOrder(a + b, at + bt)
  {
    hide WantedFor;
    assert (forall k :: 0 <= k < |a| ==> a[k] in a) && forall k :: 0 <= k < |b| ==> b[k] in b;
  }

  /** The plan of a snapshot: every operation is wanted because of an item, everything wanted is there,
      files come before the folders to archive, and both are in the order of the snapshot. */
  lemma CloudPlanExactly(s: Setup, cfg: CloudCfg, fs: Tree, idx: Index, items: seq<CloudItem>) returns (at: seq<nat>)
    requires Rooted(items)
    ensures var ops := PlanCloud(s, cfg, fs, idx, items);
      && PlannedFor(s, cfg, fs, idx, items, ops, at) && InSnapshotOrder(ops, at)
      && forall i, op: Op :: 0 <= i < |items| && WantedFor(s, cfg, fs, idx, items[i], op) ==> op in ops
  {
    hide OpsForItem, OpsForItems, ArchiveOps, WantedFor, PlannedFor, InSnapshotOrder;
    var files, folders := OpsForItems(s, cfg, fs, idx, items), ArchiveOps(items);
    at := FilesInOrder(s, cfg, fs, idx, items);
    if cfg.archive {
      var more := FoldersInOrder(s, cfg, fs, idx, items);
      JoinPlans(s, cfg, fs, idx, items, files, at, folders, more);
      at := at + more;
    } else {
      assert files + [] == files;
    }
    forall i, op: Op | 0 <= i < |items| && WantedFor(s, cfg, fs, idx, items[i], op)
      ensures op in PlanCloud(s, cfg, fs, idx, items)
    {
      WantedIsPlanned(s, cfg, fs, idx, items, i, op);
    }
  }

  lemma WantedIsPlanned(s: Setup, cfg: CloudCfg, fs: Tree, idx: Index, items: seq<CloudItem>, i: nat, op: Op)
    requires Rooted(items) && i < |items| && WantedFor(s, cfg, fs, idx, items[i], op)
    ensures op in PlanCloud(s, cfg, fs, idx, items)
  {
    hide OpsForItem, OpsForItems, ArchiveOps, WantedFor, ArchiveOf;
    if op.kind == Archive {
      ArchiveIsOn(s, cfg, fs, idx, items[i], op);
      ArchiveWanted(s, cfg, fs, idx, items[i], op);
      ArchivesFrom(items, op, i);
    } else {
      ItemWants(s, cfg, fs, idx, items[i], op);
      PlannedOnce(s, cfg, fs, idx, items, op);
    }
  }

  lemma ArchiveIsOn(s: Setup, cfg: CloudCfg, fs: Tree, idx: Index, it: CloudItem, op: Op)
    requires |it.path| > 0 && op.kind == Archive && WantedFor(s, cfg, fs, idx, it, op)
    ensures cfg.archive
  {}

  // ---- the round ----

  /** The items that are archived when the round ends: folders directly below the root, with a FID. */
  function Archived(cfg: CloudCfg, items: seq<CloudItem>): set<nat> {
    set i | 0 <= i < |items| && cfg.archive && TopFolder(items[i]) && items[i].fid != "" :: i
  }

  function FidsOf(items: seq<CloudItem>, at: set<nat>): set<string>
    requires forall i :: i in at ==> i < |items|
  {
    set i | i in at :: items[i].fid
  }

  lemma {:induction false} ArchiveFidsConcat(a: seq<Op>, b: seq<Op>)
    ensures ArchiveFids(a + b) == ArchiveFids(a) + ArchiveFids(b)
    decreases |a|
  {
    if a == [] {
      assert a + b == b;
    } else {
      assert (a + b)[1..] == a[1..] + b;
      ArchiveFidsConcat(a[1..], b);
    }
  }

  lemma {:induction false} ArchiveFidsOfPhase(ops: seq<Op>, k: nat)
    ensures ArchiveFids(OfPhase(ops, k)) == if k == 4 then ArchiveFids(ops) else []
  {
    if ops != [] {
      ArchiveFidsOfPhase(ops[1..], k);
      var head := if ops[0].kind.Phase() == k then [ops[0]] else [];
      ArchiveFidsConcat(head, OfPhase(ops[1..], k));
      assert head != [] ==> head[1..] == [];
    }
  }

  lemma SortingKeepsArchives(ops: seq<Op>)
    ensures ArchiveFids(SortByPhase(ops)) == ArchiveFids(ops)
  {
    hide OfPhase, ArchiveFids;
    var a, b, c, d, e := OfPhase(ops, 0), OfPhase(ops, 1), OfPhase(ops, 2), OfPhase(ops, 3), OfPhase(ops, 4);
    ArchiveFidsConcat(a + b + c + d, e);
    ArchiveFidsConcat(a + b + c, d);
    ArchiveFidsConcat(a + b, c);
    ArchiveFidsConcat(a, b);
    ArchiveFidsOfPhase(ops, 0);
    ArchiveFidsOfPhase(ops, 1);
    ArchiveFidsOfPhase(ops, 2);
    ArchiveFidsOfPhase(ops, 3);
    ArchiveFidsOfPhase(ops, 4);
  }

  lemma {:induction false} NoArchiveFids(ops: seq<Op>)
    requires forall op :: op in ops ==> op.kind != Archive
    ensures ArchiveFids(ops) == []
  {
    if ops != [] {
      assert ops[0] in ops && forall op :: op in ops[1..] ==> op in ops;
      NoArchiveFids(ops[1..]);
    }
  }

  ghost function Among(fids: seq<string>): set<string> {
    set f | f in fids
  }

  lemma {:induction false} ArchivedFids(cfg: CloudCfg, items: seq<CloudItem>)
    requires cfg.archive
    ensures var fids := ArchiveFids(ArchiveOps(items));
      |fids| == |Archived(cfg, items)| && Among(fids) == FidsOf(items, Archived(cfg, items))
    decreases |items|
  {
    hide ArchiveOps, ArchiveFids, Archived, FidsOf, Among, ArchiveOf;
    if items == [] {
      NoneArchived(cfg);
    } else {
      var n := |items| - 1;
      ArchivedFids(cfg, items[..n]);
      OneMoreArchive(items);
      ArchiveFidsConcat(ArchiveOps(items[..n]), ArchiveOf(items[n]));
      OwnFid(items[n]);
      OneMoreArchived(cfg, items);
      AmongConcat(ArchiveFids(ArchiveOps(items[..n])), ArchiveFids(ArchiveOf(items[n])));
    }
  }

  lemma NoneArchived(cfg: CloudCfg)
    ensures ArchiveFids(ArchiveOps([])) == [] && Archived(cfg, []) == {} && Among([]) == FidsOf([], {})
  {}

  lemma OwnFid(it: CloudItem)
    ensures ArchiveFids(ArchiveOf(it)) == if TopFolder(it) && it.fid != "" then [it.fid] else []
  {
    assert ArchiveOf(it) != [] ==> ArchiveOf(it)[1..] == [];
  }

  lemma AmongConcat(a: seq<string>, b: seq<string>)
    ensures Among(a + b) == Among(a) + Among(b) && Among([]) == {} && forall f :: Among([f]) == {f}
  {}

  lemma OneMoreArchived(cfg: CloudCfg, items: seq<CloudItem>)
    requires items != [] && cfg.archive
    ensures var n := |items| - 1;
      var (was, last) := (Archived(cfg, items[..n]), if TopFolder(items[n]) && items[n].fid != "" then {n} else {});
      && n !in was && Archived(cfg, items) == was + last
      && FidsOf(items, Archived(cfg, items)) == FidsOf(items[..n], was) + (if last == {} then {} else {items[n].fid})
  {
    var n := |items| - 1;
    assert forall i :: 0 <= i < n ==> items[i] == items[..n][i];
  }

  /** A download round ends with one call that recycles the archived folders, exactly when there is
      one; if it is accepted they all are counted. The rest of the round is as without it. */
  lemma ArchivesAtTheEnd(c: Cloud, t: Task, w: World, cfg: CloudCfg, fs: Tree, idx: Index, items: seq<CloudItem>)
    requires Rooted(items)
    ensures var plan := PlanCloud(t.setup, cfg, fs, idx, items);
      && BelowRoot(plan) && BelowRoot(SortByPhase(plan))
      && var (w1, folders) := (Run(c, t, w, SortByPhase(plan)), Archived(cfg, items));
         var (w2, ok) := ApplyOps(c, t, w, plan);
         && (folders == {} ==> w2 == w1 && ok)
         && (folders != {} ==>
               && w2.asked == w1.asked + [Move(FidsOf(items, folders), t.tempFid)] && ok == c.accept(w1.calls)
               && w2.stats == w1.stats.(deleted := w1.stats.deleted + if ok then |folders| else 0)
               && w2 == w1.(calls := w1.calls + 1, asked := w2.asked, stats := w2.stats))
  {
    hide PlanCloud, Run, SortByPhase, ArchiveFids, Archived, FidsOf;
    var plan := PlanCloud(t.setup, cfg, fs, idx, items);
    PlanIsBelowRoot(t.setup, cfg, fs, idx, items);
    SortingKeepsArchives(plan);
    PlannedArchives(t.setup, cfg, fs, idx, items);
  }

  lemma PlannedArchives(s: Setup, cfg: CloudCfg, fs: Tree, idx: Index, items: seq<CloudItem>)
    requires Rooted(items)
    ensures var fids := ArchiveFids(PlanCloud(s, cfg, fs, idx, items));
      |fids| == |Archived(cfg, items)| && Among(fids) == FidsOf(items, Archived(cfg, items))
  {
    hide OpsForItems, ArchiveOps, ArchiveFids, PlannedFor, InSnapshotOrder;
    var files := OpsForItems(s, cfg, fs, idx, items);
    var at := FilesInOrder(s, cfg, fs, idx, items);
    NoArchiveFids(files);
    ArchiveFidsConcat(files, ArchiveOps(items));
    if cfg.archive {
      ArchivedFids(cfg, items);
      assert [] + ArchiveFids(ArchiveOps(items)) == ArchiveFids(ArchiveOps(items));
    } else {
      assert files + [] == files && Archived(cfg, items) == {};
    }
  }

  lemma PlanIsBelowRoot(s: Setup, cfg: CloudCfg, fs: Tree, idx: Index, items: seq<CloudItem>)
    requires Rooted(items)
    ensures BelowRoot(PlanCloud(s, cfg, fs, idx, items)) && BelowRoot(SortByPhase(PlanCloud(s, cfg, fs, idx, items)))
  {
    hide PlanCloud, SortByPhase;
    var plan := PlanCloud(s, cfg, fs, idx, items);
    var at := CloudPlanExactly(s, cfg, fs, idx, items);
    forall op | op in plan ensures |op.path| > 0 {
      var k :| 0 <= k < |plan| && plan[k] == op;
      WantedBelowRoot(s, cfg, fs, idx, items[at[k]], op);
    }
  }

  lemma WantedBelowRoot(s: Setup, cfg: CloudCfg, fs: Tree, idx: Index, it: CloudItem, op: Op)
    requires |it.path| > 0 && WantedFor(s, cfg, fs, idx, it, op)
    ensures |op.path| > 0
  {
    hide StrmName;
  }

  // ---- the index ----

  /** The last item that is stored under its key. */
  predicate LastUnder(s: Setup, toStrm: bool, items: seq<CloudItem>, i: nat)
    requires forall j :: 0 <= j < |items| ==> |items[j].path| > 0
  {
    i < |items| && forall j :: i < j < |items| ==> PlaceOf(s, toStrm, items[j]) != PlaceOf(s, toStrm, items[i])
  }

  /** The record of an item: its own FID, for a file its pickcode and size too. */
  predicate RecordsItem(s: Setup, r: Record, it: CloudItem)
    requires |it.path| > 0
  {
    && r.fid == it.fid
    && (it.isDir ==> r.kind == KIND_DIR)
    && (!it.isDir ==> r.pickCode == it.pickCode && r.size == it.size
                      && r.kind == if it.isVideo || s.rules.IsVideoExt(Base(it.path)) then KIND_STRM else KIND_FILE)
  }

  /** Indexing a snapshot records every item that is the last under its key, and touches no key that
      is none of an item. */
  lemma {:induction false} IndexedExactly(s: Setup, toStrm: bool, idx0: Index, items: seq<CloudItem>, i: nat, k: Path)
    requires Rooted(items)
    ensures var idx := Indexed(s, toStrm, idx0, items);
      && (LastUnder(s, toStrm, items, i) ==>
            PlaceOf(s, toStrm, items[i]) in idx && RecordsItem(s, idx[PlaceOf(s, toStrm, items[i])], items[i]))
      && ((forall j :: 0 <= j < |items| ==> PlaceOf(s, toStrm, items[j]) != k) ==>
            (k in idx <==> k in idx0) && RecAt(idx, k) == RecAt(idx0, k))
    decreases |items|
  {
    hide StrmName, Rules.IsVideoExt, PlaceOf, RecordsItem, IndexRecord, IndexKey;
    if items != [] {
      var n := |items| - 1;
      var front := items[..n];
      assert Rooted(front) && forall j :: 0 <= j < n ==> items[j] == front[j];
      IndexedExactly(s, toStrm, idx0, front, i, k);
      OneRecord(s, toStrm, items[n]);
    }
  }

  lemma OneRecord(s: Setup, toStrm: bool, it: CloudItem)
    requires |it.path| > 0
    ensures IndexKey(s, toStrm, it) == PlaceOf(s, toStrm, it) && RecordsItem(s, IndexRecord(s, it), it)
  {
    hide StrmName, Rules.IsVideoExt;
  }

  /** Every folder on the way is in the snapshot, stored last under its key and with a FID. */
  ghost predicate FoldersKnown(s: Setup, toStrm: bool, items: seq<CloudItem>, p: Path)
    requires Rooted(items)
  {
    forall k :: 0 < k <= |p| ==> exists j: nat :: FolderKnown(s, toStrm, items, p[..k], j)
  }

  predicate FolderKnown(s: Setup, toStrm: bool, items: seq<CloudItem>, q: Path, j: nat)
    requires forall i :: 0 <= i < |items| ==> |items[i].path| > 0
  {
    LastUnder(s, toStrm, items, j) && items[j].isDir && items[j].path == q && items[j].fid != ""
  }

  /** After indexing a snapshot, a folder of it is found without a call, and it is that very folder. */
  lemma IndexedFoldersAreFound(c: Cloud, t: Task, w: World, toStrm: bool, idx0: Index, items: seq<CloudItem>, i: nat)
    requires Rooted(items) && w.idx == Indexed(t.setup, toStrm, idx0, items)
    requires i < |items| && FolderKnown(t.setup, toStrm, items, items[i].path, i)
    requires FoldersKnown(t.setup, toStrm, items, items[i].path)
    ensures EnsureDir(c, t, w, items[i].path) == (w, Some(items[i].fid))
  {
    hide Indexed, EnsureFrom, StrmName, Rules.IsVideoExt;
    var p := items[i].path;
    forall k | 0 < k <= |p| ensures RecAt(w.idx, p[..k]).fid != "" {
      var j: nat :| FolderKnown(t.setup, toStrm, items, p[..k], j);
      IndexedExactly(t.setup, toStrm, idx0, items, j, []);
    }
    IndexedExactly(t.setup, toStrm, idx0, items, i, []);
    KnownNeedsNoCall(c, w, p, 0, t.cloudFid);
  }
}
