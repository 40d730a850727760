/** What a local plan consists of, kind by kind: for every operation exactly when it is planned. The
    program goes the other way, from the state of a path to a list of operations. */
module Decisions {
  import opened Bytes
  import opened Records
  import opened Model
  import opened Plan

  /** The size from which a video is replaced by its link: 10 MiB. */
  predicate Large(size: int) {
    size >= 10_485_760
  }

  predicate LinkKnown(idx: Index, p: Path)
    requires |p| > 0
  {
    StrmKey(p) in idx && idx[StrmKey(p)].kind == KIND_STRM
  }

  /** An entry that the scan sees: neither excluded by its name nor the cache directory. */
  predicate Seen(s: Setup, fs: Tree, p: Path) {
    p != [] && p in fs && !s.rules.excluded(p[|p| - 1]) && !(s.excludeDir.Some? && s.excludeDir.value == p)
  }

  predicate LocalFile(s: Setup, fs: Tree, p: Path) {
    Seen(s, fs, p) && fs[p].File?
  }

  predicate LocalLink(s: Setup, fs: Tree, p: Path) {
    LocalFile(s, fs, p) && IsStrm(Base(p))
  }

  /** A file that links stand for, were it large enough. */
  predicate LocalVideo(s: Setup, fs: Tree, p: Path) {
    LocalFile(s, fs, p) && !IsStrm(Base(p)) && s.toStrm && s.rules.IsVideoExt(Base(p))
  }

  /** A file that is kept as it is: any but a link or a large video, and no small video either while
      the index has its link. */
  predicate LocalPlain(s: Setup, fs: Tree, idx: Index, p: Path) {
    && LocalFile(s, fs, p) && !IsStrm(Base(p))
    && (s.toStrm && s.rules.IsVideoExt(Base(p)) ==> !Large(fs[p].size) && !LinkKnown(idx, p))
  }

  predicate DescribesPlain(rec: Record, size: int) {
    rec.fid != "" && rec.kind == KIND_FILE && rec.size == size
  }

  /** The pickcode that a link's text leads to. */
  function CodeIn(s: Setup, text: string): string {
    s.links.parse(s.links.trim(text))
  }

  predicate DescribesLink(s: Setup, rec: Record, text: string) {
    rec.fid != "" && rec.kind == KIND_STRM && rec.pickCode == CodeIn(s, text)
  }

  /** The record at `p` does not describe what is there. */
  predicate Misfit(s: Setup, fs: Tree, idx: Index, p: Path) {
    var rec := RecAt(idx, p);
    && rec.fid != ""
    && (Seen(s, fs, p) && fs[p].Dir? ==> rec.kind != KIND_DIR)
    && !(Seen(s, fs, p) && fs[p].Unreadable?)
    && (LocalLink(s, fs, p) ==> CodeIn(s, fs[p].text) == "" || !DescribesLink(s, rec, fs[p].text))
    && (LocalFile(s, fs, p) && !IsStrm(Base(p)) ==> LocalPlain(s, fs, idx, p) && !DescribesPlain(rec, fs[p].size))
  }

  /** A local video whose link's key the index holds for something else. */
  predicate WrongKey(s: Setup, fs: Tree, idx: Index, x: Path, p: Path) {
    LocalVideo(s, fs, x) && StrmKey(x) == p && p in idx && idx[p].kind != KIND_STRM
  }

  predicate WantedUpload(s: Setup, fs: Tree, idx: Index, p: Path, op: Op)
    requires |p| > 0
  {
    || (LocalPlain(s, fs, idx, p) && !DescribesPlain(RecAt(idx, p), fs[p].size)
        && op == Op(Upload, p, fs[p].size, false, "", "", ""))
    || (LocalVideo(s, fs, p) && Large(fs[p].size)
        && op == Op(Upload, p, fs[p].size, true, "", "", if LinkKnown(idx, p) then idx[StrmKey(p)].fid else ""))
  }

  /** A clear names the FID of the record at its path; a recorded link is recycled, anything else
      deleted. */
  predicate WantedClear(s: Setup, fs: Tree, idx: Index, p: Path, op: Op) {
    var rec := RecAt(idx, op.path);
    && op == Op(if rec.kind == KIND_STRM then Retire else Drop, op.path, 0, false, rec.fid, "", "")
    && ((op.path == p && Misfit(s, fs, idx, p)) || WrongKey(s, fs, idx, p, op.path))
  }

  /** The planner wants this operation because of the path `p`. */
  ghost predicate Wanted(s: Setup, fs: Tree, idx: Index, p: Path, op: Op)
    requires |p| > 0
  {
    var rec := RecAt(idx, p);
    match op.kind
    case Mkdir =>
      && op == Op(Mkdir, p, 0, false, "", "", "")
      && Seen(s, fs, p) && fs[p].Dir? && !(rec.fid != "" && rec.kind == KIND_DIR)
    case Upload => WantedUpload(s, fs, idx, p, op)
    case Adopt =>
      && LocalLink(s, fs, p) && CodeIn(s, fs[p].text) != "" && !DescribesLink(s, rec, fs[p].text)
      && op == Op(Adopt, p, 0, false, "", CodeIn(s, fs[p].text), "")
    case Normalize =>
      && LocalLink(s, fs, p) && DescribesLink(s, rec, fs[p].text) && rec.pickCode != ""
      && !IsLinkText(s.links.strmURL, rec.pickCode, s.links.trim(fs[p].text))
      && op == Op(Normalize, p, 0, false, "", "", "")
    case Retire => WantedClear(s, fs, idx, p, op)
    case Drop => WantedClear(s, fs, idx, p, op)
    case Download => false
    case Archive => false
  }

  // ---- one decision ----

  function ClearOf(p: Path, rec: Record): Op {
    Op(if rec.kind == KIND_STRM then Retire else Drop, p, 0, false, rec.fid, "", "")
  }

  lemma PlainOps(p: Path, rec: Record, size: int, op: Op)
    ensures op in DecidePlain(p, rec, size) <==>
      !DescribesPlain(rec, size)
      && (op == Op(Upload, p, size, false, "", "", "") || (rec.fid != "" && op == ClearOf(p, rec)))
  {}

  lemma StrmOps(s: Setup, p: Path, rec: Record, text: string, op: Op)
    ensures var pc := CodeIn(s, text);
      op in DecideStrm(s, p, rec, text) <==>
        || (rec.fid != "" && (pc == "" || !DescribesLink(s, rec, text)) && op == ClearOf(p, rec))
        || (pc != "" && !DescribesLink(s, rec, text) && op == Op(Adopt, p, 0, false, "", pc, ""))
        || (pc != "" && DescribesLink(s, rec, text) && !IsLinkText(s.links.strmURL, pc, s.links.trim(text))
            && op == Op(Normalize, p, 0, false, "", "", ""))
  {
    hide Links.Content, IsLinkText;
    ContentIsLinkText(s.links, CodeIn(s, text), s.links.trim(text));
  }

  lemma VideoOps(s: Setup, idx: Index, p: Path, rec: Record, size: int, op: Op)
    requires |p| > 0 && s.rules.IsVideoExt(Base(p))
    ensures var key := StrmKey(p);
      op in DecideVideo(s, idx, p, rec, size) <==>
        || (key in idx && idx[key].kind != KIND_STRM && op == ClearOf(key, idx[key]))
        || (!Large(size) && !LinkKnown(idx, p) && op in DecidePlain(p, rec, size))
        || (Large(size) && op == Op(Upload, p, size, true, "", "", if LinkKnown(idx, p) then idx[key].fid else ""))
  {
    hide Ext, Lower, Stem, StrmName, DecidePlain;
  }

  lemma PlainDecision(s: Setup, fs: Tree, idx: Index, p: Path, op: Op)
    requires LocalFile(s, fs, p) && !IsStrm(Base(p)) && !(s.toStrm && s.rules.IsVideoExt(Base(p)))
    ensures op in OpsAt(s, fs, idx, p) <==> Wanted(s, fs, idx, p, op)
  {
    hide Ext, Lower, Stem, StrmName, IsStrm, DecidePlain, Rules.IsVideoExt;
    PlainOps(p, RecAt(idx, p), fs[p].size, op);
  }

  lemma LinkDecision(s: Setup, fs: Tree, idx: Index, p: Path, op: Op)
    requires LocalLink(s, fs, p)
    ensures op in OpsAt(s, fs, idx, p) <==> Wanted(s, fs, idx, p, op)
  {
    hide Ext, Lower, Stem, StrmName, IsStrm, DecideStrm, IsLinkText, Rules.IsVideoExt;
    StrmOps(s, p, RecAt(idx, p), fs[p].text, op);
  }

  lemma VideoDecision(s: Setup, fs: Tree, idx: Index, p: Path, op: Op)
    requires LocalVideo(s, fs, p)
    ensures op in OpsAt(s, fs, idx, p) <==> Wanted(s, fs, idx, p, op)
  {
    hide Ext, Lower, Stem, StrmName, IsStrm, DecideVideo, DecidePlain, Rules.IsVideoExt;
    VideoOps(s, idx, p, RecAt(idx, p), fs[p].size, op);
    PlainOps(p, RecAt(idx, p), fs[p].size, op);
  }

  lemma OtherDecision(s: Setup, fs: Tree, idx: Index, p: Path, op: Op)
    requires |p| > 0 && !LocalFile(s, fs, p)
    ensures op in OpsAt(s, fs, idx, p) <==> Wanted(s, fs, idx, p, op)
  {
    hide Ext, Lower, Stem, StrmName, IsStrm, Rules.IsVideoExt;
  }

  /** What the planner decides about a path is exactly what it wants because of it. */
  lemma DecidedExactly(s: Setup, fs: Tree, idx: Index, p: Path, op: Op)
    requires |p| > 0
    ensures op in OpsAt(s, fs, idx, p) <==> Wanted(s, fs, idx, p, op)
  {
    hide OpsAt, Wanted, IsStrm, Rules.IsVideoExt;
    if !LocalFile(s, fs, p) {
      OtherDecision(s, fs, idx, p, op);
    } else if IsStrm(Base(p)) {
      LinkDecision(s, fs, idx, p, op);
    } else if s.toStrm && s.rules.IsVideoExt(Base(p)) {
      VideoDecision(s, fs, idx, p, op);
    } else {
      PlainDecision(s, fs, idx, p, op);
    }
  }

  // ---- the whole plan ----

  ghost predicate WantedAt(s: Setup, fs: Tree, idx: Index, root: Path, p: Path, op: Op) {
    InScope(s, fs, root, p) && |p| > 0 && !LeftToVideo(s, fs, idx, p) && Wanted(s, fs, idx, p, op)
  }

  /** The plan holds exactly the operations wanted because of a path in scope; the key of a missing
      link is left to a local video of its stem. */
  lemma PlannedExactly(s: Setup, fs: Tree, idx: Index, root: Path, op: Op)
    requires !ScanFails(s, fs, root)
    ensures op in PlanDir(s, fs, idx, root) <==> exists p :: WantedAt(s, fs, idx, root, p, op)
  {
    hide PlanDir, OpsAt, Wanted, LeftToVideo, Scanned;
    if op in PlanDir(s, fs, idx, root) {
      var p := PlanDirSound(s, fs, idx, root, op);
      DecidedExactly(s, fs, idx, p, op);
      assert WantedAt(s, fs, idx, root, p, op);
    }
    if p :| WantedAt(s, fs, idx, root, p, op) {
      DecidedExactly(s, fs, idx, p, op);
      PlanDirComplete(s, fs, idx, root, p);
    }
  }

  /** What is excluded, or lies below something excluded, is never sent, adopted, rewritten or created. */
  lemma ExcludedIsLeftOut(s: Setup, fs: Tree, idx: Index, root: Path, op: Op, i: nat)
    requires op in PlanDir(s, fs, idx, root) && !IsClear(op) && |root| < i <= |op.path|
    ensures Seen(s, fs, op.path[..i])
  {
    hide PlanDir, OpsAt, LeftToVideo, IsStrm, Rules.IsVideoExt;
    var p := PlanDirSound(s, fs, idx, root, op);
    DecidedExactly(s, fs, idx, p, op);
    ListedIsSeen(s, fs, op.path[..i]);
    assert p[..|p|] == p;
    assert i < |p| ==> p[..i] == Parent(p)[..i];
  }

  /** A planned clear names the FID of the record at its path, and recycles it exactly when that record
      is a link: everything else is deleted for good. */
  lemma ClearsGoByKind(s: Setup, fs: Tree, idx: Index, root: Path, op: Op)
    requires op in PlanDir(s, fs, idx, root) && IsClear(op)
    ensures op.fid == RecAt(idx, op.path).fid
    ensures op.kind == Retire <==> RecAt(idx, op.path).kind == KIND_STRM
  {
    hide PlanDir, OpsAt, LeftToVideo, Misfit, WrongKey;
    var p := PlanDirSound(s, fs, idx, root, op);
    DecidedExactly(s, fs, idx, p, op);
  }

  /** A local video of this stem that the scan has not come to before: it is not indexed itself, or
      sorts after the link. */
  predicate Claims(s: Setup, fs: Tree, idx: Index, dir: Path, link: string, v: string) {
    && Seen(s, fs, dir + [v]) && !fs[dir + [v]].Dir? && s.rules.IsVideoExt(v) && Stem(v) == Stem(link)
    && !(dir + [v] in idx && Less(v, link))
  }

  lemma InSecond(a: seq<string>, b: seq<string>, i: nat)
    requires |a| <= i < |a + b|
    ensures (a + b)[i] in b
  {}

  lemma ConsumedBefore(s: Setup, fs: Tree, idx: Index, dir: Path, i: nat, v: string)
    requires i < |ScanNames(s, fs, idx, dir)| && ScanNames(s, fs, idx, dir)[i] in ChildNames(idx, dir)
    ensures v in Before(ScanNames(s, fs, idx, dir), i)
      <==> v in ChildNames(idx, dir) && Less(v, ScanNames(s, fs, idx, dir)[i])
  {
    hide Less, SortedSeq, ChildNames, Listing;
    var names := ScanNames(s, fs, idx, dir);
    var a, b := SortedSeq(ChildNames(idx, dir)), SortedSeq(Listing(s, fs, dir) - ChildNames(idx, dir));
    SortedSeqIsSorted(ChildNames(idx, dir));
    if i >= |a| { InSecond(a, b, i); }
    if v in names[..i] {
      var j :| 0 <= j < i && names[j] == v;
      assert a[j] in a;
    }
    if v in ChildNames(idx, dir) && Less(v, names[i]) {
      var j :| 0 <= j < |a| && a[j] == v;
      if j == i { LessIrreflexive(v); } else if i < j { LessAsymmetric(a[i], a[j]); }
      assert names[..i][j] == v;
    }
  }

  /** The key of a link is left to a video exactly when the link is not there, and such a video is. */
  lemma LeftExactly(s: Setup, fs: Tree, idx: Index, p: Path)
    requires |p| > 0 && p in idx
    ensures LeftToVideo(s, fs, idx, p) <==>
      s.toStrm && !Seen(s, fs, p) && IsStrm(Base(p)) && exists v :: Claims(s, fs, idx, Parent(p), Base(p), v)
  {
    hide Ext, Lower, Stem, IsStrm, Rules.IsVideoExt, Less, ScanNames, ChildNames, Listing, Before, Listed;
    var dir, n := Parent(p), Base(p);
    var names := ScanNames(s, fs, idx, dir);
    ListedIsSeen(s, fs, p);
    assert dir + [n] == p;
    InChildNames(idx, dir, n);
    InListing(s, fs, dir, n);
    ScanNamesDistinct(s, fs, idx, dir);
    var i :| 0 <= i < |names| && names[i] == n;
    forall v ensures Claims(s, fs, idx, dir, n, v) <==>
      v in Listing(s, fs, dir) - Before(names, i) && dir + [v] in fs && !fs[dir + [v]].Dir? && s.rules.IsVideoExt(v)
      && Stem(v) == Stem(n)
    {
      InListing(s, fs, dir, v);
      InChildNames(idx, dir, v);
      ConsumedBefore(s, fs, idx, dir, i, v);
      ListedIsSeen(s, fs, dir + [v]);
    }
    if s.toStrm && !Listed(s, fs, p) && Claimed(s, fs, dir, names, i) { assert ClaimedName(s, fs, idx, p, i); }
    if LeftToVideo(s, fs, idx, p) {
      var k :| ClaimedName(s, fs, idx, p, k);
      assert k == i;
    }
  }

  lemma ListedIsSeen(s: Setup, fs: Tree, p: Path)
    ensures Listed(s, fs, p) <==> Seen(s, fs, p)
  {}
}
