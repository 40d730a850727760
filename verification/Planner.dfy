/** The scan as the program runs it (internal/mirror/plan.go): a planner object that remembers
    the first fatal error, and loops that consume the directory listing name by name. */
module Planning {
  import opened Bytes
  import opened Records
  import opened Model
  import opened Plan

  /** `slices.Sorted` and the cursor order of `Children`. */
  method SortNames(names: set<string>) returns (r: seq<string>)
    ensures r == SortedSeq(names)
  {
    hide Less;
    r := [];
    var rest := names;
    while rest != {}
      invariant rest <= names && Sorted(r)
      invariant forall x :: x in names <==> x in rest || x in r
      invariant forall x, y :: x in r && y in rest ==> Less(x, y)
      decreases |rest|
    {
      var m := TakeLeast(rest);
      forall y | y in rest - {m} ensures Less(m, y) {}
      r, rest := r + [m], rest - {m};
    }
    SortedSeqIsSorted(names);
    SortedUnique(r, SortedSeq(names));
  }

  method TakeLeast(s: set<string>) returns (m: string)
    requires s != {}
    ensures m in s && forall x :: x in s ==> x == m || Less(m, x)
  {
    hide Less;
    m :| m in s;
    var rest := s - {m};
    while rest != {}
      invariant m in s && rest <= s && m !in rest
      invariant forall x :: x in s ==> x == m || Less(m, x) || x in rest
      decreases |rest|
    {
      var x :| x in rest;
      rest := rest - {x};
      LessTotal(m, x);
      if Less(x, m) {
        forall y | y in s && Less(m, y) ensures Less(x, y) { LessTransitive(x, m, y); }
        m := x;
      }
    }
  }

  /** `coveredByLocal`: look for a video of the same stem among the names not yet consumed. */
  method CoveredByLocal(s: Setup, fs: Tree, dir: Path, name: string, entries: set<string>) returns (r: bool)
    ensures r == Covered(s, fs, dir, name, entries)
  {
    hide Ext, Lower, Stem;
    if !s.toStrm || !IsStrm(name) { return false; }
    var rest := entries;
    while rest != {}
      invariant rest <= entries
      invariant forall v :: v in entries - rest ==>
        !(dir + [v] in fs && !fs[dir + [v]].Dir? && s.rules.IsVideoExt(v) && Stem(v) == Stem(name))
      decreases |rest|
    {
      var v :| v in rest;
      rest := rest - {v};
      if dir + [v] in fs && !fs[dir + [v]].Dir? && s.rules.IsVideoExt(v) && Stem(v) == Stem(name) {
        return true;
      }
    }
    return false;
  }

  // ---- where a scan fails ----

  /** The scan of `dir` meets a directory it cannot read, or `dir` is no directory at all. */
  ghost predicate Fails(s: Setup, fs: Tree, dir: Path) {
    dir in fs && (!fs[dir].Dir? || ScanFails(s, fs, dir))
  }

  ghost predicate ChildFails(s: Setup, fs: Tree, dir: Path, n: string) {
    Listed(s, fs, dir + [n]) && fs[dir + [n]].Dir? && ScanFails(s, fs, dir + [n])
  }

  lemma ChildFailureIsMine(s: Setup, fs: Tree, dir: Path, n: string)
    requires IsDirAt(fs, dir) && ChildFails(s, fs, dir, n)
    ensures ScanFails(s, fs, dir)
  {
    if !ScanFails(s, fs, dir) {
      ChildScanned(s, fs, dir, n);
      ReadableBelow(s, fs, dir, dir + [n]);
    }
  }

  lemma FailureHasACause(s: Setup, fs: Tree, dir: Path)
    requires IsDirAt(fs, dir) && fs[dir].readable && ScanFails(s, fs, dir)
    ensures exists n :: n in Listing(s, fs, dir) && ChildFails(s, fs, dir, n)
  {
    var d :| Scanned(s, fs, dir, d) && !fs[d].readable;
    assert d != dir;
    var n := d[|dir|];
    var q := dir + [n];
    assert d[..|dir| + 1] == q;
    InListing(s, fs, dir, n);
    forall i | |q| < i <= |d| ensures Listed(s, fs, d[..i]) && fs[d[..i]].Dir? {}
    assert Scanned(s, fs, q, d);
    assert ChildFails(s, fs, dir, n);
  }

  class Planner {
    const s: Setup
    const fs: Tree
    const idx: Index
    var err: bool

    constructor (s: Setup, fs: Tree, idx: Index)
      ensures this.s == s && this.fs == fs && this.idx == idx && !err
    {
      this.s, this.fs, this.idx, err := s, fs, idx, false;
    }

    /** `PlanLocal`: the operations, or an error exactly when the scan meets an unreadable
        directory. */
    method PlanLocal(root: Path) returns (ops: seq<Op>)
      requires !err
      modifies this
      ensures err <==> Fails(s, fs, root)
      ensures !err ==> ops == PlanDir(s, fs, idx, root)
    {
      ops := ScanDir(root);
    }

    /** `PlanFile`: a path that is gone is decided as missing, one that cannot be examined is an
        error, and everything else gets the answer a full scan gives at a listed path. What goes
        wrong during the descent is not reported. */
    method PlanFile(path: Path) returns (r: Option<seq<Op>>)
      requires !err && |path| > 0
      modifies this
      ensures r.None? <==> path in fs && fs[path].Unreadable?
      ensures path !in fs ==> r == Some(DecideMissing(path, RecAt(idx, path)))
      ensures r.Some? && Listed(s, fs, path) && !err ==> r.value == PlanAt(s, fs, idx, path)
      ensures r.Some? && path in fs && !err ==>
        r.value == Decide(s, idx, path, RecAt(idx, path), Some(fs[path]))
          + (if fs[path].Dir? then PlanDir(s, fs, idx, path) else [])
      ensures err ==> path in fs && fs[path].Dir? && ScanFails(s, fs, path)
    {
      if path !in fs {
        return Some(DecideMissing(path, RecAt(idx, path)));
      }
      if fs[path].Unreadable? { return None; }
      var ops := DecidePath(path, RecAt(idx, path), Some(fs[path]));
      return Some(ops);
    }

    /** `decide`, with the descent into a directory. */
    method DecidePath(path: Path, rec: Record, e: Option<Entry>) returns (ops: seq<Op>)
      requires |path| > 0 && rec == RecAt(idx, path) && (e.Some? ==> path in fs && e.value == fs[path])
      modifies this
      ensures old(err) ==> err
      ensures !old(err) && err ==> e.Some? && e.value.Dir? && ScanFails(s, fs, path)
      ensures !err && e.Some? && e.value.Dir? ==> !ScanFails(s, fs, path)
      ensures !err ==>
        ops == Decide(s, idx, path, rec, e) + (if e.Some? && e.value.Dir? then PlanDir(s, fs, idx, path) else [])
      decreases Below(fs, Parent(path)), 0, 0
    {
      ops := Decide(s, idx, path, rec, e);
      if e.Some? && e.value.Dir? {
        assert path in Below(fs, Parent(path)) && path !in Below(fs, path);
        var below := ScanDir(path);
        ops := ops + below;
      }
    }

    /** `planDir`. */
    method ScanDir(dir: Path) returns (ops: seq<Op>)
      modifies this
      ensures old(err) ==> err
      ensures !old(err) ==> (err <==> Fails(s, fs, dir))
      ensures !err ==> ops == PlanDir(s, fs, idx, dir)
      decreases Below(fs, dir), 1
    {
      ops := [];
      if err { return; }
      if dir !in fs { return; }
      if !fs[dir].Dir? || !fs[dir].readable {
        err := true;
        assert fs[dir].Dir? ==> Scanned(s, fs, dir, dir);
        return;
      }
      var listing := Listing(s, fs, dir);
      var entries;
      ops, entries := ScanChildren(dir, listing);
      ops := ScanRest(dir, entries, ops);
      if !err && ScanFails(s, fs, dir) { FailureHasACause(s, fs, dir); }
    }

    /** The first loop of `planDir`: index children in order; consumed names leave `entries`. */
    method ScanChildren(dir: Path, listing: set<string>) returns (ops: seq<Op>, entries: set<string>)
      requires IsDirAt(fs, dir) && !err && listing == Listing(s, fs, dir)
      modifies this
      ensures entries == listing - ChildNames(idx, dir)
      ensures Progress(s, fs, idx, dir, ScanNames(s, fs, idx, dir), |ChildNames(idx, dir)|, ops, err)
      decreases Below(fs, dir), 0, 2
    {
      hide Ext, Lower, Stem, IsStrm, Less, Sorted, Decide, PlanDir, PlanAt, ScanNames, ScanFails;
      hide Progress, ChildFails, Covered, Claimed, Answer, Before, IsDirAt, Listed, Listing, ChildNames, SortedSeq;
      entries := listing;
      ops := [];
      ghost var names := ScanNames(s, fs, idx, dir);
      NothingDone(s, fs, idx, dir);
      var children := SortNames(ChildNames(idx, dir));
      ChildOrder(s, fs, idx, dir, children);
      for i := 0 to |children|
        invariant |children| <= |names| && entries == listing - Before(names, i)
        invariant Progress(s, fs, idx, dir, names, i, ops, err)
      {
        var n := children[i];
        ChildStep(s, fs, idx, dir, children, i);
        InListing(s, fs, dir, n);
        var isLocal := n in entries;
        var covered := false;
        if !isLocal { covered := CoveredByLocal(s, fs, dir, n, entries); }
        if covered {
          AdvanceClaimed(s, fs, idx, dir, names, i, ops, err);
        } else {
          entries := entries - {n};
          ghost var was := err;
          var part := Answered(dir, n, isLocal, RecAt(idx, dir + [n]));
          AdvanceAnswered(s, fs, idx, dir, names, i, ops, part, was, err);
          ops := ops + part;
        }
      }
    }

    /** `stateOf` and `decide` for one name of a directory. */
    method Answered(dir: Path, n: string, isLocal: bool, rec: Record) returns (part: seq<Op>)
      requires IsDirAt(fs, dir) && isLocal == Listed(s, fs, dir + [n]) && rec == RecAt(idx, dir + [n])
      modifies this
      ensures old(err) ==> err
      ensures !err ==> part == PlanAt(s, fs, idx, dir + [n]) && !ChildFails(s, fs, dir, n)
      ensures err && !old(err) ==> ChildFails(s, fs, dir, n)
      decreases Below(fs, dir), 0, 1
    {
      assert Parent(dir + [n]) == dir;
      part := DecidePath(dir + [n], rec, if isLocal then Some(fs[dir + [n]]) else None);
    }

    /** The second loop of `planDir`: what is left is new locally, in sorted order. */
    method ScanRest(dir: Path, entries: set<string>, before: seq<Op>) returns (ops: seq<Op>)
      requires IsDirAt(fs, dir) && fs[dir].readable && entries == Listing(s, fs, dir) - ChildNames(idx, dir)
      requires Progress(s, fs, idx, dir, ScanNames(s, fs, idx, dir), |ChildNames(idx, dir)|, before, err)
      modifies this
      ensures old(err) ==> err
      ensures err ==> ScanFails(s, fs, dir)
      ensures !err ==> ops == PlanDir(s, fs, idx, dir)
      ensures !err ==> forall n :: n in Listing(s, fs, dir) ==> !ChildFails(s, fs, dir, n)
      decreases Below(fs, dir), 0, 2
    {
      ghost var names, skip := ScanNames(s, fs, idx, dir), |ChildNames(idx, dir)|;
      ops := before;
      hide Ext, Lower, Stem, IsStrm, Less, Sorted, Decide, PlanDir, PlanAt, ScanNames, ScanFails;
      hide Progress, ChildFails, Covered, Claimed, Answer, Before, IsDirAt, Listed, Listing, ChildNames, SortedSeq;
      var rest := SortNames(entries);
      RestOrder(s, fs, idx, dir, rest);
      for i := 0 to |rest|
        invariant old(err) ==> err
        invariant |names| == skip + |rest|
        invariant Progress(s, fs, idx, dir, names, skip + i, ops, err)
      {
        var n := rest[i];
        RestStep(s, fs, idx, dir, rest, i);
        InListing(s, fs, dir, n);
        ghost var was := err;
        var part := Answered(dir, n, true, NO_RECORD);
        AdvanceAnswered(s, fs, idx, dir, names, skip + i, ops, part, was, err);
        ops := ops + part;
      }
      AllAnswered(s, fs, idx, dir, ops, err);
    }
  }

  lemma AllAnswered(s: Setup, fs: Tree, idx: Index, dir: Path, ops: seq<Op>, err: bool)
    requires IsDirAt(fs, dir) && fs[dir].readable
    requires var names := ScanNames(s, fs, idx, dir); Progress(s, fs, idx, dir, names, |names|, ops, err)
    ensures err ==> ScanFails(s, fs, dir)
    ensures !err ==> ops == PlanDir(s, fs, idx, dir)
    ensures !err ==> forall n :: n in Listing(s, fs, dir) ==> !ChildFails(s, fs, dir, n)
  {
    hide PlanAt, ChildFails, ScanFails, Listing, ChildNames, ScanNames, Decide, Claimed, SortedSeq;
    var names := ScanNames(s, fs, idx, dir);
    assert PlanNames(s, fs, idx, dir, names, |names|) == [];
    if !err {
      forall n | n in Listing(s, fs, dir) ensures !ChildFails(s, fs, dir, n) {
        assert n in names;
        var k :| 0 <= k < |names| && names[k] == n;
      }
    }
  }

  /** How far a directory's scan has come: the answers so far, followed by the plan for the
      remaining names, are the directory's plan. */
  ghost predicate Progress(s: Setup, fs: Tree, idx: Index, dir: Path, names: seq<string>, i: nat, ops: seq<Op>,
      err: bool) {
    && i <= |names|
    && (err ==> ScanFails(s, fs, dir))
    && (!err ==> ops + PlanNames(s, fs, idx, dir, names, i) == PlanNames(s, fs, idx, dir, names, 0))
    && (!err ==> forall k :: 0 <= k < i ==> !ChildFails(s, fs, dir, names[k]))
  }

  /** The answer for one name: nothing when a video claims it, else `PlanAt`. */
  ghost predicate Answer(s: Setup, fs: Tree, idx: Index, dir: Path, names: seq<string>, i: nat, part: seq<Op>,
      was: bool, err: bool)
    requires i < |names|
  {
    if Claimed(s, fs, dir, names, i) then part == [] && err == was
    else
      && (was ==> err)
      && (!err ==> part == PlanAt(s, fs, idx, dir + [names[i]]) && !ChildFails(s, fs, dir, names[i]))
      && (err && !was ==> ChildFails(s, fs, dir, names[i]))
  }

  lemma NameAnswered(s: Setup, fs: Tree, idx: Index, dir: Path, names: seq<string>, i: nat)
    requires IsDirAt(fs, dir) && i < |names|
    ensures PlanNames(s, fs, idx, dir, names, i)
         == (if Claimed(s, fs, dir, names, i) then [] else PlanAt(s, fs, idx, dir + [names[i]]))
              + PlanNames(s, fs, idx, dir, names, i + 1)
    ensures Claimed(s, fs, dir, names, i) ==> !ChildFails(s, fs, dir, names[i])
  {
    hide PlanAt, ScanFails, Covered, Before;
    InListing(s, fs, dir, names[i]);
  }

  lemma Advance(s: Setup, fs: Tree, idx: Index, dir: Path, names: seq<string>, i: nat, ops: seq<Op>, part: seq<Op>,
      was: bool, err: bool)
    requires IsDirAt(fs, dir) && i < |names|
    requires Progress(s, fs, idx, dir, names, i, ops, was) && Answer(s, fs, idx, dir, names, i, part, was, err)
    ensures Progress(s, fs, idx, dir, names, i + 1, ops + part, err)
  {
    hide PlanAt, PlanNames, ScanFails, Claimed, ChildFails;
    NameAnswered(s, fs, idx, dir, names, i);
    if ChildFails(s, fs, dir, names[i]) { ChildFailureIsMine(s, fs, dir, names[i]); }
    assert ops + (part + PlanNames(s, fs, idx, dir, names, i + 1))
      == ops + part + PlanNames(s, fs, idx, dir, names, i + 1);
  }

  lemma AdvanceClaimed(s: Setup, fs: Tree, idx: Index, dir: Path, names: seq<string>, i: nat, ops: seq<Op>, err: bool)
    requires IsDirAt(fs, dir) && i < |names| && Progress(s, fs, idx, dir, names, i, ops, err)
    requires names[i] !in Listing(s, fs, dir) && Covered(s, fs, dir, names[i], Listing(s, fs, dir) - Before(names, i))
    ensures Progress(s, fs, idx, dir, names, i + 1, ops, err)
  {
    Advance(s, fs, idx, dir, names, i, ops, [], err, err);
    assert ops + [] == ops;
  }

  lemma AdvanceAnswered(s: Setup, fs: Tree, idx: Index, dir: Path, names: seq<string>, i: nat, ops: seq<Op>,
      part: seq<Op>, was: bool, err: bool)
    requires IsDirAt(fs, dir) && i < |names| && Progress(s, fs, idx, dir, names, i, ops, was)
    requires names[i] !in Listing(s, fs, dir) ==> !Covered(s, fs, dir, names[i], Listing(s, fs, dir) - Before(names, i))
    requires was ==> err
    requires !err ==> part == PlanAt(s, fs, idx, dir + [names[i]]) && !ChildFails(s, fs, dir, names[i])
    requires err && !was ==> ChildFails(s, fs, dir, names[i])
    ensures Progress(s, fs, idx, dir, names, i + 1, ops + part, err)
  {
    hide PlanAt, Covered, ChildFails, Progress;
    Advance(s, fs, idx, dir, names, i, ops, part, was, err);
  }

  // ---- where each name sits in the scan order ----

  lemma NothingDone(s: Setup, fs: Tree, idx: Index, dir: Path)
    ensures Progress(s, fs, idx, dir, ScanNames(s, fs, idx, dir), 0, [], false)
  {
    hide PlanNames;
    var all := PlanNames(s, fs, idx, dir, ScanNames(s, fs, idx, dir), 0);
    assert [] + all == all;
  }

  lemma ChildOrder(s: Setup, fs: Tree, idx: Index, dir: Path, children: seq<string>)
    requires children == SortedSeq(ChildNames(idx, dir))
    ensures var names := ScanNames(s, fs, idx, dir);
      |children| == |ChildNames(idx, dir)| <= |names| && Before(names, 0) == {}
        && Before(names, |children|) == ChildNames(idx, dir)
  {
    var names := ScanNames(s, fs, idx, dir);
    assert names[..|children|] == children;
  }

  lemma ChildStep(s: Setup, fs: Tree, idx: Index, dir: Path, children: seq<string>, i: nat)
    requires children == SortedSeq(ChildNames(idx, dir)) && i < |children|
    ensures var names := ScanNames(s, fs, idx, dir);
      && i < |names| && names[i] == children[i]
      && names[i] !in Before(names, i) && Before(names, i + 1) == Before(names, i) + {names[i]}
  {
    hide Less, Sorted, SortedSeq, ChildNames, Listing;
    var names := ScanNames(s, fs, idx, dir);
    ScanNamesDistinct(s, fs, idx, dir);
    assert names[..i + 1] == names[..i] + [names[i]];
  }

  lemma RestOrder(s: Setup, fs: Tree, idx: Index, dir: Path, rest: seq<string>)
    requires rest == SortedSeq(Listing(s, fs, dir) - ChildNames(idx, dir))
    ensures |ScanNames(s, fs, idx, dir)| == |ChildNames(idx, dir)| + |rest|
  {}

  lemma RestStep(s: Setup, fs: Tree, idx: Index, dir: Path, rest: seq<string>, i: nat)
    requires rest == SortedSeq(Listing(s, fs, dir) - ChildNames(idx, dir)) && i < |rest|
    ensures var names, skip := ScanNames(s, fs, idx, dir), |ChildNames(idx, dir)|;
      && skip + i < |names| && names[skip + i] == rest[i]
      && rest[i] in Listing(s, fs, dir) && RecAt(idx, dir + [rest[i]]) == NO_RECORD
  {
    assert rest[i] in rest;
    InChildNames(idx, dir, rest[i]);
  }
}
