/** The planner's component paths and the string keys of the index name the same records:
    its `Children` and `ClearTree` are those of the ordered key store. */
module Paths {
  import opened Bytes
  import opened Records
  import opened Model
  import KV = Index
  import Plan
  import Apply
  import NoOscillation
  import Config

  /** A file name: not empty, no separator. */
  predicate IsName(n: string) {
    n != "" && '/' !in n
  }

  predicate Named(p: Path) {
    forall i :: 0 <= i < |p| ==> IsName(p[i])
  }

  /** A task's directory: cleaned, or cleaned and typed with a separator at the end. */
  predicate RootAsTyped(root: string) {
    root != "" && (EndsInSlash(root) && |root| > 1 ==> root[|root| - 2] != '/')
  }

  predicate EndsInSlash(root: string) {
    root != "" && root[|root| - 1] == '/'
  }

  /** `filepath.Join` from the local root down. */
  function Key(root: string, p: Path): string {
    if p == [] then root else KV.DirPrefix(Key(root, Parent(p))) + Base(p)
  }

  lemma KeyEnd(root: string, p: Path)
    requires Named(p) && |p| > 0
    ensures Key(root, p)[|Key(root, p)| - 1] != '/'
    ensures KV.DirPrefix(Key(root, p)) == Key(root, p) + "/" && KV.SelfKey(Key(root, p)) == Key(root, p)
  {
    assert IsName(p[|p| - 1]);
  }

  /** The remainder of a key below `dir`: the next component, then the end or a separator. */
  lemma {:induction false} RestOfKey(root: string, dir: Path, q: Path) returns (tail: string)
    requires Named(q) && dir < q
    ensures KV.DirPrefix(Key(root, dir)) <= Key(root, q)
    ensures Key(root, q)[|KV.DirPrefix(Key(root, dir))|..] == q[|dir|] + tail
    ensures |q| == |dir| + 1 ==> tail == ""
    ensures |q| > |dir| + 1 ==> tail != "" && tail[0] == '/'
    decreases |q|
  {
    var prefix := KV.DirPrefix(Key(root, dir));
    if |q| == |dir| + 1 {
      assert Parent(q) == dir;
      assert Key(root, q) == prefix + Base(q);
      tail := "";
    } else {
      var up := Parent(q);
      var t := RestOfKey(root, dir, up);
      KeyEnd(root, up);
      assert Key(root, q) == Key(root, up) + "/" + Base(q);
      hide Key, KV.DirPrefix;
      Reassociate(prefix, Key(root, up), up[|dir|], t, Base(q));
      tail := t + "/" + Base(q);
    }
  }

  lemma Reassociate(prefix: string, k: string, m: string, t: string, n: string)
    requires prefix <= k && k[|prefix|..] == m + t
    ensures prefix <= k + "/" + n && (k + "/" + n)[|prefix|..] == m + (t + "/" + n)
  {}

  /** A name is followed by the first separator, or by the end. */
  lemma FirstSeparator(a: string, s: string)
    requires IsName(a) && (s == "" || s[0] == '/')
    ensures IndexByte(a + s, '/') == if s == "" then -1 else |a|
  {
    var i := IndexByte(a + s, '/');
    if s != "" {
      assert (a + s)[|a|] == '/';
    } else {
      assert a + s == a;
    }
  }

  /** What follows a common directory prefix decides the next component. */
  lemma SameNextComponent(a: string, s: string, b: string, t: string)
    requires IsName(a) && IsName(b) && a + s == b + t
    requires (s == "" || s[0] == '/') && (t == "" || t[0] == '/')
    ensures a == b && s == t
  {
    FirstSeparator(a, s);
    FirstSeparator(b, t);
    var x := a + s;
    assert x[..|a|] == a && x[..|b|] == b && x[|a|..] == s && x[|b|..] == t;
  }

  lemma LongerKey(root: string, p: Path, q: Path)
    requires Named(q) && p <= q
    ensures |Key(root, q)| >= |Key(root, p)| && (p < q ==> |Key(root, q)| > |Key(root, p)|)
  {
    if p < q {
      var t := RestOfKey(root, p, q);
      assert IsName(q[|p|]);
    }
  }

  lemma NextComponent(root: string, p: Path, q: Path, k: nat, rest: string)
    requires Named(p) && Named(q) && Key(root, q) == Key(root, p) + rest && (rest == "" || rest[0] == '/')
    requires k < |p| && k < |q| && p[..k] == q[..k]
    ensures p[..k + 1] == q[..k + 1]
  {
    hide Key, KV.DirPrefix, IsName;
    var dir := p[..k];
    assert dir < p && dir < q;
    var s := RestOfKey(root, dir, p);
    var t := RestOfKey(root, dir, q);
    SameAfterPrefix(KV.DirPrefix(Key(root, dir)), Key(root, p), Key(root, q), rest, p[k], s, q[k], t);
    assert p[..k + 1] == p[..k] + [p[k]] && q[..k + 1] == q[..k] + [q[k]];
  }

  lemma SameAfterPrefix(prefix: string, x: string, y: string, rest: string, a: string, s: string, b: string, t: string)
    requires prefix <= x && prefix <= y && y == x + rest && IsName(a) && IsName(b)
    requires x[|prefix|..] == a + s && y[|prefix|..] == b + t
    requires (rest == "" || rest[0] == '/') && (s == "" || s[0] == '/') && (t == "" || t[0] == '/')
    ensures a == b
  {
    assert a + s + rest == a + (s + rest);
    SameNextComponent(a, s + rest, b, t);
  }

  /** A key that continues another one at a separator, or not at all, belongs to a path
      that continues the other's path. */
  lemma {:induction false} PrefixIsAncestor(root: string, p: Path, q: Path, k: nat, rest: string)
    requires Named(p) && Named(q) && Key(root, q) == Key(root, p) + rest && (rest == "" || rest[0] == '/')
    requires k <= |p| && k <= |q| && p[..k] == q[..k]
    ensures p <= q
    decreases |p| - k
  {
    if k < |p| {
      if k == |q| {
        assert q == p[..k];
        LongerKey(root, q, p);
      } else {
        NextComponent(root, p, q, k, rest);
        PrefixIsAncestor(root, p, q, k + 1, rest);
      }
    }
  }

  lemma KeyInjective(root: string, p: Path, q: Path)
    requires Named(p) && Named(q) && Key(root, p) == Key(root, q)
    ensures p == q
  {
    assert Key(root, p) + "" == Key(root, p);
    PrefixIsAncestor(root, p, q, 0, "");
    PrefixIsAncestor(root, q, p, 0, "");
  }

  /** Prefix of keys up to a separator is prefix of paths. */
  lemma KeyBelow(root: string, p: Path, q: Path)
    requires RootAsTyped(root) && Named(p) && Named(q)
    ensures p < q <==> KV.DirPrefix(Key(root, p)) <= Key(root, q) && p != q
  {
    hide Key, KV.DirPrefix;
    if p < q {
      var t := RestOfKey(root, p, q);
    } else if KV.DirPrefix(Key(root, p)) <= Key(root, q) && p != [] {
      KeyEnd(root, p);
      PrefixIsAncestor(root, p, q, 0, Key(root, q)[|Key(root, p)|..]);
    }
  }

  /** The keys that stop a tree clear: strictly between `s` and `s/`. */
  lemma {:induction false} Between(s: string, x: string)
    ensures Less(s, x) && Less(x, s + "/") <==> s < x && x[|s|] < '/'
  {
    if s < x {
      PrefixIsLess(s, x);
      assert x == s + x[|s|..];
      LessAfterPrefix(s, x[|s|..], "/");
    } else if x <= s {
      PrefixNotAbove(x, s);
    } else if x != "" && s != "" && x[0] == s[0] {
      Between(s[1..], x[1..]);
      assert (s + "/")[1..] == s[1..] + "/";
      assert !(s[1..] < x[1..]);
    } else {
    }
  }

  lemma KeyBlocks(root: string, p: Path, q: Path)
    requires RootAsTyped(root) && Named(p) && Named(q) && |p| > 0
    ensures Key(root, p) < Key(root, q) && Key(root, q)[|Key(root, p)|] < '/' <==> Apply.Blocks(p, q)
  {
    if Apply.Blocks(p, q) { SiblingBlocks(root, p, q); }
    if Key(root, p) < Key(root, q) && Key(root, q)[|Key(root, p)|] < '/' { BlockerIsSibling(root, p, q); }
  }

  lemma SiblingBlocks(root: string, p: Path, q: Path)
    requires Named(p) && Named(q) && Apply.Blocks(p, q)
    ensures Key(root, p) < Key(root, q) && Key(root, q)[|Key(root, p)|] < '/'
  {
    var dir, base := Parent(p), Base(p);
    var prefix := KV.DirPrefix(Key(root, dir));
    assert Key(root, p) == prefix + base;
    hide Key, KV.DirPrefix;
    assert dir == q[..|dir|];
    var t := RestOfKey(root, dir, q);
    Continues(prefix, base, Key(root, q), q[|dir|], t);
  }

  lemma Continues(prefix: string, base: string, k: string, m: string, t: string)
    requires prefix <= k && k[|prefix|..] == m + t && base < m
    ensures prefix + base < k && k[|prefix + base|] == m[|base|]
  {
    assert k == prefix + (m + t);
    assert m == base + m[|base|..];
    assert k == (prefix + base) + (m[|base|..] + t);
  }

  lemma BlockerIsSibling(root: string, p: Path, q: Path)
    requires RootAsTyped(root) && Named(p) && Named(q) && |p| > 0
    requires Key(root, p) < Key(root, q) && Key(root, q)[|Key(root, p)|] < '/'
    ensures Apply.Blocks(p, q)
  {
    hide Key, KV.DirPrefix, Apply.Blocks, IsName;
    var dir := Parent(p);
    var prefix, base := KV.DirPrefix(Key(root, dir)), Base(p);
    LastKeyPart(root, p);
    FrontOf(prefix, base, Key(root, q));
    KeyBelow(root, dir, q);
    var t := RestOfKey(root, dir, q);
    NextComponentLonger(base, q[|dir|], t);
    BlocksFrom(p, q);
  }

  lemma LastKeyPart(root: string, p: Path)
    requires Named(p) && |p| > 0
    ensures Key(root, p) == KV.DirPrefix(Key(root, Parent(p))) + Base(p)
  {}

  lemma FrontOf(prefix: string, base: string, k: string)
    requires prefix + base < k
    ensures prefix <= k && |base| < |k[|prefix|..]|
    ensures k[|prefix|..][..|base|] == base && k[|prefix|..][|base|] == k[|prefix + base|]
  {
    assert k[..|prefix + base|] == prefix + base;
  }

  lemma BlocksFrom(p: Path, q: Path)
    requires |p| > 0 && Parent(p) < q && Base(p) < q[|p| - 1] && q[|p| - 1][|Base(p)|] < '/'
    ensures Apply.Blocks(p, q)
  {}

  lemma NextComponentLonger(base: string, m: string, t: string)
    requires IsName(base) && IsName(m) && (t == "" || t[0] == '/')
    requires |base| < |m + t| && (m + t)[..|base|] == base && (m + t)[|base|] < '/'
    ensures base < m && m[|base|] < '/'
  {
    FirstSeparator(m, t);
    var i := IndexByte(m + t, '/');
    assert |base| < |m|;
    assert m[..|base|] == (m + t)[..|base|];
  }

  // ---- the stored index seen from one task ----

  /** The keys under `root` are exactly the component paths of `idx`; other keys are free. */
  ghost predicate Represents(root: string, recs: map<string, Record>, idx: Index) {
    && (forall q :: q in idx ==> Named(q) && Key(root, q) in recs && recs[Key(root, q)] == idx[q])
    && (forall k :: k in recs && (k == root || KV.DirPrefix(root) <= k) ==> HasPath(root, idx, k))
  }

  ghost predicate HasPath(root: string, idx: Index, k: string) {
    exists q :: q in idx && Key(root, q) == k
  }

  lemma UnderRoot(root: string, p: Path)
    requires RootAsTyped(root) && Named(p)
    ensures Key(root, p) == root || KV.DirPrefix(root) <= Key(root, p)
  {
    if p != [] { KeyBelow(root, [], p); }
  }

  /** What the planner sees of the index: the paths, and the root's own record under an empty name
      when its key is its own directory prefix. */
  function SeenBy(root: string, idx: Index): Index {
    if EndsInSlash(root) && [] in idx then idx[[""] := idx[[]]] else idx
  }

  /** `Children`: the names found among the keys are the names found among the paths, and an empty
      one for the record of a root that ends in a separator. */
  lemma ChildrenRefine(root: string, recs: map<string, Record>, idx: Index, dir: Path)
    requires RootAsTyped(root) && Represents(root, recs, idx) && Named(dir)
    ensures KV.ChildNames(recs, KV.DirPrefix(Key(root, dir))) == Plan.ChildNames(SeenBy(root, idx), dir)
    ensures forall n :: n in Plan.ChildNames(SeenBy(root, idx), dir) ==>
      var k := KV.DirPrefix(Key(root, dir)) + n; k in recs && recs[k] == RecAt(SeenBy(root, idx), dir + [n])
  {
    hide Key, KV.DirPrefix, Represents, SeenBy;
    var prefix, seen := KV.DirPrefix(Key(root, dir)), SeenBy(root, idx);
    forall n ensures n in KV.ChildNames(recs, prefix) <==> n in Plan.ChildNames(seen, dir) {
      Plan.InChildNames(seen, dir, n);
      SeenChild(root, recs, idx, dir, n);
      if n in KV.ChildNames(recs, prefix) {
        var k :| k in recs && KV.IsChildKey(prefix, k) && n == k[|prefix|..];
        ChildKeyIsChild(root, recs, idx, dir, k);
      }
      if dir + [n] in seen {
        assert prefix + n in recs && KV.IsChildKey(prefix, prefix + n) && (prefix + n)[|prefix|..] == n;
      }
    }
    forall n | n in Plan.ChildNames(seen, dir)
      ensures prefix + n in recs && recs[prefix + n] == RecAt(seen, dir + [n])
    {
      Plan.InChildNames(seen, dir, n);
      SeenChild(root, recs, idx, dir, n);
    }
  }

  /** A path that the planner sees has its key in the bucket. */
  lemma SeenChild(root: string, recs: map<string, Record>, idx: Index, dir: Path, n: string)
    requires RootAsTyped(root) && Represents(root, recs, idx) && Named(dir)
    ensures var prefix, seen := KV.DirPrefix(Key(root, dir)), SeenBy(root, idx);
      dir + [n] in seen ==>
        prefix + n in recs && recs[prefix + n] == seen[dir + [n]] && KV.IsChildKey(prefix, prefix + n)
  {
    var q := dir + [n];
    assert Parent(q) == dir && Base(q) == n;
    if q in idx { ChildIsChildKey(root, recs, idx, dir, n); }
    if q !in idx && q in SeenBy(root, idx) {
      assert dir == [] && n == "" && KV.DirPrefix(root) == root && root + "" == root;
      assert Key(root, []) == root;
    }
    assert q in idx ==> IsName(q[|dir|]);
  }

  lemma ChildIsChildKey(root: string, recs: map<string, Record>, idx: Index, dir: Path, n: string)
    requires Represents(root, recs, idx) && dir + [n] in idx
    ensures var k := KV.DirPrefix(Key(root, dir)) + n;
      k in recs && recs[k] == idx[dir + [n]] && KV.IsChildKey(KV.DirPrefix(Key(root, dir)), k)
      && k[|KV.DirPrefix(Key(root, dir))|..] == n
  {
    var q := dir + [n];
    assert Parent(q) == dir && Base(q) == n;
    assert IsName(q[|dir|]);
  }

  lemma ChildKeyIsChild(root: string, recs: map<string, Record>, idx: Index, dir: Path, k: string)
    requires RootAsTyped(root) && Represents(root, recs, idx) && Named(dir)
    requires var prefix := KV.DirPrefix(Key(root, dir)); k in recs && KV.IsChildKey(prefix, k)
    ensures dir + [k[|KV.DirPrefix(Key(root, dir))|..]] in SeenBy(root, idx)
  {
    var prefix := KV.DirPrefix(Key(root, dir));
    PrefixUnderRoot(root, dir);
    assert HasPath(root, idx, k);
    hide Represents;
    var q :| q in idx && Key(root, q) == k;
    NamedKey(root, recs, idx, q);
    if q == dir {
      ItselfIsRoot(root, dir);
      assert k == root && prefix == root && k[|prefix|..] == "";
      assert dir + [""] == [""];
    } else {
      DirectChild(root, dir, q);
    }
  }

  lemma NamedKey(root: string, recs: map<string, Record>, idx: Index, q: Path)
    requires Represents(root, recs, idx) && q in idx
    ensures Named(q)
  {}

  lemma DirectChild(root: string, dir: Path, q: Path)
    requires RootAsTyped(root) && Named(dir) && Named(q) && q != dir
    requires KV.IsChildKey(KV.DirPrefix(Key(root, dir)), Key(root, q))
    ensures q == dir + [Key(root, q)[|KV.DirPrefix(Key(root, dir))|..]]
  {
    hide Key, KV.DirPrefix;
    KeyBelow(root, dir, q);
    var t := RestOfKey(root, dir, q);
    var m := q[|dir|];
    assert t != "" ==> '/' in m + t;
    assert m + t == m;
    assert q == dir + [q[|dir|]];
  }

  lemma PrefixUnderRoot(root: string, dir: Path)
    requires RootAsTyped(root) && Named(dir)
    ensures KV.DirPrefix(root) <= KV.DirPrefix(Key(root, dir))
  {
    UnderRoot(root, dir);
    if dir != [] { KeyBelow(root, [], dir); }
  }

  /** Only a root that ends in a separator has a key that is its own directory prefix. */
  lemma ItselfIsRoot(root: string, dir: Path)
    requires Named(dir) && KV.DirPrefix(Key(root, dir)) <= Key(root, dir)
    ensures dir == [] && EndsInSlash(root) && KV.DirPrefix(root) == root
  {
    if dir != [] { KeyEnd(root, dir); }
  }

  /** `ClearTree`: clearing keys is clearing paths, early stop included. */
  lemma ClearTreeRefines(root: string, recs: map<string, Record>, idx: Index, p: Path)
    requires RootAsTyped(root) && Represents(root, recs, idx) && Named(p) && |p| > 0
    ensures Represents(root, KV.Cleared(recs, Key(root, p)), Apply.Cleared(idx, p))
  {
    BlockedRefines(root, recs, idx, p);
    var recs2, idx2 := KV.Cleared(recs, Key(root, p)), Apply.Cleared(idx, p);
    forall q | q in idx ensures KV.Doomed(recs.Keys, Key(root, p), Key(root, q)) <==> Apply.Doomed(idx, p, q) {
      KeyEnd(root, p);
      KeyBelow(root, p, q);
      if Key(root, p) == Key(root, q) { KeyInjective(root, p, q); }
      if p == q { assert !(KV.DirPrefix(Key(root, p)) <= Key(root, q)); }
    }
    forall k | k in recs2 && (k == root || KV.DirPrefix(root) <= k) ensures HasPath(root, idx2, k) {
      assert HasPath(root, idx, k);
      var q :| q in idx && Key(root, q) == k;
      assert q in idx2;
    }
  }

  lemma BlockedRefines(root: string, recs: map<string, Record>, idx: Index, p: Path)
    requires RootAsTyped(root) && Represents(root, recs, idx) && Named(p) && |p| > 0
    ensures KV.Blocked(recs.Keys, Key(root, p)) <==> Apply.Blocked(idx, p)
  {
    KeyEnd(root, p);
    hide Key, KV.DirPrefix, Less, Apply.Blocks;
    var self := Key(root, p);
    if KV.Blocked(recs.Keys, self) {
      var j :| j in recs.Keys && Less(KV.SelfKey(self), j) && Less(j, KV.DirPrefix(self));
      Between(self, j);
      UnderRoot(root, p);
      KeyBelow(root, [], p);
      assert HasPath(root, idx, j);
      var q :| q in idx && Key(root, q) == j;
      KeyBlocks(root, p, q);
    }
    if Apply.Blocked(idx, p) {
      var q :| q in idx && Apply.Blocks(p, q);
      KeyBlocks(root, p, q);
      Between(self, Key(root, q));
      assert Key(root, q) in recs.Keys;
    }
  }

  /** `Put`. */
  lemma PutRefines(root: string, recs: map<string, Record>, idx: Index, p: Path, r: Record)
    requires RootAsTyped(root) && Represents(root, recs, idx) && Named(p)
    ensures Represents(root, recs[Key(root, p) := r], idx[p := r])
  {
    forall q | q in idx[p := r] ensures Named(q) && Key(root, q) in recs[Key(root, p) := r]
                                        && recs[Key(root, p) := r][Key(root, q)] == idx[p := r][q] {
      if Key(root, q) == Key(root, p) { KeyInjective(root, p, q); }
    }
    var recs2 := recs[Key(root, p) := r];
    forall k | k in recs2 && (k == root || KV.DirPrefix(root) <= k)
      ensures HasPath(root, idx[p := r], k)
    {
      if k == Key(root, p) {
        assert p in idx[p := r];
      } else {
        assert HasPath(root, idx, k);
        var q :| q in idx && Key(root, q) == k;
        assert q in idx[p := r];
      }
    }
  }

  // ---- a root whose own record is among its children ----

  /** A planned clear of the entry with the empty name. */
  ghost predicate ClearsRoot(s: Setup, fs: Tree, seen: Index, op: Op) {
    op in Plan.PlanDir(s, fs, seen, []) && IsClear(op) && op.path == [""]
  }

  /** The scan of the root finds its record under the empty name exactly when the directory ends in
      a separator. No local entry has that name, so the plan clears it: the FID is the root's, and
      the path joins to the root itself. */
  lemma RootIsClearedExactly(s: Setup, fs: Tree, root: string, recs: map<string, Record>, idx: Index)
    requires RootAsTyped(root) && Represents(root, recs, idx) && [] in idx && idx[[]].fid != ""
    requires (forall p :: p in fs ==> Named(p)) && IsDirAt(fs, []) && !Plan.ScanFails(s, fs, [])
    ensures (exists op :: ClearsRoot(s, fs, SeenBy(root, idx), op) && op.fid == idx[[]].fid) <==> EndsInSlash(root)
    ensures root[0] == '/' ==> Config.Clean(root + "/" + "") == Config.Clean(root)
  {
    hide Represents, Config.Clean, Plan.PlanDir, Plan.OpsAt, Plan.LeftToVideo;
    var seen := SeenBy(root, idx);
    NoEmptyName(root, recs, idx, fs);
    if EndsInSlash(root) {
      EmptyNameIsPlanned(s, fs, seen);
      assert ClearsRoot(s, fs, seen, Plan.ClearOp([""], seen[[""]]));
    }
    if op :| ClearsRoot(s, fs, seen, op) {
      var p := Plan.PlanDirSound(s, fs, seen, [], op);
      EmptyNameIsSeen(s, fs, seen, p, op);
    }
    if root[0] == '/' { JoinedWithNothing(root); }
  }

  lemma NoEmptyName(root: string, recs: map<string, Record>, idx: Index, fs: Tree)
    requires Represents(root, recs, idx) && forall p :: p in fs ==> Named(p)
    ensures [""] !in idx && [""] !in fs
  {
    assert !IsName([""][0]);
  }

  lemma EmptyNameIsPlanned(s: Setup, fs: Tree, seen: Index)
    requires [""] in seen && seen[[""]].fid != "" && [""] !in fs && IsDirAt(fs, []) && !Plan.ScanFails(s, fs, [])
    ensures Plan.ClearOp([""], seen[[""]]) in Plan.PlanDir(s, fs, seen, [])
  {
    hide Plan.PlanDir, Plan.LeftToVideo;
    assert Parent([""]) == [] && Ext("") == "";
    Plan.NoLinkIsOwn(s, fs, seen, [""]);
    Plan.PlanDirComplete(s, fs, seen, [], [""]);
    assert Plan.ClearOp([""], seen[[""]]) in Plan.OpsAt(s, fs, seen, [""]);
  }

  lemma EmptyNameIsSeen(s: Setup, fs: Tree, seen: Index, p: Path, op: Op)
    requires |p| > 0 && op in Plan.OpsAt(s, fs, seen, p) && IsClear(op) && op.path == [""] && [""] !in fs
    ensures [""] in seen
  {
    hide Ext, Lower, Stem, StrmName, Plan.OpsAt;
    NoOscillation.DecisionShape(s, fs, seen, p, op);
    MissingAsks(s, fs, seen, p);
    StrmNameIsStrm(Base(p));
  }

  lemma MissingAsks(s: Setup, fs: Tree, seen: Index, p: Path)
    requires |p| > 0
    ensures p !in fs && p !in seen ==> Plan.OpsAt(s, fs, seen, p) == []
  {}

  lemma JoinedWithNothing(root: string)
    requires root != "" && root[0] == '/'
    ensures Config.Clean(root + "/" + "") == Config.Clean(root)
  {
    Config.SplitAppend(root, "");
    Config.ResolveSnoc(Config.Split(root), "", []);
  }

  /** "/a/" is such a root: validation accepts it, and with nothing but the root's record in the
      index and an empty directory, the plan drops the cloud root. */
  lemma SlashRootExample(s: Setup, t: Config.Task) returns (op: Op)
    requires Config.Valid(t)
    ensures Config.Valid(t.(localDir := "/a/"))
    ensures var rec := Record("R", "", KIND_DIR, 0);
      var idx: Index := map[[] := rec];
      && Represents("/a/", map["/a/" := rec], idx)
      && op in Plan.PlanDir(s, map[[] := Dir(true)], SeenBy("/a/", idx), [])
      && op.kind == Drop && op.path == [""] && op.fid == "R"
  {
    hide Config.Clean, Plan.PlanDir;
    var rec := Record("R", "", KIND_DIR, 0);
    var fs: Tree, idx: Index := map[[] := Dir(true)], map[[] := rec];
    assert Key("/a/", []) == "/a/";
    assert HasPath("/a/", idx, "/a/");
    var seen := SeenBy("/a/", idx);
    EmptyNameIsPlanned(s, fs, seen);
    op := Plan.ClearOp([""], rec);
  }

  // ---- a root that is not typed clean ----

  /** But for a separator at the end, the directory is typed as `filepath.Clean` would write it. */
  predicate TypedClean(root: string) {
    KV.DirPrefix(root) == KV.DirPrefix(Config.Clean(root))
  }

  /** `filepath.Join` of a directory and a name: the key of an entry of the root. */
  lemma JoinedName(root: string, n: string)
    requires root != "" && root[0] == '/' && IsName(n) && n != "." && n != ".."
    ensures Config.Clean(root + "/" + n) == KV.DirPrefix(Config.Clean(root)) + n
    ensures TypedClean(root) ==> Config.Clean(root + "/" + n) == Key(root, [n])
  {
    hide Config.Clean;
    Config.CleanOfJoined(root, n);
    assert Parent([n]) == [] && Key(root, []) == root;
  }

  /** The listing of the root shows the key of an entry exactly when the root is typed clean. */
  lemma EntryIsListedExactly(root: string, n: string)
    requires root != "" && root[0] == '/' && IsName(n) && n != "." && n != ".."
    ensures KV.IsChildKey(KV.DirPrefix(root), Config.Clean(root + "/" + n)) <==> TypedClean(root)
  {
    hide Config.Clean, KV.DirPrefix;
    JoinedName(root, n);
    CleanTwice(root + "/" + n);
    if KV.IsChildKey(KV.DirPrefix(root), Config.Clean(root + "/" + n)) {
      Config.CleanBelowClean(root, Config.Clean(root + "/" + n));
    }
  }

  lemma CleanTwice(p: string)
    ensures Config.Clean(Config.Clean(p)) == Config.Clean(p)
  {
    hide Config.Split, Config.Join;
    var pieces := Config.Resolve(Config.Split(p), []);
    Config.ResolveIsProper(Config.Split(p), []);
    Config.CleanOfRoot();
    if pieces != [] { Config.CleanJoin(pieces); }
  }

  /** Below such a root the index holds clean keys and the root's own: the listing shows no name. */
  lemma NothingIsListed(root: string, recs: map<string, Record>)
    requires root != "" && root[0] == '/' && !TypedClean(root)
    requires forall k :: k in recs ==> Config.Clean(k) == k || k == root
    ensures KV.ChildNames(recs, KV.DirPrefix(root)) <= {""}
  {
    hide Config.Clean;
    forall k | k in recs && KV.IsChildKey(KV.DirPrefix(root), k) ensures k[|KV.DirPrefix(root)|..] == "" {
      if Config.Clean(k) == k { Config.CleanBelowClean(root, k); }
    }
  }

  /** So every plain file of the root is planned for upload again, recorded or not. */
  lemma UncleanRootSendsAgain(s: Setup, fs: Tree, root: string, recs: map<string, Record>, seen: Index, n: string)
    requires root != "" && root[0] == '/' && !TypedClean(root)
    requires forall k :: k in recs ==> Config.Clean(k) == k || k == root
    requires Plan.ChildNames(seen, []) == KV.ChildNames(recs, KV.DirPrefix(root))
    requires IsName(n) && Plan.Listed(s, fs, [n]) && fs[[n]].File? && !IsStrm(n) && !s.rules.IsVideoExt(n)
    requires IsDirAt(fs, []) && !Plan.ScanFails(s, fs, [])
    ensures UploadOp([n], fs[[n]].size) in Plan.PlanDir(s, fs, seen, [])
  {
    hide Config.Clean, Plan.PlanDir, Plan.LeftToVideo, Plan.ChildNames, Ext, Lower;
    NothingIsListed(root, recs);
    Plan.InChildNames(seen, [], n);
    assert [] + [n] == [n] && Parent([n]) == [];
    Plan.NoLinkIsOwn(s, fs, seen, [n]);
    Plan.PlanDirComplete(s, fs, seen, [], [n]);
    assert UploadOp([n], fs[[n]].size) in Plan.OpsAt(s, fs, seen, [n]);
  }

  /** "/a/../b" passes validation; its file `f` is recorded under "/b/f", unchanged, and sent again. */
  lemma DottedRootExample(s: Setup, t: Config.Task)
    requires Config.Valid(t) && !s.rules.excluded("f") && s.excludeDir != Some(["f"]) && !s.rules.IsVideoExt("f")
    ensures Config.Valid(t.(localDir := "/a/../b")) && Config.Clean("/a/../b" + "/" + "f") == "/b/f"
    ensures KV.ChildNames(map["/b/f" := Record("F", "", KIND_FILE, 1)], KV.DirPrefix("/a/../b")) == {}
    ensures UploadOp(["f"], 1) in Plan.PlanDir(s, map[[] := Dir(true), ["f"] := File(1, "")], map[], [])
  {
    hide Config.Clean, Plan.PlanDir;
    var recs, fs: Tree := map["/b/f" := Record("F", "", KIND_FILE, 1)], map[[] := Dir(true), ["f"] := File(1, "")];
    Config.DottedRoots();
    JoinedName("/a/../b", "f");
    CleanTwice("/a/../b" + "/" + "f");
    assert KV.DirPrefix("/b") == "/b/" && KV.DirPrefix("/a/../b") == "/a/../b/";
    assert "/a/../b/"[1] != "/b/"[1] && "/b/" + "f" == "/b/f";
    assert "/b/f"[1] != "/a/../b/"[1];
    assert Ext("f") == "";
    UncleanRootSendsAgain(s, fs, "/a/../b", recs, map[], "f");
  }
}
