/** The ordered-key index (internal/store/index.go): a bbolt bucket is a strictly sorted key
    sequence with a value per key, a cursor is a position in that sequence, and `Next` after
    `Delete` yields the successor key. */
module Index {
  import opened Bytes
  import opened Records

  datatype Child = Child(name: string, rec: Record)

  const TOP: char := '\U{FF}'

  function DirPrefix(p: string): (r: string)
    ensures |r| > 0 && r[|r| - 1] == '/'
    ensures r == p || r == p + "/"
  {
    if p == "" || p[|p| - 1] != '/' then p + "/" else p
  }

  /** The record that `ClearTree` treats as the directory itself. */
  function SelfKey(p: string): string {
    DirPrefix(p)[..|DirPrefix(p)| - 1]
  }

  ghost function Members(keys: seq<string>): set<string> {
    set k | k in keys
  }

  /** The records behind raw values: undecodable values count as no record. */
  function Decoded(vals: map<string, string>): map<string, Record> {
    map k | k in vals && DecodeRecord(vals[k]).Some? :: DecodeRecord(vals[k]).value
  }

  // ---- the simple forms: filters over the whole key set ----

  predicate IsChildKey(prefix: string, k: string) {
    prefix <= k && '/' !in k[|prefix|..]
  }

  function ChildrenByFilter(keys: seq<string>, recs: map<string, Record>, prefix: string): seq<Child> {
    if keys == [] then []
    else
      var k := keys[|keys| - 1];
      ChildrenByFilter(keys[..|keys| - 1], recs, prefix)
        + (if IsChildKey(prefix, k) && k in recs then [Child(k[|prefix|..], recs[k])] else [])
  }

  /** Some key lies strictly between `p` and `p/`: it extends `p` by a byte below '/'. */
  ghost predicate Blocked(keys: set<string>, p: string) {
    exists j :: j in keys && Less(SelfKey(p), j) && Less(j, DirPrefix(p))
  }

  ghost predicate Doomed(keys: set<string>, p: string, k: string) {
    k == SelfKey(p) || (DirPrefix(p) <= k && !Blocked(keys, p))
  }

  /** What one `ClearTree(p)` leaves. */
  ghost function Cleared<V>(m: map<string, V>, p: string): map<string, V> {
    map k | k in m && !Doomed(m.Keys, p, k) :: m[k]
  }

  ghost function ClearedAll<V>(m: map<string, V>, paths: seq<string>): map<string, V>
    decreases |paths|
  {
    if paths == [] then m else Cleared(ClearedAll(m, paths[..|paths| - 1]), paths[|paths| - 1])
  }

  function Names(cs: seq<Child>): (r: seq<string>)
    ensures |r| == |cs| && forall i :: 0 <= i < |cs| ==> r[i] == cs[i].name
  {
    seq(|cs|, i requires 0 <= i < |cs| => cs[i].name)
  }

  /** The names that lie directly below `prefix`. */
  ghost function ChildNames(recs: map<string, Record>, prefix: string): set<string> {
    set k | k in recs && IsChildKey(prefix, k) :: k[|prefix|..]
  }

  /** The plain map of records lists the same names, but never an empty one. */
  ghost function NonEmptyNames(recs: map<string, Record>, prefix: string): set<string> {
    set k | k in recs && IsChildKey(prefix, k) && k[|prefix|..] != "" :: k[|prefix|..]
  }

  /** The two listings differ exactly by a record at the prefix itself. */
  lemma ListingsDifferByTheEmptyName(recs: map<string, Record>, prefix: string)
    ensures ChildNames(recs, prefix) == NonEmptyNames(recs, prefix) + (if prefix in recs then {""} else {})
    ensures ChildNames(recs, prefix) == NonEmptyNames(recs, prefix) <==> prefix !in recs
  {
    assert IsChildKey(prefix, prefix) && prefix[|prefix|..] == "";
    forall k | k in recs && IsChildKey(prefix, k) ensures k[|prefix|..] == "" <==> k == prefix {}
  }

  /** The filter, said without its own recursion: each direct child once, in byte order of
      the names, with the record stored under its full key. */
  lemma FilterMeaning(keys: seq<string>, recs: map<string, Record>, prefix: string)
    requires Sorted(keys) && recs.Keys <= Members(keys)
    ensures var out := ChildrenByFilter(keys, recs, prefix);
      && Names(out) == SortedSeq(ChildNames(recs, prefix))
      && forall c :: c in out ==> prefix + c.name in recs && recs[prefix + c.name] == c.rec
  {
    var out := ChildrenByFilter(keys, recs, prefix);
    FilterElements(keys, recs, prefix);
    forall n ensures n in Names(out) <==> n in ChildNames(recs, prefix) {
      if n in ChildNames(recs, prefix) {
        var k :| k in recs && IsChildKey(prefix, k) && n == k[|prefix|..];
        assert Child(n, recs[k]) in out;
        var i :| 0 <= i < |out| && out[i] == Child(n, recs[k]);
        assert Names(out)[i] == n;
      }
      if n in Names(out) {
        var i :| 0 <= i < |out| && out[i].name == n;
        assert out[i] in out;
        assert (prefix + n)[|prefix|..] == n;
      }
    }
    SortedSeqIsSorted(ChildNames(recs, prefix));
    SortedUnique(Names(out), SortedSeq(ChildNames(recs, prefix)));
  }

  lemma {:induction false} FilterElements(keys: seq<string>, recs: map<string, Record>, prefix: string)
    requires Sorted(keys)
    ensures var out := ChildrenByFilter(keys, recs, prefix);
      && Sorted(Names(out))
      && (forall c :: c in out ==> prefix + c.name in keys && IsChildKey(prefix, prefix + c.name)
                                   && prefix + c.name in recs && recs[prefix + c.name] == c.rec)
      && (forall k :: k in keys && k in recs && IsChildKey(prefix, k) ==> Child(k[|prefix|..], recs[k]) in out)
  {
    if keys != [] {
      hide Less;
      var front, k := keys[..|keys| - 1], keys[|keys| - 1];
      FilterElements(front, recs, prefix);
      assert keys == front + [k];
      var before := ChildrenByFilter(front, recs, prefix);
      if IsChildKey(prefix, k) && k in recs {
        assert prefix + k[|prefix|..] == k;
        forall i | 0 <= i < |before| ensures Less(before[i].name, k[|prefix|..]) {
          assert before[i] in before;
          LessAfterPrefix(prefix, before[i].name, k[|prefix|..]);
        }
      }
    }
  }

  // ---- the jump over a subtree ----

  function SkipSuccessor(k: string, n: nat): string
    requires n < |k|
  {
    k[..n + 1] + [TOP]
  }

  /** The byte after the first '/' of the remainder is not 0xFF; UTF-8 names never contain it. */
  predicate Jumpable(prefix: string, k: string) {
    prefix <= k ==>
      var i := IndexByte(k[|prefix|..], '/');
      i >= 0 && |prefix| + i + 1 < |k| ==> k[|prefix| + i + 1] as int < 255
  }

  /** The jump moves forward exactly when that byte is not 0xFF. */
  lemma JumpMovesForward(k: string, n: nat)
    requires n < |k|
    ensures Less(k, SkipSuccessor(k, n)) <==> (n + 1 < |k| ==> k[n + 1] as int < 255)
  {
    var p := k[..n + 1];
    assert k == p + k[n + 1..];
    LessAfterPrefix(p, k[n + 1..], [TOP]);
    if n + 1 < |k| {
      var r := k[n + 1..];
      assert r[0] == k[n + 1];
      assert Less(r, [TOP]) <==> (r[0] < TOP || (r[0] == TOP && Less(r[1..], [])));
    }
  }

  /** Whatever a jump passes over lies inside the subtree, so it is no direct child. */
  lemma JumpPassesDescendants(k: string, n: nat, x: string)
    requires n < |k|
    requires !Less(x, k) && Less(x, SkipSuccessor(k, n))
    ensures k[..n + 1] <= x
  {
    var p := k[..n + 1];
    if !(p <= x) {
      if Less(x, p) {
        if p == k { assert false; }
        PrefixIsLess(p, k);
        LessTransitive(x, p, k);
        assert false;
      }
      BeyondBlock(p, x, SkipSuccessor(k, n));
      LessAsymmetric(x, SkipSuccessor(k, n));
    }
  }

  lemma {:induction false} FilterSkips(keys: seq<string>, recs: map<string, Record>, prefix: string, a: nat, b: nat)
    requires a <= b <= |keys|
    requires forall i :: a <= i < b ==> !IsChildKey(prefix, keys[i])
    ensures ChildrenByFilter(keys[..b], recs, prefix) == ChildrenByFilter(keys[..a], recs, prefix)
    decreases b
  {
    if a < b {
      FilterSkips(keys, recs, prefix, a, b - 1);
      assert keys[..b][..b - 1] == keys[..b - 1];
    }
  }

  // ---- one lemma per step of the cursor walk ----

  lemma BeforeBlock(keys: seq<string>, recs: map<string, Record>, prefix: string, pos: nat)
    requires pos <= |keys|
    requires forall j :: 0 <= j < pos ==> Less(keys[j], prefix)
    ensures ChildrenByFilter(keys[..pos], recs, prefix) == []
  {
    forall j | 0 <= j < pos ensures !IsChildKey(prefix, keys[j]) {
      if prefix <= keys[j] { PrefixNotAbove(prefix, keys[j]); }
    }
    FilterSkips(keys, recs, prefix, 0, pos);
  }

  lemma PlainStep(keys: seq<string>, recs: map<string, Record>, prefix: string, pos: nat)
    requires pos < |keys| && IsChildKey(prefix, keys[pos])
    ensures ChildrenByFilter(keys[..pos + 1], recs, prefix)
         == ChildrenByFilter(keys[..pos], recs, prefix)
              + (if keys[pos] in recs then [Child(keys[pos][|prefix|..], recs[keys[pos]])] else [])
  {
    assert keys[..pos + 1][..pos] == keys[..pos];
  }

  lemma JumpStep(keys: seq<string>, recs: map<string, Record>, prefix: string, pos: nat, n: nat, next: nat)
    requires Sorted(keys) && pos < |keys| && next <= |keys|
    requires prefix <= keys[pos] && Jumpable(prefix, keys[pos])
    requires var i := IndexByte(keys[pos][|prefix|..], '/'); i >= 0 && n == |prefix| + i
    requires forall j :: 0 <= j < next ==> Less(keys[j], SkipSuccessor(keys[pos], n))
    requires forall j :: next <= j < |keys| ==> !Less(keys[j], SkipSuccessor(keys[pos], n))
    ensures pos < next
    ensures ChildrenByFilter(keys[..next], recs, prefix) == ChildrenByFilter(keys[..pos], recs, prefix)
  {
    hide Less;
    var k := keys[pos];
    JumpMovesForward(k, n);
    forall j | pos <= j < next ensures !IsChildKey(prefix, keys[j]) {
      LessIrreflexive(k);
      if pos < j { LessAsymmetric(k, keys[j]); }
      JumpPassesDescendants(k, n, keys[j]);
      assert keys[j][n] == '/';
      if prefix <= keys[j] { assert keys[j][|prefix|..][n - |prefix|] == '/'; }
    }
    FilterSkips(keys, recs, prefix, pos, next);
  }

  lemma StillBeyond(keys: seq<string>, prefix: string, pos: nat, next: nat)
    requires Sorted(keys) && pos < next < |keys| && !Less(keys[pos], prefix)
    ensures !Less(keys[next], prefix)
  {
    if Less(keys[next], prefix) { LessTransitive(keys[pos], keys[next], prefix); }
  }

  lemma AfterBlock(keys: seq<string>, recs: map<string, Record>, prefix: string, pos: nat)
    requires Sorted(keys) && pos <= |keys|
    requires pos < |keys| ==> !Less(keys[pos], prefix) && !(prefix <= keys[pos])
    ensures ChildrenByFilter(keys[..pos], recs, prefix) == ChildrenByFilter(keys, recs, prefix)
  {
    hide Less;
    forall j | pos <= j < |keys| ensures !IsChildKey(prefix, keys[j]) {
      if prefix <= keys[j] {
        BeyondBlock(prefix, keys[pos], keys[j]);
        if pos < j { LessAsymmetric(keys[pos], keys[j]); }
      }
    }
    FilterSkips(keys, recs, prefix, pos, |keys|);
    assert keys[..|keys|] == keys;
  }

  // ---- when the walk ends ----

  /** Where the cursor stands after `Seek(k)`. */
  function SeekAt(keys: seq<string>, k: string): (i: nat)
    ensures i <= |keys| && (forall j :: 0 <= j < i ==> Less(keys[j], k)) && (i < |keys| ==> !Less(keys[i], k))
  {
    if keys != [] && Less(keys[0], k) then SeekAt(keys[1..], k) + 1 else 0
  }

  predicate Over(keys: seq<string>, prefix: string, pos: nat) {
    pos >= |keys| || !(prefix <= keys[pos])
  }

  /** One turn of the walk. */
  function Turn(keys: seq<string>, prefix: string, pos: nat): nat
    requires !Over(keys, prefix, pos)
  {
    var i := IndexByte(keys[pos][|prefix|..], '/');
    if i >= 0 then SeekAt(keys, SkipSuccessor(keys[pos], |prefix| + i)) else pos + 1
  }

  function PosAfter(keys: seq<string>, prefix: string, turns: nat): nat {
    if turns == 0 then SeekAt(keys, prefix)
    else
      var pos := PosAfter(keys, prefix, turns - 1);
      if Over(keys, prefix, pos) then pos else Turn(keys, prefix, pos)
  }

  /** The walk over a sorted bucket comes to an end exactly when no key below the prefix has a
      0xFF after its first separator; with one, it never gets past that key. */
  lemma WalkEndsExactly(keys: seq<string>, prefix: string)
    requires Sorted(keys)
    ensures (exists turns :: Over(keys, prefix, PosAfter(keys, prefix, turns)))
      <==> forall k :: k in keys ==> Jumpable(prefix, k)
  {
    hide Less, Jumpable, Over, PosAfter;
    if forall k :: k in keys ==> Jumpable(prefix, k) {
      TurnsAdvance(keys, prefix, |keys|);
    } else {
      var bad: nat :| bad < |keys| && !Jumpable(prefix, keys[bad]);
      forall turns: nat ensures !Over(keys, prefix, PosAfter(keys, prefix, turns)) {
        StuckBefore(keys, prefix, bad, turns);
      }
    }
  }

  lemma {:induction false} TurnsAdvance(keys: seq<string>, prefix: string, turns: nat)
    requires Sorted(keys) && forall k :: k in keys ==> Jumpable(prefix, k)
    ensures Over(keys, prefix, PosAfter(keys, prefix, turns)) || PosAfter(keys, prefix, turns) >= turns
    ensures turns >= |keys| ==> Over(keys, prefix, PosAfter(keys, prefix, turns))
  {
    hide Less, SeekAt, SkipSuccessor, Jumpable;
    if turns > 0 {
      TurnsAdvance(keys, prefix, turns - 1);
      var pos := PosAfter(keys, prefix, turns - 1);
      if !Over(keys, prefix, pos) { TurnAdvances(keys, prefix, pos); }
    }
  }

  lemma TurnAdvances(keys: seq<string>, prefix: string, pos: nat)
    requires Sorted(keys) && !Over(keys, prefix, pos) && Jumpable(prefix, keys[pos])
    ensures Turn(keys, prefix, pos) > pos
  {
    hide Less, SkipSuccessor;
    var i := IndexByte(keys[pos][|prefix|..], '/');
    if i >= 0 {
      JumpMovesForward(keys[pos], |prefix| + i);
      var goal := SkipSuccessor(keys[pos], |prefix| + i);
      var next := SeekAt(keys, goal);
      if next < pos { LessTransitive(keys[next], keys[pos], goal); }
    }
  }

  lemma {:induction false} StuckBefore(keys: seq<string>, prefix: string, bad: nat, turns: nat)
    requires Sorted(keys) && bad < |keys| && !Jumpable(prefix, keys[bad])
    ensures var pos := PosAfter(keys, prefix, turns);
      pos <= bad && !Less(keys[pos], prefix) && !Over(keys, prefix, pos)
  {
    hide Less, SkipSuccessor;
    var pos := PosAfter(keys, prefix, turns);
    if turns == 0 {
      PrefixNotAbove(prefix, keys[bad]);
    } else {
      var before := PosAfter(keys, prefix, turns - 1);
      StuckBefore(keys, prefix, bad, turns - 1);
      StaysBefore(keys, prefix, bad, before);
    }
    InTheBlock(keys, prefix, bad, pos);
  }

  lemma InTheBlock(keys: seq<string>, prefix: string, bad: nat, pos: nat)
    requires Sorted(keys) && pos <= bad < |keys| && prefix <= keys[bad] && !Less(keys[pos], prefix)
    ensures !Over(keys, prefix, pos)
  {
    hide Less;
    if !(prefix <= keys[pos]) {
      BeyondBlock(prefix, keys[pos], keys[bad]);
      LessAsymmetric(keys[bad], keys[pos]);
    }
  }

  lemma StaysBefore(keys: seq<string>, prefix: string, bad: nat, pos: nat)
    requires Sorted(keys) && pos <= bad < |keys| && !Jumpable(prefix, keys[bad])
    requires !Over(keys, prefix, pos) && !Less(keys[pos], prefix)
    ensures var next := Turn(keys, prefix, pos); next <= bad && !Less(keys[next], prefix)
  {
    hide Less, Jumpable, SkipSuccessor;
    var k := keys[pos];
    var i := IndexByte(k[|prefix|..], '/');
    if i >= 0 {
      var goal := SkipSuccessor(k, |prefix| + i);
      if pos < bad { LessAsymmetric(k, keys[bad]); } else { LessIrreflexive(k); }
      BadIsNotPassed(prefix, k, i, keys[bad]);
      var next := SeekAt(keys, goal);
      assert next <= bad;
      JumpKeepsPrefix(prefix, k, i);
      AtOrAfterPrefix(prefix, goal, keys[next]);
    } else {
      PlainIsNotBad(prefix, k);
      if Less(keys[pos + 1], prefix) { LessTransitive(k, keys[pos + 1], prefix); }
    }
  }

  lemma PlainIsNotBad(prefix: string, k: string)
    requires prefix <= k && IndexByte(k[|prefix|..], '/') < 0
    ensures Jumpable(prefix, k)
  {}

  lemma JumpKeepsPrefix(prefix: string, k: string, i: nat)
    requires prefix <= k && |prefix| + i < |k|
    ensures prefix <= SkipSuccessor(k, |prefix| + i)
  {}

  lemma AtOrAfterPrefix(prefix: string, goal: string, x: string)
    requires prefix <= goal && !Less(x, goal)
    ensures !Less(x, prefix)
  {
    hide Less;
    if Less(x, prefix) && prefix != goal {
      PrefixIsLess(prefix, goal);
      LessTransitive(x, prefix, goal);
    }
  }

  lemma BadIsNotPassed(prefix: string, k: string, i: nat, bad: string)
    requires prefix <= k && IndexByte(k[|prefix|..], '/') == i
    requires !Less(bad, k) && !Jumpable(prefix, bad)
    ensures !Less(bad, SkipSuccessor(k, |prefix| + i))
  {
    hide Less;
    var n := |prefix| + i;
    if Less(bad, SkipSuccessor(k, n)) {
      JumpPassesDescendants(k, n, bad);
      SameFirstSlash(prefix, k, bad, i);
      LessAfterPrefix(k[..n + 1], bad[n + 1..], [TOP]);
      assert bad == k[..n + 1] + bad[n + 1..];
      NotBelowTop(bad[n + 1..]);
    }
  }

  lemma NotBelowTop(r: string)
    requires r != "" && r[0] >= TOP
    ensures !Less(r, [TOP])
  {}

  lemma SameFirstSlash(prefix: string, k: string, x: string, i: nat)
    requires prefix <= k && IndexByte(k[|prefix|..], '/') == i && k[..|prefix| + i + 1] <= x
    ensures prefix <= x && IndexByte(x[|prefix|..], '/') == i
  {
    var a, b := k[|prefix|..], x[|prefix|..];
    assert x[..|prefix| + i + 1] == k[..|prefix| + i + 1];
    assert b[..i + 1] == x[..|prefix| + i + 1][|prefix|..] && a[..i + 1] == k[..|prefix| + i + 1][|prefix|..];
    assert forall j :: 0 <= j <= i ==> b[..i + 1][j] == b[j] && a[..i + 1][j] == a[j];
    var ib := IndexByte(b, '/');
    assert b[i] == '/' && forall j :: 0 <= j < i ==> a[..i][j] != '/';
    assert ib <= i;
    assert b[ib] == '/';
  }

  class Bucket {
    var keys: seq<string>
    var vals: map<string, string>

    ghost predicate Valid()
      reads this
    {
      && Sorted(keys)
      && vals.Keys == Members(keys)
    }

    /** The index the bucket stores. */
    ghost function Index(): map<string, Record>
      reads this
      requires Valid()
    {
      Decoded(vals)
    }

    constructor ()
      ensures Valid() && keys == [] && Index() == map[]
    {
      keys, vals := [], map[];
    }

    /** Cursor `Seek`: the first position whose key is not below `k`. */
    method Seek(k: string) returns (i: nat)
      requires Valid()
      ensures i <= |keys|
      ensures forall j :: 0 <= j < i ==> Less(keys[j], k)
      ensures forall j :: i <= j < |keys| ==> !Less(keys[j], k)
    {
      i := 0;
      while i < |keys| && Less(keys[i], k)
        invariant i <= |keys|
        invariant forall j :: 0 <= j < i ==> Less(keys[j], k)
      {
        i := i + 1;
      }
      if i < |keys| {
        forall j | i <= j < |keys| ensures !Less(keys[j], k) {
          if Less(keys[j], k) && i < j { LessTransitive(keys[i], keys[j], k); }
        }
      }
    }

    method Get(path: string) returns (rec: Record, found: bool)
      requires Valid()
      ensures found <==> path in Index()
      ensures rec == if found then Index()[path] else NO_RECORD
    {
      rec, found := NO_RECORD, false;
      if path in vals {
        var d := DecodeRecord(vals[path]);
        if d.Some? { rec, found := d.value, true; }
      }
    }

    method Put(path: string, r: Record)
      requires Valid()
      requires -TWO_63 <= r.size < TWO_63
      modifies this
      ensures Valid()
      ensures vals == old(vals)[path := EncodeRecord(r)]
      ensures Encodable(r) ==> Index() == old(Index())[path := r]
    {
      hide Less, EncodeRecord, Decoded, Sorted, Members;
      var i := Seek(path);
      if i == |keys| || keys[i] != path {
        InsertAt(keys, i, path);
        keys := keys[..i] + [path] + keys[i..];
      } else {
        KeyIsMember(keys, i);
      }
      vals := vals[path := EncodeRecord(r)];
      if Encodable(r) { DecodedPut(old(vals), path, r); }
    }

    /** `Children` with `scanPrefix` inlined: a cursor walk that jumps over whole subtrees
        returns what a filter over every key returns, in key order. */
    method Children(dir: string) returns (out: seq<Child>)
      requires Valid()
      requires forall k :: k in keys ==> Jumpable(DirPrefix(dir), k)
      ensures out == ChildrenByFilter(keys, Index(), DirPrefix(dir))
    {
      hide Less, DecodeRecord, Jumpable, IsChildKey, ChildrenByFilter;
      var prefix := DirPrefix(dir);
      ghost var ks, recs := keys, Index();
      out := [];
      var pos := Seek(prefix);
      BeforeBlock(ks, recs, prefix, pos);
      while pos < |keys| && prefix <= keys[pos]
        invariant pos <= |ks|
        invariant pos < |ks| ==> !Less(ks[pos], prefix)
        invariant out == ChildrenByFilter(ks[..pos], recs, prefix)
        decreases |ks| - pos
      {
        var k := keys[pos];
        var rel := k[|prefix|..];
        var i := IndexByte(rel, '/');
        if i >= 0 {
          var n := |prefix| + i;
          var next := Seek(SkipSuccessor(k, n));
          JumpStep(ks, recs, prefix, pos, n, next);
          if next < |ks| { StillBeyond(ks, prefix, pos, next); }
          pos := next;
        } else {
          PlainStep(ks, recs, prefix, pos);
          var d := DecodeRecord(vals[k]);
          if d.Some? { out := out + [Child(rel, d.value)]; }
          if pos + 1 < |ks| { StillBeyond(ks, prefix, pos, pos + 1); }
          pos := pos + 1;
        }
      }
      AfterBlock(ks, recs, prefix, pos);
    }

    /** `ClearTree` for one path: delete from `Seek(p)` while the key is `p` or below `p/`. */
    method ClearOne(p: string)
      requires Valid()
      modifies this
      ensures Valid()
      ensures vals == Cleared(old(vals), p)
    {
      hide Less, DecodeRecord, Doomed, DirPrefix, Cleared, Members;
      var childPrefix := DirPrefix(p);
      var self := TrimSuffix(childPrefix, "/");
      assert self == SelfKey(p);
      var i := Seek(self);
      ghost var all, start, gone := keys, i, 0;
      NoMembers(all, start);
      while i < |keys| && (keys[i] == self || childPrefix <= keys[i])
        invariant i == start <= start + gone <= |all|
        invariant keys == all[..start] + all[start + gone..]
        invariant forall j :: start <= j < start + gone ==> all[j] == self || childPrefix <= all[j]
        invariant vals == old(vals) - Members(all[start..start + gone])
        decreases |keys| - i
      {
        DeleteStep(all, start, gone);
        vals := vals - {keys[i]};
        keys := keys[..i] + keys[i + 1..];
        gone := gone + 1;
      }
      DeletedRun(all, old(vals).Keys, p, start, gone);
      KeptMembers(all, start, gone);
      KeptMap(old(vals), all, p, start, gone);
    }

    method ClearTree(paths: seq<string>)
      requires Valid()
      modifies this
      ensures Valid()
      ensures vals == ClearedAll(old(vals), paths)
    {
      for n := 0 to |paths|
        invariant Valid()
        invariant vals == ClearedAll(old(vals), paths[..n])
      {
        assert paths[..n + 1][..n] == paths[..n];
        ClearOne(paths[n]);
      }
      assert paths[..|paths|] == paths;
    }
  }

  lemma KeyIsMember(keys: seq<string>, i: nat)
    requires i < |keys|
    ensures keys[i] in Members(keys)
  {}

  lemma DecodedPut(vals: map<string, string>, path: string, r: Record)
    requires Encodable(r)
    ensures Decoded(vals[path := EncodeRecord(r)]) == Decoded(vals)[path := r]
  {
    DecodeAfterEncode(r);
  }

  lemma InsertAt(keys: seq<string>, i: nat, path: string)
    requires Sorted(keys) && i <= |keys|
    requires forall j :: 0 <= j < i ==> Less(keys[j], path)
    requires forall j :: i <= j < |keys| ==> !Less(keys[j], path)
    requires i == |keys| || keys[i] != path
    ensures Sorted(keys[..i] + [path] + keys[i..])
    ensures Members(keys[..i] + [path] + keys[i..]) == Members(keys) + {path}
  {
    forall j | i <= j < |keys| ensures Less(path, keys[j]) {
      LessTotal(keys[i], path);
      if i < j { LessTransitive(path, keys[i], keys[j]); }
    }
    assert keys == keys[..i] + keys[i..];
  }

  lemma KeptMap(m: map<string, string>, all: seq<string>, p: string, start: nat, gone: nat)
    requires Sorted(all) && start + gone <= |all|
    requires m.Keys == Members(all)
    requires forall i :: 0 <= i < |all| ==> (Doomed(m.Keys, p, all[i]) <==> start <= i < start + gone)
    ensures m - Members(all[start..start + gone]) == Cleared(m, p)
  {
    hide Less, Doomed;
    var run := all[start..start + gone];
    forall k | k in m ensures k in Members(run) <==> Doomed(m.Keys, p, k) {
      var i :| 0 <= i < |all| && all[i] == k;
      if start <= i < start + gone { assert run[i - start] == k; }
      if k in run {
        var j :| 0 <= j < |run| && run[j] == k;
        assert all[start + j] == k;
      }
    }
  }

  lemma NoMembers(all: seq<string>, start: nat)
    requires start <= |all|
    ensures Members(all[start..start]) == {}
  {}

  lemma DeleteStep(all: seq<string>, start: nat, gone: nat)
    requires start + gone < |all|
    ensures var now := all[..start] + all[start + gone..];
      && now[start] == all[start + gone]
      && now[..start] + now[start + 1..] == all[..start] + all[start + gone + 1..]
    ensures Members(all[start..start + gone + 1]) == Members(all[start..start + gone]) + {all[start + gone]}
  {
    assert all[start..start + gone + 1] == all[start..start + gone] + [all[start + gone]];
  }

  lemma KeptMembers(all: seq<string>, start: nat, gone: nat)
    requires Sorted(all) && start + gone <= |all|
    ensures Sorted(all[..start] + all[start + gone..])
    ensures Members(all[..start] + all[start + gone..]) == Members(all) - Members(all[start..start + gone])
  {
    hide Less;
    var kept, run := all[..start] + all[start + gone..], all[start..start + gone];
    assert all == all[..start] + run + all[start + gone..];
    forall k | k in run ensures k !in kept {
      var i :| 0 <= i < |run| && run[i] == k;
      assert all[start + i] == k;
      LessIrreflexive(k);
    }
    forall k ensures k in kept || k in run <==> k in all {}
  }

  /** The run of keys that the delete loop walks is exactly the doomed set. */
  lemma DeletedRun(all: seq<string>, keySet: set<string>, p: string, start: nat, gone: nat)
    requires Sorted(all) && start + gone <= |all|
    requires keySet == Members(all)
    requires forall j :: 0 <= j < start ==> Less(all[j], SelfKey(p))
    requires forall j :: start <= j < |all| ==> !Less(all[j], SelfKey(p))
    requires forall j :: start <= j < start + gone ==> all[j] == SelfKey(p) || DirPrefix(p) <= all[j]
    requires start + gone < |all| ==> all[start + gone] != SelfKey(p) && !(DirPrefix(p) <= all[start + gone])
    ensures forall i :: 0 <= i < |all| ==> (Doomed(keySet, p, all[i]) <==> start <= i < start + gone)
  {
    hide Less, SelfKey, DirPrefix;
    forall i | 0 <= i < |all| ensures Doomed(keySet, p, all[i]) <==> start <= i < start + gone {
      if start <= i < start + gone {
        if all[i] != SelfKey(p) { RunIsUnblocked(all, keySet, p, start, i); }
      } else if i < start {
        if Doomed(keySet, p, all[i]) { NotBelowSelf(p, all[i]); }
      } else {
        StopIsBeyond(all, keySet, p, start + gone, i);
      }
    }
  }

  lemma RunIsUnblocked(all: seq<string>, keySet: set<string>, p: string, start: nat, w: nat)
    requires Sorted(all) && start <= w < |all|
    requires keySet == Members(all)
    requires forall i :: start <= i <= w ==> all[i] == SelfKey(p) || DirPrefix(p) <= all[i]
    requires forall i :: 0 <= i < start ==> Less(all[i], SelfKey(p))
    requires DirPrefix(p) <= all[w]
    ensures !Blocked(keySet, p)
  {
    hide Less;
    if Blocked(keySet, p) {
      var j :| j in keySet && Less(SelfKey(p), j) && Less(j, DirPrefix(p));
      var i :| 0 <= i < |all| && all[i] == j;
      LessAsymmetric(SelfKey(p), j);
      if DirPrefix(p) <= j { PrefixNotAbove(DirPrefix(p), j); }
      PrefixNotAbove(DirPrefix(p), all[w]);
      if i > w { LessTransitive(all[w], j, DirPrefix(p)); }
      assert false;
    }
  }

  /** The key that stops the loop lies above every doomed key. */
  lemma StopIsBeyond(all: seq<string>, keySet: set<string>, p: string, s: nat, i: nat)
    requires Sorted(all) && s <= i < |all|
    requires keySet == Members(all)
    requires !Less(all[s], SelfKey(p)) && all[s] != SelfKey(p) && !(DirPrefix(p) <= all[s])
    ensures !Doomed(keySet, p, all[i])
  {
    var self, sub, x, k := SelfKey(p), DirPrefix(p), all[s], all[i];
    LessTotal(self, x);
    LessIrreflexive(self);
    if k == self { LessTransitive(self, x, self); }
    if Less(x, sub) {
      assert x in keySet;
    } else if sub <= k {
      BeyondBlock(sub, x, k);
      LessAsymmetric(k, x);
    }
  }

  lemma NotBelowSelf(p: string, k: string)
    requires k == SelfKey(p) || DirPrefix(p) <= k
    ensures !Less(k, SelfKey(p))
  {
    assert SelfKey(p) <= k;
    PrefixNotAbove(SelfKey(p), k);
  }
}
