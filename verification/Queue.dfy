/** The single-consumer work queue (internal/engine/queue.go): merged duplicates, upgraded
    triggers, in-place compaction. */
module WorkQueue {
  import opened Bytes

  /** Unknown triggers rank like the missing map entry: 0. */
  function Rank(trigger: string): nat {
    if trigger == "watch" then 1 else if trigger == "cron" then 2 else if trigger == "manual" then 3 else 0
  }

  datatype Job = Job(taskID: string, scope: string, trigger: string, dir: string, file: string) {
    function DedupKey(): string {
      if file != "" then taskID + "|file|" + scope + "|" + file
      else taskID + "|dir|" + scope + "|" + dir
    }

    predicate IsFile() { file != "" }

    function Target(): string { if file != "" then file else dir }

    function Raised(t: string): Job {
      if Rank(t) > Rank(trigger) then this.(trigger := t) else this
    }
  }

  // ---- the key tells jobs apart ----

  lemma SplitAtBar(x: string, s: string, y: string, t: string)
    requires '|' !in x && '|' !in y && x + "|" + s == y + "|" + t
    ensures x == y && s == t
  {
    var a, b := x + "|" + s, y + "|" + t;
    assert a[|x|] == '|' && b[|y|] == '|';
    assert a[..|x|] == x && b[..|y|] == y && a[|x| + 1..] == s && b[|y| + 1..] == t;
  }

  function Section(j: Job): string { if j.IsFile() then "file" else "dir" }

  lemma KeyShape(j: Job)
    ensures j.DedupKey() == j.taskID + "|" + (Section(j) + "|" + (j.scope + "|" + j.Target()))
  {
    if j.IsFile() {
      assert "|file|" == "|" + "file" + "|";
    } else {
      assert "|dir|" == "|" + "dir" + "|";
    }
  }

  /** Injective on task, scope, kind and target as long as no task ID or scope holds a bar. */
  lemma KeyIsInjective(a: Job, b: Job)
    requires '|' !in a.taskID && '|' !in b.taskID && '|' !in a.scope && '|' !in b.scope
    ensures a.DedupKey() == b.DedupKey() <==>
      a.taskID == b.taskID && a.scope == b.scope && a.IsFile() == b.IsFile() && a.Target() == b.Target()
  {
    KeyShape(a);
    KeyShape(b);
    if a.DedupKey() == b.DedupKey() {
      SplitAtBar(a.taskID, Section(a) + "|" + (a.scope + "|" + a.Target()),
                 b.taskID, Section(b) + "|" + (b.scope + "|" + b.Target()));
      SplitAtBar(Section(a), a.scope + "|" + a.Target(), Section(b), b.scope + "|" + b.Target());
      assert "file" != "dir" by { assert |"file"| == 4 && |"dir"| == 3; }
      SplitAtBar(a.scope, a.Target(), b.scope, b.Target());
    }
  }

  /** `longer` is `shorter` followed by a section and the scope, and then nothing or a bar. */
  ghost predicate ExtendsBySection(shorter: string, longer: string, scope: string) {
    exists tail :: ExtendsBy(shorter, longer, scope, tail)
  }

  predicate ExtendsBy(shorter: string, longer: string, scope: string, tail: string) {
    && StartsWithBar(tail)
    && (longer == shorter + "|dir|" + scope + tail || longer == shorter + "|file|" + scope + tail)
  }

  predicate StartsWithBar(tail: string) {
    tail == "" || tail[0] == '|'
  }

  ghost predicate MayCollide(s: string, t: string, scope: string) {
    exists a: Job, b: Job :: Collide(a, b, s, t, scope)
  }

  predicate Collide(a: Job, b: Job, s: string, t: string, scope: string) {
    a.taskID == s && b.taskID == t && a.scope == scope && b.scope == scope && a.DedupKey() == b.DedupKey()
  }

  /** A bar-free piece ends where the first bar is. */
  lemma FirstBar(x: string, s: string, r: string, t: string)
    requires '|' !in x && x + "|" + s == r + "|" + t
    ensures |r| >= |x| && r[..|x|] == x
    ensures |r| == |x| ==> r == x && s == t
    ensures |r| > |x| ==> r[|x|] == '|' && s == r[|x| + 1..] + "|" + t
  {
    var a, b := x + "|" + s, r + "|" + t;
    assert a[|x|] == '|' && b[|r|] == '|' && a[..|x|] == x;
    forall k: nat | k < |x| ensures b[k] != '|' { assert a[k] == x[k] && x[k] in x; }
    assert b[..|x|] == r[..|x|];
    if |r| == |x| {
      assert b[..|r|] == r && a[|x| + 1..] == s && b[|r| + 1..] == t;
    } else {
      assert b[|x|] == r[|x|];
      assert a[|x| + 1..] == s && b[|x| + 1..] == r[|x| + 1..] + "|" + t;
    }
  }

  /** Cutting the bar-free `x` off both sides; `y` is not `x`, so `r` reaches past it. */
  lemma CutPiece(x: string, s: string, r: string, y: string, t: string) returns (r2: string)
    requires '|' !in x && '|' !in y && x + "|" + s == r + "|" + (y + "|" + t)
    ensures r == x ==> s == y + "|" + t
    ensures r != x ==> r == x + "|" + r2 && s == r2 + "|" + (y + "|" + t)
  {
    FirstBar(x, s, r, y + "|" + t);
    r2 := if |r| > |x| then r[|x| + 1..] else "";
    if |r| > |x| {
      assert r == r[..|x|] + [r[|x|]] + r[|x| + 1..];
    }
  }

  /** What the longer ID holds past the shorter one. */
  lemma OverhangShape(r: string, sa: string, scope: string, ta: string, sb: string, tb: string) returns (tail: string)
    requires '|' !in sa && '|' !in sb && '|' !in scope && scope != sb
    requires sa + "|" + (scope + "|" + ta) == r + "|" + (sb + "|" + (scope + "|" + tb))
    ensures r == sa + "|" + scope + tail && StartsWithBar(tail)
  {
    var r2 := CutPiece(sa, scope + "|" + ta, r, sb, scope + "|" + tb);
    if scope + "|" + ta == sb + "|" + (scope + "|" + tb) {
      SplitAtBar(scope, ta, sb, scope + "|" + tb);
    }
    assert r == sa + "|" + r2 && scope + "|" + ta == r2 + "|" + (sb + "|" + (scope + "|" + tb));
    FirstBar(scope, ta, r2, sb + "|" + (scope + "|" + tb));
    tail := r2[|scope|..];
    assert r2 == scope + tail;
    assert r == sa + "|" + (scope + tail);
  }

  lemma Overhang(s: string, x: string, t: string, y: string)
    requires |s| < |t| && s + "|" + x == t + "|" + y
    ensures t == s + "|" + t[|s| + 1..] && x == t[|s| + 1..] + "|" + y
  {
    var a, b := s + "|" + x, t + "|" + y;
    assert a[..|s|] == s && b[..|s|] == t[..|s|] && a[|s|] == '|' && b[|s|] == t[|s|];
    assert a[|s| + 1..] == x && b[|s| + 1..] == t[|s| + 1..] + "|" + y;
  }

  lemma CollisionExtends(a: Job, b: Job)
    requires a.scope == b.scope && '|' !in a.scope && a.scope != "dir" && a.scope != "file"
    requires a.DedupKey() == b.DedupKey() && |a.taskID| < |b.taskID|
    ensures ExtendsBySection(a.taskID, b.taskID, a.scope)
  {
    hide Job.DedupKey, ExtendsBySection;
    KeyShape(a);
    KeyShape(b);
    var s, t, scope := a.taskID, b.taskID, a.scope;
    Overhang(s, Section(a) + "|" + (scope + "|" + a.Target()), t, Section(b) + "|" + (scope + "|" + b.Target()));
    var r := t[|s| + 1..];
    var tail := OverhangShape(r, Section(a), scope, a.Target(), Section(b), b.Target());
    SectionExtends(s, t, scope, Section(a), tail);
  }

  lemma SectionExtends(s: string, t: string, scope: string, section: string, tail: string)
    requires section == "dir" || section == "file"
    requires t == s + "|" + (section + "|" + scope + tail) && StartsWithBar(tail)
    ensures ExtendsBySection(s, t, scope)
  {
    if section == "dir" {
      assert "|" + ("dir" + "|" + scope + tail) == "|dir|" + scope + tail;
      assert t == s + "|dir|" + scope + tail;
    } else {
      assert "|" + ("file" + "|" + scope + tail) == "|file|" + scope + tail;
      assert t == s + "|file|" + scope + tail;
    }
    assert ExtendsBy(s, t, scope, tail);
  }

  /** The target that makes up for `tail`. */
  lemma MakingUp(head: string, tail: string, rest: string) returns (target: string)
    requires StartsWithBar(tail) && |rest| > 1 && rest[0] == '|'
    ensures target != ""
    ensures head + "|" + target == head + tail + rest
  {
    target := (tail + rest)[1..];
    assert tail + rest == "|" + target;
    assert head + tail + rest == head + (tail + rest);
    assert head + "|" + target == head + ("|" + target);
  }

  lemma ExtensionCollides(s: string, t: string, scope: string)
    requires ExtendsBySection(s, t, scope)
    ensures MayCollide(s, t, scope) && MayCollide(t, s, scope)
  {
    hide Job.DedupKey;
    var tail :| ExtendsBy(s, t, scope, tail);
    var rest := "|dir|" + scope + "|" + "y";
    var b := Job(t, scope, "", "y", "");
    DirKey(b);
    if t == s + "|dir|" + scope + tail {
      var target := MakingUp(s + "|dir|" + scope, tail, rest);
      var a := Job(s, scope, "", target, "");
      DirKey(a);
      SameKey(a, b, t, rest);
    } else {
      var target := MakingUp(s + "|file|" + scope, tail, rest);
      var a := Job(s, scope, "", "", target);
      FileKey(a);
      SameKey(a, b, t, rest);
    }
  }

  lemma DirKey(j: Job)
    requires !j.IsFile()
    ensures j.DedupKey() == j.taskID + "|dir|" + j.scope + "|" + j.dir
  {}

  lemma FileKey(j: Job)
    requires j.IsFile()
    ensures j.DedupKey() == j.taskID + "|file|" + j.scope + "|" + j.file
  {}

  lemma SameKey(a: Job, b: Job, t: string, rest: string)
    requires a.scope == b.scope && b.taskID == t && !b.IsFile() && b.dir == "y"
    requires rest == "|dir|" + b.scope + "|" + "y" && a.DedupKey() == t + rest
    ensures MayCollide(a.taskID, t, a.scope) && MayCollide(t, a.taskID, a.scope)
  {
    DirKey(b);
    assert t + "|dir|" + b.scope + "|" + "y" == t + rest by { SplitFour(t, "|dir|", b.scope, "|", "y"); }
    hide Job.DedupKey;
    assert Collide(a, b, a.taskID, t, a.scope) && Collide(b, a, t, a.taskID, a.scope);
  }

  lemma SplitFour(t: string, p: string, q: string, r: string, u: string)
    ensures t + p + q + r + u == t + (p + q + r + u)
  {}

  /** Two different tasks have jobs that share a key, in a scope that is neither a section's name
      nor holds a bar, exactly when one ID is the other followed by a section and that scope. */
  lemma CollisionExactly(s: string, t: string, scope: string)
    requires s != t && '|' !in scope && scope != "dir" && scope != "file"
    ensures MayCollide(s, t, scope) <==> ExtendsBySection(s, t, scope) || ExtendsBySection(t, s, scope)
  {
    hide ExtendsBySection, Job.DedupKey;
    if ExtendsBySection(s, t, scope) { ExtensionCollides(s, t, scope); }
    if ExtendsBySection(t, s, scope) { ExtensionCollides(t, s, scope); }
    if a: Job, b: Job :| Collide(a, b, s, t, scope) {
      if |s| < |t| {
        CollisionExtends(a, b);
      } else if |t| < |s| {
        CollisionExtends(b, a);
      } else {
        SameLengthIDs(a, b);
      }
    }
  }

  lemma SameLengthIDs(a: Job, b: Job)
    requires |a.taskID| == |b.taskID| && a.DedupKey() == b.DedupKey()
    ensures a.taskID == b.taskID
  {
    assert a.DedupKey()[..|a.taskID|] == a.taskID && b.DedupKey()[..|b.taskID|] == b.taskID;
  }

  // ---- the simple form: a list of jobs ----

  function Find(jobs: seq<Job>, key: string): (i: int)
    ensures -1 <= i < |jobs|
    ensures i >= 0 ==> jobs[i].DedupKey() == key
    ensures i < 0 ==> forall k :: 0 <= k < |jobs| ==> jobs[k].DedupKey() != key
  {
    if jobs == [] then -1
    else if jobs[0].DedupKey() == key then 0
    else
      var r := Find(jobs[1..], key);
      if r < 0 then -1 else r + 1
  }

  /** An equal job already queued keeps its place and the higher trigger; a new one goes last. */
  function Offer(jobs: seq<Job>, j: Job): seq<Job> {
    var i := Find(jobs, j.DedupKey());
    if i >= 0 then jobs[i := jobs[i].Raised(j.trigger)] else jobs + [j]
  }

  function Without(jobs: seq<Job>, taskID: string): seq<Job> {
    if jobs == [] then []
    else
      Without(jobs[..|jobs| - 1], taskID)
        + (if jobs[|jobs| - 1].taskID == taskID then [] else [jobs[|jobs| - 1]])
  }

  // ---- the program's form: an order of keys and a map of pending jobs ----

  ghost predicate Consistent(order: seq<string>, pending: map<string, Job>) {
    && (forall i, k :: 0 <= i < k < |order| ==> order[i] != order[k])
    && pending.Keys == Keys(order)
    && (forall key :: key in pending ==> pending[key].DedupKey() == key)
  }

  ghost function Keys(order: seq<string>): set<string> {
    set k | k in order
  }

  ghost function JobsOf(order: seq<string>, pending: map<string, Job>): (r: seq<Job>)
    requires Keys(order) <= pending.Keys
    ensures |r| == |order| && forall i :: 0 <= i < |order| ==> order[i] in pending && r[i] == pending[order[i]]
  {
    assert forall i :: 0 <= i < |order| ==> order[i] in Keys(order);
    seq(|order|, i requires 0 <= i < |order| => pending[order[i]])
  }

  lemma OfferNew(order: seq<string>, pending: map<string, Job>, j: Job)
    requires Consistent(order, pending) && j.DedupKey() !in pending
    ensures Consistent(order + [j.DedupKey()], pending[j.DedupKey() := j])
    ensures JobsOf(order + [j.DedupKey()], pending[j.DedupKey() := j]) == Offer(JobsOf(order, pending), j)
  {
    hide Job.DedupKey;
    var jobs, key := JobsOf(order, pending), j.DedupKey();
    assert key !in Keys(order);
    assert Find(jobs, key) < 0;
  }

  lemma OfferAgain(order: seq<string>, pending: map<string, Job>, j: Job)
    requires Consistent(order, pending) && j.DedupKey() in pending
    ensures var key := j.DedupKey();
      var pending2 := pending[key := pending[key].Raised(j.trigger)];
      Consistent(order, pending2) && JobsOf(order, pending2) == Offer(JobsOf(order, pending), j)
  {
    var key := j.DedupKey();
    var raised := pending[key].Raised(j.trigger);
    assert raised.DedupKey() == key;
    hide Job.DedupKey, Job.Raised;
    assert key in Keys(order);
    var i :| 0 <= i < |order| && order[i] == key;
    RaiseAt(order, pending, i, raised);
    FindIsAt(order, pending, i);
  }

  lemma RaiseAt(order: seq<string>, pending: map<string, Job>, i: nat, raised: Job)
    requires Consistent(order, pending) && i < |order| && raised.DedupKey() == order[i]
    ensures Consistent(order, pending[order[i] := raised])
    ensures JobsOf(order, pending[order[i] := raised]) == JobsOf(order, pending)[i := raised]
  {
    hide Job.DedupKey;
    assert order[i] in Keys(order);
  }

  lemma FindIsAt(order: seq<string>, pending: map<string, Job>, i: nat)
    requires Consistent(order, pending) && i < |order|
    ensures Find(JobsOf(order, pending), order[i]) == i && JobsOf(order, pending)[i] == pending[order[i]]
  {
    hide Job.DedupKey;
    var jobs := JobsOf(order, pending);
    var at := Find(jobs, order[i]);
    assert jobs[i].DedupKey() == order[i];
    assert jobs[at].DedupKey() == order[at];
  }

  lemma TakeFront(order: seq<string>, pending: map<string, Job>)
    requires Consistent(order, pending) && order != []
    ensures order[0] in pending && Consistent(order[1..], pending - {order[0]})
    ensures JobsOf(order[1..], pending - {order[0]}) == JobsOf(order, pending)[1..]
  {
    hide Job.DedupKey;
    var rest, left := order[1..], pending - {order[0]};
    KeysSplit(order);
    assert order[0] in Keys(order);
    assert left.Keys == Keys(rest) && Consistent(rest, left);
    var jobs, jobs2 := JobsOf(order, pending), JobsOf(rest, left);
    hide Keys, Consistent, JobsOf;
    forall i | 0 <= i < |rest| ensures jobs2[i] == jobs[1..][i] {
      assert rest[i] == order[i + 1];
    }
  }

  lemma KeysSplit(order: seq<string>)
    requires order != [] && forall i, k :: 0 <= i < k < |order| ==> order[i] != order[k]
    ensures Keys(order[1..]) == Keys(order) - {order[0]}
  {
    assert order == [order[0]] + order[1..];
    assert order[0] !in order[1..];
  }

  /** The keys `DropTask` keeps. */
  ghost function KeptKeys(order: seq<string>, pending: map<string, Job>, taskID: string): seq<string>
    requires Keys(order) <= pending.Keys
  {
    if order == [] then []
    else
      var front, key := order[..|order| - 1], order[|order| - 1];
      assert key in Keys(order) && Keys(front) <= Keys(order);
      KeptKeys(front, pending, taskID) + (if pending[key].taskID == taskID then [] else [key])
  }

  /** What `DropTask` has left in the map once the keys of `done` are dealt with. */
  ghost function StillPending(done: set<string>, pending: map<string, Job>, taskID: string): map<string, Job> {
    map key | key in pending && !(key in done && pending[key].taskID == taskID) :: pending[key]
  }

  lemma {:induction false} KeptElements(order: seq<string>, pending: map<string, Job>, taskID: string)
    requires Keys(order) <= pending.Keys && forall i, k :: 0 <= i < k < |order| ==> order[i] != order[k]
    ensures var kept := KeptKeys(order, pending, taskID);
      && |kept| <= |order| && Keys(kept) <= Keys(order)
      && (forall i, k :: 0 <= i < k < |kept| ==> kept[i] != kept[k])
      && (forall key :: key in Keys(kept) <==> key in Keys(order) && pending[key].taskID != taskID)
    decreases |order|
  {
    if order != [] {
      var front, key := order[..|order| - 1], order[|order| - 1];
      assert order == front + [key];
      assert Keys(order) == Keys(front) + {key};
      KeptElements(front, pending, taskID);
      var kept := KeptKeys(front, pending, taskID);
      assert Keys(kept + [key]) == Keys(kept) + {key};
    }
  }

  lemma {:induction false} KeptJobs(order: seq<string>, pending: map<string, Job>, left: map<string, Job>,
      taskID: string)
    requires Keys(order) <= pending.Keys && forall i, k :: 0 <= i < k < |order| ==> order[i] != order[k]
    requires forall key :: key in Keys(order) && pending[key].taskID != taskID ==>
      key in left && left[key] == pending[key]
    ensures Keys(KeptKeys(order, pending, taskID)) <= left.Keys
    ensures JobsOf(KeptKeys(order, pending, taskID), left) == Without(JobsOf(order, pending), taskID)
    decreases |order|
  {
    hide Keys, KeptKeys, JobsOf, Without, Job.DedupKey;
    if order == [] { NoJobs(pending, left, taskID); }
    if order != [] {
      var front, key := order[..|order| - 1], order[|order| - 1];
      assert order == front + [key];
      KeysSnoc(front, key);
      assert key in Keys(order);
      KeptJobs(front, pending, left, taskID);
      KeptSnoc(front, key, pending, taskID);
      JobsSnoc(front, key, pending);
      WithoutSnoc(JobsOf(front, pending), pending[key], taskID);
      var kept := KeptKeys(front, pending, taskID);
      if pending[key].taskID != taskID {
        KeysSnoc(kept, key);
        JobsSnoc(kept, key, left);
      } else {
        assert kept + [] == kept;
      }
    }
  }

  lemma NoJobs(pending: map<string, Job>, left: map<string, Job>, taskID: string)
    ensures Keys([]) == {} && KeptKeys([], pending, taskID) == []
      && JobsOf([], left) == Without(JobsOf([], pending), taskID)
  {
    assert JobsOf([], left) == [] && JobsOf([], pending) == [];
  }

  lemma KeysSnoc(front: seq<string>, key: string)
    ensures Keys(front + [key]) == Keys(front) + {key}
  {}

  lemma KeptSnoc(front: seq<string>, key: string, pending: map<string, Job>, taskID: string)
    requires Keys(front + [key]) <= pending.Keys
    ensures Keys(front) <= pending.Keys && key in pending
    ensures KeptKeys(front + [key], pending, taskID)
         == KeptKeys(front, pending, taskID) + (if pending[key].taskID == taskID then [] else [key])
  {
    KeysSnoc(front, key);
    assert (front + [key])[..|front|] == front;
  }

  lemma JobsSnoc(front: seq<string>, key: string, pending: map<string, Job>)
    requires Keys(front) <= pending.Keys && key in pending
    ensures Keys(front + [key]) <= pending.Keys
    ensures JobsOf(front + [key], pending) == JobsOf(front, pending) + [pending[key]]
  {}

  lemma WithoutSnoc(jobs: seq<Job>, j: Job, taskID: string)
    ensures Without(jobs + [j], taskID) == Without(jobs, taskID) + (if j.taskID == taskID then [] else [j])
  {
    assert (jobs + [j])[..|jobs|] == jobs;
  }

  /** The drop as a whole keeps the queue consistent and is `Without` on the list of jobs. */
  lemma DropIsWithout(order: seq<string>, pending: map<string, Job>, taskID: string)
    requires Consistent(order, pending)
    ensures var kept, left := KeptKeys(order, pending, taskID), StillPending(Keys(order), pending, taskID);
      Consistent(kept, left) && JobsOf(kept, left) == Without(JobsOf(order, pending), taskID)
  {
    DropStaysConsistent(order, pending, taskID);
    hide Job.DedupKey, Consistent;
    KeptJobs(order, pending, StillPending(Keys(order), pending, taskID), taskID);
  }

  lemma DropStaysConsistent(order: seq<string>, pending: map<string, Job>, taskID: string)
    requires Consistent(order, pending)
    ensures Consistent(KeptKeys(order, pending, taskID), StillPending(Keys(order), pending, taskID))
  {
    hide Job.DedupKey, KeptKeys, Keys;
    KeptElements(order, pending, taskID);
  }

  lemma DropStep(order: seq<string>, pending: map<string, Job>, taskID: string, r: nat)
    requires Consistent(order, pending) && r < |order|
    ensures Keys(order[..r]) <= pending.Keys && Keys(order[..r + 1]) <= pending.Keys && order[r] in pending
    ensures KeptKeys(order[..r + 1], pending, taskID)
         == KeptKeys(order[..r], pending, taskID) + (if pending[order[r]].taskID == taskID then [] else [order[r]])
    ensures order[r] in StillPending(Keys(order[..r]), pending, taskID)
    ensures StillPending(Keys(order[..r + 1]), pending, taskID)
         == if pending[order[r]].taskID == taskID then StillPending(Keys(order[..r]), pending, taskID) - {order[r]}
            else StillPending(Keys(order[..r]), pending, taskID)
  {
    hide Job.DedupKey;
    assert order[..r + 1] == order[..r] + [order[r]] && order[..r + 1][..r] == order[..r];
    assert Keys(order[..r + 1]) == Keys(order[..r]) + {order[r]};
    assert order[r] in Keys(order) && Keys(order[..r]) <= Keys(order);
    assert order[r] !in Keys(order[..r]);
  }

  /** The compaction loop before step `r`: the front of the slice holds the kept keys, the
      rest is still as it was, and the dropped keys have left the map. */
  ghost predicate Dropping(order0: seq<string>, pending0: map<string, Job>, taskID: string, r: nat,
                           order: seq<string>, pending: map<string, Job>, kept: nat) {
    && |order| == |order0| && kept <= r <= |order0| && order[r..] == order0[r..]
    && Keys(order0[..r]) <= pending0.Keys && order[..kept] == KeptKeys(order0[..r], pending0, taskID)
    && pending == StillPending(Keys(order0[..r]), pending0, taskID)
  }

  lemma DropBegins(order: seq<string>, pending: map<string, Job>, taskID: string)
    ensures Dropping(order, pending, taskID, 0, order, pending, 0)
  {
    assert order[..0] == [];
  }

  lemma DropAdvances(order0: seq<string>, pending0: map<string, Job>, taskID: string, r: nat,
                     order: seq<string>, pending: map<string, Job>, kept: nat)
    requires Consistent(order0, pending0) && r < |order0|
    requires Dropping(order0, pending0, taskID, r, order, pending, kept)
    ensures r < |order| && kept < |order| && order[r] in pending
    ensures if pending[order[r]].taskID == taskID then
              Dropping(order0, pending0, taskID, r + 1, order, pending - {order[r]}, kept)
            else Dropping(order0, pending0, taskID, r + 1, order[kept := order[r]], pending, kept + 1)
  {
    hide Job.DedupKey, Consistent, KeptKeys, Keys;
    var key := order0[r];
    assert order[r..][0] == order0[r..][0];
    DropStep(order0, pending0, taskID, r);
    var order2 := order[kept := key];
    assert order2[..kept + 1] == order[..kept] + [key];
    assert order[r + 1..] == order[r..][1..] && order0[r + 1..] == order0[r..][1..];
    assert order2[r + 1..] == order[r + 1..];
  }

  lemma DropEnds(order0: seq<string>, pending0: map<string, Job>, taskID: string,
                 order: seq<string>, pending: map<string, Job>, kept: nat)
    requires Consistent(order0, pending0)
    requires Dropping(order0, pending0, taskID, |order0|, order, pending, kept)
    ensures kept <= |order| && Consistent(order[..kept], pending)
    ensures JobsOf(order[..kept], pending) == Without(JobsOf(order0, pending0), taskID)
  {
    assert order0[..|order0|] == order0;
    DropIsWithout(order0, pending0, taskID);
  }

  class Queue {
    var order: seq<string>
    var pending: map<string, Job>
    var kick: bool    // the capacity-1 channel holds a token
    var closed: bool

    ghost predicate Valid()
      reads this
    {
      Consistent(order, pending)
    }

    /** The queued jobs in order. */
    ghost function Jobs(): seq<Job>
      reads this
      requires Valid()
    {
      JobsOf(order, pending)
    }

    constructor ()
      ensures Valid() && Jobs() == [] && !kick && !closed
    {
      order, pending, kick, closed := [], map[], false, false;
    }

    method Enqueue(j: Job)
      requires Valid()
      modifies this
      ensures Valid() && closed == old(closed)
      ensures Jobs() == if closed then old(Jobs()) else Offer(old(Jobs()), j)
      ensures kick == (old(kick) || (!closed && |order| > |old(order)|))
    {
      hide Consistent, JobsOf, Offer, Job.DedupKey;
      if closed { return; }
      var key := j.DedupKey();
      if key in pending {
        OfferAgain(order, pending, j);
        var prev := pending[key];
        if Rank(j.trigger) > Rank(prev.trigger) {
          pending := pending[key := prev.(trigger := j.trigger)];
        }
        assert pending == old(pending)[key := prev.Raised(j.trigger)];
      } else {
        OfferNew(order, pending, j);
        pending := pending[key := j];
        order := order + [key];
        kick := true;
      }
    }

    /** The locked section of `Take`. */
    method TakeFirst() returns (job: Option<Job>)
      requires Valid()
      modifies this
      ensures Valid() && closed == old(closed) && kick == old(kick)
      ensures job == if old(Jobs()) == [] then None else Some(old(Jobs())[0])
      ensures Jobs() == if old(Jobs()) == [] then [] else old(Jobs())[1..]
    {
      hide Consistent;
      if |order| == 0 { return None; }
      TakeFront(order, pending);
      var key := order[0];
      job := Some(pending[key]);
      order := order[1..];
      pending := pending - {key};
    }

    /** `DropTask`: kept keys are written over the front of the slice being read. */
    method DropTask(taskID: string)
      requires Valid()
      modifies this
      ensures Valid() && closed == old(closed) && kick == old(kick)
      ensures Jobs() == Without(old(Jobs()), taskID)
    {
      hide JobsOf, Without, Dropping;
      ghost var order0, pending0 := order, pending;
      var n, kept := |order|, 0;
      DropBegins(order0, pending0, taskID);
      for r := 0 to n
        invariant Dropping(order0, pending0, taskID, r, order, pending, kept)
        invariant closed == old(closed) && kick == old(kick)
      {
        DropAdvances(order0, pending0, taskID, r, order, pending, kept);
        var key := order[r];
        if pending[key].taskID == taskID {
          pending := pending - {key};
        } else {
          order := order[kept := key];
          kept := kept + 1;
        }
      }
      DropEnds(order0, pending0, taskID, order, pending, kept);
      order := order[..kept];
    }

    method Close()
      requires Valid()
      modifies this
      ensures Valid() && closed && kick && Jobs() == old(Jobs())
    {
      closed := true;
      kick := true;
    }
  }

  // ---- every accepted job exactly once ----

  datatype Fate = Queued | Taken | Dropped

  /** One accepted job: as first offered, the triggers offered while it waited, its fate. */
  datatype Ticket = Ticket(job: Job, offers: seq<string>, fate: Fate) {
    /** What the queue must hand out for it. */
    function Merged(): Job {
      job.(trigger := Highest(job.trigger, offers))
    }
  }

  /** The first trigger of highest rank among `first` and `offers`. */
  function Highest(first: string, offers: seq<string>): string {
    if offers == [] then first
    else
      var h := Highest(first, offers[..|offers| - 1]);
      var last := offers[|offers| - 1];
      if Rank(last) > Rank(h) then last else h
  }

  lemma {:induction false} HighestIsHighest(first: string, offers: seq<string>)
    ensures Highest(first, offers) == first || Highest(first, offers) in offers
    ensures Rank(first) <= Rank(Highest(first, offers))
    ensures forall t :: t in offers ==> Rank(t) <= Rank(Highest(first, offers))
    decreases |offers|
  {
    if offers != [] {
      var front := offers[..|offers| - 1];
      HighestIsHighest(first, front);
      assert offers == front + [offers[|offers| - 1]];
    }
  }

  predicate Offered(t: Ticket, trigger: string) {
    t.job.trigger == trigger || trigger in t.offers
  }

  /** Manual before cron before watch before anything else, whenever one of them was offered. */
  lemma {:induction false} MergedTrigger(t: Ticket)
    ensures t.Merged().trigger == "manual" <==> Offered(t, "manual")
    ensures t.Merged().trigger == "cron" <==> Offered(t, "cron") && !Offered(t, "manual")
    ensures t.Merged().trigger == "watch" <==> Offered(t, "watch") && !Offered(t, "cron") && !Offered(t, "manual")
    ensures !Offered(t, "watch") && !Offered(t, "cron") && !Offered(t, "manual") ==> t.Merged().trigger == t.job.trigger
    decreases |t.offers|
  {
    if t.offers != [] {
      var n := |t.offers| - 1;
      var before := t.(offers := t.offers[..n]);
      MergedTrigger(before);
      assert t.offers == before.offers + [t.offers[n]];
    }
  }

  datatype Event = Enqueued(j: Job) | TakeCalled | TaskDropped(taskID: string) | ClosedEvent

  datatype State = State(jobs: seq<Job>, closed: bool)

  function Next(s: State, e: Event): State {
    match e
    case Enqueued(j) => if s.closed then s else s.(jobs := Offer(s.jobs, j))
    case TakeCalled => if s.jobs == [] then s else s.(jobs := s.jobs[1..])
    case TaskDropped(id) => s.(jobs := Without(s.jobs, id))
    case ClosedEvent => s.(closed := true)
  }

  /** What a `Take` in this state hands out. */
  function HandedOut(s: State): Option<Job> {
    if s.jobs == [] then None else Some(s.jobs[0])
  }

  /** The first queued ticket with a given key. */
  function FindTicket(ts: seq<Ticket>, key: string): (i: int)
    ensures -1 <= i < |ts|
    ensures i >= 0 ==> ts[i].fate.Queued? && ts[i].job.DedupKey() == key
    ensures forall k :: 0 <= k < (if i < 0 then |ts| else i) ==> !(ts[k].fate.Queued? && ts[k].job.DedupKey() == key)
  {
    if ts == [] then -1
    else if ts[0].fate.Queued? && ts[0].job.DedupKey() == key then 0
    else
      var r := FindTicket(ts[1..], key);
      if r < 0 then -1 else r + 1
  }

  function FirstQueued(ts: seq<Ticket>): (i: int)
    ensures -1 <= i < |ts|
    ensures i >= 0 ==> ts[i].fate.Queued?
    ensures forall k :: 0 <= k < (if i < 0 then |ts| else i) ==> !ts[k].fate.Queued?
  {
    if ts == [] then -1
    else if ts[0].fate.Queued? then 0
    else
      var r := FirstQueued(ts[1..]);
      if r < 0 then -1 else r + 1
  }

  datatype Ledger = Ledger(tickets: seq<Ticket>, closed: bool)

  /** The bookkeeping a reader would do by hand, with no queue in sight. */
  function Book(l: Ledger, e: Event): (r: Ledger)
  {
    match e
    case Enqueued(j) =>
      var i := FindTicket(l.tickets, j.DedupKey());
      if l.closed then l
      else if i >= 0 then l.(tickets := l.tickets[i := l.tickets[i].(offers := l.tickets[i].offers + [j.trigger])])
      else l.(tickets := l.tickets + [Ticket(j, [], Queued)])
    case TakeCalled =>
      var i := FirstQueued(l.tickets);
      if i < 0 then l else l.(tickets := l.tickets[i := l.tickets[i].(fate := Taken)])
    case TaskDropped(id) =>
      l.(tickets := seq(|l.tickets|, i requires 0 <= i < |l.tickets| =>
           if l.tickets[i].fate.Queued? && l.tickets[i].job.taskID == id then l.tickets[i].(fate := Dropped)
           else l.tickets[i]))
    case ClosedEvent => l.(closed := true)
  }

  function RunQueue(events: seq<Event>): State {
    if events == [] then State([], false) else Next(RunQueue(events[..|events| - 1]), events[|events| - 1])
  }

  function RunLedger(events: seq<Event>): Ledger {
    if events == [] then Ledger([], false) else Book(RunLedger(events[..|events| - 1]), events[|events| - 1])
  }

  /** The jobs of the queued tickets, oldest first. */
  function Waiting(ts: seq<Ticket>): seq<Job> {
    if ts == [] then []
    else Head(ts[0]) + Waiting(ts[1..])
  }

  ghost predicate FirstInFirstOut(ts: seq<Ticket>) {
    forall i, k :: 0 <= i < k < |ts| && ts[k].fate.Taken? ==> !ts[i].fate.Queued?
  }

  lemma MergedKey(t: Ticket)
    ensures t.Merged().DedupKey() == t.job.DedupKey() && t.Merged().taskID == t.job.taskID
  {}

  function Head(t: Ticket): seq<Job> {
    if t.fate.Queued? then [t.Merged()] else []
  }

  lemma RaisedTicket(t: Ticket, trigger: string)
    ensures t.(offers := t.offers + [trigger]).Merged() == t.Merged().Raised(trigger)
  {
    assert (t.offers + [trigger])[..|t.offers + [trigger]| - 1] == t.offers;
  }

  lemma {:induction false} OfferWaiting(ts: seq<Ticket>, j: Job)
    ensures var i := FindTicket(ts, j.DedupKey());
      && (i >= 0 ==> Offer(Waiting(ts), j) == Waiting(ts[i := ts[i].(offers := ts[i].offers + [j.trigger])]))
      && (i < 0 ==> Offer(Waiting(ts), j) == Waiting(ts + [Ticket(j, [], Queued)]))
    decreases |ts|
  {
    hide Job.DedupKey, Highest, Job.Raised;
    if ts == [] {
      FreshTicket(j);
    } else {
      MergedKey(ts[0]);
      var i := FindTicket(ts, j.DedupKey());
      if i == 0 {
        RaisedTicket(ts[0], j.trigger);
        var t := ts[0].(offers := ts[0].offers + [j.trigger]);
        assert ts[0 := t][1..] == ts[1..];
        OfferAtFront(ts[0].Merged(), Waiting(ts[1..]), j);
      } else {
        OfferWaiting(ts[1..], j);
        OfferBehind(Head(ts[0]), Waiting(ts[1..]), j);
        if i > 0 {
          var t := ts[i].(offers := ts[i].offers + [j.trigger]);
          assert ts[i := t][1..] == ts[1..][i - 1 := t];
        } else {
          assert (ts + [Ticket(j, [], Queued)])[1..] == ts[1..] + [Ticket(j, [], Queued)];
        }
      }
    }
  }

  lemma FreshTicket(j: Job)
    ensures Waiting([] + [Ticket(j, [], Queued)]) == [j] && Offer([], j) == [j]
  {
    var ts := [Ticket(j, [], Queued)];
    assert [] + ts == ts && ts[1..] == [] && ts[0].Merged() == j;
  }

  lemma OfferAtFront(first: Job, rest: seq<Job>, j: Job)
    requires first.DedupKey() == j.DedupKey()
    ensures Offer([first] + rest, j) == [first.Raised(j.trigger)] + rest
  {}

  lemma OfferBehind(head: seq<Job>, rest: seq<Job>, j: Job)
    requires |head| <= 1 && (head != [] ==> head[0].DedupKey() != j.DedupKey())
    ensures Offer(head + rest, j) == head + Offer(rest, j)
  {
    hide Job.DedupKey, Job.Raised;
    if head == [] {
      assert head + rest == rest;
    } else {
      assert (head + rest)[1..] == rest;
      var i := Find(rest, j.DedupKey());
      if i >= 0 {
        assert (head + rest)[i + 1 := rest[i].Raised(j.trigger)] == head + rest[i := rest[i].Raised(j.trigger)];
      } else {
        assert head + rest + [j] == head + (rest + [j]);
      }
    }
  }

  lemma {:induction false} TakeWaiting(ts: seq<Ticket>)
    ensures var i := FirstQueued(ts);
      && (i < 0 <==> Waiting(ts) == [])
      && (i >= 0 ==> Waiting(ts) == [ts[i].Merged()] + Waiting(ts[i := ts[i].(fate := Taken)]))
    decreases |ts|
  {
    hide Waiting, FirstQueued, Ticket.Merged;
    if ts == [] {
      NoneWaiting();
    } else if ts[0].fate.Queued? {
      WaitingSplit(ts);
      WaitingSplit(ts[0 := ts[0].(fate := Taken)]);
      assert ts[0 := ts[0].(fate := Taken)][1..] == ts[1..];
      assert [] + Waiting(ts[1..]) == Waiting(ts[1..]);
    } else {
      TakeWaiting(ts[1..]);
      WaitingSplit(ts);
      assert [] + Waiting(ts[1..]) == Waiting(ts[1..]);
      var i := FirstQueued(ts);
      if i > 0 {
        assert ts[1..][i - 1] == ts[i];
        TakeLater(ts, i);
      }
    }
  }

  lemma NoneWaiting()
    ensures Waiting([]) == [] && FirstQueued([]) == -1
  {}

  lemma WaitingSplit(ts: seq<Ticket>)
    requires ts != []
    ensures Waiting(ts) == (if ts[0].fate.Queued? then [ts[0].Merged()] else []) + Waiting(ts[1..])
    ensures ts[0].fate.Queued? ==> FirstQueued(ts) == 0
    ensures !ts[0].fate.Queued? ==>
      FirstQueued(ts) == if FirstQueued(ts[1..]) < 0 then -1 else FirstQueued(ts[1..]) + 1
  {
    hide Ticket.Merged;
  }

  lemma TakeLater(ts: seq<Ticket>, i: nat)
    requires 0 < i < |ts| && !ts[0].fate.Queued?
    requires Waiting(ts[1..]) == [ts[i].Merged()] + Waiting(ts[1..][i - 1 := ts[i].(fate := Taken)])
    ensures Waiting(ts) == [ts[i].Merged()] + Waiting(ts[i := ts[i].(fate := Taken)])
  {
    hide Waiting, FirstQueued, Ticket.Merged;
    var t := ts[i].(fate := Taken);
    WaitingSplit(ts);
    WaitingSplit(ts[i := t]);
    assert ts[i := t][1..] == ts[1..][i - 1 := t];
  }

  lemma {:induction false} WithoutConcat(a: seq<Job>, b: seq<Job>, id: string)
    ensures Without(a + b, id) == Without(a, id) + Without(b, id)
    decreases |b|
  {
    if b == [] {
      assert a + b == a;
    } else {
      assert (a + b)[..|a + b| - 1] == a + b[..|b| - 1];
      WithoutConcat(a, b[..|b| - 1], id);
    }
  }

  lemma {:induction false} DropWaiting(ts: seq<Ticket>, id: string)
    ensures Without(Waiting(ts), id) == Waiting(Book(Ledger(ts, false), TaskDropped(id)).tickets)
    decreases |ts|
  {
    hide Job.DedupKey, Highest, Without;
    var after := Book(Ledger(ts, false), TaskDropped(id)).tickets;
    if ts == [] {
      NothingLeft(id);
    } else {
      DropWaiting(ts[1..], id);
      assert after[1..] == Book(Ledger(ts[1..], false), TaskDropped(id)).tickets;
      WithoutConcat(Head(ts[0]), Waiting(ts[1..]), id);
      DropHead(ts[0], id);
    }
  }

  lemma NothingLeft(id: string)
    ensures Without([], id) == []
  {}

  lemma DropHead(t: Ticket, id: string)
    ensures Without(Head(t), id) == if t.fate.Queued? && t.job.taskID != id then [t.Merged()] else []
  {
    if t.fate.Queued? {
      MergedKey(t);
      assert [t.Merged()][..0] == [];
    }
  }

  /** The refinement, over every history of calls: the queue holds exactly the queued tickets
      of the ledger, oldest first, each with the highest trigger offered for it. */
  lemma {:induction false} QueueFollowsLedger(events: seq<Event>)
    ensures RunQueue(events).jobs == Waiting(RunLedger(events).tickets)
    ensures RunQueue(events).closed == RunLedger(events).closed
    decreases |events|
  {
    if events != [] {
      var before, e := events[..|events| - 1], events[|events| - 1];
      QueueFollowsLedger(before);
      var ts := RunLedger(before).tickets;
      match e
      case Enqueued(j) => OfferWaiting(ts, j);
      case TakeCalled => TakeWaiting(ts);
      case TaskDropped(id) => DropWaiting(ts, id);
      case ClosedEvent =>
    }
  }

  /** A `Take` hands out the oldest queued ticket, and only that one changes its fate. */
  lemma TakeServesOldest(events: seq<Event>)
    ensures var ts, i := RunLedger(events).tickets, FirstQueued(RunLedger(events).tickets);
      && HandedOut(RunQueue(events)) == (if i < 0 then None else Some(ts[i].Merged()))
      && RunLedger(events + [TakeCalled]).tickets == (if i < 0 then ts else ts[i := ts[i].(fate := Taken)])
  {
    QueueFollowsLedger(events);
    TakeWaiting(RunLedger(events).tickets);
    assert (events + [TakeCalled])[..|events|] == events;
  }

  /** Over every history: the oldest queued ticket is handed out as `manual` when that was among its
      triggers, else as `cron` when that was, else as `watch` when that was. */
  lemma HandedOutTrigger(events: seq<Event>)
    ensures var ts, job := RunLedger(events).tickets, HandedOut(RunQueue(events));
      var i := FirstQueued(ts);
      job.Some? ==>
        && i >= 0 && (job.value.trigger == "manual" <==> Offered(ts[i], "manual"))
        && (job.value.trigger == "cron" <==> Offered(ts[i], "cron") && !Offered(ts[i], "manual"))
        && (job.value.trigger == "watch" <==>
              Offered(ts[i], "watch") && !Offered(ts[i], "cron") && !Offered(ts[i], "manual"))
  {
    hide Ticket.Merged, Offered;
    TakeServesOldest(events);
    var ts := RunLedger(events).tickets;
    var i := FirstQueued(ts);
    if i >= 0 { MergedTrigger(ts[i]); }
  }

  ghost predicate LivesOn(t: Ticket, t2: Ticket) {
    t2.job == t.job && t.offers <= t2.offers && (!t.fate.Queued? ==> t2 == t)
  }

  lemma BookLivesOn(l: Ledger, e: Event, i: nat)
    requires i < |l.tickets|
    ensures i < |Book(l, e).tickets| && LivesOn(l.tickets[i], Book(l, e).tickets[i])
  {
    hide Job.DedupKey;
  }

  /** A ticket leaves the queue once and for all: later history keeps its job and its fate. */
  lemma {:induction false} FateIsFinal(events: seq<Event>, more: seq<Event>, i: nat)
    requires i < |RunLedger(events).tickets|
    ensures i < |RunLedger(events + more).tickets|
    ensures LivesOn(RunLedger(events).tickets[i], RunLedger(events + more).tickets[i])
    decreases |more|
  {
    hide Book;
    if more == [] {
      assert events + more == events;
    } else {
      var m := |more| - 1;
      FateIsFinal(events, more[..m], i);
      assert (events + more)[..|events + more| - 1] == events + more[..m];
      BookLivesOn(RunLedger(events + more[..m]), more[m], i);
    }
  }

  /** First in, first out, and one queued ticket per key, over every history. */
  lemma {:induction false} LedgerIsFifo(events: seq<Event>)
    ensures FirstInFirstOut(RunLedger(events).tickets)
    ensures OnePerKey(RunLedger(events).tickets)
    decreases |events|
  {
    if events != [] {
      LedgerIsFifo(events[..|events| - 1]);
    }
  }

  ghost predicate OnePerKey(ts: seq<Ticket>) {
    forall i, k :: 0 <= i < k < |ts| && ts[i].fate.Queued? && ts[k].fate.Queued? ==>
      ts[i].job.DedupKey() != ts[k].job.DedupKey()
  }
}
