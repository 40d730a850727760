/** The bounded log feed (internal/logfeed/logfeed.go): a ring buffer whose physical slot is
    `seq % cap`, against a plain list of the live entries. Sequence numbers are unbounded. */
module LogFeed {

  datatype Attr = Attr(key: string, value: string)
  datatype Entry = Entry(seqNo: nat, time: int, level: string, msg: string, attrs: seq<Attr>)

  const DEFAULT_CAP := 300

  // ---- the plain list ----

  function NewestFirst(s: seq<Entry>): (r: seq<Entry>)
    ensures |r| == |s| && forall i :: 0 <= i < |s| ==> r[i] == s[|s| - 1 - i]
  {
    seq(|s|, i requires 0 <= i < |s| => s[|s| - 1 - i])
  }

  /** The entries numbered above `after`, in order. */
  function Above(s: seq<Entry>, after: nat): seq<Entry> {
    if s == [] then []
    else (if s[0].seqNo > after then [s[0]] else []) + Above(s[1..], after)
  }

  /** The newest `cap` entries. */
  function Newest(s: seq<Entry>, cap: nat): seq<Entry> {
    if |s| > cap then s[|s| - cap..] else s
  }

  /** Consecutive numbers, the last one just below `next`. */
  predicate Numbered(live: seq<Entry>, next: nat) {
    |live| <= next && forall i :: 0 <= i < |live| ==> live[i].seqNo == next - |live| + i
  }

  // ---- whole histories ----

  datatype Event = Added(entry: Entry) | Wiped

  /** How many numbers a history hands out: clearing takes none back. */
  function Next(past: seq<Event>): nat {
    if past == [] then 0 else Next(past[..|past| - 1]) + (if past[|past| - 1].Added? then 1 else 0)
  }

  /** Everything added since the last clear, numbered. */
  function SinceWipe(past: seq<Event>): seq<Entry> {
    if past == [] then []
    else
      var before, last := past[..|past| - 1], past[|past| - 1];
      if last.Wiped? then [] else SinceWipe(before) + [last.entry.(seqNo := Next(before))]
  }

  lemma {:induction false} SinceWipeNumbered(past: seq<Event>)
    ensures Numbered(SinceWipe(past), Next(past))
  {
    if past != [] { SinceWipeNumbered(past[..|past| - 1]); }
  }

  /** Dropping the oldest entry on each overflow keeps exactly the newest entries of all. */
  lemma NewestOfNewest(s: seq<Entry>, e: Entry, cap: nat)
    requires cap > 0
    ensures Newest(Newest(s, cap) + [e], cap) == Newest(s + [e], cap)
  {}

  lemma AddedStep(past: seq<Event>, e: Entry)
    ensures Next(past + [Added(e)]) == Next(past) + 1
    ensures SinceWipe(past + [Added(e)]) == SinceWipe(past) + [e.(seqNo := Next(past))]
  {
    assert (past + [Added(e)])[..|past|] == past;
  }

  // ---- slots ----

  /** Two numbers of one window never share a slot. */
  lemma SlotsDistinct(a: nat, b: nat, cap: nat)
    requires a < b < a + cap
    ensures a % cap != b % cap
  {
    if a % cap == b % cap {
      var x, y := a / cap, b / cap;
      assert a == cap * x + a % cap && b == cap * y + b % cap;
      assert b - a == cap * y - cap * x;
      NoMultipleBetween(cap, x, y);
    }
  }

  lemma NoMultipleBetween(cap: nat, x: nat, y: nat)
    ensures cap * y - cap * x <= 0 || cap * y - cap * x >= cap
  {
    if y <= x {
      assert cap * x == cap * y + cap * (x - y);
    } else {
      assert cap * y == cap * x + cap + cap * (y - x - 1);
    }
  }

  /** The `n` entries from number `start` on, each in its slot. */
  function Window(buf: seq<Entry>, start: nat, n: nat): (r: seq<Entry>)
    requires |buf| > 0
    ensures |r| == n
  {
    seq(n, i requires 0 <= i < n => buf[(start + i) % |buf|])
  }

  /** Writing the next number's slot appends it to the window, and costs the oldest entry its
      slot exactly when the window is full. */
  lemma WindowPush(buf: seq<Entry>, start: nat, n: nat, e: Entry)
    requires 0 < |buf| && n <= |buf|
    ensures var buf2 := buf[(start + n) % |buf| := e];
      Newest(Window(buf, start, n) + [e], |buf|)
        == if n < |buf| then Window(buf2, start, n + 1) else Window(buf2, start + 1, n)
  {
    var cap, slot := |buf|, (start + n) % |buf|;
    var buf2 := buf[slot := e];
    forall i | start <= i < start + n < i + cap ensures buf2[i % cap] == buf[i % cap] {
      SlotsDistinct(i, start + n, cap);
    }
    var all := Window(buf, start, n) + [e];
    if n < cap {
      assert all == Window(buf2, start, n + 1);
    } else {
      assert all[1..] == Window(buf2, start + 1, n);
    }
  }

  // ---- what `Since` returns ----

  /** The range `Since` walks: the branch for `after > start` excludes `after`, the other one
      does not look at it. */
  function SinceOf(live: seq<Entry>, next: nat, after: nat): seq<Entry>
    requires |live| <= next
  {
    var start := next - |live|;
    if live == [] || after >= next then []
    else if after > start then NewestFirst(live[after + 1 - start..])
    else NewestFirst(live)
  }

  lemma {:induction false} AboveIsSuffix(live: seq<Entry>, next: nat, after: nat)
    requires Numbered(live, next)
    ensures var start := next - |live|;
      Above(live, after) == if after < start then live else if after >= next then [] else live[after + 1 - start..]
  {
    if live != [] {
      AboveIsSuffix(live[1..], next, after);
    }
  }

  /** `Since` returns exactly the live entries above `after`, newest first, if and only if the
      buffer is empty or `after` is not the oldest live number. */
  lemma SinceIsExact(live: seq<Entry>, next: nat, after: nat)
    requires Numbered(live, next)
    ensures SinceOf(live, next, after) == NewestFirst(Above(live, after))
      <==> (live == [] || after != next - |live|)
  {
    AboveIsSuffix(live, next, after);
    var start := next - |live|;
    if live != [] && after == start {
      assert |NewestFirst(live)| == |live| && |NewestFirst(live[1..])| == |live| - 1;
    }
  }

  /** In the remaining case it returns the entry `after` itself as well. */
  lemma SinceRepeatsTheOldest(live: seq<Entry>, next: nat)
    requires Numbered(live, next) && live != []
    ensures SinceOf(live, next, next - |live|) == NewestFirst(Above(live, next - |live|)) + [live[0]]
  {
    hide Above, NewestFirst;
    AboveIsSuffix(live, next, next - |live|);
  }

  /** Following the feed: asking for what came after the last entry `seen` returns the newest `cap`
      of the entries added meanwhile, whether or not the buffer was cleared in between, and after
      them that last entry again exactly when it is the oldest one in the buffer. */
  lemma FollowingMissesNothing(seen: seq<Entry>, added: seq<Entry>, next: nat, cap: nat, cleared: bool)
    requires cap > 0 && seen != [] && Numbered(seen + added, next)
    ensures var live, last := Newest(if cleared then added else seen + added, cap), seen[|seen| - 1];
      SinceOf(live, next, last.seqNo)
        == NewestFirst(Newest(added, cap)) + (if live != [] && live[0] == last then [last] else [])
  {
    hide Numbered, Above, Newest, NewestFirst, SinceOf;
    var live, last := Newest(if cleared then added else seen + added, cap), seen[|seen| - 1];
    LiveNumbers(seen, added, next, cap, cleared);
    if live != [] && live[0] == last {
      SinceRepeatsTheOldest(live, next);
    } else {
      SinceIsExact(live, next, last.seqNo);
    }
  }

  /** What the buffer holds is a suffix of the entries `seen + added`, numbered on. */
  lemma LiveNumbers(seen: seq<Entry>, added: seq<Entry>, next: nat, cap: nat, cleared: bool)
    requires cap > 0 && seen != [] && Numbered(seen + added, next)
    ensures var live, last := Newest(if cleared then added else seen + added, cap), seen[|seen| - 1];
      && |live| <= next && Numbered(live, next) && last.seqNo == next - |added| - 1
      && Above(live, last.seqNo) == Newest(added, cap)
      && (live != [] ==> (live[0] == last <==> last.seqNo == next - |live|))
  {
    hide Above, Numbered;
    var all := seen + added;
    var drop := HeldSuffix(seen, added, cap, cleared);
    SuffixNumbers(all, next, |seen| - 1, drop);
    AboveIsSuffix(all[drop..], next, all[|seen| - 1].seqNo);
  }

  lemma HeldSuffix(seen: seq<Entry>, added: seq<Entry>, cap: nat, cleared: bool) returns (drop: nat)
    requires cap > 0
    ensures drop <= |seen + added| && Newest(if cleared then added else seen + added, cap) == (seen + added)[drop..]
    ensures Newest(added, cap)
      == if drop <= |seen| then (seen + added)[drop..][|seen| - drop..] else (seen + added)[drop..]
  {
    var all := seen + added;
    drop := |all| - |Newest(if cleared then added else all, cap)|;
    assert drop <= |seen| ==> all[drop..][|seen| - drop..] == added;
  }

  lemma SuffixNumbers(all: seq<Entry>, next: nat, i: nat, drop: nat)
    requires Numbered(all, next) && i < |all| && drop <= |all|
    ensures |all| <= next && Numbered(all[drop..], next) && all[i].seqNo == next - |all| + i
    ensures drop < |all| ==> (all[drop..][0] == all[i] <==> i == drop)
  {}

  class Feed {
    const cap: nat
    const buf: array<Entry>
    var n: nat
    var start: nat
    var next: nat
    /** Waiting signal per subscriber. */
    var subs: map<nat, bool>
    ghost var past: seq<Event>

    ghost predicate Valid()
      reads this, buf
    {
      && cap > 0 && buf.Length == cap
      && n <= cap && start + n == next
      && next == Next(past)
      && Live() == Newest(SinceWipe(past), cap)
    }

    /** The live entries, oldest first. */
    ghost function Live(): (r: seq<Entry>)
      requires cap > 0 && buf.Length == cap
      reads this, buf
      ensures |r| == n
    {
      Window(buf[..], start, n)
    }

    constructor (capacity: int)
      ensures Valid() && fresh(buf) && past == [] && subs == map[]
      ensures cap == if capacity <= 0 then 300 else capacity
    {
      var c := if capacity <= 0 then DEFAULT_CAP else capacity;
      cap, n, start, next := c, 0, 0, 0;
      buf := new Entry[c](_ => Entry(0, 0, "", "", []));
      subs := map[];
      past := [];
    }

    /** The live window is exactly the newest `cap` entries added since the last clear, and it
        is numbered consecutively up to the next number. */
    lemma Surviving()
      requires Valid()
      ensures Numbered(Live(), next) && Live() == Newest(SinceWipe(past), cap)
    {
      SinceWipeNumbered(past);
    }

    method Add(e: Entry)
      requires Valid()
      modifies this, buf
      ensures Valid() && past == old(past) + [Added(e)]
      ensures next == old(next) + 1
      ensures Live() == Newest(old(Live()) + [e.(seqNo := old(next))], cap)
      ensures subs == map k | k in old(subs) :: true
    {
      hide Newest, Next, SinceWipe, Window;
      ghost var was := buf[..];
      var numbered := e.(seqNo := next);
      next := next + 1;
      buf[numbered.seqNo % cap] := numbered;
      assert buf[..] == was[numbered.seqNo % cap := numbered];
      WindowPush(was, start, n, numbered);
      if n < cap {
        n := n + 1;
      } else {
        start := start + 1;
      }
      subs := map k | k in subs :: true;
      NewestOfNewest(SinceWipe(past), numbered, cap);
      AddedStep(past, e);
      past := past + [Added(e)];
    }

    method Clear()
      requires Valid()
      modifies this
      ensures Valid() && past == old(past) + [Wiped]
      ensures Live() == [] && next == old(next)
    {
      n := 0;
      start := next;
      assert (past + [Wiped])[..|past|] == past;
      past := past + [Wiped];
    }

    /** `entriesLocked`. */
    method Entries() returns (out: seq<Entry>)
      requires Valid()
      ensures out == Live()
    {
      out := [];
      var s := start;
      while s < start + n
        invariant start <= s <= start + n
        invariant out == Live()[..s - start]
      {
        out := out + [buf[s % cap]];
        s := s + 1;
      }
    }

    method Snapshot() returns (out: seq<Entry>)
      requires Valid()
      ensures out == NewestFirst(Live())
    {
      var all := Entries();
      var a := new Entry[|all|](_ => Entry(0, 0, "", "", []));
      var i := 0;
      while i < |all|
        invariant i <= |all| == a.Length
        invariant forall k :: |all| - i <= k < |all| ==> a[k] == NewestFirst(all)[k]
      {
        a[|all| - 1 - i] := all[i];
        i := i + 1;
      }
      out := a[..];
    }

    /** The downward loop decrements before it tests, so it also stops at number 0. */
    method Since(after: nat) returns (out: seq<Entry>)
      requires Valid()
      ensures out == SinceOf(Live(), next, after)
    {
      if n == 0 || after >= next { return []; }
      var lo := start;
      if after > lo { lo := after + 1; }
      out := [];
      var s := next;
      while s > lo
        invariant lo <= s <= next
        invariant out == NewestFirst(Live()[s - start..])
      {
        s := s - 1;
        assert Live()[s - start] == buf[s % cap];
        assert Live()[s - start..] == [buf[s % cap]] + Live()[s + 1 - start..];
        out := out + [buf[s % cap]];
      }
    }
  }
}
