/** The activity log (internal/store/activity.go): a bucket ordered by 8-byte big-endian
    sequence keys with a counter, pruned to the newest 5000 events. */
module Activity {
  import opened Bytes
  import opened Records

  const MAX_EVENTS: nat := 5000
  const DEFAULT_LIMIT: nat := 1000

  datatype Event = Event(taskId: string, taskName: string, body: string)

  /** A stored value: the JSON of an event, or bytes that do not parse. */
  datatype Stored = Parsed(event: Event) | Garbled

  datatype Row = Row(key: string, val: Stored)

  /** A row with its key read back as a number. */
  datatype Entry = Entry(seqNo: nat, val: Stored)

  /** `encodeSeqKey`. */
  function SeqKey(n: nat): (k: string)
    ensures |k| == 8 && Octets(k)
  {
    PutBigEndian(8, n)
  }

  // ---- key order ----

  lemma {:induction false} LessAppend(a: string, b: string, c: char, d: char)
    requires |a| == |b|
    ensures Less(a + [c], b + [d]) <==> Less(a, b) || (a == b && c < d)
  {
    if a == "" {
      assert Less([c], [d]) <==> c < d;
    } else {
      assert (a + [c])[1..] == a[1..] + [c] && (b + [d])[1..] == b[1..] + [d];
      LessAppend(a[1..], b[1..], c, d);
      assert a == [a[0]] + a[1..] && b == [b[0]] + b[1..];
      LessIrreflexive(a[1..]);
    }
  }

  /** Big-endian keys compare byte-wise exactly as their numbers compare. */
  lemma {:induction false} KeyOrder(n: nat, a: nat, b: nat)
    requires a < Pow256(n) && b < Pow256(n)
    ensures Less(PutBigEndian(n, a), PutBigEndian(n, b)) <==> a < b
    ensures PutBigEndian(n, a) == PutBigEndian(n, b) <==> a == b
  {
    if n > 0 {
      hide Less;
      KeyOrder(n - 1, a / 256, b / 256);
      var x, y := PutBigEndian(n - 1, a / 256), PutBigEndian(n - 1, b / 256);
      var c, d := (a % 256) as char, (b % 256) as char;
      LessAppend(x, y, c, d);
      assert (x + [c])[..n - 1] == x && (y + [d])[..n - 1] == y;
      assert (x + [c])[n - 1] == c && (y + [d])[n - 1] == d;
    }
  }

  lemma SeqKeyOrder(a: nat, b: nat)
    requires a < TWO_64 && b < TWO_64
    ensures Less(SeqKey(a), SeqKey(b)) <==> a < b
    ensures BigEndian(SeqKey(a)) == a
  {
    hide Less, PutBigEndian, BigEndian;
    Powers();
    KeyOrder(8, a, b);
    BigEndianOfPut(8, a);
  }

  // ---- the log as a list ----

  predicate Increasing(log: seq<Entry>, counter: nat) {
    && (forall i, j :: 0 <= i < j < |log| ==> log[i].seqNo < log[j].seqNo)
    && (forall i :: 0 <= i < |log| ==> 1 <= log[i].seqNo <= counter)
  }

  function Newest(log: seq<Entry>, limit: nat): (r: seq<Entry>) {
    if |log| > limit then log[|log| - limit..] else log
  }

  predicate OfTask(e: Entry, taskId: string) {
    e.val.Parsed? && e.val.event.taskId == taskId
  }

  function WithoutTask(log: seq<Entry>, taskId: string): (r: seq<Entry>) {
    if log == [] then []
    else
      var last := log[|log| - 1];
      WithoutTask(log[..|log| - 1], taskId) + (if OfTask(last, taskId) then [] else [last])
  }

  /** What `List` shows of a log before paging: parsable events of one task, or of all tasks for
      the empty name, newest first. */
  function Shown(log: seq<Entry>, taskId: string): (r: seq<Entry>) {
    if log == [] then []
    else
      var last := log[|log| - 1];
      (if last.val.Parsed? && (taskId == "" || last.val.event.taskId == taskId) then [last] else [])
        + Shown(log[..|log| - 1], taskId)
  }

  function Page(shown: seq<Entry>, offset: int, limit: int): (r: seq<Entry>) {
    var size := if limit <= 0 then DEFAULT_LIMIT else limit;
    var from := if offset <= 0 then 0 else if offset <= |shown| then offset else |shown|;
    if from + size <= |shown| then shown[from..from + size] else shown[from..]
  }

  // ---- whole histories ----

  datatype Act = Appended(val: Stored) | TaskDeleted(taskId: string)

  function Count(past: seq<Act>): nat {
    if past == [] then 0 else Count(past[..|past| - 1]) + (if past[|past| - 1].Appended? then 1 else 0)
  }

  function After(past: seq<Act>): seq<Entry> {
    if past == [] then []
    else
      var front := past[..|past| - 1];
      match past[|past| - 1]
      case Appended(v) => Newest(After(front) + [Entry(Count(front) + 1, v)], MAX_EVENTS)
      case TaskDeleted(id) => WithoutTask(After(front), id)
  }

  /** The same history without pruning. */
  function Unpruned(past: seq<Act>): seq<Entry> {
    if past == [] then []
    else
      var front := past[..|past| - 1];
      match past[|past| - 1]
      case Appended(v) => Unpruned(front) + [Entry(Count(front) + 1, v)]
      case TaskDeleted(id) => WithoutTask(Unpruned(front), id)
  }

  lemma {:induction false} WithoutTaskMeaning(log: seq<Entry>, taskId: string)
    ensures var r := WithoutTask(log, taskId);
      && |r| <= |log|
      && (forall e :: e in r <==> e in log && !OfTask(e, taskId))
  {
    if log != [] {
      WithoutTaskMeaning(log[..|log| - 1], taskId);
      assert log == log[..|log| - 1] + [log[|log| - 1]];
    }
  }

  lemma {:induction false} WithoutTaskOfSum(a: seq<Entry>, b: seq<Entry>, taskId: string)
    ensures WithoutTask(a + b, taskId) == WithoutTask(a, taskId) + WithoutTask(b, taskId)
  {
    if b == [] {
      assert a + b == a;
    } else {
      assert (a + b)[..|a + b| - 1] == a + b[..|b| - 1];
      WithoutTaskOfSum(a, b[..|b| - 1], taskId);
    }
  }

  lemma {:induction false} WithoutTaskIncreasing(log: seq<Entry>, taskId: string, counter: nat)
    requires Increasing(log, counter)
    ensures Increasing(WithoutTask(log, taskId), counter)
  {
    if log != [] {
      hide OfTask;
      var front, last := log[..|log| - 1], log[|log| - 1];
      WithoutTaskIncreasing(front, taskId, counter);
      WithoutTaskMeaning(front, taskId);
      Below(front, log, counter);
      IncreasingPush(WithoutTask(front, taskId), last, counter);
    }
  }

  lemma Below(front: seq<Entry>, log: seq<Entry>, counter: nat)
    requires Increasing(log, counter) && log != [] && front == log[..|log| - 1]
    ensures forall e :: e in front ==> e.seqNo < log[|log| - 1].seqNo
    ensures 1 <= log[|log| - 1].seqNo <= counter
  {}

  lemma IncreasingPush(log: seq<Entry>, e: Entry, counter: nat)
    requires Increasing(log, counter) && 1 <= e.seqNo <= counter
    requires forall x :: x in log ==> x.seqNo < e.seqNo
    ensures Increasing(log + [e], counter)
  {
    forall i | 0 <= i < |log| ensures log[i].seqNo < e.seqNo { assert log[i] in log; }
  }

  lemma NewestIncreasing(log: seq<Entry>, limit: nat, counter: nat)
    requires Increasing(log, counter)
    ensures Increasing(Newest(log, limit), counter) && |Newest(log, limit)| <= limit
  {}

  /** After any history of appends and task deletions at most 5000 events remain, in strictly
      increasing sequence order, and every number was handed out by an append: none is reused,
      because the counter counts appends and deletions never lower it. */
  lemma {:induction false} HistoryStaysBounded(past: seq<Act>)
    ensures |After(past)| <= 5000 && Increasing(After(past), Count(past))
  {
    hide After, Count, Increasing, Newest, WithoutTask;
    if past == [] {
      NothingYet();
    } else {
      var front, last := past[..|past| - 1], past[|past| - 1];
      assert past == front + [last];
      HistoryStaysBounded(front);
      if last.Appended? {
        AppendedStep(front, last.val);
        OneMore(After(front), last.val, Count(front));
        NewestIncreasing(After(front) + [Entry(Count(front) + 1, last.val)], MAX_EVENTS, Count(past));
      } else {
        DeletedStep(front, last.taskId);
        WithoutTaskIncreasing(After(front), last.taskId, Count(front));
        WithoutTaskMeaning(After(front), last.taskId);
      }
    }
  }

  lemma NothingYet()
    ensures After([]) == [] && Increasing([], Count([]))
  {}

  lemma OneMore(log: seq<Entry>, v: Stored, counter: nat)
    requires Increasing(log, counter)
    ensures Increasing(log + [Entry(counter + 1, v)], counter + 1)
  {}

  /** The number `Append` hands out at position `i` of a history. */
  function NumberAt(past: seq<Act>, i: nat): nat
    requires i < |past|
  {
    Count(past[..i]) + 1
  }

  /** No number is handed out twice, whatever is deleted in between: later appends always get
      larger ones. */
  lemma {:induction false} NumbersAreNeverReused(past: seq<Act>, i: nat, j: nat)
    requires i < j < |past| && past[i].Appended?
    ensures NumberAt(past, i) < NumberAt(past, j)
    decreases j
  {
    assert past[..j][..j - 1] == past[..j - 1];
    if i < j - 1 { NumbersAreNeverReused(past, i, j - 1); }
  }

  lemma {:induction false} UnprunedIncreasing(past: seq<Act>)
    ensures Increasing(Unpruned(past), Count(past))
  {
    if past != [] {
      hide Increasing, WithoutTask;
      var front := past[..|past| - 1];
      UnprunedIncreasing(front);
      match past[|past| - 1]
      case Appended(v) => OneMore(Unpruned(front), v, Count(front));
      case TaskDeleted(id) => WithoutTaskIncreasing(Unpruned(front), id, Count(front));
    }
  }

  predicate IsSuffix(part: seq<Entry>, whole: seq<Entry>) {
    |part| <= |whole| && whole[|whole| - |part|..] == part
  }

  lemma SuffixAppend(part: seq<Entry>, whole: seq<Entry>, e: Entry, limit: nat)
    requires IsSuffix(part, whole)
    ensures IsSuffix(Newest(part + [e], limit), whole + [e])
  {}

  lemma SuffixWithoutTask(part: seq<Entry>, whole: seq<Entry>, taskId: string)
    requires IsSuffix(part, whole)
    ensures IsSuffix(WithoutTask(part, taskId), WithoutTask(whole, taskId))
  {
    hide WithoutTask;
    var cut := whole[..|whole| - |part|];
    assert whole == cut + part;
    WithoutTaskOfSum(cut, part, taskId);
  }

  lemma {:induction false} AfterIsSuffix(past: seq<Act>)
    ensures IsSuffix(After(past), Unpruned(past))
  {
    if past != [] {
      hide IsSuffix, Newest, WithoutTask;
      var front := past[..|past| - 1];
      AfterIsSuffix(front);
      match past[|past| - 1]
      case Appended(v) => SuffixAppend(After(front), Unpruned(front), Entry(Count(front) + 1, v), MAX_EVENTS);
      case TaskDeleted(id) => SuffixWithoutTask(After(front), Unpruned(front), id);
    } else {
      assert Unpruned(past)[0..] == [];
    }
  }

  /** Pruning removes only events older than every survivor: an event of the unpruned log is
      still there, or every event that is still there is newer. */
  lemma SurvivorsAreTheNewest(past: seq<Act>, e: Entry, s: Entry)
    requires e in Unpruned(past) && s in After(past)
    ensures e in After(past) || e.seqNo < s.seqNo
  {
    hide After, Unpruned;
    AfterIsSuffix(past);
    UnprunedIncreasing(past);
    var u, r := Unpruned(past), After(past);
    var i :| 0 <= i < |u| && u[i] == e;
    var j :| 0 <= j < |r| && r[j] == s;
    var cut := |u| - |r|;
    assert u[cut..][j] == u[cut + j];
    if i >= cut { assert u[cut..][i - cut] == e; }
  }

  /** Without task deletions the log is exactly the newest 5000 appends. */
  lemma {:induction false} AppendsKeepTheNewest(past: seq<Act>)
    requires forall i :: 0 <= i < |past| ==> past[i].Appended?
    ensures After(past) == if |Unpruned(past)| > 5000 then Unpruned(past)[|Unpruned(past)| - 5000..] else Unpruned(past)
  {
    if past != [] {
      var front := past[..|past| - 1];
      AppendsKeepTheNewest(front);
    }
  }

  // ---- paging ----

  function Pages(shown: seq<Entry>, size: nat, n: nat): seq<Entry> {
    if n == 0 then [] else Pages(shown, size, n - 1) + Page(shown, (n - 1) * size, size)
  }

  /** Entry `k` of a page is entry `offset + k` of the list; a page has up to `limit` entries, 1000 when no
      limit is given. */
  lemma PageExactly(shown: seq<Entry>, offset: int, limit: int, k: nat)
    ensures var page := Page(shown, offset, limit);
      k < |page| <==> k < (if limit > 0 then limit else 1000) && (if offset > 0 then offset else 0) + k < |shown|
    ensures var page := Page(shown, offset, limit);
      k < |page| ==> page[k] == shown[(if offset > 0 then offset else 0) + k]
  {}

  /** Successive pages of one size concatenate to the whole newest-first list: none is repeated,
      none is skipped. */
  lemma {:induction false} PagesConcatenate(shown: seq<Entry>, size: nat, n: nat)
    requires size > 0
    ensures Pages(shown, size, n) == if n * size <= |shown| then shown[..n * size] else shown
  {
    if n > 0 {
      hide Page;
      var from := NextPage(n, size);
      PagesConcatenate(shown, size, n - 1);
      PageAfter(shown, from, size);
    } else {
      assert shown[..0] == [];
    }
  }

  lemma NextPage(n: nat, size: nat) returns (from: nat)
    requires n > 0
    ensures from == (n - 1) * size && n * size == from + size
  {
    from := (n - 1) * size;
  }

  lemma PageAfter(shown: seq<Entry>, from: nat, size: nat)
    requires size > 0
    ensures (if from <= |shown| then shown[..from] else shown) + Page(shown, from, size)
         == if from + size <= |shown| then shown[..from + size] else shown
  {}

  /** Enough pages show every matching event of the log exactly where the filter puts it. */
  lemma AllPages(log: seq<Entry>, taskId: string, size: nat, n: nat)
    requires size > 0 && |Shown(log, taskId)| <= n * size
    ensures Pages(Shown(log, taskId), size, n) == Shown(log, taskId)
  {
    PagesConcatenate(Shown(log, taskId), size, n);
  }

  lemma {:induction false} ShownElements(log: seq<Entry>, taskId: string)
    ensures forall e ::
      e in Shown(log, taskId) <==> e in log && e.val.Parsed? && (taskId == "" || OfTask(e, taskId))
  {
    if log != [] {
      var front, last := log[..|log| - 1], log[|log| - 1];
      ShownElements(front, taskId);
      assert log == front + [last];
    }
  }

  predicate Decreasing(shown: seq<Entry>) {
    forall i, j :: 0 <= i < j < |shown| ==> shown[i].seqNo > shown[j].seqNo
  }

  lemma {:induction false} ShownInOrder(log: seq<Entry>, taskId: string, counter: nat)
    requires Increasing(log, counter)
    ensures Decreasing(Shown(log, taskId))
  {
    if log == [] {
      NothingShown(taskId);
    } else {
      hide Shown, Decreasing;
      var front, last := log[..|log| - 1], log[|log| - 1];
      ShownInOrder(front, taskId, counter);
      ShownElements(front, taskId);
      Below(front, log, counter);
    }
  }

  /** The filter shows each matching event once, newest first. */
  lemma ShownMeaning(log: seq<Entry>, taskId: string, counter: nat)
    requires Increasing(log, counter)
    ensures forall e ::
      e in Shown(log, taskId) <==> e in log && e.val.Parsed? && (taskId == "" || OfTask(e, taskId))
    ensures Decreasing(Shown(log, taskId))
  {
    hide Shown, Decreasing;
    ShownElements(log, taskId);
    ShownInOrder(log, taskId, counter);
  }

  lemma NothingShown(taskId: string)
    ensures Decreasing(Shown([], taskId))
  {}

  // ---- the bucket ----

  function Entries(rows: seq<Row>): (r: seq<Entry>)
    ensures |r| == |rows|
    ensures forall i :: 0 <= i < |rows| ==> r[i] == Entry(BigEndian(rows[i].key), rows[i].val)
  {
    seq(|rows|, i requires 0 <= i < |rows| => Entry(BigEndian(rows[i].key), rows[i].val))
  }

  /** Every key is the key of its number, in key order. */
  ghost predicate Keyed(rows: seq<Row>, counter: nat) {
    && counter < TWO_64
    && (forall i :: 0 <= i < |rows| ==> rows[i].key == SeqKey(BigEndian(rows[i].key)))
    && Increasing(Entries(rows), counter)
  }

  /** A key above the counter belongs after all rows. */
  lemma NewKeyIsLast(rows: seq<Row>, counter: nat, i: nat)
    requires Keyed(rows, counter) && i < |rows| && counter + 1 < TWO_64
    ensures Less(rows[i].key, SeqKey(counter + 1))
  {
    hide Less, SeqKey, BigEndian;
    assert Entries(rows)[i].seqNo <= counter;
    SeqKeyOrder(BigEndian(rows[i].key), counter + 1);
  }

  lemma KeyedMore(rows: seq<Row>, counter: nat, v: Stored)
    requires Keyed(rows, counter) && counter + 1 < TWO_64
    ensures Keyed(rows + [Row(SeqKey(counter + 1), v)], counter + 1)
    ensures Entries(rows + [Row(SeqKey(counter + 1), v)]) == Entries(rows) + [Entry(counter + 1, v)]
  {
    hide SeqKey, BigEndian;
    SeqKeyOrder(counter + 1, counter + 1);
    var more := Entries(rows) + [Entry(counter + 1, v)];
    OneMore(Entries(rows), v, counter);
    assert Entries(rows + [Row(SeqKey(counter + 1), v)]) == more;
  }

  lemma KeyedWithout(rows: seq<Row>, counter: nat, k: nat)
    requires Keyed(rows, counter) && k < |rows|
    ensures Keyed(rows[..k] + rows[k + 1..], counter)
    ensures Entries(rows[..k] + rows[k + 1..]) == Entries(rows)[..k] + Entries(rows)[k + 1..]
  {
    hide SeqKey, BigEndian;
    var r := rows[..k] + rows[k + 1..];
    forall i | 0 <= i < |r| ensures r[i] == rows[if i < k then i else i + 1] {}
    var es := Entries(rows);
    assert Entries(r) == es[..k] + es[k + 1..];
  }

  lemma {:induction false} ShownStep(log: seq<Entry>, taskId: string, k: nat)
    requires 0 < k <= |log|
    ensures var e := log[k - 1];
      Shown(log[..k], taskId)
        == (if e.val.Parsed? && (taskId == "" || e.val.event.taskId == taskId) then [e] else [])
          + Shown(log[..k - 1], taskId)
  {
    assert log[..k][..k - 1] == log[..k - 1];
  }

  lemma WithoutTaskStep(log: seq<Entry>, taskId: string, k: nat)
    requires k < |log|
    ensures WithoutTask(log[..k + 1], taskId)
         == WithoutTask(log[..k], taskId) + (if OfTask(log[k], taskId) then [] else [log[k]])
  {
    assert log[..k + 1][..k] == log[..k];
  }

  class Store {
    var rows: seq<Row>
    var counter: nat
    ghost var past: seq<Act>

    ghost predicate Valid()
      reads this
    {
      && Keyed(rows, counter)
      && counter == Count(past)
      && Log() == After(past)
    }

    ghost function Log(): seq<Entry>
      reads this
    {
      Entries(rows)
    }

    constructor ()
      ensures Valid() && past == []
    {
      rows, counter, past := [], 0, [];
    }

    /** `Append`: next number, put under its key, prune. */
    method Append(e: Event) returns (seqNo: nat)
      requires Valid()
      requires counter + 1 < TWO_64
      modifies this
      ensures Valid() && past == old(past) + [Appended(Parsed(e))]
      ensures seqNo == counter == old(counter) + 1
      ensures Log() == Newest(old(Log()) + [Entry(seqNo, Parsed(e))], MAX_EVENTS)
    {
      hide Less, SeqKey, BigEndian, Newest, After, Keyed, Count;
      ghost var before := Log();
      seqNo := counter + 1;
      var key := SeqKey(seqNo);
      var i := 0;
      while i < |rows| && Less(rows[i].key, key)
        invariant i <= |rows|
      {
        i := i + 1;
      }
      if i < |rows| { NewKeyIsLast(rows, counter, i); }
      KeyedMore(rows, counter, Parsed(e));
      rows := rows[..i] + [Row(key, Parsed(e))] + rows[i..];
      assert rows == old(rows) + [Row(key, Parsed(e))];
      counter := seqNo;
      Prune();
      AppendedStep(past, Parsed(e));
      past := past + [Appended(Parsed(e))];
    }

    /** `prune`: drop the first row as often as the count exceeds the limit. */
    method Prune()
      requires Keyed(rows, counter)
      modifies this`rows
      ensures Keyed(rows, counter)
      ensures Log() == Newest(old(Log()), MAX_EVENTS)
    {
      hide Keyed, SeqKey, BigEndian;
      var total := |rows|;
      if total <= MAX_EVENTS { return; }
      ghost var before := Log();
      var i := 0;
      while i < total - MAX_EVENTS
        invariant 0 <= i <= total - MAX_EVENTS
        invariant Keyed(rows, counter)
        invariant Log() == before[i..]
      {
        KeyedWithout(rows, counter, 0);
        assert rows[..0] + rows[1..] == rows[1..];
        rows := rows[1..];
        i := i + 1;
      }
    }

    /** `DeleteTask`: one cursor pass; after a delete the cursor stands at the successor. */
    method DeleteTask(taskId: string)
      requires Valid()
      modifies this
      ensures Valid() && past == old(past) + [TaskDeleted(taskId)]
      ensures Log() == WithoutTask(old(Log()), taskId) && counter == old(counter)
    {
      hide Keyed, SeqKey, BigEndian, WithoutTask, After, Count;
      ghost var before, k := Log(), 0;
      var pos := 0;
      NoneYet(before, taskId);
      while pos < |rows|
        invariant pos <= |rows| && k <= |before| && |rows| - pos == |before| - k
        invariant Keyed(rows, counter) && counter == old(counter) && past == old(past)
        invariant Log()[..pos] == WithoutTask(before[..k], taskId)
        invariant Log()[pos..] == before[k..]
        decreases |rows| - pos
      {
        WithoutTaskStep(before, taskId, k);
        assert Log()[pos] == before[k];
        var v := rows[pos].val;
        if v.Parsed? && v.event.taskId == taskId {
          KeyedWithout(rows, counter, pos);
          rows := rows[..pos] + rows[pos + 1..];
        } else {
          pos := pos + 1;
        }
        k := k + 1;
      }
      assert before[..k] == before && Log()[..pos] == Log();
      DeletedStep(past, taskId);
      past := past + [TaskDeleted(taskId)];
    }

    /** `List`: from the newest row down, skipping `offset` matches and stopping at the limit. */
    method List(taskId: string, offset: int, limit: int) returns (out: seq<Entry>)
      requires Valid()
      ensures out == Page(Shown(Log(), taskId), offset, limit)
    {
      hide Keyed, SeqKey, BigEndian, Shown, After, Paging, Page, OfTask;
      ghost var log, shown := Log(), Shown(Log(), taskId);
      var size := if limit <= 0 then DEFAULT_LIMIT else limit;
      out := [];
      var skip := offset;
      var pos := |rows|;
      ghost var seen := 0;
      PagingBegins(shown, offset, size);
      ShownRest(log, taskId);
      while pos > 0
        invariant 0 <= pos <= |rows| && 0 <= seen <= |shown|
        invariant Shown(log[..pos], taskId) == shown[seen..]
        invariant Paging(shown, offset, size, seen, skip, out)
      {
        ShownDown(log, taskId, pos, shown, seen);
        pos := pos - 1;
        var v := rows[pos].val;
        if v.Garbled? { continue; }
        if taskId != "" && v.event.taskId != taskId { continue; }
        if skip > 0 {
          SkipOne(shown, offset, size, seen, skip, out);
          skip := skip - 1;
          seen := seen + 1;
          continue;
        }
        if |out| >= size {
          PageIsFull(shown, offset, limit, seen, skip, out);
          return;
        }
        TakeOne(shown, offset, size, seen, skip, out);
        out := out + [Entry(BigEndian(rows[pos].key), v)];
        seen := seen + 1;
      }
      NoneShown(log, taskId);
      PageEnds(shown, offset, limit, seen, skip, out);
    }
  }

  // ---- one lemma per step of the page loop ----

  /** After `seen` matches: what is left to skip, and what has been taken. */
  ghost predicate Paging(shown: seq<Entry>, offset: int, size: int, seen: nat, skip: int, out: seq<Entry>) {
    && seen <= |shown| && |out| <= size
    && skip == (if offset <= seen && offset > 0 then 0 else if offset <= 0 then offset else offset - seen)
    && (skip > 0 ==> out == [])
    && (skip <= 0 ==>
          var from := if offset <= 0 then 0 else offset;
          from <= seen && out == shown[from..seen])
  }

  lemma PagingBegins(shown: seq<Entry>, offset: int, size: int)
    requires size > 0
    ensures Paging(shown, offset, size, 0, offset, [])
  {}

  lemma SkipOne(shown: seq<Entry>, offset: int, size: int, seen: nat, skip: int, out: seq<Entry>)
    requires Paging(shown, offset, size, seen, skip, out) && skip > 0 && seen < |shown|
    ensures Paging(shown, offset, size, seen + 1, skip - 1, out)
  {}

  lemma TakeOne(shown: seq<Entry>, offset: int, size: int, seen: nat, skip: int, out: seq<Entry>)
    requires Paging(shown, offset, size, seen, skip, out) && skip <= 0 && |out| < size && seen < |shown|
    ensures Paging(shown, offset, size, seen + 1, skip, out + [shown[seen]])
  {}

  lemma PageIsFull(shown: seq<Entry>, offset: int, limit: int, seen: nat, skip: int, out: seq<Entry>)
    requires var size := if limit <= 0 then DEFAULT_LIMIT else limit;
      Paging(shown, offset, size, seen, skip, out) && skip <= 0 && |out| >= size
    ensures out == Page(shown, offset, limit)
  {}

  lemma PageEnds(shown: seq<Entry>, offset: int, limit: int, seen: nat, skip: int, out: seq<Entry>)
    requires var size := if limit <= 0 then DEFAULT_LIMIT else limit;
      Paging(shown, offset, size, seen, skip, out) && seen == |shown|
    ensures out == Page(shown, offset, limit)
  {}

  lemma ShownRest(log: seq<Entry>, taskId: string)
    ensures log[..|log|] == log && Shown(log, taskId)[0..] == Shown(log, taskId)
  {}

  /** One row down: a match is the next entry of the newest-first list, anything else leaves the
      list where it is. */
  lemma ShownDown(log: seq<Entry>, taskId: string, pos: nat, shown: seq<Entry>, seen: nat)
    requires 0 < pos <= |log| && seen <= |shown| && Shown(log[..pos], taskId) == shown[seen..]
    ensures var v := log[pos - 1].val;
      if v.Parsed? && (taskId == "" || v.event.taskId == taskId) then
        seen < |shown| && shown[seen] == log[pos - 1] && Shown(log[..pos - 1], taskId) == shown[seen + 1..]
      else Shown(log[..pos - 1], taskId) == shown[seen..]
  {
    hide Shown;
    ShownStep(log, taskId, pos);
    var older := Shown(log[..pos - 1], taskId);
    assert [] + older == older;
    if log[pos - 1].val.Parsed? && (taskId == "" || log[pos - 1].val.event.taskId == taskId) {
      assert shown[seen..][0] == log[pos - 1] && shown[seen..][1..] == older;
    }
  }

  lemma NoneYet(log: seq<Entry>, taskId: string)
    ensures WithoutTask(log[..0], taskId) == []
  {}

  lemma NoneShown(log: seq<Entry>, taskId: string)
    ensures Shown(log[..0], taskId) == []
  {}

  lemma AppendedStep(past: seq<Act>, v: Stored)
    ensures Count(past + [Appended(v)]) == Count(past) + 1
    ensures After(past + [Appended(v)]) == Newest(After(past) + [Entry(Count(past) + 1, v)], MAX_EVENTS)
  {
    assert (past + [Appended(v)])[..|past|] == past;
  }

  lemma DeletedStep(past: seq<Act>, taskId: string)
    ensures Count(past + [TaskDeleted(taskId)]) == Count(past)
    ensures After(past + [TaskDeleted(taskId)]) == WithoutTask(After(past), taskId)
  {
    assert (past + [TaskDeleted(taskId)])[..|past|] == past;
  }
}
