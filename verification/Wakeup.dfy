/** The wake-up protocol around the queue (internal/engine/queue.go): every interleaving of
    the locked sections and channel operations of many callers with the one consumer. */
module Wakeup {
  import opened WorkQueue

  /** Where the consumer stands: running a job, about to lock, blocked on the channel, returned. */
  datatype Consumer = Busy | Checking | Blocked | Finished

  /** `kick` is the token in the capacity-1 channel; `senders` are the callers of `Enqueue`
      that have released the lock and not yet sent. */
  datatype System = System(queue: State, kick: bool, senders: set<nat>, consumer: Consumer, handed: seq<Job>)

  datatype Step =
    | EnqueueLocked(who: nat, j: Job)
    | EnqueueSend(who: nat)
    | Drop(taskID: string)
    | Close
    | TakeCall
    | TakeLocked
    | TakeReceive
    | TakeCancelled

  const START := System(State([], false), false, {}, Busy, [])

  predicate Enabled(s: System, a: Step) {
    match a
    case EnqueueLocked(who, j) => who !in s.senders
    case EnqueueSend(who) => who in s.senders
    case Drop(_) => true
    case Close => true
    case TakeCall => s.consumer.Busy?
    case TakeLocked => s.consumer.Checking?
    case TakeReceive => s.consumer.Blocked? && s.kick
    case TakeCancelled => s.consumer.Blocked?
  }

  /** One atomic step; the queue changes are those of the queue itself. */
  function After(s: System, a: Step): System
    requires Enabled(s, a)
  {
    match a
    case EnqueueLocked(who, j) =>
      var q := Next(s.queue, Enqueued(j));
      var isNew := !s.queue.closed && Find(s.queue.jobs, j.DedupKey()) < 0;
      s.(queue := q, senders := if isNew then s.senders + {who} else s.senders)
    case EnqueueSend(who) => s.(kick := true, senders := s.senders - {who})
    case Drop(id) => s.(queue := Next(s.queue, TaskDropped(id)))
    case Close => s.(queue := Next(s.queue, ClosedEvent), kick := true)
    case TakeCall => s.(consumer := Checking)
    case TakeLocked =>
      if s.queue.jobs != [] then
        s.(queue := Next(s.queue, TakeCalled), consumer := Busy, handed := s.handed + [s.queue.jobs[0]])
      else if s.queue.closed then s.(consumer := Finished)
      else s.(consumer := Blocked)
    case TakeReceive => s.(kick := false, consumer := Checking)
    case TakeCancelled => s.(consumer := Finished)
  }

  ghost predicate Executes(s: System, steps: seq<Step>, end: System)
    decreases |steps|
  {
    if steps == [] then s == end else Enabled(s, steps[0]) && Executes(After(s, steps[0]), steps[1..], end)
  }

  /** A consumer asleep while there is something to do always has a token waiting for it, or
      a caller that is about to send one. */
  ghost predicate Awakenable(s: System) {
    s.consumer.Blocked? && (s.queue.jobs != [] || s.queue.closed) ==> s.kick || s.senders != {}
  }

  /** No lost wakeup: in every interleaving of any number of callers with one `Take`. */
  lemma {:induction false} NoLostWakeup(s: System, steps: seq<Step>, end: System)
    requires Awakenable(s) && Executes(s, steps, end)
    ensures Awakenable(end)
    decreases |steps|
  {
    if steps != [] {
      NoLostWakeup(After(s, steps[0]), steps[1..], end);
    }
  }

  /** And it is not stuck: from every reachable state in which the consumer sleeps over work,
      at most one pending send and two steps of its own hand out the first queued job, or end
      it when the queue is closed and empty. */
  lemma SleeperGetsTheJob(steps: seq<Step>, s: System) returns (wake: seq<Step>, end: System)
    requires Executes(START, steps, s)
    requires s.consumer.Blocked? && (s.queue.jobs != [] || s.queue.closed)
    ensures |wake| <= 3 && Executes(s, wake, end)
    ensures if s.queue.jobs != [] then end.handed == s.handed + [s.queue.jobs[0]] else end.consumer.Finished?
  {
    NoLostWakeup(START, steps, s);
    var ready := s;
    wake := [TakeReceive, TakeLocked];
    if !s.kick {
      var who :| who in s.senders;
      ready := After(s, EnqueueSend(who));
    }
    var checking := After(ready, TakeReceive);
    end := After(checking, TakeLocked);
    assert [TakeReceive, TakeLocked][1..] == [TakeLocked] && [TakeLocked][1..] == [];
    assert Executes(checking, [TakeLocked], end);
    assert Executes(ready, wake, end);
    if !s.kick {
      var who :| who in s.senders && ready == After(s, EnqueueSend(who));
      assert ([EnqueueSend(who)] + wake)[1..] == wake;
      wake := [EnqueueSend(who)] + wake;
    }
  }

  // ---- the debouncer (internal/engine/runner.go) ----

  datatype Timer = Unset | Armed | Idle

  datatype Drain = Waiting | Woken | Gone

  /** `firing` counts timer callbacks that have started and not yet sent; `armed` and `handed`
      collect the directories ever armed and ever handed out. */
  datatype Debouncer = Debouncer(pending: set<string>, timer: Timer, firing: nat, kick: bool, drain: Drain,
                                 stopped: bool, armed: set<string>, handed: set<string>)

  datatype Move = Arm(dir: string) | Fire | Notify | Receive | TakeAll | Stop | Cancel

  const QUIET := Debouncer({}, Unset, 0, false, Waiting, false, {}, {})

  predicate CanMove(d: Debouncer, m: Move) {
    match m
    case Arm(_) => true
    case Fire => d.timer.Armed?
    case Notify => d.firing > 0
    case Receive => d.drain.Waiting? && d.kick
    case TakeAll => d.drain.Woken?
    case Stop => true
    case Cancel => d.drain.Waiting?
  }

  function Moved(d: Debouncer, m: Move): Debouncer
    requires CanMove(d, m)
  {
    match m
    case Arm(dir) => d.(pending := d.pending + {dir}, timer := Armed, armed := d.armed + {dir})
    case Fire => d.(timer := Idle, firing := d.firing + 1)
    case Notify => d.(firing := d.firing - 1, kick := true)
    case Receive => d.(kick := false, drain := Woken)
    case TakeAll => d.(pending := {}, drain := Waiting, handed := d.handed + d.pending)
    case Stop => d.(timer := if d.timer.Armed? then Idle else d.timer, stopped := true)
    case Cancel => d.(drain := Gone)
  }

  ghost predicate Plays(d: Debouncer, moves: seq<Move>, end: Debouncer)
    decreases |moves|
  {
    if moves == [] then d == end else CanMove(d, moves[0]) && Plays(Moved(d, moves[0]), moves[1..], end)
  }

  /** Before `Stop`, pending directories always have something on its way to collect them;
      and a directory ever armed is either handed out or still pending. */
  ghost predicate NotStranded(d: Debouncer) {
    && (d.pending != {} && !d.stopped ==> d.timer.Armed? || d.firing > 0 || d.kick || d.drain.Woken?)
    && d.armed == d.handed + d.pending
  }

  lemma {:induction false} NothingStranded(d: Debouncer, moves: seq<Move>, end: Debouncer)
    requires NotStranded(d) && !d.drain.Gone? && Cancel !in moves && Plays(d, moves, end)
    ensures NotStranded(end) && !end.drain.Gone?
    decreases |moves|
  {
    if moves != [] {
      assert moves[0] in moves && forall m :: m in moves[1..] ==> m in moves;
      assert NotStranded(Moved(d, moves[0]));
      NothingStranded(Moved(d, moves[0]), moves[1..], end);
    }
  }

  /** From every reachable state before `Stop`, the moves already under way hand out every
      pending directory: timer, callback, token, take. */
  lemma PendingIsCollected(moves: seq<Move>, d: Debouncer) returns (rest: seq<Move>, end: Debouncer)
    requires Plays(QUIET, moves, d) && Cancel !in moves && !d.stopped && d.pending != {}
    ensures |rest| <= 4 && Plays(d, rest, end) && (forall m :: m in rest ==> !m.Arm? && !m.Stop?)
    ensures end.pending == {} && end.handed == d.armed
  {
    NothingStranded(QUIET, moves, d);
    end := d;
    rest := [];
    if !end.drain.Woken? {
      if !end.kick {
        if end.firing == 0 {
          rest, end := Extend(d, rest, end, Fire);
        }
        rest, end := Extend(d, rest, end, Notify);
      }
      rest, end := Extend(d, rest, end, Receive);
    }
    rest, end := Extend(d, rest, end, TakeAll);
  }

  lemma Extend(d: Debouncer, moves: seq<Move>, mid: Debouncer, m: Move) returns (more: seq<Move>, end: Debouncer)
    requires Plays(d, moves, mid) && CanMove(mid, m)
    ensures more == moves + [m] && end == Moved(mid, m) && Plays(d, more, end)
  {
    more, end := moves + [m], Moved(mid, m);
    PlaysOn(d, moves, mid, m);
  }

  lemma {:induction false} PlaysOn(d: Debouncer, moves: seq<Move>, mid: Debouncer, m: Move)
    requires Plays(d, moves, mid) && CanMove(mid, m)
    ensures Plays(d, moves + [m], Moved(mid, m))
    decreases |moves|
  {
    if moves == [] {
      assert ([] + [m])[1..] == [];
    } else {
      assert (moves + [m])[1..] == moves[1..] + [m];
      PlaysOn(Moved(d, moves[0]), moves[1..], mid, m);
    }
  }

  lemma {:induction false} UnarmedStays(d: Debouncer, moves: seq<Move>, end: Debouncer)
    requires !d.timer.Armed? && (forall m :: m in moves ==> !m.Arm?) && Plays(d, moves, end)
    ensures !end.timer.Armed? && Fire !in moves && end.firing <= d.firing
    decreases |moves|
  {
    if moves != [] {
      assert moves[0] in moves && forall m :: m in moves[1..] ==> m in moves;
      UnarmedStays(Moved(d, moves[0]), moves[1..], end);
    }
  }

  /** After `Stop` no timer runs off until a directory is armed again: only callbacks that were already
      under way still notify. */
  lemma StopCancelsTheTimer(d: Debouncer, moves: seq<Move>, end: Debouncer)
    requires (forall m :: m in moves ==> !m.Arm?) && Plays(Moved(d, Stop), moves, end)
    ensures !end.timer.Armed? && Fire !in moves && end.firing <= d.firing
  {
    UnarmedStays(Moved(d, Stop), moves, end);
  }
}
