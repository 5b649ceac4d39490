/** The Redis writer as a protocol: pushes, batches, attempts that fail in part, retries, stop
    (jobbackendprovider/redisprovider/writer.go). Each step is one critical section or one
    action between two of them. */
module WriterProtocol {
  import opened Integers
  import opened WriteLog
  import opened RedisClient

  const MAX_BATCH := 1024
  const MIN_BACKOFF := 100      // milliseconds
  const MAX_BACKOFF := 5000

  /** Where the loop is. */
  datatype Phase =
    | Head                                                      // about to take a batch, or waiting for one
    | Busy(ops: seq<WriteOp>, attempted: nat)                   // sending
    | Sent(ops: seq<WriteOp>, ok: bool)                         // the attempt is over and published
    | Backoff                                                   // before the next attempt
    | Exited

  datatype Writer = Writer(
    queue: seq<WriteOp>,
    pushed: nat,
    done: nat,
    running: bool,
    closed: bool,
    abandoned: bool,
    healthy: bool,
    signals: nat,              // how often the condition was broadcast
    retry: seq<WriteOp>,
    backoff: nat,
    phase: Phase)

  const NEW_WRITER := Writer([], 0, 0, false, false, false, true, 0, [], MIN_BACKOFF, Head)

  // ---------- the steps of the writer ----------

  function Pushed(w: Writer, op: WriteOp): Writer {
    if w.closed then w else w.(queue := w.queue + [op], pushed := w.pushed + 1, signals := w.signals + 1)
  }

  function Started(w: Writer): Writer {
    if w.running || w.closed then w else w.(running := true)
  }

  /** The stop refuses new operations. */
  function Closed(w: Writer): Writer {
    w.(closed := true, signals := w.signals + 1)
  }

  /** The stop does not wait any longer. */
  function Abandoned(w: Writer): Writer {
    w.(abandoned := true)
  }

  /** The loop has something to do. */
  predicate Ready(w: Writer) {
    w.running && w.phase == Head && (w.queue != [] || w.retry != [] || w.closed)
  }

  /** Takes a batch, or ends the loop when it was stopped and nothing is left. */
  function Taken(w: Writer): Writer {
    var n := Min(|w.queue|, MAX_BATCH);
    if n == 0 && w.retry == [] then w.(phase := Exited, signals := w.signals + 1)
    else w.(phase := Busy(w.retry + w.queue[..n], w.done + n), queue := w.queue[n..])
  }

  /** The attempt is over: those who wait for it are released. */
  function Published(w: Writer, ok: bool): Writer
    requires w.phase.Busy?
  {
    w.(phase := Sent(w.phase.ops, ok), done := w.phase.attempted, signals := w.signals + 1)
  }

  /** What the loop does with the result of the attempt. */
  ghost function Settled(w: Writer): Writer
    requires w.phase.Sent?
  {
    if w.phase.ok then w.(phase := Head, retry := [], backoff := MIN_BACKOFF, healthy := true)
    else w.(phase := Backoff, retry := Coalesced(w.phase.ops), healthy := false)
  }

  /** The delay is over. */
  function Resumed(w: Writer): Writer {
    w.(phase := Head, backoff := Min(w.backoff * 2, MAX_BACKOFF))
  }

  /** The delay is cut short: the loop gives up. */
  function GivenUp(w: Writer): Writer {
    w.(phase := Exited, signals := w.signals + 1)
  }

  // ---------- the writer, the store and what was accepted ----------

  /** `accepted` is the history of the accepted operations; `from` is the store when the current
      attempt began. */
  datatype System = System(w: Writer, store: Store, from: Store, accepted: seq<WriteOp>)

  datatype Move =
    | Push(op: WriteOp)
    | Start
    | Take
    | Touch(store: Store)      // the attempt changed the store in part
    | Succeed
    | Fail
    | Settle
    | Resume
    | GiveUp
    | Stop
    | Abandon

  ghost predicate CanMove(s: System, m: Move) {
    match m
    case Push(op) => op.delAll || JobKey(op.key)
    case Start => true
    case Take => Ready(s.w)
    case Touch(store) => s.w.phase.Busy? && PartlyApplied(s.w.phase.ops, s.store, store)
    case Succeed => s.w.phase.Busy?
    case Fail => s.w.phase.Busy?
    case Settle => s.w.phase.Sent?
    case Resume => s.w.phase == Backoff
    case GiveUp => s.w.phase == Backoff && s.w.abandoned
    case Stop => true
    case Abandon => s.w.closed && s.w.running
  }

  ghost function After(s: System, m: Move): System
    requires CanMove(s, m)
  {
    match m
    case Push(op) => s.(w := Pushed(s.w, op), accepted := if s.w.closed then s.accepted else s.accepted + [op])
    case Start => s.(w := Started(s.w))
    case Take => s.(w := Taken(s.w), from := s.store)
    case Touch(store) => s.(store := store)
    case Succeed => s.(w := Published(s.w, true), store := Apply(s.w.phase.ops, s.from))
    case Fail => s.(w := Published(s.w, false))
    case Settle => s.(w := Settled(s.w))
    case Resume => s.(w := Resumed(s.w))
    case GiveUp => s.(w := GivenUp(s.w))
    case Stop => s.(w := Closed(s.w))
    case Abandon => s.(w := Abandoned(s.w))
  }

  /** The i-th move leads from the i-th state to the next. */
  ghost predicate MoveAt(ss: seq<System>, ms: seq<Move>, i: nat)
    requires i < |ms| && |ss| == |ms| + 1
  {
    CanMove(ss[i], ms[i]) && ss[i + 1] == After(ss[i], ms[i])
  }

  ghost predicate IsRun(ss: seq<System>, ms: seq<Move>) {
    && |ss| == |ms| + 1
    && ss[0].w == NEW_WRITER && ss[0].accepted == [] && Proper(ss[0].store)
    && forall i :: 0 <= i < |ms| ==> MoveAt(ss, ms, i)
  }

  // ---------- the invariant ----------

  /** How many accepted operations left the queue. */
  function TakenCount(s: System): int {
    |s.accepted| - |s.w.queue|
  }

  /** The attempt sends what is retried and then the batch that was taken. */
  ghost predicate Carries(s: System)
    requires s.w.phase.Busy?
  {
    && s.w.done <= s.w.phase.attempted == TakenCount(s) <= |s.accepted|
    && s.w.phase.ops == s.w.retry + s.accepted[s.w.done..s.w.phase.attempted]
  }

  /** The queue is the end of what was accepted, and the counters agree. */
  ghost predicate Counted(s: System) {
    && s.w.pushed == |s.accepted| && 0 <= TakenCount(s)
    && s.w.queue == s.accepted[TakenCount(s)..]
    && (if s.w.phase.Busy? then Carries(s) else s.w.done == TakenCount(s))
  }

  /** The operations that left the queue and may not be in the store. */
  function Unsettled(w: Writer): seq<WriteOp> {
    match w.phase
    case Busy(ops, _) => ops
    case Sent(ops, ok) => if ok then [] else ops
    case Head => w.retry
    case Backoff => w.retry
    case Exited => w.retry
  }

  /** Writing what is unsettled gives all that left the queue, applied in order. */
  ghost predicate Faithful(s: System, initial: Store)
    requires 0 <= TakenCount(s)
  {
    && Proper(initial) && Proper(s.store) && JobOps(s.accepted) && JobOps(Unsettled(s.w))
    && Apply(Unsettled(s.w), s.store) == Apply(s.accepted[..TakenCount(s)], initial)
    && (s.w.phase.Busy? ==> Proper(s.from) && PartlyApplied(s.w.phase.ops, s.from, s.store))
  }

  /** The control state of the loop. */
  ghost predicate Orderly(w: Writer) {
    && (w.phase != Head ==> w.running)
    && (w.phase == Head ==> (w.healthy <==> w.retry == []))
    && (w.phase == Backoff ==> w.retry != [] && !w.healthy)
    && (w.phase.Busy? || w.phase.Sent? ==> w.phase.ops != [])
    && (w.phase == Head || w.phase == Backoff ==> Minimal(w.retry))
    && (w.phase == Exited ==> w.closed && (w.abandoned || (w.queue == [] && w.retry == [])))
    && (w.abandoned ==> w.closed)
    && MIN_BACKOFF <= w.backoff <= MAX_BACKOFF
  }

  ghost predicate Inv(s: System, initial: Store) {
    Counted(s) && Faithful(s, initial) && Orderly(s.w)
  }

  lemma SliceOfSlice(a: seq<WriteOp>, t: nat, n: nat)
    requires t + n <= |a|
    ensures a[t..][..n] == a[t..t + n] && a[t..][n..] == a[t + n..]
  {
  }

  lemma {:induction false} TakeKeepsCounted(s: System, s': System)
    requires Counted(s) && CanMove(s, Take) && s' == After(s, Take)
    ensures Counted(s')
  {
    hide Coalesced, Apply, PartlyApplied, JobKey;
    var t, n := TakenCount(s), Min(|s.w.queue|, MAX_BATCH);
    SliceOfSlice(s.accepted, t, n);
  }

  lemma {:induction false} PushKeepsCounted(s: System, op: WriteOp, s': System)
    requires Counted(s) && CanMove(s, Push(op)) && s' == After(s, Push(op))
    ensures Counted(s')
  {
    hide JobKey;
    var t := TakenCount(s);
    if !s.w.closed {
      assert (s.accepted + [op])[t..] == s.accepted[t..] + [op];
      assert s.w.phase.Busy? ==> (s.accepted + [op])[s.w.done..t] == s.accepted[s.w.done..t];
    }
  }

  lemma {:induction false} MoveKeepsCounted(s: System, m: Move, s': System)
    requires Counted(s) && CanMove(s, m) && s' == After(s, m)
    ensures Counted(s')
  {
    if m.Take? {
      TakeKeepsCounted(s, s');
    } else if m.Push? {
      PushKeepsCounted(s, m.op, s');
    } else {
      hide Coalesced, Apply, PartlyApplied, JobKey;
      assert s'.accepted == s.accepted && s'.w.queue == s.w.queue;
    }
  }

  lemma {:induction false} MoveKeepsOrderly(s: System, m: Move, s': System)
    requires Orderly(s.w) && CanMove(s, m) && s' == After(s, m)
    ensures Orderly(s'.w)
  {
    hide Coalesced, Apply, PartlyApplied, JobKey;
    if m.Settle? {
      CoalescedIsMinimal(s.w.phase.ops);
      CoalescedAreSome(s.w.phase.ops);
    }
  }

  lemma {:induction false} TakeKeepsFaithful(s: System, s': System, initial: Store)
    requires Inv(s, initial) && CanMove(s, Take) && s' == After(s, Take)
    ensures Counted(s') && Faithful(s', initial)
  {
    hide Apply, Orderly;
    MoveKeepsCounted(s, Take, s');
    if s'.w.phase.Busy? {
      var t, n := TakenCount(s), Min(|s.w.queue|, MAX_BATCH);
      var batch := s.w.queue[..n];
      assert s.accepted[..t + n] == s.accepted[..t] + batch;
      ApplyJoined(s.accepted[..t], batch, initial);
      ApplyJoined(s.w.retry, batch, s.store);
      assert JobOps(batch) by {
        assert forall i :: 0 <= i < n ==> batch[i] == s.accepted[t + i];
      }
    }
  }

  lemma {:induction false} PushKeepsFaithful(s: System, op: WriteOp, s': System, initial: Store)
    requires Inv(s, initial) && CanMove(s, Push(op)) && s' == After(s, Push(op))
    ensures Counted(s') && Faithful(s', initial)
  {
    hide Apply, Orderly;
    MoveKeepsCounted(s, Push(op), s');
    assert s'.accepted[..TakenCount(s)] == s.accepted[..TakenCount(s)];
  }

  lemma {:induction false} TouchKeepsFaithful(s: System, store: Store, s': System, initial: Store)
    requires Inv(s, initial) && CanMove(s, Touch(store)) && s' == After(s, Touch(store))
    ensures Counted(s') && Faithful(s', initial)
  {
    hide Orderly, JobKey, Apply;
    MoveKeepsCounted(s, Touch(store), s');
    hide Counted;
    var ops := s.w.phase.ops;
    PartlyThenPartly(ops, s.from, s.store, store);
    RetryIsSafe(ops, s.from, s.store);
    RetryIsSafe(ops, s.from, store);
  }

  lemma {:induction false} SucceedKeepsFaithful(s: System, s': System, initial: Store)
    requires Inv(s, initial) && CanMove(s, Succeed) && s' == After(s, Succeed)
    ensures Counted(s') && Faithful(s', initial)
  {
    hide Orderly, JobOps, PartlyApplied, Carries;
    MoveKeepsCounted(s, Succeed, s');
    hide Counted;
    var ops := s.w.phase.ops;
    ApplyIsProper(ops, s.from);
    RetryIsSafe(ops, s.from, s.store);
    NothingApplied(s'.store);
    hide Apply, Proper;
    NoOps();
  }

  lemma NothingApplied(s: Store)
    ensures Apply([], s) == s
  {
  }

  lemma NoOps()
    ensures JobOps([])
  {
  }

  lemma {:induction false} FailKeepsFaithful(s: System, s': System, initial: Store)
    requires Inv(s, initial) && CanMove(s, Fail) && s' == After(s, Fail)
    ensures Counted(s') && Faithful(s', initial)
  {
    hide Orderly, JobOps, PartlyApplied, Carries, Apply, Proper;
    MoveKeepsCounted(s, Fail, s');
    hide Counted;
  }

  lemma {:induction false} SettleKeepsFaithful(s: System, s': System, initial: Store)
    requires Inv(s, initial) && CanMove(s, Settle) && s' == After(s, Settle)
    ensures Counted(s') && Faithful(s', initial)
  {
    hide Orderly, JobKey, Coalesced, Apply;
    MoveKeepsCounted(s, Settle, s');
    hide Counted;
    var ops := s.w.phase.ops;
    if !s.w.phase.ok {
      CoalescingIsSafe(ops, s.store, s.store);
      CoalescedAreSome(ops);
    }
  }

  /** The moves that only change what the loop does next. */
  lemma {:induction false} ControlKeepsFaithful(s: System, m: Move, s': System, initial: Store)
    requires Inv(s, initial) && CanMove(s, m) && s' == After(s, m)
    requires m.Start? || m.Resume? || m.GiveUp? || m.Stop? || m.Abandon?
    ensures Counted(s') && Faithful(s', initial)
  {
    hide Apply, Coalesced, PartlyApplied, JobOps, Minimal, Taken, Proper;
    MoveKeepsCounted(s, m, s');
    assert s'.store == s.store && s'.accepted == s.accepted && s'.w.queue == s.w.queue && s'.from == s.from;
    assert Unsettled(s'.w) == Unsettled(s.w);
  }

  lemma {:induction false} MoveKeepsInv(s: System, m: Move, s': System, initial: Store)
    requires Inv(s, initial) && CanMove(s, m) && s' == After(s, m)
    ensures Inv(s', initial)
  {
    MoveKeepsOrderly(s, m, s');
    hide Counted, Faithful, Orderly, CanMove, After;
    match m
    case Take => TakeKeepsFaithful(s, s', initial);
    case Push(op) => PushKeepsFaithful(s, op, s', initial);
    case Touch(store) => TouchKeepsFaithful(s, store, s', initial);
    case Succeed => SucceedKeepsFaithful(s, s', initial);
    case Fail => FailKeepsFaithful(s, s', initial);
    case Settle => SettleKeepsFaithful(s, s', initial);
    case _ => ControlKeepsFaithful(s, m, s', initial);
  }

  // ---------- over whole runs ----------

  lemma FreshIsInv(s: System)
    requires s.w == NEW_WRITER && s.accepted == [] && Proper(s.store)
    ensures Inv(s, s.store)
  {
    assert s.accepted[..0] == [];
  }

  lemma {:induction false} RunsKeepInv(ss: seq<System>, ms: seq<Move>, i: nat)
    requires IsRun(ss, ms) && i < |ss|
    ensures Inv(ss[i], ss[0].store)
  {
    hide Inv, After, CanMove;
    if i == 0 {
      FreshIsInv(ss[0]);
    } else {
      RunsKeepInv(ss, ms, i - 1);
      assert MoveAt(ss, ms, i - 1);
      MoveKeepsInv(ss[i - 1], ms[i - 1], ss[i], ss[0].store);
    }
  }

  /** In every state of every run: writing what is unsettled and then the queue gives all the
      accepted operations, applied once and in order. */
  lemma {:induction false} NothingIsForgotten(ss: seq<System>, ms: seq<Move>, i: nat)
    requires IsRun(ss, ms) && i < |ss|
    ensures Apply(Unsettled(ss[i].w) + ss[i].w.queue, ss[i].store) == Apply(ss[i].accepted, ss[0].store)
  {
    RunsKeepInv(ss, ms, i);
    hide Apply, IsRun;
    var s, t := ss[i], TakenCount(ss[i]);
    ApplyJoined(Unsettled(s.w), s.w.queue, s.store);
    assert s.accepted == s.accepted[..t] + s.w.queue;
    ApplyJoined(s.accepted[..t], s.w.queue, ss[0].store);
  }

  /** When the loop ended and was not abandoned, the store holds everything. */
  lemma {:induction false} ExitLosesNothing(ss: seq<System>, ms: seq<Move>, i: nat)
    requires IsRun(ss, ms) && i < |ss| && ss[i].w.phase == Exited && !ss[i].w.abandoned
    ensures ss[i].store == Apply(ss[i].accepted, ss[0].store)
  {
    RunsKeepInv(ss, ms, i);
    NothingIsForgotten(ss, ms, i);
    hide IsRun;
    assert Unsettled(ss[i].w) + ss[i].w.queue == [];
  }

  /** A request waits for the operations pushed before it (`target`). */
  predicate Waits(w: Writer, target: nat) {
    w.running && w.done < target && w.phase != Exited
  }

  /** The step that ends the wait signals the condition. */
  lemma {:induction false} NoMissedSignal(s: System, m: Move, target: nat)
    requires CanMove(s, m) && Waits(s.w, target) && !Waits(After(s, m).w, target)
    ensures After(s, m).w.signals > s.w.signals
  {
    hide Coalesced, Apply, PartlyApplied, JobKey;
  }

  /** What a request that waited for `target` operations may rely on: they left the queue and were
      sent at least once; and where the loop has nothing to retry, they are in the store. */
  lemma {:induction false} WaitedForAreSent(ss: seq<System>, ms: seq<Move>, i: nat, target: nat)
    requires IsRun(ss, ms) && i < |ss| && target <= ss[i].w.pushed
    requires ss[i].w.running && ss[i].w.phase != Exited && !Waits(ss[i].w, target)
    ensures target <= ss[i].w.done <= |ss[i].accepted|
    ensures target <= TakenCount(ss[i]) && ss[i].w.queue == ss[i].accepted[TakenCount(ss[i])..]
    ensures ss[i].w.phase == Head && ss[i].w.healthy ==> ss[i].store == Apply(ss[i].accepted[..ss[i].w.done], ss[0].store)
  {
    RunsKeepInv(ss, ms, i);
  }

  /** An operation is counted as done when an attempt that sent it is over: the attempt sent what
      was retried and then the operations newly counted. */
  lemma {:induction false} DoneMeansSent(s: System, m: Move, s': System, initial: Store)
    requires Inv(s, initial) && CanMove(s, m) && s' == After(s, m) && s'.w.done != s.w.done
    ensures s.w.done < s'.w.done <= |s.accepted| && s'.w.phase.Sent?
    ensures s'.w.phase.ops == s.w.retry + s.accepted[s.w.done..s'.w.done]
  {
    hide Apply, PartlyApplied, Coalesced, JobKey, Faithful, Minimal;
  }

  lemma ClosedAccepts(s: System, m: Move, s': System)
    requires s.w.closed && CanMove(s, m) && s' == After(s, m)
    ensures s'.w.closed && s'.accepted == s.accepted
  {
    hide Apply, PartlyApplied, Coalesced, JobKey;
  }

  /** After the stop nothing is accepted. */
  lemma {:induction false} ClosedStaysClosed(ss: seq<System>, ms: seq<Move>, i: nat, j: nat)
    requires IsRun(ss, ms) && i <= j < |ss| && ss[i].w.closed
    ensures ss[j].w.closed && ss[j].accepted == ss[i].accepted
    decreases j
  {
    if i < j {
      assert MoveAt(ss, ms, j - 1);
      ClosedStaysClosed(ss, ms, i, j - 1);
      hide IsRun;
      ClosedAccepts(ss[j - 1], ms[j - 1], ss[j]);
    }
  }

  // ---------- the writer itself ----------

  /** The critical sections of the writer; `phase` holds the local variables of the loop. */
  class RedisWriter {
    var queue: seq<WriteOp>
    var pushed: nat
    var done: nat
    var running: bool
    var closed: bool
    var abandoned: bool
    var healthy: bool
    var signals: nat
    var retry: seq<WriteOp>
    var backoff: nat
    var phase: Phase

    function State(): Writer
      reads this
    {
      Writer(queue, pushed, done, running, closed, abandoned, healthy, signals, retry, backoff, phase)
    }

    constructor ()
      ensures State() == NEW_WRITER
    {
      queue, pushed, done := [], 0, 0;
      running, closed, abandoned, healthy := false, false, false, true;
      signals, retry, backoff, phase := 0, [], MIN_BACKOFF, Head;
    }

    method Start()
      modifies this
      ensures State() == Started(old(State()))
    {
      if running || closed {
        return;
      }
      running := true;
    }

    method Push(op: WriteOp)
      modifies this
      ensures State() == Pushed(old(State()), op)
    {
      if closed {
        return;
      }
      queue := queue + [op];
      pushed := pushed + 1;
      signals := signals + 1;
    }

    /** The first half of stop; what it does when the wait is over is Abandon. */
    method Stop()
      modifies this
      ensures State() == Closed(old(State()))
    {
      closed := true;
      signals := signals + 1;
    }

    method Abandon()
      modifies this
      ensures State() == Abandoned(old(State()))
    {
      abandoned := true;
    }

    method TakeBatch()
      requires Ready(State())
      modifies this
      ensures State() == Taken(old(State()))
      ensures queue == if |old(queue)| <= 1024 then [] else old(queue)[1024..]
    {
      var n := Min(|queue|, MAX_BATCH);
      var batch := queue[..n];
      queue := queue[n..];
      if n == 0 && |retry| == 0 {
        phase := Exited;
        signals := signals + 1;
      } else {
        phase := Busy(retry + batch, done + n);
      }
    }

    method Publish(ok: bool)
      requires phase.Busy?
      modifies this
      ensures State() == Published(old(State()), ok)
    {
      done := phase.attempted;
      signals := signals + 1;
      phase := Sent(phase.ops, ok);
    }

    method Settle()
      requires phase.Sent?
      modifies this
      ensures State() == Settled(old(State()))
      ensures old(phase).ok ==> backoff == 100
    {
      if phase.ok {
        retry, backoff, healthy, phase := [], MIN_BACKOFF, true, Head;
      } else {
        var kept := Coalesce(phase.ops);
        retry, healthy, phase := kept, false, Backoff;
      }
    }

    /** After the delay: another round, or the end of a loop that was abandoned. */
    method AfterDelay(timeout: bool)
      requires phase == Backoff && (timeout || abandoned)
      modifies this
      ensures State() == if timeout then Resumed(old(State())) else GivenUp(old(State()))
      ensures timeout ==> backoff == if 2 * old(backoff) < 5000 then 2 * old(backoff) else 5000
    {
      if timeout {
        phase := Head;
        backoff := Min(backoff * 2, MAX_BACKOFF);
      } else {
        phase := Exited;
        signals := signals + 1;
      }
    }

    /** One round of the loop that nobody interrupts. */
    method Round(redis: Redis)
      requires Ready(State()) && Proper(redis.store)
      modifies this, redis
      ensures Proper(redis.store)
      ensures var was := old(State());
              var ops := was.retry + was.queue[..Min(|was.queue|, MAX_BATCH)];
              if ops == [] then phase == Exited && redis.store == old(redis.store)
              else if phase == Head then retry == [] && redis.store == Apply(ops, old(redis.store))
              else phase == Backoff && retry == Coalesced(ops) && PartlyApplied(ops, old(redis.store), redis.store)
    {
      TakeBatch();
      if phase == Exited {
        return;
      }
      var ok := redis.Execute(phase.ops);
      Publish(ok);
      Settle();
    }
  }
}
