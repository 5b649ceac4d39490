/** The periodic pass over the retry queue, and the one over the delayed queue. */
module Retries {
  import opened Jobs
  import opened PriorityQueues
  import opened Scheduler
  import opened Invariants
  import opened Moves
  import opened Admission
  import opened Operations

  type Queue = seq<Item<JobId>>

  ghost predicate AllDue(q: Queue, now: int) {
    forall w :: w in q ==> w.priority >= -now
  }

  // ---------- queues ----------

  lemma {:induction false} RemovedAt(a: Queue, w: Item<JobId>, b: Queue)
    requires OncePerValue(a + [w] + b)
    ensures Removed(a + [w] + b, w.value) == a + b
  {
    var q := a + [w] + b;
    if a == [] {
      assert q[1..] == b && a + b == b;
    } else {
      assert q[1..] == a[1..] + [w] + b;
      ValuesAreHeld(q[1..]);
      assert w in q[1..];
      RemovedAt(a[1..], w, b);
      assert [a[0]] + (a[1..] + b) == a + b;
    }
  }

  lemma {:induction false} DescendingAt(q: Queue, i: nat, j: nat)
    requires Descending(q) && i < j < |q|
    ensures q[i].priority >= q[j].priority
  {
    if i == 0 {
      assert q[j] == q[1..][j - 1] && q[1..][j - 1] in q[1..];
    } else {
      DescendingAt(q[1..], i - 1, j - 1);
    }
  }

  /** What was taken out goes back where it was: ahead of the rest, in the same order. */
  lemma {:induction false} ReinsertedInFront(done: Queue, held: Queue, rest: Queue, now: int)
    requires Descending(done + held + rest) && AllDue(done + held, now)
    requires rest != [] ==> rest[0].priority < -now
    ensures Reinserted(done + rest, held) == done + held + rest
    decreases |held|
  {
    var q := done + held + rest;
    if held == [] {
      assert q == done + rest;
    } else {
      var h := held[0];
      assert h in done + held;
      forall i | 0 <= i < |done| ensures (done + rest)[i].priority >= h.priority {
        DescendingAt(q, i, |done|);
      }
      InsertedSplits(done + rest, h, |done|);
      assert (done + rest)[..|done|] == done && (done + rest)[|done|..] == rest;
      assert done + [h] + held[1..] == done + held;
      ReinsertedInFront(done + [h], held[1..], rest, now);
      assert done + [h] + held[1..] + rest == q;
    }
  }

  // ---------- one pass over the retry queue ----------

  /** The items whose job still waits for its retry, in their order. */
  ghost function StillWaiting(q: Queue, jobs: map<JobId, JobValue>): Queue {
    if q == [] then []
    else if q[0].value in jobs && jobs[q[0].value].state == IsHidden then [q[0]] + StillWaiting(q[1..], jobs)
    else StillWaiting(q[1..], jobs)
  }

  lemma {:induction false} StillWaitingConcat(a: Queue, b: Queue, jobs: map<JobId, JobValue>)
    ensures StillWaiting(a + b, jobs) == StillWaiting(a, jobs) + StillWaiting(b, jobs)
  {
    if a == [] {
      assert a + b == b;
    } else {
      assert (a + b)[1..] == a[1..] + b;
      StillWaitingConcat(a[1..], b, jobs);
    }
  }

  lemma {:induction false} AllStillWait(q: Queue, jobs: map<JobId, JobValue>)
    requires forall v :: v in ValuesOf(q) ==> v in jobs && jobs[v].state == IsHidden
    ensures StillWaiting(q, jobs) == q
  {
    if q != [] {
      assert q[0].value in ValuesOf(q);
      AllStillWait(q[1..], jobs);
    }
  }

  /** A job of the queue that was due was queued at this time. */
  ghost predicate RetriedNow(s: State, s': State, id: JobId, now: int) {
    && id in s.jobs && id in s'.jobs
    && s'.jobs[id] == s.jobs[id].AddEvent(Enqueue, now)
    && exists w :: w in s.retry && w.value == id && w.priority >= -now
  }

  /** The outcome of a pass over the retry queue of `s`. */
  ghost predicate RetryPass(s: State, s': State, now: int) {
    && s'.jobs.Keys == s.jobs.Keys
    && (forall id :: id in s.jobs ==> s'.jobs[id] == s.jobs[id] || RetriedNow(s, s', id, now))
    && s'.retry == StillWaiting(s.retry, s'.jobs)
    && (forall w :: w in s'.retry && w.priority >= -now && w.value in s'.jobs ==> JobBlocked(s', w.value))
    && s'.pending == s.pending && s'.delayed == s.delayed && Grown(s.locks, s'.locks)
  }

  /** The state with what the loop holds back put in front of its queue. */
  ghost function Whole(s: State, held: Queue): State {
    s.(retry := held + s.retry)
  }

  /** Everything held back is blocked. */
  ghost predicate HeldBlocked(s: State, held: Queue) {
    forall w :: w in held && w.value in s.jobs ==> JobBlocked(s, w.value)
  }

  lemma {:induction false} EndIsWhole(s: State, held: Queue, s': State, now: int)
    requires Descending(held + s.retry) && AllDue(held, now)
    requires s.retry == [] || s.retry[0].priority < -now
    requires s' == RetryDue(s, held, now)
    ensures s' == Whole(s, held)
  {
    assert [] + held == held && [] + s.retry == s.retry;
    ReinsertedInFront([], held, s.retry, now);
  }

  /** Past the due items nothing is due. */
  lemma {:induction false} DueIsHeld(held: Queue, rest: Queue, w: Item<JobId>, now: int)
    requires Descending(held + rest) && w in held + rest && w.priority >= -now
    requires rest == [] || rest[0].priority < -now
    ensures w in held
  {
    var q := held + rest;
    var i :| 0 <= i < |q| && q[i] == w;
    if i > |held| {
      DescendingAt(q, |held|, i);
    }
  }

  lemma {:induction false} RetryEnds(s: State, held: Queue, s': State, now: int)
    requires Descending(held + s.retry) && ValuesOf(held + s.retry) == InState(s.jobs, IsHidden)
    requires AllDue(held, now) && HeldBlocked(s, held)
    requires s.retry == [] || s.retry[0].priority < -now
    requires s' == RetryDue(s, held, now)
    ensures s' == Whole(s, held) && RetryPass(Whole(s, held), s', now)
  {
    EndIsWhole(s, held, s', now);
    hide RetryDue;
    AllStillWait(held + s.retry, s.jobs);
    forall w | w in s'.retry && w.priority >= -now && w.value in s'.jobs ensures JobBlocked(s', w.value) {
      DueIsHeld(held, s.retry, w, now);
    }
  }

  lemma {:induction false} NextWaits(s: State, held: Queue, w: Item<JobId>)
    requires Coherent(Whole(s, held)) && s.retry != [] && w == s.retry[0]
    ensures w.value in s.jobs && s.jobs[w.value].state == IsHidden
    ensures Removed(held + s.retry, w.value) == held + s.retry[1..]
    ensures w.value !in ValuesOf(held + s.retry[1..])
  {
    assert held + s.retry == held + [w] + s.retry[1..];
    RemovedAt(held, w, s.retry[1..]);
    ValuesAreHeld(held + s.retry);
    assert w in held + s.retry;
    assert w.value in InState(s.jobs, IsHidden);
    RemovedKeeps(held + s.retry, w.value);
  }

  /** Queueing a job does not look at the retry queue. */
  lemma MakeQueuedKeepsRetry(s: State, q: Queue, id: JobId, now: int)
    requires id in s.jobs
    ensures MakeQueued(s.(retry := q), id, now) == MakeQueued(s, id, now).(retry := q)
  {
  }

  lemma {:induction false} OneIsQueued(s: State, held: Queue, w: Item<JobId>, s1: State, now: int)
    requires Coherent(Whole(s, held)) && s.retry != [] && w == s.retry[0] && w.value in s.jobs
    requires s1 == MakeQueued(s.(retry := s.retry[1..]), w.value, now)
    ensures Whole(s1, held) == Queued(Whole(s, held), w.value, now)
  {
    NextWaits(s, held, w);
    PendingIsKnown(Whole(s, held), w.value);
    MakeQueuedKeepsRetry(s, s.retry[1..], w.value, now);
    MakeQueuedKeepsRetry(s, held + s.retry, w.value, now);
    var m := MakeQueued(s, w.value, now);
    assert m.pending == s.pending;
    hide MakeQueued;
    assert s.pending - {w.value} == s.pending;
  }

  lemma OneFields(s: State, w: Item<JobId>, s1: State, now: int)
    requires s.retry != [] && w.value in s.jobs
    requires s1 == MakeQueued(s.(retry := s.retry[1..]), w.value, now)
    ensures s1.retry == s.retry[1..] && s1.jobs == s.jobs[w.value := s.jobs[w.value].AddEvent(Enqueue, now)]
    ensures s1.pending == s.pending && s1.delayed == s.delayed && Grown(s.locks, s1.locks)
  {
  }

  /** The loop takes a job out and queues it; the rest is as before. */
  lemma {:induction false} RetryOne(cfg: Config, w0: State, w1: State, id: JobId, now: int)
    requires Good(cfg, w0, now) && id in w0.jobs && w0.jobs[id].state == IsHidden
    requires !JobBlocked(w0, id) && w1 == Queued(w0, id, now)
    ensures Served(cfg, w0, w1, now)
  {
    assert Resting(cfg.maxRetry, w0.jobs[id]);
    hide KeepsHolding, Woken, PendingDue, Conserving, Queued;
    QueuedKeeps(cfg, w0, w1, id, now);
    QueuedEffect(w0, w1, id, now);
  }

  lemma {:induction false} AttemptServes(cfg: Config, s: State, held: Queue, s': State, now: int)
    requires Good(cfg, Whole(s, held), now) && AllDue(held, now) && HeldBlocked(s, held)
    requires s' == RetryDue(s, held, now)
    ensures Served(cfg, Whole(s, held), s', now) && RetryPass(Whole(s, held), s', now)
    decreases |s.retry|
  {
    if s.retry == [] || s.retry[0].priority < -now {
      GoodIsCoherent(cfg, Whole(s, held), now);
      hide Served, RetryPass, RetryDue, Good;
      RetryEnds(s, held, s', now);
      ServedNothing(cfg, Whole(s, held), now);
    } else {
      var w := s.retry[0];
      GoodIsCoherent(cfg, Whole(s, held), now);
      hide Served, RetryPass, Good, MakeQueued;
      NextWaits(s, held, w);
      var s1 := s.(retry := s.retry[1..]);
      if JobBlocked(s1, w.value) {
        HoldBack(s, held, s1, now);
        hide HeldBlocked, AllDue, Whole;
        AttemptServes(cfg, s1, held + [w], s', now);
      } else {
        hide HeldBlocked, AllDue, Whole;
        RetryThenRest(cfg, s, held, w, MakeQueued(s1, w.value, now), s', now);
      }
    }
  }

  lemma HoldBack(s: State, held: Queue, s1: State, now: int)
    requires s.retry != [] && s1 == s.(retry := s.retry[1..]) && s.retry[0].priority >= -now
    requires AllDue(held, now) && HeldBlocked(s, held)
    requires s.retry[0].value in s.jobs ==> JobBlocked(s, s.retry[0].value)
    ensures Whole(s1, held + [s.retry[0]]) == Whole(s, held)
    ensures AllDue(held + [s.retry[0]], now) && HeldBlocked(s1, held + [s.retry[0]])
  {
    assert held + [s.retry[0]] + s.retry[1..] == held + s.retry;
  }

  lemma GoodIsCoherent(cfg: Config, s: State, now: int)
    requires Good(cfg, s, now)
    ensures Coherent(s)
    ensures Descending(s.retry) && ValuesOf(s.retry) == InState(s.jobs, IsHidden)
  {
  }

  lemma {:induction false} RetryThenRest(cfg: Config, s: State, held: Queue, w: Item<JobId>, s2: State, s': State, now: int)
    requires Good(cfg, Whole(s, held), now) && AllDue(held, now) && HeldBlocked(s, held)
    requires s.retry != [] && w == s.retry[0] && w.priority >= -now && w.value in s.jobs && !JobBlocked(s, w.value)
    requires s2 == MakeQueued(s.(retry := s.retry[1..]), w.value, now)
    requires s' == RetryDue(s2, held, now)
    ensures Served(cfg, Whole(s, held), s', now) && RetryPass(Whole(s, held), s', now)
    decreases |s.retry|, 0
  {
    var w0, w2 := Whole(s, held), Whole(s2, held);
    NextWaits(s, held, w);
    OneIsQueued(s, held, w, s2, now);
    OneFields(s, w, s2, now);
    HeldStaysBlocked(s, held, w.value, s2, now);
    hide MakeQueued, Queued, Served, RetryPass, Inv, PendingDue, Conserving, HeldBlocked;
    RetryOne(cfg, w0, w2, w.value, now);
    GoodAfter(cfg, w0, w2, now);
    AttemptServes(cfg, s2, held, s', now);
    ServedThen(cfg, w0, w2, s', now);
    PassThen(s, held, w, s2, s', now);
  }

  lemma GoodAfter(cfg: Config, s: State, s': State, now: int)
    requires Served(cfg, s, s', now)
    ensures Good(cfg, s', now)
  {
  }

  lemma HeldStaysBlocked(s: State, held: Queue, id: JobId, s2: State, now: int)
    requires id in s.jobs && HeldBlocked(s, held) && !JobBlocked(s, id) && s.retry != []
    requires s2 == MakeQueued(s.(retry := s.retry[1..]), id, now)
    ensures HeldBlocked(s2, held)
  {
    forall x | x in held && x.value in s2.jobs ensures JobBlocked(s2, x.value) {
      StillBlocked(s.locks, s2.locks, x.value, NeedsOf(s.jobs[x.value]));
    }
  }

  lemma {:induction false} RetriedStays(s: State, held: Queue, w: Item<JobId>, s2: State, s': State, now: int)
    requires Coherent(Whole(s, held)) && s.retry != [] && w == s.retry[0] && w.priority >= -now && w.value in s.jobs
    requires s2.retry == s.retry[1..] && s2.jobs == s.jobs[w.value := s.jobs[w.value].AddEvent(Enqueue, now)]
    requires RetryPass(Whole(s2, held), s', now)
    ensures w.value in s'.jobs && s'.jobs[w.value] == s2.jobs[w.value]
    ensures s'.retry == StillWaiting(held + s.retry, s'.jobs)
  {
    NextWaits(s, held, w);
    ValuesAreHeld(held + s2.retry);
    StillWaitingConcat(held, s2.retry, s'.jobs);
    StillWaitingConcat(held, s.retry, s'.jobs);
  }

  lemma {:induction false} JobsOfPass(s: State, held: Queue, w: Item<JobId>, s2: State, s': State, now: int)
    requires s.retry != [] && w == s.retry[0] && w.priority >= -now && w.value in s.jobs
    requires s2.retry == s.retry[1..] && s2.jobs == s.jobs[w.value := s.jobs[w.value].AddEvent(Enqueue, now)]
    requires RetryPass(Whole(s2, held), s', now) && w.value in s'.jobs && s'.jobs[w.value] == s2.jobs[w.value]
    ensures forall id :: id in s.jobs ==> s'.jobs[id] == s.jobs[id] || RetriedNow(Whole(s, held), s', id, now)
  {
    var w0 := Whole(s, held);
    forall id | id in s.jobs && s'.jobs[id] != s.jobs[id] ensures RetriedNow(w0, s', id, now) {
      if id == w.value {
        assert w in w0.retry;
      } else {
        assert RetriedNow(Whole(s2, held), s', id, now);
        var x :| x in held + s2.retry && x.value == id && x.priority >= -now;
        assert x in w0.retry;
      }
    }
  }

  lemma {:induction false} PassThen(s: State, held: Queue, w: Item<JobId>, s2: State, s': State, now: int)
    requires Coherent(Whole(s, held)) && s.retry != [] && w == s.retry[0] && w.priority >= -now && w.value in s.jobs
    requires s2.retry == s.retry[1..] && s2.jobs == s.jobs[w.value := s.jobs[w.value].AddEvent(Enqueue, now)]
    requires s2.pending == s.pending && s2.delayed == s.delayed && Grown(s.locks, s2.locks)
    requires RetryPass(Whole(s2, held), s', now)
    ensures RetryPass(Whole(s, held), s', now)
  {
    RetriedStays(s, held, w, s2, s', now);
    JobsOfPass(s, held, w, s2, s', now);
    hide StillWaiting, RetriedNow, Coherent, JobBlocked;
  }

  /** AttemptJobRetries: what is left waiting is the queue without the retried jobs, in its
      order; what is due and left is blocked; and the scheduler is served. */
  lemma {:induction false} AttemptRetriesServes(cfg: Config, s: State, s': State, now: int)
    requires Good(cfg, s, now) && s' == AttemptRetries(s, now)
    ensures Served(cfg, s, s', now) && RetryPass(s, s', now)
  {
    hide Good, Served, RetryPass;
    assert [] + s.retry == s.retry;
    assert Whole(s, []) == s;
    AttemptServes(cfg, s, [], s', now);
  }

  // ---------- the delayed queue ----------

  lemma {:induction false} FirstIsDelayed(s: State)
    requires Coherent(s) && s.delayed != []
    ensures var id := s.delayed[0].value;
            && id in s.jobs && s.jobs[id].state == IsDelayed
            && Removed(s.delayed, id) == s.delayed[1..]
            && s.delayed[0].priority == -s.jobs[id].spec.startAfter
  {
    assert s.delayed[0].value in InState(s.jobs, IsDelayed);
    assert s.delayed[0] in s.delayed;
  }

  lemma {:induction false} ReleaseOne(cfg: Config, s: State, s1: State, s2: State, id: JobId, now: int)
    requires Inv(cfg, s) && PendingDue(s, now) && s.delayed != [] && id == s.delayed[0].value
    requires s.delayed[0].priority >= -now && id in s.jobs
    requires s1 == s.(delayed := s.delayed[1..]) && s2 == SetPending(s1, id, now)
    ensures Inv(cfg, s2) && PendingDue(s2, now) && KeepsHolding(s, s2) && Woken(s, s2)
    ensures s2.delayed == s.delayed[1..]
  {
    FirstIsDelayed(s);
    assert Resting(cfg.maxRetry, s.jobs[id]);
    hide SetPending, PendingDue, KeepsHolding, Woken;
    SetPendingKeeps(cfg, s, s1, s2, id, now);
    SetPendingEffect(s, s1, s2, id, now);
  }

  lemma {:induction false} ReleaseDueKeeps(cfg: Config, s: State, s': State, now: int)
    requires Inv(cfg, s) && PendingDue(s, now) && s' == ReleaseDue(s, now)
    ensures Inv(cfg, s') && PendingDue(s', now) && KeepsHolding(s, s') && Woken(s, s')
    ensures s'.delayed == [] || s'.delayed[0].priority < -now
    ensures |s'.delayed| <= |s.delayed| && (|s'.delayed| == |s.delayed| ==> s' == s)
    decreases |s.delayed|
  {
    if s.delayed == [] || s.delayed[0].priority < -now {
    } else {
      FirstIsDelayed(s);
      var id := s.delayed[0].value;
      var s1 := s.(delayed := s.delayed[1..]);
      var s2 := SetPending(s1, id, now);
      hide SetPending, Inv, PendingDue, KeepsHolding, Woken;
      ReleaseOne(cfg, s, s1, s2, id, now);
      ReleaseDueKeeps(cfg, s2, s', now);
      HoldsThen(s, s2, s');
      WokenThen(s, s2, s');
    }
  }

  /** CheckDelayedJobs. */
  lemma {:induction false} CheckDelayedServes(cfg: Config, s: State, s': State, now: int)
    requires Good(cfg, s, now) && s' == CheckDelayed(s, now)
    ensures Served(cfg, s, s', now)
  {
    var s1 := ReleaseDue(s, now);
    hide ReleaseDue, Admit, Inv, PendingDue, KeepsHolding, Woken, Conserving;
    ReleaseDueKeeps(cfg, s, s1, now);
    if |s1.delayed| == |s.delayed| {
    } else {
      ThenPassServes(cfg, s, s1, s', now);
    }
  }
}
