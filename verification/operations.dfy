/** Whole operations keep the invariants, work conservation and the locks, and wake the polls. */
module Operations {
  import opened Jobs
  import opened PullOrder
  import opened PriorityQueues
  import opened Resources
  import opened Metrics
  import opened Scheduler
  import opened Invariants
  import opened Moves
  import opened Admission

  /** Between two operations. */
  ghost predicate Good(cfg: Config, s: State, now: int) {
    Inv(cfg, s) && PendingDue(s, now) && Conserving(s)
  }

  /** A job was queued only together with a wake-up of the long polls. */
  ghost predicate Woken(s: State, s': State) {
    s.wake <= s'.wake && (s.wake == s'.wake ==> NothingNewQueued(s, s'))
  }

  ghost predicate NothingNewQueued(s: State, s': State) {
    forall id :: id in s'.queued && id in s'.jobs ==>
      id in s.queued && id in s.jobs && s.jobs[id].spec.topic == s'.jobs[id].spec.topic
  }

  /** Nobody lost a lock: if every queued or running job held its resources, it still does. */
  ghost predicate KeepsHolding(s: State, s': State) {
    Holding(s) ==> Holding(s')
  }

  /** What an operation of the scheduler keeps. */
  ghost predicate Served(cfg: Config, s: State, s': State, now: int) {
    Good(cfg, s', now) && KeepsHolding(s, s') && Woken(s, s')
  }

  // ---------- holding ----------

  lemma HoldingAfterQueued(s: State, s': State, id: JobId)
    requires id in s.jobs && !JobBlocked(s, id)
    requires id in s'.jobs && s'.jobs == s.jobs[id := s'.jobs[id]] && NeedsOf(s'.jobs[id]) == NeedsOf(s.jobs[id])
    requires s'.locks == Locked(s.locks, id, NeedsOf(s.jobs[id]))
    ensures KeepsHolding(s, s')
  {
    forall r | r in NeedsOf(s.jobs[id]) ensures r in s'.locks && s'.locks[r] == id {
    }
  }

  /** One job gave back its own locks, and holds nothing any more. */
  lemma HoldingAfterRelease(s: State, s': State, id: JobId)
    requires id in s.jobs && s'.locks == Released(s.locks, id, NeedsOf(s.jobs[id]))
    requires forall k :: k in s'.jobs && k != id ==> k in s.jobs && s'.jobs[k] == s.jobs[k]
    requires id in s'.jobs ==> !UsesLocks(s'.jobs[id].state)
    ensures KeepsHolding(s, s')
  {
  }

  /** No lock changed and no job began to need one. */
  lemma HoldingAfterStep(s: State, s': State, id: JobId)
    requires id in s.jobs && id in s'.jobs && s'.jobs == s.jobs[id := s'.jobs[id]] && s'.locks == s.locks
    requires UsesLocks(s'.jobs[id].state) ==> UsesLocks(s.jobs[id].state)
    requires NeedsOf(s'.jobs[id]) == NeedsOf(s.jobs[id])
    ensures KeepsHolding(s, s')
  {
  }

  lemma {:induction false} EnqueueHolds(s: State, s': State, id: JobId, now: int)
    requires id in s.jobs && s' == EnqueueJob(s, id, now)
    ensures KeepsHolding(s, s') && s'.jobs.Keys == s.jobs.Keys
  {
    if !TooEarly(s.jobs[id], now) && !JobBlocked(s, id) {
      HoldingAfterQueued(s, s', id);
    }
  }

  lemma {:induction false} EnqueueAllHolds(s: State, s': State, q: seq<Ticket>, now: int)
    requires s' == EnqueueAll(s, q, now)
    ensures KeepsHolding(s, s')
    decreases |q|
  {
    hide EnqueueJob, KeepsHolding;
    if q != [] {
      var s1 := if q[0].id in s.jobs then EnqueueJob(s, q[0].id, now) else s;
      if q[0].id in s.jobs {
        EnqueueHolds(s, s1, q[0].id, now);
      } else {
        SameHolds(s);
      }
      EnqueueAllHolds(s1, s', q[1..], now);
      HoldsThen(s, s1, s');
    } else {
      SameHolds(s);
    }
  }

  lemma SameHolds(s: State)
    ensures KeepsHolding(s, s)
  {
  }

  lemma HoldsThen(s: State, s1: State, s2: State)
    requires KeepsHolding(s, s1) && KeepsHolding(s1, s2)
    ensures KeepsHolding(s, s2)
  {
  }

  lemma WokenThen(s: State, s1: State, s2: State)
    requires Woken(s, s1) && Woken(s1, s2)
    ensures Woken(s, s2)
  {
  }

  // ---------- an operation that ends with a pass ----------

  lemma AdmittedWakes(s: State, s': State, now: int)
    requires Admitted(s, s', now)
    ensures Woken(s, s')
  {
  }

  /** A pass makes any coherent state with due pending jobs work-conserving. */
  lemma {:induction false} PassServes(cfg: Config, s: State, s': State, now: int)
    requires Inv(cfg, s) && PendingDue(s, now) && s' == Admit(s, now)
    ensures Served(cfg, s, s', now)
  {
    hide Inv, PendingDue, Conserving, KeepsHolding, Woken, Admitted, EnqueueAll;
    AdmitKeeps(cfg, s, s', now);
    EnqueueAllHolds(s, s', PassOrder(s), now);
    AdmittedWakes(s, s', now);
  }

  lemma {:induction false} ThenPassServes(cfg: Config, s: State, s1: State, s': State, now: int)
    requires Inv(cfg, s1) && PendingDue(s1, now) && KeepsHolding(s, s1) && Woken(s, s1) && s' == Admit(s1, now)
    ensures Served(cfg, s, s', now)
  {
    hide Inv, PendingDue, Conserving, KeepsHolding, Woken, Admit;
    PassServes(cfg, s1, s', now);
    HoldsThen(s, s1, s');
    WokenThen(s, s1, s');
  }

  /** Fewer pending jobs, none of them changed, and locks only taken: still conserving. */
  lemma StillConserving(s: State, s': State, now: int)
    requires Conserving(s) && PendingDue(s, now) && Grown(s.locks, s'.locks) && s.pending <= s.jobs.Keys
    requires s'.pending <= s.pending && forall k :: k in s'.pending && k in s'.jobs ==> s'.jobs[k] == s.jobs[k]
    ensures Conserving(s') && PendingDue(s', now)
  {
    forall k | k in s'.pending && k in s'.jobs ensures JobBlocked(s', k) && !TooEarly(s'.jobs[k], now) {
      StillBlocked(s.locks, s'.locks, k, NeedsOf(s.jobs[k]));
    }
  }

  /** Due stays due when no other job becomes pending. */
  lemma StillDue(s: State, s': State, now: int)
    requires PendingDue(s, now) && s.pending <= s.jobs.Keys
    requires s'.pending <= s.pending && forall k :: k in s'.pending && k in s'.jobs ==> s'.jobs[k] == s.jobs[k]
    ensures PendingDue(s', now)
  {
  }

  lemma LaterIsDue(cfg: Config, s: State, now: int, later: int)
    requires Good(cfg, s, now) && now <= later
    ensures Good(cfg, s, later)
  {
  }

  lemma PendingKnown(s: State)
    requires Coherent(s)
    ensures s.pending <= s.jobs.Keys
  {
  }

  // ---------- running jobs ----------

  lemma FinishWakes(s: State, s1: State, s2: State, id: JobId, now: int)
    requires id in s.jobs && s.jobs[id].state == IsRunning
    requires s1 == UnlockFor(s, id) && s2 == Record(s1, id, Success, now)
    ensures Woken(s, s2)
  {
  }

  lemma {:induction false} FinishEffect(s: State, s1: State, s2: State, id: JobId, now: int)
    requires Coherent(s) && PendingDue(s, now) && id in s.jobs && s.jobs[id].state == IsRunning
    requires s1 == UnlockFor(s, id) && s2 == Record(s1, id, Success, now)
    ensures PendingDue(s2, now) && KeepsHolding(s, s2) && Woken(s, s2)
  {
    PendingKnown(s);
    PendingIsKnown(s, id);
    UnlockForReleases(s, id);
    UnlockedFields(s, id);
    RecordFields(s1, id, Success, now);
    FinishWakes(s, s1, s2, id, now);
    hide Record, UnlockFor, Coherent, Released, NeedsOf, Woken;
    StillDue(s, s2, now);
    HoldingAfterRelease(s, s2, id);
  }

  /** SetJobAsSuccessful on a running job. */
  lemma {:induction false} FinishServes(cfg: Config, s: State, s1: State, s2: State, s': State, id: JobId, now: int)
    requires Good(cfg, s, now) && id in s.jobs && s.jobs[id].state == IsRunning
    requires s1 == UnlockFor(s, id) && s2 == Record(s1, id, Success, now) && s' == Admit(s2, now)
    ensures Served(cfg, s, s', now)
  {
    hide Served, Admit, Record, UnlockFor, KeepsHolding, Woken;
    FinishKeeps(cfg, s, s1, s2, id, now);
    FinishEffect(s, s1, s2, id, now);
    ThenPassServes(cfg, s, s2, s', now);
  }

  lemma {:induction false} RequeueEffect(s: State, s1: State, s': State, id: JobId, now: int)
    requires Coherent(s) && PendingDue(s, now) && id in s.jobs && s.jobs[id].state == IsRunning
    requires s1 == Record(s, id, Cancel, now) && s' == WakePolls(Record(s1, id, Enqueue, now))
    ensures PendingDue(s', now) && KeepsHolding(s, s') && Woken(s, s')
  {
    PendingKnown(s);
    PendingIsKnown(s, id);
    assert s'.jobs == s.jobs[id := s'.jobs[id]];
    StillDue(s, s', now);
    HoldingAfterStep(s, s', id);
  }

  /** CancelJob on a running job. */
  lemma {:induction false} RequeueServes(cfg: Config, s: State, s1: State, s2: State, s3: State, s': State, id: JobId, now: int)
    requires Good(cfg, s, now) && id in s.jobs && s.jobs[id].state == IsRunning
    requires s1 == Record(s, id, Cancel, now) && s2 == Record(s1, id, Enqueue, now) && s3 == WakePolls(s2)
    requires s' == Admit(s3, now)
    ensures Served(cfg, s, s', now)
  {
    hide Served, Admit, Record, WakePolls, KeepsHolding, Woken;
    RequeueKeeps(cfg, s, s1, s2, s3, id, now);
    RequeueEffect(s, s1, s3, id, now);
    ThenPassServes(cfg, s, s3, s', now);
  }

  /** The job that fails keeps its locks for the moment. */
  lemma {:induction false} FailEffect(s: State, s1: State, id: JobId, now: int)
    requires Coherent(s) && id in s.jobs && s.jobs[id].state == IsRunning && s1 == Record(s, id, Fail, now)
    ensures s1.pending == s.pending && s1.queued == s.queued && s1.locks == s.locks && s1.wake == s.wake
    ensures s1.jobs == s.jobs[id := s.jobs[id].AddEvent(Fail, now)]
    ensures s1.retry == s.retry && s1.delayed == s.delayed
    ensures (PendingDue(s, now) ==> PendingDue(s1, now)) && (Conserving(s) ==> Conserving(s1))
    ensures KeepsHolding(s, s1) && Woken(s, s1)
  {
    PendingIsKnown(s, id);
    HoldingAfterStep(s, s1, id);
  }

  lemma ClosedReleases(s: State, id: JobId, e: EventType, now: int)
    requires id in s.jobs
    ensures Closed(s, id, e, now).locks == Released(s.locks, id, NeedsOf(s.jobs[id]))
  {
    var s1 := AddHistoryEvent(s, id, e, now);
    UnlockForReleases(s1, id);
    hide Released, Freed, LocksNotified, Notified;
  }

  lemma ClosedWakes(s: State, s': State, id: JobId, e: EventType, now: int)
    requires id in s.jobs && s.jobs[id].state == IsRunning && (e == Terminate || e == EventType.Hide)
    requires s' == Closed(s, id, e, now)
    ensures Woken(s, s')
  {
  }

  lemma {:induction false} ClosedEffect(s: State, s': State, id: JobId, e: EventType, now: int)
    requires Coherent(s) && PendingDue(s, now) && id in s.jobs && s.jobs[id].state == IsRunning
    requires e == Terminate || e == EventType.Hide
    requires s' == Closed(s, id, e, now)
    ensures PendingDue(s', now) && KeepsHolding(s, s') && Woken(s, s')
    ensures s'.pending == s.pending && s'.queued == s.queued && s'.retry == s.retry && s'.delayed == s.delayed
    ensures s'.jobs == s.jobs[id := s.jobs[id].AddEvent(e, now)]
  {
    PendingKnown(s);
    PendingIsKnown(s, id);
    ClosedReleases(s, id, e, now);
    ClosedFields(s, id, e, now);
    ClosedWakes(s, s', id, e, now);
    hide Closed, Coherent, Released, NeedsOf, Woken;
    StillDue(s, s', now);
    HoldingAfterRelease(s, s', id);
  }

  lemma {:induction false} QueuedEffect(s: State, s': State, id: JobId, now: int)
    requires Coherent(s) && PendingDue(s, now) && Conserving(s) && id in s.jobs && s.jobs[id].state != IsPending
    requires !JobBlocked(s, id) && s' == Queued(s, id, now)
    ensures PendingDue(s', now) && Conserving(s') && KeepsHolding(s, s') && Woken(s, s')
  {
    PendingKnown(s);
    PendingIsKnown(s, id);
    StillConserving(s, s', now);
    HoldingAfterQueued(s, s', id);
  }

  /** A job that failed too often. */
  lemma {:induction false} GiveUpServes(cfg: Config, s: State, s1: State, s': State, id: JobId, now: int)
    requires Almost(cfg, s, id) && Last(s.jobs[id]) == Fail && s.jobs[id].state == IsRunning
    requires s.jobs[id].Failures() == FailureLimit(cfg.maxRetry) && PendingDue(s, now)
    requires s1 == GiveUp(s, id, now) && s' == Admit(s1, now)
    ensures Served(cfg, s, s', now)
  {
    hide Served, Admit, KeepsHolding, Woken, Notify, UnlockFor, AddHistoryEvent, Inv;
    GiveUpKeeps(cfg, s, s1, id, now);
    ClosedEffect(s, s1, id, Terminate, now);
    ThenPassServes(cfg, s, s1, s', now);
  }

  lemma {:induction false} HideEffect(s: State, s1: State, s2: State, id: JobId, retryAt: int, now: int)
    requires Coherent(s) && PendingDue(s, now) && id in s.jobs && s.jobs[id].state == IsRunning
    requires s1 == Closed(s, id, EventType.Hide, now)
    requires s2 == s1.(retry := Inserted(s1.retry, Item(id, -retryAt)))
    ensures PendingDue(s2, now) && KeepsHolding(s, s2) && Woken(s, s2)
  {
    ClosedEffect(s, s1, id, EventType.Hide, now);
  }

  /** A job that waits for its retry. */
  lemma {:induction false} HideServes(cfg: Config, s: State, s1: State, s': State, id: JobId, retryAt: int, now: int)
    requires Almost(cfg, s, id) && Last(s.jobs[id]) == Fail && s.jobs[id].state == IsRunning
    requires s.jobs[id].Failures() < FailureLimit(cfg.maxRetry) && PendingDue(s, now)
    requires s1 == Scheduler.Hide(s, id, retryAt, now) && s' == Admit(s1, now)
    ensures Served(cfg, s, s', now)
  {
    hide Served, Admit, KeepsHolding, Woken, Notify, UnlockFor, AddHistoryEvent, Inv;
    HideKeeps(cfg, s, Closed(s, id, EventType.Hide, now), s1, id, retryAt, now);
    HideEffect(s, Closed(s, id, EventType.Hide, now), s1, id, retryAt, now);
    ThenPassServes(cfg, s, s1, s', now);
  }

  /** A job retried at once. */
  lemma {:induction false} RetryNowServes(cfg: Config, s: State, s': State, id: JobId, now: int)
    requires Almost(cfg, s, id) && Last(s.jobs[id]) == Fail && s.jobs[id].state == IsRunning
    requires s.jobs[id].Failures() < FailureLimit(cfg.maxRetry)
    requires PendingDue(s, now) && Conserving(s) && !JobBlocked(s, id) && s' == MakeQueued(s, id, now)
    ensures Served(cfg, s, s', now)
  {
    hide KeepsHolding, Woken, PendingDue, Conserving;
    RunningIsNowhere(s, id);
    assert s' == Queued(s, id, now);
    hide Inv, MakeQueued;
    QueuedKeeps(cfg, s, s', id, now);
    QueuedEffect(s, s', id, now);
  }

  lemma ServedAfter(cfg: Config, s: State, s1: State, s': State, now: int)
    requires KeepsHolding(s, s1) && Woken(s, s1) && Served(cfg, s1, s', now)
    ensures Served(cfg, s, s', now)
  {
    hide Good, KeepsHolding, Woken;
    HoldsThen(s, s1, s');
    WokenThen(s, s1, s');
  }

  /** FailJob on a running job. */
  lemma {:induction false} FailServes(cfg: Config, s: State, s1: State, s': State, id: JobId, now: int)
    requires Good(cfg, s, now) && id in s.jobs && s.jobs[id].state == IsRunning
    requires s1 == Record(s, id, Fail, now) && s' == FailRunning(cfg, s, id, now)
    ensures Served(cfg, s, s', now)
  {
    hide Served, KeepsHolding, Woken, Record, Conserving, PendingDue, Admit, GiveUp, Scheduler.Hide, MakeQueued;
    hide Almost, Coherent, Owned, AllResting, Counted;
    FailKeeps(cfg, s, s1, id, now);
    FailEffect(s, s1, id, now);
    FailedServes(cfg, s1, s', id, now);
    ServedAfter(cfg, s, s1, s', now);
  }

  lemma {:induction false} FailedServes(cfg: Config, s: State, s': State, id: JobId, now: int)
    requires id in s.jobs && Almost(cfg, s, id) && Last(s.jobs[id]) == Fail && s.jobs[id].state == IsRunning
    requires 0 < s.jobs[id].Failures() <= FailureLimit(cfg.maxRetry)
    requires PendingDue(s, now) && Conserving(s)
    requires s' == Failed(cfg, s, id, now)
    ensures Served(cfg, s, s', now)
  {
    hide Served, Almost, PendingDue, Conserving, Admit, MakeQueued, Scheduler.Hide, GiveUp;
    var failures := s.jobs[id].Failures();
    if failures >= cfg.maxRetry {
      GiveUpServes(cfg, s, GiveUp(s, id, now), s', id, now);
    } else if cfg.backoff(failures) == 0 && !JobBlocked(s, id) {
      RetryNowServes(cfg, s, s', id, now);
    } else {
      var retryAt := now + cfg.backoff(failures) / 1_000_000;
      HideServes(cfg, s, Scheduler.Hide(s, id, retryAt, now), s', id, retryAt, now);
    }
  }

  // ---------- starting ----------

  lemma {:induction false} StartEffect(s: State, s': State, id: JobId, timeout: nat, now: int)
    requires Coherent(s) && PendingDue(s, now) && Conserving(s) && id in s.jobs && s.jobs[id].state == IsQueued
    requires s' == StartJob(s, id, timeout, now)
    ensures PendingDue(s', now) && Conserving(s') && KeepsHolding(s, s') && Woken(s, s')
  {
    PendingKnown(s);
    PendingIsKnown(s, id);
    assert s'.jobs == s.jobs[id := s'.jobs[id]];
    StillConserving(s, s', now);
    HoldingAfterStep(s, s', id);
  }

  lemma {:induction false} StartServes(cfg: Config, s: State, s': State, id: JobId, timeout: nat, now: int)
    requires Good(cfg, s, now) && id in s.jobs && s' == StartJob(s, id, timeout, now)
    ensures Served(cfg, s, s', now)
  {
    if s.jobs[id].state == IsQueued {
      hide StartJob, PendingDue, Conserving, KeepsHolding, Woken;
      StartKeeps(cfg, s, s', id, timeout, now);
      StartEffect(s, s', id, timeout, now);
    } else {
      ServedNothing(cfg, s, now);
    }
  }

  lemma ServedNothing(cfg: Config, s: State, now: int)
    requires Good(cfg, s, now)
    ensures Served(cfg, s, s, now)
  {
  }

  lemma ServedThen(cfg: Config, s: State, s1: State, s2: State, now: int)
    requires Served(cfg, s, s1, now) && Served(cfg, s1, s2, now)
    ensures Served(cfg, s, s2, now)
  {
    hide Good, KeepsHolding, Woken;
    HoldsThen(s, s1, s2);
    WokenThen(s, s1, s2);
  }

  lemma {:induction false} StartAllServes(cfg: Config, s: State, s': State, q: seq<Ticket>, timeout: nat, now: int)
    requires Good(cfg, s, now) && s' == StartAll(s, q, timeout, now)
    ensures Served(cfg, s, s', now)
    decreases |q|
  {
    if q == [] {
      ServedNothing(cfg, s, now);
    } else {
      hide StartJob, Good;
      var s1 := if q[0].id in s.jobs then StartJob(s, q[0].id, timeout, now) else s;
      if q[0].id in s.jobs {
        StartServes(cfg, s, s1, q[0].id, timeout, now);
      } else {
        ServedNothing(cfg, s, now);
      }
      StartAllServes(cfg, s1, s', q[1..], timeout, now);
      ServedThen(cfg, s, s1, s', now);
    }
  }

  // ---------- creating ----------

  lemma {:induction false} BornEffect(cfg: Config, s: State, s1: State, id: JobId, spec: JobSpec, now: int)
    requires Coherent(s) && Owned(s) && PendingDue(s, now) && id !in s.jobs && s1 == Born(cfg, s, id, spec, now)
    ensures PendingDue(s1, now) && KeepsHolding(s, s1) && Woken(s, s1)
  {
    PendingIsKnown(s, id);
  }

  lemma {:induction false} SetPendingEffect(s: State, s1: State, s': State, id: JobId, now: int)
    requires Coherent(s) && PendingDue(s, now) && id in s.jobs && !TooEarly(s.jobs[id], now)
    requires s.jobs[id].state == IsCreated || s.jobs[id].state == IsDelayed
    requires s1 == s.(delayed := Removed(s.delayed, id)) && s' == SetPending(s1, id, now)
    ensures PendingDue(s', now) && KeepsHolding(s, s') && Woken(s, s')
    ensures s'.delayed == s1.delayed && s'.jobs == s.jobs[id := s.jobs[id].AddEvent(Pending, now)]
  {
    HoldingAfterStep(s, s', id);
  }

  lemma {:induction false} SetDelayedEffect(s: State, s': State, id: JobId, now: int)
    requires Coherent(s) && PendingDue(s, now) && id in s.jobs && s.jobs[id].state == IsCreated
    requires s' == SetDelayed(s, id, now)
    ensures PendingDue(s', now) && KeepsHolding(s, s') && Woken(s, s')
  {
    PendingIsKnown(s, id);
    HoldingAfterStep(s, s', id);
  }

  lemma {:induction false} ScheduleKeeps(cfg: Config, s: State, s': State, id: JobId, now: int)
    requires Almost(cfg, s, id) && Last(s.jobs[id]) == Create && s.jobs[id].Failures() == 0
    requires PendingDue(s, now) && s' == Schedule(s, id, now)
    ensures Inv(cfg, s') && PendingDue(s', now) && KeepsHolding(s, s') && Woken(s, s')
  {
    hide Inv, PendingDue, KeepsHolding, Woken, SetDelayed, SetPending;
    if TooEarly(s.jobs[id], now) {
      SetDelayedKeeps(cfg, s, s', id, now);
      SetDelayedEffect(s, s', id, now);
    } else {
      RemovedAbsent(s.delayed, id);
      SetPendingKeeps(cfg, s, s, s', id, now);
      SetPendingEffect(s, s, s', id, now);
    }
  }

  /** CreateJob and CloneJob, with a fresh id. */
  lemma {:induction false} CreateServes(cfg: Config, s: State, s': State, id: JobId, spec: JobSpec, now: int)
    requires Good(cfg, s, now) && id !in s.jobs && s' == CreateJob(cfg, s, id, spec, now)
    ensures Served(cfg, s, s', now)
  {
    if Refused(cfg, s) {
      ServedNothing(cfg, s, now);
    } else {
      var s1 := Born(cfg, s, id, spec, now);
      var s2 := Schedule(s1, id, now);
      hide Born, Schedule, Admit, PendingDue, KeepsHolding, Woken, Served, Conserving, Almost;
      hide Owned, AllResting, Counted, Coherent;
      BornKeeps(cfg, s, s1, id, spec, now);
      BornEffect(cfg, s, s1, id, spec, now);
      ScheduleKeeps(cfg, s1, s2, id, now);
      HoldsThen(s, s1, s2);
      WokenThen(s, s1, s2);
      ThenPassServes(cfg, s, s2, s', now);
    }
  }

  // ---------- deleting ----------

  lemma {:induction false} RemoveEffect(s: State, s1: State, s2: State, id: JobId, now: int)
    requires Coherent(s) && PendingDue(s, now) && id in s.jobs
    requires s1 == UnlockFor(s, id) && s2 == Remove(s, id, now)
    ensures PendingDue(s2, now) && KeepsHolding(s, s2) && Woken(s, s2)
  {
    hide Remove;
    RemoveFields(s, s1, s2, id, now);
    PendingKnown(s);
    UnlockForReleases(s, id);
    StillDue(s, s2, now);
    HoldingAfterRelease(s, s2, id);
  }

  /** DeleteJob. */
  lemma {:induction false} DeleteServes(cfg: Config, s: State, s': State, id: JobId, now: int)
    requires Good(cfg, s, now) && s' == DeleteJob(s, id, now)
    ensures Served(cfg, s, s', now)
  {
    if id in s.jobs {
      var s1 := UnlockFor(s, id);
      var s2 := Remove(s, id, now);
      hide UnlockFor, Remove, Admit, PendingDue, KeepsHolding, Woken, Served, Conserving, Owned, AllResting, Counted;
      RemoveKeeps(cfg, s, s1, s2, id, now);
      RemoveEffect(s, s1, s2, id, now);
      ThenPassServes(cfg, s, s2, s', now);
    } else {
      ServedNothing(cfg, s, now);
    }
  }

  /** DeleteQueuedJobs deletes one job after the other. */
  lemma {:induction false} DeleteEachServes(cfg: Config, s: State, s': State, ids: seq<JobId>, now: int)
    requires Good(cfg, s, now) && s' == DeleteEach(s, ids, now)
    ensures Served(cfg, s, s', now)
    decreases |ids|
  {
    if ids == [] {
      ServedNothing(cfg, s, now);
    } else {
      hide Good, DeleteJob;
      var s1 := DeleteJob(s, ids[0], now);
      DeleteServes(cfg, s, s1, ids[0], now);
      DeleteEachServes(cfg, s1, s', ids[1..], now);
      ServedThen(cfg, s, s1, s', now);
    }
  }

  /** The retention check deletes one job after the other. */
  lemma {:induction false} RetainServes(
    cfg: Config, s: State, s': State, order: seq<JobId>, excess: nat, deleted: nat, now: int)
    requires Good(cfg, s, now) && s' == Retain(cfg, s, order, excess, deleted, now)
    ensures Served(cfg, s, s', now)
    decreases |order|
  {
    if order == [] {
      ServedNothing(cfg, s, now);
    } else {
      hide Good, DeleteJob;
      if order[0] in s.jobs && (deleted < excess || now - s.jobs[order[0]].LastUpdate() >= AgeLimit(cfg)) {
        var s1 := DeleteJob(s, order[0], now);
        DeleteServes(cfg, s, s1, order[0], now);
        RetainServes(cfg, s1, s', order[1..], excess, deleted + 1, now);
        ServedThen(cfg, s, s1, s', now);
      } else {
        RetainServes(cfg, s, s', order[1..], excess, deleted, now);
      }
    }
  }

  // ---------- timeouts ----------

  lemma {:induction false} FailAllServes(cfg: Config, s: State, s': State, ids: seq<JobId>, now: int)
    requires Good(cfg, s, now) && s' == FailAll(cfg, s, ids, now)
    ensures Served(cfg, s, s', now)
    decreases |ids|
  {
    if ids == [] {
      ServedNothing(cfg, s, now);
    } else {
      hide Good, FailRunning;
      var s1 := FailJob(cfg, s, ids[0], now);
      if ids[0] in s.jobs && s.jobs[ids[0]].state == IsRunning {
        FailServes(cfg, s, Record(s, ids[0], Fail, now), s1, ids[0], now);
      } else {
        ServedNothing(cfg, s, now);
      }
      FailAllServes(cfg, s1, s', ids[1..], now);
      ServedThen(cfg, s, s1, s', now);
    }
  }

  lemma {:induction false} TimeoutsServe(cfg: Config, s: State, s': State, now: int)
    requires Good(cfg, s, now) && s' == CheckTimeouts(cfg, s, now)
    ensures Served(cfg, s, s', now)
  {
    var ids := SortedIds(TimedOutJobs(s, now));
    if ids == [] {
      ServedNothing(cfg, s, now);
    } else {
      var s1 := FailAll(cfg, s, ids, now);
      hide FailAll, Admit, Inv, PendingDue, Conserving;
      FailAllServes(cfg, s, s1, ids, now);
      PassServes(cfg, s1, s', now);
      ServedThen(cfg, s, s1, s', now);
    }
  }
}
