/** What single operations of the scheduler do, job by job. */
module Effects {
  import opened Jobs
  import opened Ordering
  import opened PullOrder
  import opened PriorityQueues
  import opened Resources
  import opened Metrics
  import opened Scheduler
  import opened Invariants
  import opened Moves
  import opened Admission
  import opened Operations
  import opened Runs
  import opened Guarantees
  import opened Exact
  import opened Restart

  /** Job `id` became `j`, perhaps admitted at once; the others were left alone or admitted. */
  ghost predicate Became(s: State, s': State, id: JobId, j: JobValue, now: int) {
    && s'.jobs.Keys == s.jobs.Keys + {id}
    && SameOrAdmitted(j, s'.jobs[id], now)
    && forall k :: k in s.jobs && k != id ==> SameOrAdmitted(s.jobs[k], s'.jobs[k], now)
  }

  lemma {:induction false} ChangeThenPass(s: State, s1: State, s': State, id: JobId, j: JobValue, now: int)
    requires s1.jobs == s.jobs[id := j] && Shrunk(s1, s', {}, now)
    ensures Became(s, s', id, j, now)
  {
    hide SameOrAdmitted, LocksOfOthersKept;
  }

  // ---------- creation ----------

  lemma ScheduleJobs(cfg: Config, s: State, id: JobId, spec: JobSpec, now: int)
    ensures var s1 := Born(cfg, s, id, spec, now);
            Schedule(s1, id, now).jobs == s.jobs[id := Scheduled(NewJob(id, spec, now), now)]
  {
    hide Notified;
  }

  lemma ScheduleGivesInv(cfg: Config, s: State, s1: State, s2: State, id: JobId, spec: JobSpec, now: int)
    requires Good(cfg, s, now) && id !in s.jobs && !Refused(cfg, s)
    requires s1 == Born(cfg, s, id, spec, now) && s2 == Schedule(s1, id, now)
    ensures Inv(cfg, s2)
  {
    BornEffect(cfg, s, s1, id, spec, now);
    hide Born, Schedule, PendingDue, KeepsHolding, Woken, Refused, Coherent, Owned, AllResting, Counted, Almost;
    BornKeeps(cfg, s, s1, id, spec, now);
    ScheduleKeeps(cfg, s1, s2, id, now);
  }

  /** Creation is exact: when the limits allow it there is one job more, with what the client asked
      for, delayed if it starts later and else pending or queued. */
  lemma {:induction false} CreateIsExact(cfg: Config, s: State, s': State, id: JobId, spec: JobSpec, now: int)
    requires Good(cfg, s, now) && id !in s.jobs && s' == CreateJob(cfg, s, id, spec, now)
    ensures Refused(cfg, s) ==> s' == s
    ensures !Refused(cfg, s) ==> Became(s, s', id, Scheduled(NewJob(id, spec, now), now), now)
  {
    if !Refused(cfg, s) {
      var s1 := Born(cfg, s, id, spec, now);
      var s2 := Schedule(s1, id, now);
      ScheduleJobs(cfg, s, id, spec, now);
      hide Became, Scheduled, Inv, PendingDue, Conserving, Admit, KeepsHolding, Woken;
      ScheduleGivesInv(cfg, s, s1, s2, id, spec, now);
      hide Born, Schedule, Good, Refused;
      PassIsShrunk(cfg, s2, s', now);
      ChangeThenPass(s, s2, s', id, Scheduled(NewJob(id, spec, now), now), now);
    }
  }

  // ---------- the end of a run of a job ----------

  lemma FinishJobs(s: State, id: JobId, now: int)
    requires id in s.jobs
    ensures Finish(s, id, now).jobs == s.jobs[id := s.jobs[id].AddEvent(Success, now)]
    ensures Finish(s, id, now).locks == Released(s.locks, id, NeedsOf(s.jobs[id]))
  {
    UnlockedFields(s, id);
    UnlockForReleases(s, id);
    RecordFields(UnlockFor(s, id), id, Success, now);
    hide UnlockFor, Record, Released, NeedsOf;
  }

  /** The locks that go with a pass: none is lost, and each new one is of a job just admitted. */
  ghost predicate OnlyAdmittedLock(locks: LockTable, pending: set<JobId>, s': State) {
    && (forall r :: r in locks ==> r in s'.locks && s'.locks[r] == locks[r])
    && forall r :: r in s'.locks && r !in locks ==> s'.locks[r] in pending && s'.locks[r] !in s'.pending
  }

  /** An admission pass, job by job and lock by lock. */
  lemma {:induction false} PassEffect(cfg: Config, s: State, s': State, now: int)
    requires Inv(cfg, s) && s' == Admit(s, now)
    ensures Shrunk(s, s', {}, now) && OnlyAdmittedLock(s.locks, s.pending, s')
  {
    hide Shrunk, Inv, Admit;
    PassIsShrunk(cfg, s, s', now);
    AdmitKeeps(cfg, s, s', now);
  }

  lemma ShrunkByNone(jobs: map<JobId, JobValue>, s1: State, s': State, now: int)
    requires s1.jobs == jobs && Shrunk(s1, s', {}, now)
    ensures s'.jobs.Keys == jobs.Keys && forall k :: k in jobs ==> SameOrAdmitted(jobs[k], s'.jobs[k], now)
  {
  }

  /** Success is exact: the job succeeded, and what it held is free or went to jobs just admitted. */
  lemma {:induction false} FinishIsExact(cfg: Config, s: State, s': State, id: JobId, now: int)
    requires Inv(cfg, s) && id in s.jobs && s.jobs[id].state == IsRunning && s' == Admit(Finish(s, id, now), now)
    ensures Became(s, s', id, s.jobs[id].AddEvent(Success, now), now)
    ensures OnlyAdmittedLock(Released(s.locks, id, NeedsOf(s.jobs[id])), s.pending, s')
  {
    hide Inv, Admit, Became, Released, NeedsOf, Shrunk, OnlyAdmittedLock, UnlockFor, Record;
    var s1 := UnlockFor(s, id);
    UnlockedFields(s, id);
    var s2 := Record(s1, id, Success, now);
    FinishJobs(s, id, now);
    FinishPending(s, id, now);
    FinishKeeps(cfg, s, s1, s2, id, now);
    PassEffect(cfg, s2, s', now);
    ChangeThenPass(s, s2, s', id, s.jobs[id].AddEvent(Success, now), now);
  }

  lemma FinishPending(s: State, id: JobId, now: int)
    requires id in s.jobs
    ensures Finish(s, id, now).pending == s.pending
  {
    UnlockedFields(s, id);
    RecordFields(UnlockFor(s, id), id, Success, now);
    hide UnlockFor, Record;
  }

  /** Cancelling is exact: the job is back in the queue and keeps its locks. */
  lemma {:induction false} CancelIsExact(cfg: Config, s: State, s': State, id: JobId, now: int)
    requires Inv(cfg, s) && id in s.jobs && s.jobs[id].state == IsRunning && s' == Admit(Requeue(s, id, now), now)
    ensures Became(s, s', id, s.jobs[id].AddEvent(Cancel, now).AddEvent(Enqueue, now), now)
    ensures OnlyAdmittedLock(s.locks, s.pending, s')
  {
    hide Inv, Admit, Became, Shrunk, OnlyAdmittedLock, Record;
    var s1 := Record(s, id, Cancel, now);
    RecordFields(s, id, Cancel, now);
    var s2 := Record(s1, id, Enqueue, now);
    var s3 := WakePolls(s2);
    RecordFields(s1, id, Enqueue, now);
    RequeueKeeps(cfg, s, s1, s2, s3, id, now);
    PassEffect(cfg, s3, s', now);
    ChangeThenPass(s, s3, s', id, s.jobs[id].AddEvent(Cancel, now).AddEvent(Enqueue, now), now);
  }

  // ---------- a failure ----------

  /** What follows a failure: the end when the failures are used up, a retry at once when there is no delay
      and nothing blocks the job, or else a later retry. */
  ghost function AfterFail(cfg: Config, s: State, id: JobId): EventType
    requires id in s.jobs
  {
    var failures := s.jobs[id].Failures() + 1;
    if failures >= cfg.maxRetry then Terminate
    else if cfg.backoff(failures) == 0 && !JobBlocked(s, id) then Enqueue
    else EventType.Hide
  }

  ghost function FailedJob(j: JobValue, e: EventType, now: int): JobValue {
    j.AddEvent(Fail, now).AddEvent(e, now)
  }

  /** The state between the failure and what follows it. */
  ghost predicate JustFailed(cfg: Config, s: State, s1: State, id: JobId, now: int) {
    && id in s.jobs && id in s1.jobs && Almost(cfg, s1, id)
    && Last(s1.jobs[id]) == Fail && s1.jobs[id].state == IsRunning
    && s1.jobs == s.jobs[id := s.jobs[id].AddEvent(Fail, now)]
    && s1.locks == s.locks && s1.pending == s.pending && s1.retry == s.retry
    && s1.jobs[id].Failures() == s.jobs[id].Failures() + 1 <= FailureLimit(cfg.maxRetry)
  }

  lemma {:induction false} FailureIsRecorded(cfg: Config, s: State, s1: State, id: JobId, now: int)
    requires Inv(cfg, s) && id in s.jobs && s.jobs[id].state == IsRunning && s1 == Record(s, id, Fail, now)
    ensures JustFailed(cfg, s, s1, id, now) && (JobBlocked(s1, id) <==> JobBlocked(s, id))
  {
    hide Record, Almost, AllResting, Counted, Owned;
    FailKeeps(cfg, s, s1, id, now);
    FailEffect(s, s1, id, now);
    RunningFails(cfg, s, id, now);
  }

  lemma ClosedPending(s: State, id: JobId, e: EventType, now: int)
    requires id in s.jobs && (e == Terminate || e == EventType.Hide)
    ensures var s' := Closed(s, id, e, now);
            && s'.pending == s.pending && s'.jobs == s.jobs[id := s.jobs[id].AddEvent(e, now)]
            && s'.locks == Released(s.locks, id, NeedsOf(s.jobs[id])) && s'.retry == s.retry
  {
    ClosedFields(s, id, e, now);
    ClosedReleases(s, id, e, now);
    hide Closed, Released, NeedsOf;
  }

  /** The failed job got the event `e`. Retried at once it takes what it lists and nothing else changes;
      otherwise what it held is free or went to jobs just admitted, and a hidden job waits for its retry. */
  ghost predicate Decided(cfg: Config, s: State, s': State, id: JobId, e: EventType, now: int)
    requires id in s.jobs
  {
    var j := s.jobs[id];
    && Became(s, s', id, FailedJob(j, e, now), now)
    && (e == Enqueue ==>
          s'.jobs == s.jobs[id := FailedJob(j, e, now)] && s'.locks == Locked(s.locks, id, NeedsOf(j)))
    && (e != Enqueue ==> OnlyAdmittedLock(Released(s.locks, id, NeedsOf(j)), s.pending, s'))
    && (e == EventType.Hide ==>
          s'.retry == Inserted(s.retry, Item(id, -(now + cfg.backoff(j.Failures() + 1) / 1_000_000))))
  }

  lemma {:induction false} FailThenGiveUp(cfg: Config, s: State, s1: State, s2: State, s': State, id: JobId, now: int)
    requires JustFailed(cfg, s, s1, id, now) && s1.jobs[id].Failures() >= cfg.maxRetry
    requires s2 == Closed(s1, id, Terminate, now) && s' == Admit(s2, now)
    ensures Decided(cfg, s, s', id, Terminate, now)
  {
    hide Inv, Admit, Became, Shrunk, OnlyAdmittedLock, Closed, Released, Almost;
    ClosedPending(s1, id, Terminate, now);
    GiveUpKeeps(cfg, s1, s2, id, now);
    PassEffect(cfg, s2, s', now);
    ChangeThenPass(s, s2, s', id, FailedJob(s.jobs[id], Terminate, now), now);
  }

  lemma {:induction false} FailThenHide(
    cfg: Config, s: State, s1: State, s2: State, s3: State, s': State, id: JobId, now: int)
    requires JustFailed(cfg, s, s1, id, now) && s1.jobs[id].Failures() < FailureLimit(cfg.maxRetry)
    requires s2 == Closed(s1, id, EventType.Hide, now) && s' == Admit(s3, now)
    requires var retryAt := now + cfg.backoff(s1.jobs[id].Failures()) / 1_000_000;
             s3 == s2.(retry := Inserted(s2.retry, Item(id, -retryAt)))
    ensures Decided(cfg, s, s', id, EventType.Hide, now)
  {
    hide Inv, Admit, Became, Shrunk, OnlyAdmittedLock, Closed, Released, Inserted, Almost;
    ClosedPending(s1, id, EventType.Hide, now);
    HideKeeps(cfg, s1, s2, s3, id, now + cfg.backoff(s1.jobs[id].Failures()) / 1_000_000, now);
    PassEffect(cfg, s3, s', now);
    AdmitKeeps(cfg, s3, s', now);
    ChangeThenPass(s, s3, s', id, FailedJob(s.jobs[id], EventType.Hide, now), now);
  }

  lemma {:induction false} FailThenQueue(cfg: Config, s: State, s1: State, s': State, id: JobId, now: int)
    requires JustFailed(cfg, s, s1, id, now) && s' == MakeQueued(s1, id, now)
    ensures Decided(cfg, s, s', id, Enqueue, now)
  {
    hide Almost, Notified, LocksNotified, Locked;
  }

  lemma {:induction false} WhatFollows(cfg: Config, s: State, s1: State, s': State, id: JobId, now: int)
    requires JustFailed(cfg, s, s1, id, now) && (JobBlocked(s1, id) <==> JobBlocked(s, id))
    requires s' == Failed(cfg, s1, id, now)
    ensures Decided(cfg, s, s', id, AfterFail(cfg, s, id), now)
  {
    hide Admit, Decided, Notify, UnlockFor, AddHistoryEvent, MakeQueued, JobBlocked, Almost;
    var failures := s1.jobs[id].Failures();
    if failures >= cfg.maxRetry {
      FailThenGiveUp(cfg, s, s1, GiveUp(s1, id, now), s', id, now);
    } else if cfg.backoff(failures) == 0 && !JobBlocked(s1, id) {
      FailThenQueue(cfg, s, s1, s', id, now);
    } else {
      var retryAt := now + cfg.backoff(failures) / 1_000_000;
      FailThenHide(cfg, s, s1, Closed(s1, id, EventType.Hide, now), Scheduler.Hide(s1, id, retryAt, now), s', id, now);
    }
  }

  /** A failure decides exactly: the job gets the event that its failures, its delay and the locks call
      for, with what this event entails. */
  lemma {:induction false} FailDecides(cfg: Config, s: State, s': State, id: JobId, now: int)
    requires Inv(cfg, s) && id in s.jobs && s.jobs[id].state == IsRunning && s' == FailRunning(cfg, s, id, now)
    ensures Decided(cfg, s, s', id, AfterFail(cfg, s, id), now)
  {
    var s1 := Record(s, id, Fail, now);
    hide Inv, Record, Failed, Decided, JobBlocked, JustFailed, AfterFail;
    FailureIsRecorded(cfg, s, s1, id, now);
    WhatFollows(cfg, s, s1, s', id, now);
  }

  // ---------- administration ----------

  /** After the release of every lock, the only locks are those of jobs it let in. */
  lemma {:induction false} UnlockAllIsExact(cfg: Config, s: State, s': State, now: int)
    requires Inv(cfg, s) && PendingDue(s, now) && s' == UnlockAll(s, now)
    ensures s'.jobs.Keys == s.jobs.Keys && forall k :: k in s.jobs ==> SameOrAdmitted(s.jobs[k], s'.jobs[k], now)
    ensures OnlyAdmittedLock(map[], s.pending, s')
  {
    hide Inv, Admit, PendingDue, Shrunk, OnlyAdmittedLock, SameOrAdmitted;
    var s1 := AllReleased(s);
    AllReleasedKeeps(cfg, s, s1, now);
    PassEffect(cfg, s1, s', now);
    ShrunkByNone(s.jobs, s1, s', now);
  }

  /** After the release of one lock, the other locks are as before, and the released resource is free or
      went to a job just admitted. */
  lemma {:induction false} UnlockOneIsExact(cfg: Config, s: State, s': State, r: Resource, now: int)
    requires Inv(cfg, s) && PendingDue(s, now) && r in s.locks && s' == UnlockOne(s, r, now)
    ensures s'.jobs.Keys == s.jobs.Keys && forall k :: k in s.jobs ==> SameOrAdmitted(s.jobs[k], s'.jobs[k], now)
    ensures OnlyAdmittedLock(s.locks - {r}, s.pending, s')
  {
    hide Inv, Admit, PendingDue, Shrunk, OnlyAdmittedLock, SameOrAdmitted;
    var s1 := OneReleased(s, r);
    OneReleasedKeeps(cfg, s, s1, r, now);
    PassEffect(cfg, s1, s', now);
    ShrunkByNone(s.jobs, s1, s', now);
  }

  /** Deletion is exact: the job is gone, the others were left alone or admitted, and what the job held is
      free or went to jobs just admitted. */
  lemma {:induction false} DeleteIsExact(cfg: Config, s: State, s': State, id: JobId, now: int)
    requires Good(cfg, s, now) && s' == DeleteJob(s, id, now)
    ensures s'.jobs.Keys == s.jobs.Keys - {id}
    ensures forall k :: k in s'.jobs ==> SameOrAdmitted(s.jobs[k], s'.jobs[k], now)
    ensures if id in s.jobs then OnlyAdmittedLock(Released(s.locks, id, NeedsOf(s.jobs[id])), s.pending - {id}, s')
            else s' == s
  {
    hide Inv, PendingDue, Conserving, SameOrAdmitted, LocksOfOthersKept, Remove, Admit, OnlyAdmittedLock, Released;
    DeleteIsShrunk(cfg, s, s', id, now);
    if id in s.jobs {
      var s1 := UnlockFor(s, id);
      var s2 := Remove(s, id, now);
      RemoveKeeps(cfg, s, s1, s2, id, now);
      RemoveFields(s, s1, s2, id, now);
      UnlockForReleases(s, id);
      hide UnlockFor, Good;
      PassEffect(cfg, s2, s', now);
    }
  }

  // ---------- a job that runs ----------

  /** Nobody can block the only job there is. */
  lemma {:induction false} OnlyJobIsQueued(cfg: Config, s: State, id: JobId, now: int)
    requires Good(cfg, s, now) && s.jobs.Keys == {id}
    ensures s.jobs[id].state != IsPending
  {
    PendingIsKnown(s, id);
    assert forall r :: r in s.locks ==> Uses(s.jobs, s.locks[r], r);
  }

  lemma {:induction false} FirstJobIsQueued(cfg: Config, s: State, id: JobId, spec: JobSpec, now: int)
    requires !Refused(cfg, EMPTY) && !(spec.startAfter != 0 && spec.startAfter > now)
    requires s == CreateJob(cfg, EMPTY, id, spec, now)
    ensures Good(cfg, s, now) && s.jobs.Keys == {id} && s.jobs[id].state == IsQueued && s.jobs[id].spec == spec
  {
    EmptyIsGood(cfg, now);
    hide Good, CreateJob, Refused;
    CreateIsExact(cfg, EMPTY, s, id, spec, now);
    CreateServes(cfg, EMPTY, s, id, spec, now);
    OnlyJobIsQueued(cfg, s, id, now);
  }

  /** From creation to work: in an empty service that accepts jobs, a job that is due is queued at once,
      whatever resources it lists, and the next pull of its topic starts it. */
  lemma {:induction false} FirstJobRuns(
    cfg: Config, s1: State, s2: State, id: JobId, spec: JobSpec, timeout: nat, now: int)
    requires !Refused(cfg, EMPTY) && !(spec.startAfter != 0 && spec.startAfter > now)
    requires s1 == CreateJob(cfg, EMPTY, id, spec, now) && s2 == Pull(s1, spec.topic, 1, timeout, now)
    ensures Good(cfg, s2, now) && s2.jobs.Keys == {id} && s2.jobs[id].state == IsRunning
  {
    FirstJobIsQueued(cfg, s1, id, spec, now);
    hide CreateJob, Refused, Pull, Inv, PendingDue, Conserving;
    PullServes(cfg, s1, s2, spec.topic, 1, timeout, now);
    OnlyQueuedIsPulled(cfg, s1, s2, id, timeout, now);
  }

  lemma {:induction false} OnlyQueuedIsPulled(cfg: Config, s: State, s': State, id: JobId, timeout: nat, now: int)
    requires Inv(cfg, s) && s.jobs.Keys == {id} && s.jobs[id].state == IsQueued
    requires s' == Pull(s, s.jobs[id].spec.topic, 1, timeout, now)
    ensures s'.jobs.Keys == {id} && s'.jobs[id].state == IsRunning
  {
    hide Inv, Pull, Best, Before, TicketOf, Ascending;
    var topic := s.jobs[id].spec.topic;
    var q := Best(s, topic, 1);
    PullIsExact(cfg, s, s', topic, 1, timeout, now);
    QueuedMatches(s, id);
    StartedIsRunning(s, s', id, q, timeout, now);
  }

  lemma QueuedMatches(s: State, id: JobId)
    requires s.jobs.Keys == {id} && s.jobs[id].state == IsQueued
    ensures var waiting := Matching(TicketsOf(s.jobs, InState(s.jobs, IsQueued)), s.jobs[id].spec.topic);
            |waiting| > 0 && forall t :: t in waiting ==> t.id == id
  {
    assert TicketOf(id, s.jobs[id])
        in Matching(TicketsOf(s.jobs, InState(s.jobs, IsQueued)), s.jobs[id].spec.topic);
  }

  lemma StartedIsRunning(s: State, s': State, id: JobId, q: seq<Ticket>, timeout: nat, now: int)
    requires id in s.jobs && |q| > 0 && q[0].id == id && StartedExactly(s.jobs, s'.jobs, q, timeout, now)
    ensures s'.jobs.Keys == s.jobs.Keys && s'.jobs[id].state == IsRunning
  {
  }

  lemma PullServes(cfg: Config, s: State, s': State, topic: Topic, n: nat, timeout: nat, now: int)
    requires Good(cfg, s, now) && s' == Pull(s, topic, n, timeout, now)
    ensures Good(cfg, s', now)
  {
    hide Good, Best;
    StartAllServes(cfg, s, s', Best(s, topic, n), timeout, now);
  }
}
