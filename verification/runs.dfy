/** Runs of the scheduler: any sequence of operations and periodic tasks, at non-decreasing times. */
module Runs {
  import opened Jobs
  import opened PullOrder
  import opened Resources
  import opened Metrics
  import opened Scheduler
  import opened Invariants
  import opened Operations
  import opened Retries

  datatype Step =
    | CreateStep(id: JobId, spec: JobSpec)
    | CloneStep(source: JobId, id: JobId)
    | PullStep(topic: Topic, n: nat, timeout: nat)
    | StartStep(id: JobId, timeout: nat)
    | SucceedStep(id: JobId)
    | CancelStep(id: JobId)
    | FailStep(id: JobId)
    | DeleteStep(id: JobId)
    | DeleteQueuedStep
    | DeleteAllStep
    | UnlockAllStep
    | UnlockOneStep(resource: Resource)
    | TimeoutStep(id: JobId, timeout: nat)
    | AdmitTick
    | RetryTick
    | DelayTick
    | TimeoutTick
    | RetentionTick(order: seq<JobId>)

  /** An operation on a job that is missing, or in the wrong state, changes nothing. */
  ghost function Apply(cfg: Config, s: State, step: Step, now: int): State {
    match step
    case CreateStep(id, spec) => CreateJob(cfg, s, id, spec, now)
    case CloneStep(source, id) => if source in s.jobs then CreateJob(cfg, s, id, s.jobs[source].spec, now) else s
    case PullStep(topic, n, timeout) => Pull(s, topic, n, timeout, now)
    case StartStep(id, timeout) => if id in s.jobs then StartJob(s, id, timeout, now) else s
    case SucceedStep(id) => if Running(s, id) then Admit(Finish(s, id, now), now) else s
    case CancelStep(id) => if Running(s, id) then Admit(Requeue(s, id, now), now) else s
    case FailStep(id) => FailJob(cfg, s, id, now)
    case DeleteStep(id) => DeleteJob(s, id, now)
    case DeleteQueuedStep => DeleteQueued(s, now)
    case DeleteAllStep => DeleteAll(s)
    case UnlockAllStep => UnlockAll(s, now)
    case UnlockOneStep(r) => UnlockOne(s, r, now)
    case TimeoutStep(id, timeout) => ChangeTimeout(s, id, timeout)
    case AdmitTick => Admit(s, now)
    case RetryTick => AttemptRetries(s, now)
    case DelayTick => CheckDelayed(s, now)
    case TimeoutTick => CheckTimeouts(cfg, s, now)
    case RetentionTick(order) => CheckRetention(cfg, s, order, now)
  }

  ghost predicate Running(s: State, id: JobId) {
    id in s.jobs && s.jobs[id].state == IsRunning
  }

  /** New ids are fresh; the retention check visits the completed jobs by last update. */
  ghost predicate Possible(s: State, step: Step) {
    match step
    case CreateStep(id, _) => id !in s.jobs
    case CloneStep(_, id) => id !in s.jobs
    case RetentionTick(order) => ByLastUpdate(s, order)
    case _ => true
  }

  predicate ReleasesLocks(step: Step) {
    step.UnlockAllStep? || step.UnlockOneStep?
  }

  // ---------- administration ----------

  lemma DeleteAllServes(cfg: Config, s: State, s': State, now: int)
    requires s' == DeleteAll(s)
    ensures Good(cfg, s', now) && Holding(s') && Woken(s, s')
    ensures forall t :: At(s'.metrics, t) == ZERO.(deleted := At(s.metrics, t).deleted + At(s.metrics, t).existing)
  {
    ClearingKeepsCounts(AllUnlocked(s.metrics));
    assert forall st :: InState(map[], st) == {};
  }

  lemma {:induction false} UnlockedCounts(m: Table, jobs: map<JobId, JobValue>)
    requires CountsJobs(m, jobs)
    ensures CountsJobs(AllUnlocked(m), jobs) && CountsLocks(AllUnlocked(m), map[], jobs)
  {
    forall t ensures TopicExact(At(AllUnlocked(m), t), jobs, t) && LocksOf(map[], jobs, t) == {} {
      assert TopicExact(At(m, t), jobs, t);
    }
  }

  ghost function AllReleased(s: State): State {
    s.(locks := map[], metrics := AllUnlocked(s.metrics))
  }

  lemma {:induction false} AllReleasedKeeps(cfg: Config, s: State, s1: State, now: int)
    requires Inv(cfg, s) && PendingDue(s, now) && s1 == AllReleased(s)
    ensures Inv(cfg, s1) && PendingDue(s1, now)
  {
    UnlockedCounts(s.metrics, s.saved);
  }

  lemma {:induction false} UnlockAllServes(cfg: Config, s: State, s': State, now: int)
    requires Good(cfg, s, now) && s' == UnlockAll(s, now)
    ensures Good(cfg, s', now) && Woken(s, s')
  {
    hide Inv, PendingDue, Conserving, Admit;
    var s1 := AllReleased(s);
    AllReleasedKeeps(cfg, s, s1, now);
    PassServes(cfg, s1, s', now);
  }

  ghost function OneReleased(s: State, r: Resource): State {
    s.(locks := s.locks - {r}, metrics := LocksNotified(s.metrics, HolderTopic(s, r), -1))
  }

  lemma {:induction false} OneReleasedBooks(s: State, s1: State, r: Resource)
    requires Counted(s) && s.saved == s.jobs && Owned(s) && r in s.locks && s1 == OneReleased(s, r)
    ensures Counted(s1)
  {
    assert Uses(s.jobs, s.locks[r], r);
    UnlockingOneKeepsCounts(s.metrics, s.locks, s.saved, r);
    forall t ensures TopicExact(At(s1.metrics, t), s.saved, t) {
      assert TopicExact(At(s.metrics, t), s.saved, t);
    }
  }

  lemma {:induction false} OneReleasedShape(s: State, s1: State, r: Resource, now: int)
    requires Coherent(s) && Owned(s) && PendingDue(s, now) && s1 == OneReleased(s, r)
    ensures Coherent(s1) && Owned(s1) && PendingDue(s1, now) && Woken(s, s1)
  {
    forall x | x in s1.locks ensures Uses(s1.jobs, s1.locks[x], x) {
      assert Uses(s.jobs, s.locks[x], x);
    }
  }

  lemma {:induction false} OneReleasedKeeps(cfg: Config, s: State, s1: State, r: Resource, now: int)
    requires Inv(cfg, s) && PendingDue(s, now) && r in s.locks && s1 == OneReleased(s, r)
    ensures Inv(cfg, s1) && PendingDue(s1, now) && Woken(s, s1)
  {
    hide Counted, Coherent, Owned, PendingDue, Woken;
    OneReleasedBooks(s, s1, r);
    OneReleasedShape(s, s1, r, now);
  }

  lemma {:induction false} UnlockOneServes(cfg: Config, s: State, s': State, r: Resource, now: int)
    requires Good(cfg, s, now) && s' == UnlockOne(s, r, now)
    ensures Good(cfg, s', now) && Woken(s, s')
  {
    if r in s.locks {
      hide Inv, PendingDue, Conserving, Admit, Woken;
      var s1 := OneReleased(s, r);
      OneReleasedKeeps(cfg, s, s1, r, now);
      PassServes(cfg, s1, s', now);
      WokenThen(s, s1, s');
    }
  }

  lemma {:induction false} SameStatesSameCounts(m: Table, locks: LockTable, jobs: map<JobId, JobValue>, id: JobId, j: JobValue)
    requires CountsJobs(m, jobs) && CountsLocks(m, locks, jobs)
    requires id in jobs && j.state == jobs[id].state && j.spec.topic == jobs[id].spec.topic
    ensures CountsJobs(m, jobs[id := j]) && CountsLocks(m, locks, jobs[id := j])
  {
    forall t ensures TopicExact(At(m, t), jobs[id := j], t) {
      assert TopicExact(At(m, t), jobs, t);
      assert InTopic(jobs[id := j], t) == InTopic(jobs, t);
      assert ActiveIn(jobs[id := j], t) == ActiveIn(jobs, t);
      assert forall s :: InTopicAndState(jobs[id := j], t, s) == InTopicAndState(jobs, t, s);
    }
    forall t {
      LockCountsOfKnown(locks, jobs, id, j, t);
    }
  }

  lemma {:induction false} TimeoutShape(s: State, s': State, id: JobId, timeout: nat)
    requires Coherent(s) && Owned(s) && id in s.jobs && s' == ChangeTimeout(s, id, timeout)
    ensures Coherent(s') && Owned(s')
  {
    assert forall st :: InState(s'.jobs, st) == InState(s.jobs, st);
    forall r | r in s'.locks ensures Uses(s'.jobs, s'.locks[r], r) {
      assert Uses(s.jobs, s.locks[r], r);
    }
  }

  lemma {:induction false} TimeoutBooks(cfg: Config, s: State, s': State, id: JobId, timeout: nat)
    requires AllResting(cfg, s) && s.saved == s.jobs && Counted(s) && id in s.jobs
    requires s' == ChangeTimeout(s, id, timeout)
    ensures AllResting(cfg, s') && s'.saved == s'.jobs && Counted(s')
  {
    SameStatesSameCounts(s.metrics, s.locks, s.saved, id, s'.jobs[id]);
    assert Resting(cfg.maxRetry, s.jobs[id]);
  }

  lemma {:induction false} TimeoutEffect(s: State, s': State, id: JobId, timeout: nat, now: int)
    requires PendingDue(s, now) && Conserving(s) && id in s.jobs && s' == ChangeTimeout(s, id, timeout)
    ensures PendingDue(s', now) && Conserving(s') && KeepsHolding(s, s') && Woken(s, s')
  {
    HoldingAfterStep(s, s', id);
  }

  lemma {:induction false} ChangeTimeoutServes(cfg: Config, s: State, s': State, id: JobId, timeout: nat, now: int)
    requires Good(cfg, s, now) && s' == ChangeTimeout(s, id, timeout)
    ensures Served(cfg, s, s', now)
  {
    if id in s.jobs {
      hide Coherent, Owned, AllResting, Counted, PendingDue, Conserving, KeepsHolding, Woken, ChangeTimeout;
      TimeoutShape(s, s', id, timeout);
      TimeoutBooks(cfg, s, s', id, timeout);
      TimeoutEffect(s, s', id, timeout, now);
    } else {
      ServedNothing(cfg, s, now);
    }
  }

  // ---------- every step ----------

  lemma {:induction false} StepServes(cfg: Config, s: State, s': State, step: Step, now: int)
    requires Good(cfg, s, now) && Possible(s, step) && s' == Apply(cfg, s, step, now)
    requires !ReleasesLocks(step) && !step.DeleteAllStep?
    ensures Served(cfg, s, s', now)
  {
    hide Served, Good, Inv, PendingDue, Conserving, Admit, AttemptRetries, CheckDelayed, CheckTimeouts, Retain;
    hide DeleteEach, DeleteJob, CreateJob, FailRunning, StartJob, StartAll, ChangeTimeout, Record, UnlockFor, WakePolls;
    hide RetryPass;
    match step
    case CreateStep(id, spec) => CreateServes(cfg, s, s', id, spec, now);
    case CloneStep(source, id) =>
      if source in s.jobs {
        CreateServes(cfg, s, s', id, s.jobs[source].spec, now);
      } else {
        ServedNothing(cfg, s, now);
      }
    case PullStep(topic, n, timeout) => StartAllServes(cfg, s, s', Best(s, topic, n), timeout, now);
    case StartStep(id, timeout) =>
      if id in s.jobs {
        StartServes(cfg, s, s', id, timeout, now);
      } else {
        ServedNothing(cfg, s, now);
      }
    case SucceedStep(id) =>
      if Running(s, id) {
        FinishServes(cfg, s, UnlockFor(s, id), Finish(s, id, now), s', id, now);
      } else {
        ServedNothing(cfg, s, now);
      }
    case CancelStep(id) =>
      if Running(s, id) {
        CancelServes(cfg, s, s', id, now);
      } else {
        ServedNothing(cfg, s, now);
      }
    case FailStep(id) =>
      if Running(s, id) {
        FailServes(cfg, s, Record(s, id, Fail, now), s', id, now);
      } else {
        ServedNothing(cfg, s, now);
      }
    case DeleteStep(id) => DeleteServes(cfg, s, s', id, now);
    case DeleteQueuedStep => DeleteEachServes(cfg, s, s', SortedIds(WaitingJobs(s)), now);
    case TimeoutStep(id, timeout) => ChangeTimeoutServes(cfg, s, s', id, timeout, now);
    case AdmitTick => AdmitServes(cfg, s, s', now);
    case RetryTick => AttemptRetriesServes(cfg, s, s', now);
    case DelayTick => CheckDelayedServes(cfg, s, s', now);
    case TimeoutTick => TimeoutsServe(cfg, s, s', now);
    case RetentionTick(order) =>
      if cfg.retention {
        RetainServes(cfg, s, s', order, Excess(cfg, |order|), 0, now);
      } else {
        ServedNothing(cfg, s, now);
      }
  }

  lemma CancelServes(cfg: Config, s: State, s': State, id: JobId, now: int)
    requires Good(cfg, s, now) && Running(s, id) && s' == Admit(Requeue(s, id, now), now)
    ensures Served(cfg, s, s', now)
  {
    var s1 := Record(s, id, Cancel, now);
    var s2 := Record(s1, id, Enqueue, now);
    RequeueServes(cfg, s, s1, s2, WakePolls(s2), s', id, now);
  }

  lemma AdmitServes(cfg: Config, s: State, s': State, now: int)
    requires Good(cfg, s, now) && s' == Admit(s, now)
    ensures Served(cfg, s, s', now)
  {
    hide Inv, PendingDue, Conserving, Admit;
    PassServes(cfg, s, s', now);
  }

  /** Every possible step keeps the invariants and work conservation, and wakes the long polls
      when it queues a job. */
  lemma {:induction false} StepIsGood(cfg: Config, s: State, s': State, step: Step, now: int)
    requires Good(cfg, s, now) && Possible(s, step) && s' == Apply(cfg, s, step, now)
    ensures Good(cfg, s', now) && Woken(s, s')
    ensures !ReleasesLocks(step) && Holding(s) ==> Holding(s')
  {
    if step.UnlockAllStep? {
      UnlockAllServes(cfg, s, s', now);
    } else if step.UnlockOneStep? {
      UnlockOneServes(cfg, s, s', step.resource, now);
    } else if step.DeleteAllStep? {
      DeleteAllServes(cfg, s, s', now);
    } else {
      StepServes(cfg, s, s', step, now);
    }
  }
}
