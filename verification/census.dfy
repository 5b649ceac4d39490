/** Jobs that exist and jobs that were deleted: together, the jobs ever created
    (metrics/servicemetrics.go under the steps of the scheduler). */
module Census {
  import opened Jobs
  import opened PullOrder
  import opened PriorityQueues
  import opened Resources
  import opened Metrics
  import opened Scheduler
  import opened Invariants
  import opened Moves
  import opened Operations
  import opened Runs
  import opened Restart
  import opened Guarantees

  /** The jobs of a topic that the counters know of, deleted or not. */
  ghost function Ever(m: Table, t: Topic): nat {
    At(m, t).existing + At(m, t).deleted
  }

  ghost predicate SameEver(m: Table, m': Table) {
    forall t :: Ever(m', t) == Ever(m, t)
  }

  /** One job more was ever seen in a topic. */
  ghost predicate OneMoreEver(m: Table, m': Table, topic: Topic) {
    forall t :: Ever(m', t) == Ever(m, t) + if t == topic then 1 else 0
  }

  /** One job of a topic exists no longer, and was deleted. */
  ghost predicate OneDeleted(m: Table, m': Table, topic: Topic) {
    forall t ::
      var n := if t == topic then 1 else 0;
      At(m', t).existing == At(m, t).existing - n && At(m', t).deleted == At(m, t).deleted + n
  }

  ghost predicate NeverDeleted(j: JobValue) {
    j.state != IsDeleted && j.previousState != IsDeleted
  }

  /** No state of a job says that it was deleted: a deleted job is gone. */
  ghost predicate NoneDeleted(s: State) {
    forall id :: id in s.jobs ==> NeverDeleted(s.jobs[id])
  }

  ghost predicate Kept(s: State, s': State) {
    NoneDeleted(s) ==> NoneDeleted(s') && SameEver(s.metrics, s'.metrics)
  }

  lemma KeptTrans(s: State, s1: State, s2: State)
    requires Kept(s, s1) && Kept(s1, s2)
    ensures Kept(s, s2)
  {
  }

  // ---------- the parts of the steps ----------

  lemma ChangeCounts(m: Table, t: Topic, previous: JobState, next: JobState)
    requires previous != IsDeleted && next != IsDeleted
    ensures if previous != next && next == IsCreated then OneMoreEver(m, Notified(m, t, previous, next), t)
            else SameEver(m, Notified(m, t, previous, next))
  {
  }

  lemma DeletionCounts(m: Table, t: Topic, previous: JobState)
    requires previous != IsDeleted && At(m, t).existing > 0
    ensures OneDeleted(m, Notified(m, t, previous, IsDeleted), t) && SameEver(m, Notified(m, t, previous, IsDeleted))
  {
  }

  lemma EventKept(s: State, id: JobId, e: EventType, now: int)
    requires id in s.jobs
    ensures Kept(s, AddHistoryEvent(s, id, e, now))
    ensures NoneDeleted(s) ==> NeverDeleted(s.jobs[id].AddEvent(e, now))
  {
  }

  lemma NotifyKept(s: State, id: JobId)
    requires id in s.jobs && s.jobs[id].state != IsCreated
    ensures Kept(s, Notify(s, id))
  {
    if NoneDeleted(s) {
      var j := s.jobs[id];
      assert NeverDeleted(j);
      ChangeCounts(s.metrics, j.spec.topic, j.previousState, j.state);
    }
  }

  lemma RecordKept(s: State, id: JobId, e: EventType, now: int)
    requires id in s.jobs && e != Create
    ensures Kept(s, Record(s, id, e, now))
  {
    EventKept(s, id, e, now);
    var s1 := AddHistoryEvent(s, id, e, now);
    NotifyKept(s1, id);
    hide AddHistoryEvent, Notify;
    KeptTrans(s, s1, Notify(s1, id));
  }

  lemma LocksKept(s: State, id: JobId)
    requires id in s.jobs
    ensures Kept(s, LockFor(s, id)) && Kept(s, UnlockFor(s, id))
  {
  }

  lemma MakeQueuedKept(s: State, id: JobId, now: int)
    requires id in s.jobs
    ensures Kept(s, MakeQueued(s, id, now))
  {
    LocksKept(s, id);
    var s1 := LockFor(s, id);
    RecordKept(s1, id, Enqueue, now);
    hide LockFor, Record;
  }

  lemma EnqueueKept(s: State, id: JobId, now: int)
    requires id in s.jobs
    ensures Kept(s, EnqueueJob(s, id, now))
  {
    MakeQueuedKept(s, id, now);
    hide MakeQueued;
  }

  lemma {:induction false} EnqueueAllKept(s: State, q: seq<Ticket>, now: int)
    ensures Kept(s, EnqueueAll(s, q, now))
    decreases |q|
  {
    if q != [] {
      var s1 := if q[0].id in s.jobs then EnqueueJob(s, q[0].id, now) else s;
      if q[0].id in s.jobs {
        EnqueueKept(s, q[0].id, now);
      }
      hide EnqueueJob, Kept;
      EnqueueAllKept(s1, q[1..], now);
      assert Kept(s, s1) by {
        SelfKept(s);
      }
      KeptTrans(s, s1, EnqueueAll(s1, q[1..], now));
    } else {
      SelfKept(s);
    }
  }

  lemma SelfKept(s: State)
    ensures Kept(s, s)
  {
  }

  lemma AdmitKept(s: State, now: int)
    ensures Kept(s, Admit(s, now))
  {
    EnqueueAllKept(s, PassOrder(s), now);
  }

  lemma ScheduleKept(s: State, id: JobId, now: int)
    requires id in s.jobs
    ensures Kept(s, Schedule(s, id, now))
  {
    SetPendingKept(s, id, now);
    SetDelayedKept(s, id, now);
    hide SetPending, SetDelayed, Kept, TooEarly;
  }

  lemma SetDelayedKept(s: State, id: JobId, now: int)
    requires id in s.jobs
    ensures Kept(s, SetDelayed(s, id, now))
  {
    EventKept(s, id, Delay, now);
    var s1 := AddHistoryEvent(s, id, Delay, now);
    assert s1.jobs[id].state == IsDelayed;
    hide AddHistoryEvent, Inserted;
    var s2 := s1.(delayed := Inserted(s1.delayed, Item(id, -s1.jobs[id].spec.startAfter)));
    NotifyKept(s2, id);
    hide Notify;
  }

  lemma SetPendingKept(s: State, id: JobId, now: int)
    requires id in s.jobs
    ensures Kept(s, SetPending(s, id, now))
  {
    EventKept(s, id, Pending, now);
    var s1 := AddHistoryEvent(s, id, Pending, now);
    var s2 := s1.(pending := s1.pending + {id});
    NotifyKept(s2, id);
    assert SetPending(s, id, now) == Notify(s2, id);
    hide AddHistoryEvent, Notify, SetPending;
  }

  lemma StartKept(s: State, id: JobId, timeout: nat, now: int)
    requires id in s.jobs
    ensures Kept(s, StartJob(s, id, timeout, now))
  {
    if s.jobs[id].state == IsQueued {
      var s0 := s.(pending := s.pending - {id});
      EventKept(s0, id, Start, now);
      var s1 := AddHistoryEvent(s0, id, Start, now);
      var j := s1.jobs[id];
      var s2 := s1.(jobs := s1.jobs[id := j.(spec := j.spec.(visibilityTimeout := timeout))]);
      NotifyKept(s2, id);
      assert StartJob(s, id, timeout, now) == Notify(s2, id);
      assert j.state == IsRunning;
      hide AddHistoryEvent, Notify, StartJob;
    }
  }

  lemma {:induction false} StartAllKept(s: State, q: seq<Ticket>, timeout: nat, now: int)
    ensures Kept(s, StartAll(s, q, timeout, now))
    decreases |q|
  {
    if q != [] {
      var s1 := if q[0].id in s.jobs then StartJob(s, q[0].id, timeout, now) else s;
      if q[0].id in s.jobs {
        StartKept(s, q[0].id, timeout, now);
      }
      SelfKept(s);
      hide StartJob, Kept;
      StartAllKept(s1, q[1..], timeout, now);
      KeptTrans(s, s1, StartAll(s1, q[1..], timeout, now));
    }
  }

  lemma FinishKept(s: State, id: JobId, now: int)
    requires id in s.jobs
    ensures Kept(s, Finish(s, id, now))
  {
    LocksKept(s, id);
    RecordKept(UnlockFor(s, id), id, Success, now);
    hide UnlockFor, Record, LockFor;
  }

  lemma RequeueKept(s: State, id: JobId, now: int)
    requires id in s.jobs
    ensures Kept(s, Requeue(s, id, now))
  {
    RecordKept(s, id, Cancel, now);
    var s1 := Record(s, id, Cancel, now);
    RecordKept(s1, id, Enqueue, now);
    hide Record;
    KeptTrans(s, s1, Record(s1, id, Enqueue, now));
  }

  lemma GiveUpKept(s: State, id: JobId, now: int)
    requires id in s.jobs
    ensures Kept(s, GiveUp(s, id, now))
  {
    EventKept(s, id, Terminate, now);
    var s1 := AddHistoryEvent(s, id, Terminate, now);
    LocksKept(s1, id);
    assert s1.jobs[id].state == IsFailed;
    hide AddHistoryEvent;
    var s2 := UnlockFor(s1, id);
    NotifyKept(s2, id);
    hide UnlockFor, Notify;
    KeptTrans(s, s1, s2);
  }

  lemma HideKept(s: State, id: JobId, retryAt: int, now: int)
    requires id in s.jobs
    ensures Kept(s, Scheduler.Hide(s, id, retryAt, now))
  {
    EventKept(s, id, EventType.Hide, now);
    var s1 := AddHistoryEvent(s, id, EventType.Hide, now);
    LocksKept(s1, id);
    assert s1.jobs[id].state == IsHidden;
    hide AddHistoryEvent, Inserted;
    var s2 := UnlockFor(s1, id);
    NotifyKept(s2, id);
    hide UnlockFor, Notify;
    KeptTrans(s, s1, s2);
  }

  lemma FailedKept(cfg: Config, s: State, id: JobId, now: int)
    requires id in s.jobs
    ensures Kept(s, Failed(cfg, s, id, now))
  {
    hide Kept, Admit, GiveUp, MakeQueued, Scheduler.Hide, JobBlocked, JobValue.Failures;
    var s' := Failed(cfg, s, id, now);
    var failures := s.jobs[id].Failures();
    if failures >= cfg.maxRetry {
      var s1 := GiveUp(s, id, now);
      GiveUpKept(s, id, now);
      AdmitKept(s1, now);
      KeptTrans(s, s1, s');
    } else if cfg.backoff(failures) == 0 && !JobBlocked(s, id) {
      MakeQueuedKept(s, id, now);
    } else {
      var s1 := Scheduler.Hide(s, id, now + cfg.backoff(failures) / 1_000_000, now);
      HideKept(s, id, now + cfg.backoff(failures) / 1_000_000, now);
      AdmitKept(s1, now);
      KeptTrans(s, s1, s');
    }
  }

  lemma FailJobKept(cfg: Config, s: State, id: JobId, now: int)
    ensures Kept(s, FailJob(cfg, s, id, now))
  {
    if id in s.jobs && s.jobs[id].state == IsRunning {
      RecordKept(s, id, Fail, now);
      hide Record;
      FailedKept(cfg, Record(s, id, Fail, now), id, now);
      hide Failed;
    }
  }

  lemma {:induction false} FailAllKept(cfg: Config, s: State, ids: seq<JobId>, now: int)
    ensures Kept(s, FailAll(cfg, s, ids, now))
    decreases |ids|
  {
    if ids != [] {
      hide FailJob, Kept;
      var s1 := FailJob(cfg, s, ids[0], now);
      FailJobKept(cfg, s, ids[0], now);
      FailAllKept(cfg, s1, ids[1..], now);
      KeptTrans(s, s1, FailAll(cfg, s1, ids[1..], now));
    } else {
      SelfKept(s);
    }
  }

  lemma TimeoutsKept(cfg: Config, s: State, now: int)
    ensures Kept(s, CheckTimeouts(cfg, s, now))
  {
    var ids := SortedIds(TimedOutJobs(s, now));
    SelfKept(s);
    if ids != [] {
      hide Kept, FailAll, Admit;
      var s1 := FailAll(cfg, s, ids, now);
      FailAllKept(cfg, s, ids, now);
      AdmitKept(s1, now);
      KeptTrans(s, s1, Admit(s1, now));
    }
  }

  // ---------- retries and delayed jobs ----------

  lemma {:induction false} RetryDueKept(s: State, held: seq<Item<JobId>>, now: int)
    ensures Kept(s, RetryDue(s, held, now))
    decreases |s.retry|
  {
    hide Kept, MakeQueued, JobBlocked, Reinserted;
    if s.retry == [] || s.retry[0].priority < -now {
      QueuesKept(s, Reinserted(s.retry, held), s.delayed);
    } else {
      var w := s.retry[0];
      var s1 := s.(retry := s.retry[1..]);
      QueuesKept(s, s.retry[1..], s.delayed);
      if w.value !in s1.jobs || JobBlocked(s1, w.value) {
        RetryDueKept(s1, held + [w], now);
        KeptTrans(s, s1, RetryDue(s1, held + [w], now));
      } else {
        var s2 := MakeQueued(s1, w.value, now);
        MakeQueuedKept(s1, w.value, now);
        MakeQueuedQueues(s1, w.value, now);
        RetryDueKept(s2, held, now);
        KeptTrans(s1, s2, RetryDue(s2, held, now));
        KeptTrans(s, s1, RetryDue(s2, held, now));
      }
    }
  }

  lemma QueuesKept(s: State, retry: seq<Item<JobId>>, delayed: seq<Item<JobId>>)
    ensures Kept(s, s.(retry := retry)) && Kept(s, s.(delayed := delayed))
  {
  }

  lemma MakeQueuedQueues(s: State, id: JobId, now: int)
    requires id in s.jobs
    ensures MakeQueued(s, id, now).retry == s.retry && SetPending(s, id, now).delayed == s.delayed
  {
  }

  lemma {:induction false} ReleaseDueKept(s: State, now: int)
    ensures Kept(s, ReleaseDue(s, now))
    decreases |s.delayed|
  {
    hide Kept, SetPending;
    if s.delayed == [] || s.delayed[0].priority < -now {
      SelfKept(s);
    } else {
      var id := s.delayed[0].value;
      var s1 := s.(delayed := s.delayed[1..]);
      QueuesKept(s, s.retry, s.delayed[1..]);
      var s2 := if id in s1.jobs then SetPending(s1, id, now) else s1;
      SelfKept(s1);
      if id in s1.jobs {
        SetPendingKept(s1, id, now);
        MakeQueuedQueues(s1, id, now);
      }
      ReleaseDueKept(s2, now);
      KeptTrans(s1, s2, ReleaseDue(s2, now));
      KeptTrans(s, s1, ReleaseDue(s2, now));
    }
  }

  lemma CheckDelayedKept(s: State, now: int)
    ensures Kept(s, CheckDelayed(s, now))
  {
    hide Kept, ReleaseDue, Admit;
    var s1 := ReleaseDue(s, now);
    ReleaseDueKept(s, now);
    AdmitKept(s1, now);
    KeptTrans(s, s1, Admit(s1, now));
  }

  // ---------- deletions ----------

  /** A job that exists is counted as existing: its deletion takes one from the jobs of its topic that exist
      and adds one to those deleted. */
  lemma {:induction false} RemoveKept(cfg: Config, s: State, s1: State, s': State, id: JobId, now: int)
    requires Inv(cfg, s) && id in s.jobs && s1 == UnlockFor(s, id) && s' == Remove(s, id, now)
    ensures Kept(s, s') && OneDeleted(s.metrics, s'.metrics, s.jobs[id].spec.topic)
  {
    RemoveFields(s, s1, s', id, now);
    UnlockKeepsExisting(s, id);
    hide UnlockFor, Remove, Notified, Removed, OneDeleted;
    RemovedIsCounted(cfg, s, s1, s', id);
    hide Inv;
    DeletedIsSeen(s.metrics, s'.metrics, s.jobs[id].spec.topic);
    hide SameEver;
  }

  lemma DeletedIsSeen(m: Table, m': Table, t: Topic)
    requires OneDeleted(m, m', t)
    ensures SameEver(m, m')
  {
  }

  lemma {:induction false} RemovedIsCounted(cfg: Config, s: State, s1: State, s': State, id: JobId)
    requires Inv(cfg, s) && id in s.jobs
    requires forall t :: At(s1.metrics, t).existing == At(s.metrics, t).existing
    requires forall t :: At(s1.metrics, t).deleted == At(s.metrics, t).deleted
    requires s'.metrics == Notified(s1.metrics, s.jobs[id].spec.topic, s.jobs[id].state, IsDeleted)
    ensures OneDeleted(s.metrics, s'.metrics, s.jobs[id].spec.topic)
  {
    assert Resting(cfg.maxRetry, s.jobs[id]);
    assert s.jobs[id].state != IsDeleted;
    ExistingIsCounted(s, id);
    hide Inv, Resting, Notified;
    DeletionCounts(s1.metrics, s.jobs[id].spec.topic, s.jobs[id].state);
  }

  lemma ExistingIsCounted(s: State, id: JobId)
    requires s.saved == s.jobs && Counted(s) && id in s.jobs
    ensures At(s.metrics, s.jobs[id].spec.topic).existing > 0
  {
    var t := s.jobs[id].spec.topic;
    assert TopicExact(At(s.metrics, t), s.jobs, t);
    assert id in InTopic(s.jobs, t);
  }

  lemma UnlockKeepsExisting(s: State, id: JobId)
    requires id in s.jobs
    ensures forall t :: At(UnlockFor(s, id).metrics, t).existing == At(s.metrics, t).existing
    ensures forall t :: At(UnlockFor(s, id).metrics, t).deleted == At(s.metrics, t).deleted
    ensures UnlockFor(s, id).jobs == s.jobs
  {
  }

  lemma {:induction false} DeleteKept(cfg: Config, s: State, id: JobId, now: int)
    requires Inv(cfg, s)
    ensures Kept(s, DeleteJob(s, id, now))
  {
    SelfKept(s);
    if id in s.jobs {
      hide Kept, Inv, Remove, Admit;
      var s1 := Remove(s, id, now);
      RemoveKept(cfg, s, UnlockFor(s, id), s1, id, now);
      AdmitKept(s1, now);
      KeptTrans(s, s1, Admit(s1, now));
    }
  }

  lemma {:induction false} DeleteEachKept(cfg: Config, s: State, ids: seq<JobId>, now: int)
    requires Good(cfg, s, now)
    ensures Kept(s, DeleteEach(s, ids, now))
    decreases |ids|
  {
    if ids == [] {
      SelfKept(s);
    } else {
      var s1 := DeleteJob(s, ids[0], now);
      DeleteKept(cfg, s, ids[0], now);
      hide Kept, Inv, PendingDue, Conserving, DeleteJob;
      DeleteServes(cfg, s, s1, ids[0], now);
      DeleteEachKept(cfg, s1, ids[1..], now);
      KeptTrans(s, s1, DeleteEach(s1, ids[1..], now));
    }
  }

  lemma {:induction false} RetainKept(
    cfg: Config, s: State, order: seq<JobId>, excess: nat, deleted: nat, now: int)
    requires Good(cfg, s, now)
    ensures Kept(s, Retain(cfg, s, order, excess, deleted, now))
    decreases |order|
  {
    hide Kept, Inv, PendingDue, Conserving, DeleteJob, AgeLimit;
    if order == [] {
      SelfKept(s);
    } else if order[0] in s.jobs && (deleted < excess || now - s.jobs[order[0]].LastUpdate() >= AgeLimit(cfg)) {
      var s1 := DeleteJob(s, order[0], now);
      DeleteKept(cfg, s, order[0], now);
      DeleteServes(cfg, s, s1, order[0], now);
      RetainKept(cfg, s1, order[1..], excess, deleted + 1, now);
      KeptTrans(s, s1, Retain(cfg, s1, order[1..], excess, deleted + 1, now));
    } else {
      RetainKept(cfg, s, order[1..], excess, deleted, now);
    }
  }

  lemma {:induction false} ClearedKept(s: State)
    ensures Kept(s, DeleteAll(s))
  {
  }

  lemma {:induction false} UnlockedKept(s: State, r: Resource, now: int)
    ensures Kept(s, UnlockAll(s, now)) && Kept(s, UnlockOne(s, r, now))
  {
    var s1 := s.(locks := map[], metrics := AllUnlocked(s.metrics));
    assert Kept(s, s1);
    var s2 := s.(locks := s.locks - {r}, metrics := LocksNotified(s.metrics, HolderTopic(s, r), -1));
    assert Kept(s, s2);
    SelfKept(s);
    hide Kept, AllUnlocked, LocksNotified, HolderTopic, Admit;
    AdmitKept(s1, now);
    AdmitKept(s2, now);
    KeptTrans(s, s1, Admit(s1, now));
    KeptTrans(s, s2, Admit(s2, now));
  }

  lemma TimeoutChangeKept(s: State, id: JobId, timeout: nat)
    ensures Kept(s, ChangeTimeout(s, id, timeout))
  {
  }

  // ---------- creations ----------

  lemma BornCounts(cfg: Config, s: State, id: JobId, spec: JobSpec, now: int)
    requires NoneDeleted(s)
    ensures NoneDeleted(Born(cfg, s, id, spec, now))
    ensures OneMoreEver(s.metrics, Born(cfg, s, id, spec, now).metrics, spec.topic)
  {
    ChangeCounts(s.metrics, spec.topic, NoState, IsCreated);
  }

  lemma CreateCounts(cfg: Config, s: State, id: JobId, spec: JobSpec, now: int)
    requires NoneDeleted(s) && !Refused(cfg, s)
    ensures OneMoreEver(s.metrics, CreateJob(cfg, s, id, spec, now).metrics, spec.topic)
  {
    BornCounts(cfg, s, id, spec, now);
    var s1 := Born(cfg, s, id, spec, now);
    hide Born;
    ScheduleKept(s1, id, now);
    var s2 := Schedule(s1, id, now);
    hide Schedule;
    AdmitKept(s2, now);
    hide Admit, Refused;
  }

  // ---------- over one step ----------

  lemma GoodHasNoneDeleted(cfg: Config, s: State)
    requires AllResting(cfg, s)
    ensures NoneDeleted(s)
  {
  }

  /** The step creates a job of the topic. */
  ghost predicate Creates(cfg: Config, s: State, step: Step, t: Topic) {
    match step
    case CreateStep(_, spec) => !Refused(cfg, s) && spec.topic == t
    case CloneStep(source, _) => !Refused(cfg, s) && source in s.jobs && s.jobs[source].spec.topic == t
    case _ => false
  }

  /** What clients and the administrator ask for, besides new jobs. */
  lemma {:induction false} RequestCensus(cfg: Config, s: State, s': State, step: Step, now: int)
    requires Good(cfg, s, now) && s' == Apply(cfg, s, step, now)
    requires !step.CreateStep? && !step.CloneStep?
    requires !step.AdmitTick? && !step.RetryTick? && !step.DelayTick? && !step.TimeoutTick? && !step.RetentionTick?
    ensures Kept(s, s')
  {
    hide Kept, Good, Admit, Finish, Requeue, FailJob, DeleteJob, DeleteAll, UnlockAll, UnlockOne, ChangeTimeout;
    hide Scheduler.StartJob, StartAll, DeleteEach;
    SelfKept(s);
    match step
    case PullStep(topic, n, timeout) => StartAllKept(s, Best(s, topic, n), timeout, now);
    case StartStep(id, timeout) =>
      if id in s.jobs {
        StartKept(s, id, timeout, now);
      }
    case SucceedStep(id) =>
      if Running(s, id) {
        FinishThenAdmit(s, id, now);
      }
    case CancelStep(id) =>
      if Running(s, id) {
        RequeueThenAdmit(s, id, now);
      }
    case FailStep(id) => FailJobKept(cfg, s, id, now);
    case DeleteStep(id) => DeleteOneKept(cfg, s, id, now);
    case DeleteQueuedStep => DeleteEachKept(cfg, s, SortedIds(WaitingJobs(s)), now);
    case DeleteAllStep => ClearedKept(s);
    case UnlockAllStep => UnlockedKept(s, Resource(""), now);
    case UnlockOneStep(r) => UnlockedKept(s, r, now);
    case TimeoutStep(id, timeout) => TimeoutChangeKept(s, id, timeout);
  }

  lemma {:induction false} OtherStepCensus(cfg: Config, s: State, s': State, step: Step, now: int)
    requires Good(cfg, s, now) && s' == Apply(cfg, s, step, now)
    requires !step.CreateStep? && !step.CloneStep?
    ensures Kept(s, s')
  {
    hide Kept, Good, Admit, CheckDelayed, CheckTimeouts, Retain, RetryDue;
    SelfKept(s);
    match step
    case AdmitTick => AdmitKept(s, now);
    case RetryTick => RetryDueKept(s, [], now);
    case DelayTick => CheckDelayedKept(s, now);
    case TimeoutTick => TimeoutsKept(cfg, s, now);
    case RetentionTick(order) =>
      if cfg.retention {
        RetainKept(cfg, s, order, Excess(cfg, |order|), 0, now);
      }
    case _ => RequestCensus(cfg, s, s', step, now);
  }

  lemma DeleteOneKept(cfg: Config, s: State, id: JobId, now: int)
    requires Good(cfg, s, now)
    ensures Kept(s, DeleteJob(s, id, now))
  {
    DeleteKept(cfg, s, id, now);
  }

  lemma FinishThenAdmit(s: State, id: JobId, now: int)
    requires id in s.jobs
    ensures Kept(s, Admit(Finish(s, id, now), now))
  {
    hide Kept, Finish, Admit;
    FinishKept(s, id, now);
    AdmitKept(Finish(s, id, now), now);
    KeptTrans(s, Finish(s, id, now), Admit(Finish(s, id, now), now));
  }

  lemma RequeueThenAdmit(s: State, id: JobId, now: int)
    requires id in s.jobs
    ensures Kept(s, Admit(Requeue(s, id, now), now))
  {
    hide Kept, Requeue, Admit;
    RequeueKept(s, id, now);
    AdmitKept(Requeue(s, id, now), now);
    KeptTrans(s, Requeue(s, id, now), Admit(Requeue(s, id, now), now));
  }

  lemma {:induction false} CreationCensus(cfg: Config, s: State, s': State, id: JobId, spec: JobSpec, now: int, t: Topic)
    requires NoneDeleted(s) && s' == CreateJob(cfg, s, id, spec, now)
    ensures Ever(s'.metrics, t) == Ever(s.metrics, t) + if !Refused(cfg, s) && spec.topic == t then 1 else 0
  {
    if !Refused(cfg, s) {
      CreateCounts(cfg, s, id, spec, now);
      hide CreateJob, NoneDeleted, Ever;
    }
  }

  lemma {:induction false} StepCensus(cfg: Config, s: State, s': State, step: Step, now: int, t: Topic)
    requires Good(cfg, s, now) && Possible(s, step) && s' == Apply(cfg, s, step, now)
    ensures Ever(s'.metrics, t) == Ever(s.metrics, t) + if Creates(cfg, s, step, t) then 1 else 0
  {
    GoodHasNoneDeleted(cfg, s);
    hide Good, Refused, NoneDeleted, Ever, CreateJob;
    if step.CreateStep? {
      CreationCensus(cfg, s, s', step.id, step.spec, now, t);
    } else if step.CloneStep? {
      if step.source in s.jobs {
        CreationCensus(cfg, s, s', step.id, s.jobs[step.source].spec, now, t);
      }
    } else {
      hide Apply, Possible;
      OtherStepCensus(cfg, s, s', step, now);
    }
  }

  // ---------- loading ----------

  lemma {:induction false} ScheduleEachKept(s: State, ids: seq<JobId>, now: int)
    ensures Kept(s, ScheduleEach(s, ids, now))
    decreases |ids|
  {
    hide Kept, Schedule;
    SelfKept(s);
    if ids != [] && ids[0] in s.jobs {
      var s1 := Schedule(s, ids[0], now);
      ScheduleKept(s, ids[0], now);
      ScheduleEachKept(s1, ids[1..], now);
      KeptTrans(s, s1, ScheduleEach(s1, ids[1..], now));
    } else if ids != [] {
      ScheduleEachKept(s, ids[1..], now);
    }
  }

  lemma {:induction false} LoadingKept(jobs: map<JobId, JobValue>, now: int)
    ensures Kept(LoadStored(jobs, now), LoadJobs(jobs, now))
  {
    var s1 := LoadStored(jobs, now);
    var ids := SortedIds(InState(s1.jobs, IsCreated));
    var s2 := ScheduleEach(s1, ids, now);
    hide LoadStored, ScheduleEach, Admit, Kept;
    SelfKept(s1);
    ScheduleEachKept(s1, ids, now);
    AdmitKept(s2, now);
    KeptTrans(s1, s2, Admit(s2, now));
  }

  lemma {:induction false} StorableIsNotDeleted(cfg: Config, s: State, now: int)
    requires Storable(cfg, s.jobs, now)
    ensures NoneDeleted(s)
  {
    forall id | id in s.jobs ensures NeverDeleted(s.jobs[id]) {
      assert StorableJob(cfg.maxRetry, s.jobs[id], now);
    }
  }

  lemma LoadedExist(cfg: Config, s: State, now: int, t: Topic)
    requires Loaded(cfg, s, now)
    ensures At(s.metrics, t).existing == |InTopic(s.jobs, t)|
  {
    hide Coherent, Owned, Storable;
    assert TopicExact(At(s.metrics, t), s.saved, t);
  }

  /** Loading counts every stored job once, and no deletion: the counters start again. */
  lemma {:induction false} LoadCensus(cfg: Config, jobs: map<JobId, JobValue>, now: int, t: Topic)
    requires Storable(cfg, jobs, now)
    ensures Ever(LoadJobs(jobs, now).metrics, t) == |InTopic(jobs, t)|
  {
    var s1 := LoadStored(jobs, now);
    hide LoadStored, LoadJobs, Storable, ClaimedBy, Loaded, AllDueAt, InTopic, NoneDeleted;
    StoredIsLoaded(cfg, jobs, s1, now);
    StorableIsNotDeleted(cfg, s1, now);
    LoadedExist(cfg, s1, now, t);
    LoadingKept(jobs, now);
  }

  // ---------- over whole runs ----------

  /** How many jobs of the topic were loaded by the last start or created since, up to the i-th state. */
  ghost function SeenBefore(cfg: Config, run: Run, i: nat, t: Topic): nat
    requires i <= |run.events| < |run.states|
  {
    if i == 0 then |InTopic(run.stored, t)|
    else match run.events[i - 1]
      case Perform(step) =>
        SeenBefore(cfg, run, i - 1, t) + if Creates(cfg, run.states[i - 1], step, t) then 1 else 0
      case Restart => |InTopic(run.states[i - 1].saved, t)|
  }

  lemma GoodIsCounted(cfg: Config, s: State, now: int, t: Topic)
    requires Good(cfg, s, now)
    ensures TopicExact(At(s.metrics, t), s.jobs, t)
  {
  }

  /** In every state of every run: the jobs of a topic that exist and those that were deleted since the
      last start are together the jobs loaded by that start or created since. */
  lemma {:induction false} EveryJobIsAccounted(cfg: Config, run: Run, i: nat, t: Topic)
    requires IsRun(cfg, run) && i < |run.states|
    ensures At(run.states[i].metrics, t).existing == |InTopic(run.states[i].jobs, t)|
    ensures |InTopic(run.states[i].jobs, t)| + At(run.states[i].metrics, t).deleted == SeenBefore(cfg, run, i, t)
  {
    hide Good, TopicExact, LoadJobs, Storable, NothingIdle;
    EveryStateIsGood(cfg, run, i);
    GoodIsCounted(cfg, run.states[i], TimeOf(run, i), t);
    ExactCount(run.states[i], t);
    EverSeen(cfg, run, i, t);
  }

  lemma ExactCount(s: State, t: Topic)
    requires TopicExact(At(s.metrics, t), s.jobs, t)
    ensures At(s.metrics, t).existing == |InTopic(s.jobs, t)|
  {
  }

  lemma {:induction false} EverSeen(cfg: Config, run: Run, i: nat, t: Topic)
    requires IsRun(cfg, run) && i < |run.states|
    ensures Ever(run.states[i].metrics, t) == SeenBefore(cfg, run, i, t)
  {
    hide Good, Apply, Creates, Possible, LoadJobs, Storable, NothingIdle, Ever, InTopic;
    if i == 0 {
      LoadCensus(cfg, run.stored, run.loadedAt, t);
    } else {
      EverSeen(cfg, run, i - 1, t);
      assert EventAt(cfg, run, i - 1);
      EveryStateIsGood(cfg, run, i - 1);
      EventCensus(cfg, run.states[i - 1], run.states[i], run.events[i - 1], TimeOf(run, i - 1), run.times[i - 1], t);
    }
  }

  lemma {:induction false} EventCensus(cfg: Config, s: State, s': State, e: Event, before: int, now: int, t: Topic)
    requires Good(cfg, s, before) && before <= now && Happens(s, e) && s' == Next(cfg, s, e, now)
    ensures match e
            case Perform(step) =>
              Ever(s'.metrics, t) == Ever(s.metrics, t) + if Creates(cfg, s, step, t) then 1 else 0
            case Restart => Ever(s'.metrics, t) == |InTopic(s.saved, t)|
  {
    hide Good, Apply, Creates, Possible, LoadJobs, Storable, Ever, InTopic;
    LaterIsDue(cfg, s, before, now);
    match e
    case Perform(step) => StepCensus(cfg, s, s', step, now, t);
    case Restart =>
      GoodIsStorable(cfg, s, now, now);
      LoadCensus(cfg, s.saved, now, t);
  }
}
