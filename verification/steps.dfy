/** Each step of a run is carried out by an operation of the service, and the service keeps
    whatever every state of a run satisfies. */
module ServiceSteps {
  import opened Jobs
  import opened Scheduler
  import opened Invariants
  import opened Operations
  import opened Runs
  import opened Restart
  import opened InMemoryProvider
  import opened JobService

  /** The requests of the clients and of the administrator. */
  predicate IsRequest(step: Step) {
    !IsTick(step)
  }

  /** The periodic tasks. */
  predicate IsTick(step: Step) {
    step.AdmitTick? || step.RetryTick? || step.DelayTick? || step.TimeoutTick? || step.RetentionTick?
  }

  method Tick(svc: Service, step: Step, now: int) returns (ghost taken: Step)
    requires svc.Valid() && IsTick(step)
    modifies svc.Repr()
    ensures svc.Valid()
    ensures if step.RetentionTick? then taken.RetentionTick? else taken == step
    ensures Possible(old(svc.St()), taken) || (taken.RetentionTick? && !svc.cfg.retention)
    ensures svc.St() == Apply(svc.cfg, old(svc.St()), taken, now)
  {
    hide Service.Valid, Service.Repr, Service.St;
    hide Admit, AttemptRetries, CheckDelayed, CheckTimeouts, CheckRetention, ByLastUpdate;
    taken := step;
    match step {
      case AdmitTick => svc.TryEnqueuePendingJobs(now);
      case RetryTick => svc.AttemptJobRetries(now);
      case DelayTick => svc.CheckDelayedJobs(now);
      case TimeoutTick => svc.CheckJobsVisibilityTimeout(now);
      case RetentionTick(_) =>
        ghost var order := svc.DeleteOldCompletedJobs(now);
        taken := RetentionTick(order);
    }
  }

  method Request(svc: Service, step: Step, now: int)
    requires svc.Valid() && IsRequest(step) && Possible(svc.St(), step)
    modifies svc.Repr()
    ensures svc.Valid() && svc.St() == Apply(svc.cfg, old(svc.St()), step, now)
  {
    hide Service.Valid, Service.Repr;
    hide Admit, CreateJob, Pull, Scheduler.StartJob, Finish, Requeue, FailJob, DeleteJob, DeleteQueued, DeleteAll;
    hide UnlockAll, UnlockOne, ChangeTimeout;
    match step {
      case CreateStep(id, spec) => var ok := svc.CreateJob(id, spec, now);
      case CloneStep(source, id) => var ok := svc.CloneJob(source, id, now);
      case PullStep(topic, n, timeout) => var started, found := svc.PullJobsOnce(topic, n, timeout, now);
      case StartStep(id, timeout) => var ok := svc.StartJob(id, timeout, now);
      case SucceedStep(id) => var ok := svc.SetJobAsSuccessful(id, now);
      case CancelStep(id) => var ok := svc.CancelJob(id, now);
      case FailStep(id) => var ok, reached := svc.FailJob(id, now);
      case DeleteStep(id) => var ok := svc.DeleteJob(id, now);
      case DeleteQueuedStep => svc.DeleteQueuedJobs(now);
      case DeleteAllStep => svc.DeleteAllJobs();
      case UnlockAllStep => svc.UnlockAllResources(now);
      case UnlockOneStep(r) => var ok := svc.UnlockResource(r, now);
      case TimeoutStep(id, timeout) => var ok := svc.ChangeVisibilityTimeoutJob(id, timeout);
    }
  }

  /** A good service stays good, whatever is asked of it. */
  method ServeRequest(svc: Service, step: Step, now: int)
    requires svc.Valid() && IsRequest(step) && Possible(svc.St(), step) && Good(svc.cfg, svc.St(), now)
    modifies svc.Repr()
    ensures svc.Valid() && Good(svc.cfg, svc.St(), now)
    ensures old(Holding(svc.St())) && !ReleasesLocks(step) ==> Holding(svc.St())
  {
    hide Service.Valid, Service.Repr, Service.St, Good, Apply, Possible, IsTick, Holding;
    ghost var s := svc.St();
    Request(svc, step, now);
    StepIsGood(svc.cfg, s, svc.St(), step, now);
  }

  /** A retention check that is switched off does nothing. */
  lemma NoRetention(cfg: Config, s: State, order: seq<JobId>, now: int)
    requires !cfg.retention
    ensures Apply(cfg, s, RetentionTick(order), now) == s
  {
  }

  /** The periodic tasks keep a good service good. */
  method ServeTick(svc: Service, step: Step, now: int)
    requires svc.Valid() && IsTick(step) && Good(svc.cfg, svc.St(), now)
    modifies svc.Repr()
    ensures svc.Valid() && Good(svc.cfg, svc.St(), now)
    ensures old(Holding(svc.St())) ==> Holding(svc.St())
  {
    ghost var s := svc.St();
    hide Service.Valid, Service.Repr, Service.St, Good, Apply, Holding, Possible;
    ghost var taken := Tick(svc, step, now);
    if taken.RetentionTick? && !svc.cfg.retention {
      NoRetention(svc.cfg, s, taken.order, now);
    } else {
      StepIsGood(svc.cfg, s, svc.St(), taken, now);
    }
  }

  lemma GoodIsLoadable(cfg: Config, s: State, before: int, now: int)
    requires Good(cfg, s, before)
    ensures Loadable(s.saved)
  {
    forall id | id in s.saved ensures s.saved[id].history != [] {
      assert Resting(cfg.maxRetry, s.jobs[id]);
    }
  }

  /** A service over the file of a provider, with its jobs loaded. */
  method Start(cfg: Config, file: map<JobId, JobValue>, now: int) returns (svc: Service)
    requires cfg.backendMaxJobs > 0 && Loadable(file)
    ensures svc.Valid() && svc.cfg == cfg && svc.St() == Restart.LoadJobs(file, now)
  {
    hide Restart.LoadJobs, Loadable;
    var bp := new Provider(cfg.backendMaxJobs, file);
    svc := NewService(cfg, bp);
    hide Service.Valid, Service.Repr;
    svc.LoadJobs(now);
  }

  /** The last save of the provider, and the start of a new service over the same file: when the save
      succeeded the new service has the jobs of the old one, in the same containers. */
  method StopAndStart(svc: Service, ghost before: int, now: int) returns (ok: bool, next: Service)
    requires svc.Valid() && Good(svc.cfg, svc.St(), before) && before <= now
    modifies svc.bp
    ensures ok ==> next.Valid() && next.cfg == svc.cfg
    ensures ok ==> ComesBack(old(svc.St()), next.St(), now) && Good(svc.cfg, next.St(), now)
  {
    hide Good, ComesBack, Restart.LoadJobs, Loadable;
    next := svc;
    ghost var s := svc.St();
    ok := svc.bp.SaveLocked();
    if ok {
      GoodIsLoadable(svc.cfg, s, before, now);
      hide Service.Valid, Service.Repr;
      next := Start(svc.cfg, svc.bp.file, now);
      RestartRoundTrip(svc.cfg, s, next.St(), before, now);
    }
  }
}
