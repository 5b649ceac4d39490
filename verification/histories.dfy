/** Histories along whole runs: they only grow, in the order of time, and no job is queued or started before its
    start time. */
module Histories {
  import opened Jobs
  import opened Resources
  import opened Scheduler
  import opened Invariants
  import opened Operations
  import opened Retries
  import opened Runs
  import opened Exact
  import opened Restart
  import opened Guarantees
  import opened Delays
  import opened Effects

  // ---------- one step ----------

  /** Events were appended at this time; the start time is what it was. */
  ghost predicate Later(j: JobValue, j': JobValue, now: int) {
    && j'.spec.startAfter == j.spec.startAfter && j.history <= j'.history
    && forall i :: |j.history| <= i < |j'.history| ==> j'.history[i].timestamp == now
  }

  /** The job has events of this time only. */
  ghost predicate NewAt(j: JobValue, now: int) {
    forall i :: 0 <= i < |j.history| ==> j.history[i].timestamp == now
  }

  /** Every job there is now is new, or was there with the beginning of its history. */
  ghost predicate Recorded(s: State, s': State, now: int) {
    forall id :: id in s'.jobs ==>
      if id in s.jobs then Later(s.jobs[id], s'.jobs[id], now) else NewAt(s'.jobs[id], now)
  }

  lemma AdmittedIsLater(j: JobValue, j': JobValue, now: int)
    requires SameOrAdmitted(j, j', now)
    ensures Later(j, j', now) && (NewAt(j, now) ==> NewAt(j', now))
  {
  }

  lemma LaterStill(j: JobValue, j1: JobValue, j': JobValue, now: int)
    requires Later(j, j1, now) && Later(j1, j', now)
    ensures Later(j, j', now)
  {
  }

  lemma {:induction false} AdmittedAreRecorded(s: State, s': State, now: int)
    requires s'.jobs.Keys <= s.jobs.Keys
    requires forall id :: id in s'.jobs ==> SameOrAdmitted(s.jobs[id], s'.jobs[id], now)
    ensures Recorded(s, s', now)
  {
    hide SameOrAdmitted, Later;
    forall id | id in s'.jobs ensures Later(s.jobs[id], s'.jobs[id], now) {
      AdmittedIsLater(s.jobs[id], s'.jobs[id], now);
    }
  }

  lemma {:induction false} BecameIsRecorded(s: State, s': State, id: JobId, j: JobValue, now: int)
    requires Became(s, s', id, j, now)
    requires if id in s.jobs then Later(s.jobs[id], j, now) else NewAt(j, now)
    ensures Recorded(s, s', now)
  {
    hide SameOrAdmitted, Later, NewAt;
    forall k | k in s'.jobs ensures if k in s.jobs then Later(s.jobs[k], s'.jobs[k], now) else NewAt(s'.jobs[k], now) {
      AdmittedIsLater(if k == id then j else s.jobs[k], s'.jobs[k], now);
      if k == id && id in s.jobs {
        LaterStill(s.jobs[id], j, s'.jobs[id], now);
      }
    }
  }

  lemma {:induction false} FailedAreRecorded(cfg: Config, s: State, s': State, ids: set<JobId>, now: int)
    requires AllFailedOnce(cfg, s, s', ids, now)
    ensures Recorded(s, s', now)
  {
    hide SameOrAdmitted, FailedOnce, Later;
    forall id | id in s'.jobs ensures Later(s.jobs[id], s'.jobs[id], now) {
      if id in ids {
        FailedIsLater(cfg.maxRetry, s.jobs[id], s'.jobs[id], now);
      } else {
        AdmittedIsLater(s.jobs[id], s'.jobs[id], now);
      }
    }
  }

  lemma FailedIsLater(maxRetry: nat, j: JobValue, j': JobValue, now: int)
    requires FailedOnce(maxRetry, j, j', now)
    ensures Later(j, j', now)
  {
  }

  lemma {:induction false} SameIsRecorded(s: State, s': State, now: int)
    requires s'.jobs.Keys <= s.jobs.Keys && forall id :: id in s'.jobs ==> s'.jobs[id] == s.jobs[id]
    ensures Recorded(s, s', now)
  {
  }

  lemma {:induction false} CreationRecords(cfg: Config, s: State, s': State, id: JobId, spec: JobSpec, now: int)
    requires Good(cfg, s, now) && id !in s.jobs && s' == CreateJob(cfg, s, id, spec, now)
    ensures Recorded(s, s', now)
  {
    hide Good, CreateJob, Refused, Became;
    CreateIsExact(cfg, s, s', id, spec, now);
    if Refused(cfg, s) {
      SameIsRecorded(s, s', now);
    } else {
      BecameIsRecorded(s, s', id, Scheduled(NewJob(id, spec, now), now), now);
    }
  }

  lemma {:induction false} PullRecords(cfg: Config, s: State, s': State, topic: Topic, n: nat, timeout: nat, now: int)
    requires Good(cfg, s, now) && s' == Pull(s, topic, n, timeout, now)
    ensures Recorded(s, s', now)
  {
    hide Inv, PendingDue, Conserving, Pull, Best, IdsOf;
    PullIsExact(cfg, s, s', topic, n, timeout, now);
  }

  lemma {:induction false} StartRecords(s: State, s': State, id: JobId, timeout: nat, now: int)
    requires id in s.jobs && s' == StartJob(s, id, timeout, now)
    ensures Recorded(s, s', now)
  {
    if s.jobs[id].state == IsQueued {
      StartedJobs(s, id, timeout, now);
      hide StartJob;
    }
  }

  lemma {:induction false} FinishRecords(cfg: Config, s: State, s': State, id: JobId, now: int)
    requires Good(cfg, s, now) && Running(s, id) && s' == Admit(Finish(s, id, now), now)
    ensures Recorded(s, s', now)
  {
    hide Inv, PendingDue, Conserving, Admit, Finish, Became, OnlyAdmittedLock, Released;
    FinishIsExact(cfg, s, s', id, now);
    BecameIsRecorded(s, s', id, s.jobs[id].AddEvent(Success, now), now);
  }

  lemma {:induction false} CancelRecords(cfg: Config, s: State, s': State, id: JobId, now: int)
    requires Good(cfg, s, now) && Running(s, id) && s' == Admit(Requeue(s, id, now), now)
    ensures Recorded(s, s', now)
  {
    hide Inv, PendingDue, Conserving, Admit, Requeue, Became, OnlyAdmittedLock;
    CancelIsExact(cfg, s, s', id, now);
    BecameIsRecorded(s, s', id, s.jobs[id].AddEvent(Cancel, now).AddEvent(Enqueue, now), now);
  }

  lemma {:induction false} FailRecords(cfg: Config, s: State, s': State, id: JobId, now: int)
    requires Good(cfg, s, now) && Running(s, id) && s' == FailJob(cfg, s, id, now)
    ensures Recorded(s, s', now)
  {
    hide Inv, PendingDue, Conserving, FailRunning, AllFailedOnce, Record;
    FailIsExact(cfg, s, Record(s, id, Fail, now), s', id, now);
    FailedAreRecorded(cfg, s, s', {id}, now);
  }

  lemma {:induction false} UnlockAllRecords(cfg: Config, s: State, s': State, now: int)
    requires Good(cfg, s, now) && s' == UnlockAll(s, now)
    ensures Recorded(s, s', now)
  {
    hide Inv, PendingDue, Conserving, UnlockAll, SameOrAdmitted, Recorded, OnlyAdmittedLock;
    UnlockAllIsExact(cfg, s, s', now);
    AdmittedAreRecorded(s, s', now);
  }

  lemma {:induction false} UnlockOneRecords(cfg: Config, s: State, s': State, r: Resource, now: int)
    requires Good(cfg, s, now) && s' == UnlockOne(s, r, now)
    ensures Recorded(s, s', now)
  {
    if r in s.locks {
      hide Inv, PendingDue, Conserving, UnlockOne, SameOrAdmitted, Recorded, OnlyAdmittedLock;
      UnlockOneIsExact(cfg, s, s', r, now);
      AdmittedAreRecorded(s, s', now);
    }
  }

  lemma {:induction false} AdmitRecords(cfg: Config, s: State, s': State, now: int)
    requires Good(cfg, s, now) && s' == Admit(s, now)
    ensures Recorded(s, s', now)
  {
    hide Inv, PendingDue, Conserving, Admit, SameOrAdmitted, Recorded, LocksOfOthersKept;
    PassIsShrunk(cfg, s, s', now);
    AdmittedAreRecorded(s, s', now);
  }

  lemma {:induction false} DeleteRecords(cfg: Config, s: State, s': State, id: JobId, now: int)
    requires Good(cfg, s, now) && s' == DeleteJob(s, id, now)
    ensures Recorded(s, s', now)
  {
    hide Good, DeleteJob, SameOrAdmitted, Recorded, OnlyAdmittedLock;
    DeleteIsExact(cfg, s, s', id, now);
    AdmittedAreRecorded(s, s', now);
  }

  lemma {:induction false} DeleteQueuedRecords(cfg: Config, s: State, s': State, now: int)
    requires Good(cfg, s, now) && s' == DeleteQueued(s, now)
    ensures Recorded(s, s', now)
  {
    hide Good, DeleteQueued, Recorded;
    DeleteQueuedIsExact(cfg, s, s', now);
    SameIsRecorded(s, s', now);
  }

  lemma {:induction false} RetryRecords(cfg: Config, s: State, s': State, now: int)
    requires Good(cfg, s, now) && s' == AttemptRetries(s, now)
    ensures Recorded(s, s', now)
  {
    hide Good, AttemptRetries, StillWaiting, JobBlocked, Served;
    AttemptRetriesServes(cfg, s, s', now);
  }

  lemma {:induction false} DelayRecords(cfg: Config, s: State, s': State, now: int)
    requires Good(cfg, s, now) && s' == CheckDelayed(s, now)
    ensures Recorded(s, s', now)
  {
    hide Good, CheckDelayed, SameOrAdmitted, Later;
    DelayedCheckIsExact(cfg, s, s', now);
    forall id | id in s'.jobs ensures Later(s.jobs[id], s'.jobs[id], now) {
      AdmittedIsLater(ReleasedNow(s.jobs[id], now), s'.jobs[id], now);
      ReleasedIsLater(s.jobs[id], now);
      LaterStill(s.jobs[id], ReleasedNow(s.jobs[id], now), s'.jobs[id], now);
    }
  }

  lemma ReleasedIsLater(j: JobValue, now: int)
    ensures Later(j, ReleasedNow(j, now), now)
  {
  }

  lemma {:induction false} TimeoutsRecord(cfg: Config, s: State, s': State, now: int)
    requires Good(cfg, s, now) && s' == CheckTimeouts(cfg, s, now)
    ensures Recorded(s, s', now)
  {
    hide Good, CheckTimeouts, AllFailedOnce;
    TimeoutsAreExact(cfg, s, s', now);
    FailedAreRecorded(cfg, s, s', TimedOutJobs(s, now), now);
  }

  lemma {:induction false} RetentionRecords(cfg: Config, s: State, s': State, order: seq<JobId>, now: int)
    requires Good(cfg, s, now) && ByLastUpdate(s, order) && s' == CheckRetention(cfg, s, order, now)
    ensures Recorded(s, s', now)
  {
    if cfg.retention {
      hide Good, CheckRetention, ByLastUpdate, SameOrAdmitted, Recorded, LocksOfOthersKept, AgeLimit, Excess;
      var k := RetainOldest(cfg, s, s', order, now);
      AdmittedAreRecorded(s, s', now);
    }
  }

  lemma {:induction false} RequestRecords(cfg: Config, s: State, s': State, step: Step, now: int)
    requires Good(cfg, s, now) && Possible(s, step) && s' == Apply(cfg, s, step, now)
    ensures Recorded(s, s', now)
  {
    hide Good, Recorded, Admit, Pull, StartJob, Finish, Requeue, FailJob, DeleteJob, DeleteQueued, UnlockAll, UnlockOne;
    hide CreateJob, AttemptRetries, CheckDelayed, CheckTimeouts, CheckRetention, ByLastUpdate;
    match step
    case CreateStep(id, spec) => CreationRecords(cfg, s, s', id, spec, now);
    case CloneStep(source, id) =>
      if source in s.jobs {
        CreationRecords(cfg, s, s', id, s.jobs[source].spec, now);
      } else {
        SameIsRecorded(s, s', now);
      }
    case PullStep(topic, n, timeout) => PullRecords(cfg, s, s', topic, n, timeout, now);
    case StartStep(id, timeout) =>
      if id in s.jobs {
        StartRecords(s, s', id, timeout, now);
      } else {
        SameIsRecorded(s, s', now);
      }
    case SucceedStep(id) =>
      if Running(s, id) {
        FinishRecords(cfg, s, s', id, now);
      } else {
        SameIsRecorded(s, s', now);
      }
    case CancelStep(id) =>
      if Running(s, id) {
        CancelRecords(cfg, s, s', id, now);
      } else {
        SameIsRecorded(s, s', now);
      }
    case FailStep(id) =>
      if Running(s, id) {
        FailRecords(cfg, s, s', id, now);
      } else {
        FailNothing(cfg, s, id, now);
        SameIsRecorded(s, s', now);
      }
    case DeleteStep(id) => DeleteRecords(cfg, s, s', id, now);
    case DeleteQueuedStep => DeleteQueuedRecords(cfg, s, s', now);
    case DeleteAllStep => SameIsRecorded(s, s', now);
    case UnlockAllStep => UnlockAllRecords(cfg, s, s', now);
    case UnlockOneStep(r) => UnlockOneRecords(cfg, s, s', r, now);
    case TimeoutStep(id, timeout) => ChangeRecords(s, s', id, timeout, now);
    case AdmitTick => AdmitRecords(cfg, s, s', now);
    case RetryTick => RetryRecords(cfg, s, s', now);
    case DelayTick => DelayRecords(cfg, s, s', now);
    case TimeoutTick => TimeoutsRecord(cfg, s, s', now);
    case RetentionTick(order) => RetentionRecords(cfg, s, s', order, now);
  }

  lemma FailNothing(cfg: Config, s: State, id: JobId, now: int)
    requires !Running(s, id)
    ensures FailJob(cfg, s, id, now) == s
  {
  }

  lemma ChangeRecords(s: State, s': State, id: JobId, timeout: nat, now: int)
    requires s' == ChangeTimeout(s, id, timeout)
    ensures Recorded(s, s', now)
  {
  }

  /** Whatever happens to the service, an operation, a periodic task or a restart: the history of every job that
      stays is the beginning of what it is afterwards, and each new event has the time of the step. */
  lemma {:induction false} EventRecords(cfg: Config, s: State, s': State, e: Event, now: int)
    requires Good(cfg, s, now) && Happens(s, e) && s' == Next(cfg, s, e, now)
    ensures Recorded(s, s', now)
  {
    hide Good, Apply, LoadJobs, Recorded, Possible;
    match e
    case Perform(step) => RequestRecords(cfg, s, s', step, now);
    case Restart =>
      hide SameItems, AllDueAt, Holding;
      RestartRoundTrip(cfg, s, s', now, now);
      SameIsRecorded(s, s', now);
  }

  // ---------- whole runs ----------

  /** The events of a job are in the order of time, none later than `now`. */
  ghost predicate InTime(j: JobValue, now: int) {
    && (forall i, k :: 0 <= i < k < |j.history| ==> j.history[i].timestamp <= j.history[k].timestamp)
    && forall i :: 0 <= i < |j.history| ==> j.history[i].timestamp <= now
  }

  ghost predicate AllInTime(jobs: map<JobId, JobValue>, now: int) {
    forall id :: id in jobs ==> InTime(jobs[id], now)
  }

  lemma LaterIsInTime(j: JobValue, j': JobValue, before: int, now: int)
    requires InTime(j, before) && before <= now && Later(j, j', now)
    ensures InTime(j', now)
  {
    forall i, k | 0 <= i < k < |j'.history| ensures j'.history[i].timestamp <= j'.history[k].timestamp {
      assert i < |j.history| ==> j'.history[i] == j.history[i];
      assert k < |j.history| ==> j'.history[k] == j.history[k];
    }
    forall i | 0 <= i < |j'.history| ensures j'.history[i].timestamp <= now {
      assert i < |j.history| ==> j'.history[i] == j.history[i];
    }
  }

  lemma {:induction false} RecordedIsInTime(s: State, s': State, before: int, now: int)
    requires AllInTime(s.jobs, before) && before <= now && Recorded(s, s', now)
    ensures AllInTime(s'.jobs, now)
  {
    hide InTime, Later;
    forall id | id in s'.jobs ensures InTime(s'.jobs[id], now) {
      if id in s.jobs {
        LaterIsInTime(s.jobs[id], s'.jobs[id], before, now);
      } else {
        NewIsInTime(s'.jobs[id], now);
      }
    }
  }

  lemma NewIsInTime(j: JobValue, now: int)
    requires NewAt(j, now)
    ensures InTime(j, now)
  {
  }

  lemma {:induction false} LoadedInTime(cfg: Config, jobs: map<JobId, JobValue>, s': State, now: int)
    requires Storable(cfg, jobs, now) && s' == LoadJobs(jobs, now) && AllInTime(jobs, now)
    ensures AllInTime(s'.jobs, now)
  {
    hide Storable, LoadJobs, Inv, PendingDue, NothingIdle, Holding, Exclusive, InTime, SameOrAdmitted;
    LoadIsExact(cfg, jobs, s', now);
    forall id | id in s'.jobs ensures InTime(s'.jobs[id], now) {
      var j := Rescheduled(jobs[id], now);
      ScheduledIsLater(jobs[id], now);
      hide Rescheduled;
      AdmittedIsLater(j, s'.jobs[id], now);
      LaterStill(jobs[id], j, s'.jobs[id], now);
      LaterIsInTime(jobs[id], s'.jobs[id], now, now);
    }
  }

  lemma ScheduledIsLater(j: JobValue, now: int)
    ensures Later(j, Rescheduled(j, now), now)
  {
  }

  /** In every state of every run the events of every job are in the order of time. */
  lemma {:induction false} EveryHistoryIsInTime(cfg: Config, run: Run, i: nat)
    requires IsRun(cfg, run) && AllInTime(run.stored, run.loadedAt) && i < |run.states|
    ensures i <= |run.times| && AllInTime(run.states[i].jobs, TimeOf(run, i))
  {
    hide Good, Next, Storable, NothingIdle, LoadJobs, AllInTime, Happens;
    if i == 0 {
      LoadedInTime(cfg, run.stored, run.states[0], run.loadedAt);
    } else {
      EveryHistoryIsInTime(cfg, run, i - 1);
      EveryStateIsGood(cfg, run, i - 1);
      assert EventAt(cfg, run, i - 1);
      LaterIsDue(cfg, run.states[i - 1], TimeOf(run, i - 1), run.times[i - 1]);
      EventRecords(cfg, run.states[i - 1], run.states[i], run.events[i - 1], run.times[i - 1]);
      hide Recorded;
      RecordedIsInTime(run.states[i - 1], run.states[i], TimeOf(run, i - 1), run.times[i - 1]);
    }
  }

  /** An event after the second one, or a later one than a delay, comes after the job became pending. */
  lemma {:induction false} PendingCameFirst(j: JobValue, k: nat) returns (p: nat)
    requires Word(j.history) && k < |j.history|
    requires j.history[k].eventType != Create && j.history[k].eventType != Delay
    ensures p <= k && j.history[p].eventType == Pending
  {
    assert forall i :: 0 < i < |j.history| ==> MayFollow(j.history[i - 1].eventType, j.history[i].eventType);
    if j.history[k].eventType == Pending {
      p := k;
    } else {
      assert MayFollow(j.history[k - 1].eventType, j.history[k].eventType);
      p := PendingCameFirst(j, k - 1);
    }
  }

  lemma {:induction false} NotEarly(j: JobValue, k: nat, now: int)
    requires Word(j.history) && Timely(j) && InTime(j, now) && k < |j.history|
    requires j.history[k].eventType != Create && j.history[k].eventType != Delay
    ensures j.spec.startAfter == 0 || j.spec.startAfter <= j.history[k].timestamp
  {
    var p := PendingCameFirst(j, k);
  }

  /** In every state of every run: whatever happened to a job after its creation and its delay, its being queued and
      each of its starts among them, happened when its start time was reached. */
  lemma {:induction false} NothingHappensEarly(cfg: Config, run: Run, i: nat, id: JobId, k: nat)
    requires IsRun(cfg, run) && AllInTime(run.stored, run.loadedAt) && i < |run.states|
    requires id in run.states[i].jobs && k < |run.states[i].jobs[id].history|
    requires var e := run.states[i].jobs[id].history[k].eventType; e != Create && e != Delay
    ensures var j := run.states[i].jobs[id];
            j.spec.startAfter == 0 || j.spec.startAfter <= j.history[k].timestamp
  {
    var j := run.states[i].jobs[id];
    EveryHistoryIsInTime(cfg, run, i);
    EveryStateIsGood(cfg, run, i);
    assert Resting(cfg.maxRetry, j) && InTime(j, TimeOf(run, i));
    hide IsRun, Good, AllInTime, InTime;
    NotEarly(j, k, TimeOf(run, i));
  }
}
