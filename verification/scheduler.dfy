/** The scheduler as a state machine: what each critical section of the service does to the
    scheduler state (service/service.go). The clock is read once in a critical section. */
module Scheduler {
  import opened Jobs
  import opened Ordering
  import opened Integers
  import opened PullOrder
  import opened PriorityQueues
  import opened Resources
  import opened Metrics

  datatype Config = Config(
    maxAllowedJobs: nat,          // 0: no limit
    backendMaxJobs: nat,          // 0: no limit
    maxRetry: nat,
    backoff: nat -> nat,          // nanoseconds to wait after so many failures
    retention: bool,
    maxCompleted: int,            // negative: no limit
    maxAge: int)                  // seconds; negative: no limit

  datatype State = State(
    jobs: map<JobId, JobValue>,
    pending: set<JobId>,
    queued: set<JobId>,
    retry: seq<Item<JobId>>,
    delayed: seq<Item<JobId>>,
    locks: LockTable,
    wake: nat,                    // how often the channel of the long polls was closed and replaced
    saved: map<JobId, JobValue>,  // the copies the backend keeps
    metrics: Table)

  const EMPTY := State(map[], {}, {}, [], [], map[], 0, map[], map[])

  ghost function NeedsOf(j: JobValue): set<Resource> {
    NamesIn(j.spec.lockResources)
  }

  ghost predicate JobBlocked(s: State, id: JobId)
    requires id in s.jobs
  {
    Blocked(s.locks, id, NeedsOf(s.jobs[id]))
  }

  /** The start time of the job is not reached. */
  predicate TooEarly(j: JobValue, now: int) {
    j.spec.startAfter != 0 && j.spec.startAfter > now
  }

  // ---------- history, observers, locks ----------

  /** addHistoryEventLocked: the index of the queued jobs follows the state. */
  ghost function AddHistoryEvent(s: State, id: JobId, e: EventType, now: int): State
    requires id in s.jobs
  {
    var j := s.jobs[id].AddEvent(e, now);
    var index := if s.jobs[id].state == IsQueued then s.queued - {id} else s.queued;
    s.(jobs := s.jobs[id := j], queued := if j.state == IsQueued then index + {id} else index)
  }

  /** The observers are told of the last event of a job. */
  ghost function Notify(s: State, id: JobId): State
    requires id in s.jobs
  {
    var j := s.jobs[id];
    s.(saved := if id in s.saved then s.saved[id := j] else s.saved,
       metrics := Notified(s.metrics, j.spec.topic, j.previousState, j.state))
  }

  ghost function Record(s: State, id: JobId, e: EventType, now: int): State
    requires id in s.jobs
  {
    Notify(AddHistoryEvent(s, id, e, now), id)
  }

  /** lockResourcesLocked, when nothing blocks the job. */
  ghost function LockFor(s: State, id: JobId): State
    requires id in s.jobs
  {
    var needs := NeedsOf(s.jobs[id]);
    s.(locks := Locked(s.locks, id, needs),
       metrics := LocksNotified(s.metrics, s.jobs[id].spec.topic, |Acquired(s.locks, needs)|))
  }

  /** unlockJobResourcesLocked. */
  ghost function UnlockFor(s: State, id: JobId): State
    requires id in s.jobs
  {
    var needs := NeedsOf(s.jobs[id]);
    var freed := Freed(s.locks, id, needs);
    if freed == {} then s else
    s.(locks := Released(s.locks, id, needs),
       metrics := LocksNotified(s.metrics, s.jobs[id].spec.topic, -|freed|))
  }

  ghost function WakePolls(s: State): State {
    s.(wake := s.wake + 1)
  }

  // ---------- admission ----------

  /** retryJobLocked: a job nothing blocks takes its resources and is queued. */
  ghost function MakeQueued(s: State, id: JobId, now: int): State
    requires id in s.jobs
  {
    WakePolls(Record(LockFor(s, id), id, Enqueue, now))
  }

  /** enqueueJobLocked: a pending job stays pending when it is too early or blocked. */
  ghost function EnqueueJob(s: State, id: JobId, now: int): State
    requires id in s.jobs
  {
    if TooEarly(s.jobs[id], now) || JobBlocked(s, id) then s
    else MakeQueued(s, id, now).(pending := s.pending - {id})
  }

  /** The pending jobs that no lock blocks. */
  ghost function Candidates(s: State): set<JobId> {
    set id | id in s.pending && id in s.jobs && !JobBlocked(s, id)
  }

  ghost function EnqueueAll(s: State, q: seq<Ticket>, now: int): State
    decreases |q|
  {
    if q == [] then s
    else EnqueueAll(if q[0].id in s.jobs then EnqueueJob(s, q[0].id, now) else s, q[1..], now)
  }

  /** The candidates in pull order. */
  ghost function PassOrder(s: State): (q: seq<Ticket>)
    ensures forall t :: t in q <==> t.id in Candidates(s) && t == TicketOf(t.id, s.jobs[t.id])
    ensures Ascending(Before, q)
  {
    var ts := TicketsOf(s.jobs, Candidates(s));
    BeforeIsStrictTotal(ts);
    Arrange(Before, ts)
  }

  /** tryEnqueuePendingJobsLocked. */
  ghost function Admit(s: State, now: int): State {
    EnqueueAll(s, PassOrder(s), now)
  }

  // ---------- creation ----------

  ghost function SetDelayed(s: State, id: JobId, now: int): State
    requires id in s.jobs
  {
    var s1 := AddHistoryEvent(s, id, Delay, now);
    Notify(s1.(delayed := Inserted(s1.delayed, Item(id, -s1.jobs[id].spec.startAfter))), id)
  }

  ghost function SetPending(s: State, id: JobId, now: int): State
    requires id in s.jobs
  {
    var s1 := AddHistoryEvent(s, id, Pending, now);
    Notify(s1.(pending := s1.pending + {id}), id)
  }

  /** The new job and its creation event; a full backend would not keep it. */
  ghost function Born(cfg: Config, s: State, id: JobId, spec: JobSpec, now: int): State {
    var j := NewJob(id, spec, now);
    s.(jobs := s.jobs[id := j],
       saved := if cfg.backendMaxJobs > 0 && |s.saved| == cfg.backendMaxJobs then s.saved else s.saved[id := j],
       metrics := Notified(s.metrics, spec.topic, j.previousState, j.state))
  }

  ghost function Schedule(s: State, id: JobId, now: int): State
    requires id in s.jobs
  {
    if TooEarly(s.jobs[id], now) then SetDelayed(s, id, now) else SetPending(s, id, now)
  }

  ghost predicate Refused(cfg: Config, s: State) {
    || (cfg.maxAllowedJobs != 0 && |s.jobs| >= cfg.maxAllowedJobs)
    || (cfg.backendMaxJobs > 0 && |s.jobs| >= cfg.backendMaxJobs)
  }

  /** CreateJob and CloneJob with the fresh id the generator chose. */
  ghost function CreateJob(cfg: Config, s: State, id: JobId, spec: JobSpec, now: int): State
  {
    if Refused(cfg, s) then s else Admit(Schedule(Born(cfg, s, id, spec, now), id, now), now)
  }

  // ---------- the life of a job ----------

  /** startJobLocked, for a queued job. */
  ghost function StartJob(s: State, id: JobId, timeout: nat, now: int): State
    requires id in s.jobs
  {
    if s.jobs[id].state != IsQueued then s else
    var s1 := AddHistoryEvent(s.(pending := s.pending - {id}), id, Start, now);
    var j := s1.jobs[id];
    Notify(s1.(jobs := s1.jobs[id := j.(spec := j.spec.(visibilityTimeout := timeout))]), id)
  }

  ghost function StartAll(s: State, q: seq<Ticket>, timeout: nat, now: int): State
    decreases |q|
  {
    if q == [] then s
    else StartAll(if q[0].id in s.jobs then StartJob(s, q[0].id, timeout, now) else s, q[1..], timeout, now)
  }

  /** The candidates of a pull, in pull order. */
  ghost function Best(s: State, topic: Topic, n: nat): seq<Ticket> {
    FirstTickets(TicketsOf(s.jobs, s.queued), topic, n)
  }

  /** pullJobsOnce. */
  ghost function Pull(s: State, topic: Topic, n: nat, timeout: nat, now: int): State {
    StartAll(s, Best(s, topic, n), timeout, now)
  }

  /** SetJobAsSuccessful, for a running job. */
  ghost function Finish(s: State, id: JobId, now: int): State
    requires id in s.jobs
  {
    Record(UnlockFor(s, id), id, Success, now)
  }

  /** CancelJob, for a running job: back to the queue. */
  ghost function Requeue(s: State, id: JobId, now: int): State
    requires id in s.jobs
  {
    WakePolls(Record(Record(s, id, Cancel, now), id, Enqueue, now))
  }

  /** onJobFailedTooManyTimesLocked. */
  ghost function GiveUp(s: State, id: JobId, now: int): State
    requires id in s.jobs
  {
    Notify(UnlockFor(AddHistoryEvent(s, id, Terminate, now), id), id)
  }

  /** retryJobLaterLocked, before the admission pass. */
  ghost function Hide(s: State, id: JobId, retryAt: int, now: int): State
    requires id in s.jobs
  {
    var s1 := Notify(UnlockFor(AddHistoryEvent(s, id, EventType.Hide, now), id), id);
    s1.(retry := Inserted(s1.retry, Item(id, -retryAt)))
  }

  /** What becomes of a job whose failure was just recorded. */
  ghost function Failed(cfg: Config, s: State, id: JobId, now: int): State
    requires id in s.jobs
  {
    var failures := s.jobs[id].Failures();
    if failures >= cfg.maxRetry then Admit(GiveUp(s, id, now), now)
    else
      var delay := cfg.backoff(failures);
      if delay == 0 && !JobBlocked(s, id) then MakeQueued(s, id, now)
      else Admit(Hide(s, id, now + delay / 1_000_000, now), now)
  }

  /** failJobLocked, for a running job. */
  ghost function FailRunning(cfg: Config, s: State, id: JobId, now: int): State
    requires id in s.jobs
  {
    Failed(cfg, Record(s, id, Fail, now), id, now)
  }

  /** deleteJobLocked, before the admission pass. */
  ghost function Remove(s: State, id: JobId, now: int): State
    requires id in s.jobs
  {
    var s1 := AddHistoryEvent(UnlockFor(s, id), id, Delete, now);
    var j := s1.jobs[id];
    s1.(retry := Removed(s1.retry, id),
        delayed := Removed(s1.delayed, id),
        jobs := s1.jobs - {id},
        pending := s1.pending - {id},
        saved := s1.saved - {id},
        metrics := Notified(s1.metrics, j.spec.topic, j.previousState, IsDeleted))
  }

  ghost function DeleteJob(s: State, id: JobId, now: int): State
  {
    if id in s.jobs then Admit(Remove(s, id, now), now) else s
  }

  // ---------- the periodic tasks ----------

  /** The loop of AttemptJobRetries: `held` is what was taken out and could not be retried. */
  ghost function RetryDue(s: State, held: seq<Item<JobId>>, now: int): State
    decreases |s.retry|
  {
    if s.retry == [] || s.retry[0].priority < -now then s.(retry := Reinserted(s.retry, held)) else
    var w := s.retry[0];
    var s1 := s.(retry := s.retry[1..]);
    if w.value !in s1.jobs || JobBlocked(s1, w.value) then RetryDue(s1, held + [w], now)
    else RetryDue(MakeQueued(s1, w.value, now), held, now)
  }

  ghost function Reinserted(q: seq<Item<JobId>>, held: seq<Item<JobId>>): seq<Item<JobId>>
    decreases |held|
  {
    if held == [] then q else Reinserted(Inserted(q, held[0]), held[1..])
  }

  ghost function AttemptRetries(s: State, now: int): State {
    RetryDue(s, [], now)
  }

  /** The loop of CheckDelayedJobs. */
  ghost function ReleaseDue(s: State, now: int): State
    decreases |s.delayed|
  {
    if s.delayed == [] || s.delayed[0].priority < -now then s else
    var id := s.delayed[0].value;
    var s1 := s.(delayed := s.delayed[1..]);
    ReleaseDue(if id in s1.jobs then SetPending(s1, id, now) else s1, now)
  }

  ghost function CheckDelayed(s: State, now: int): State {
    var s1 := ReleaseDue(s, now);
    if |s1.delayed| == |s.delayed| then s1 else Admit(s1, now)
  }

  /** The visibility timeout (seconds) of a running job is over. */
  predicate TimedOut(j: JobValue, now: int) {
    j.state == IsRunning && now - j.LastUpdate() >= Int64(j.spec.visibilityTimeout * 1000)
  }

  ghost function TimedOutJobs(s: State, now: int): set<JobId> {
    set id | id in s.jobs && TimedOut(s.jobs[id], now)
  }

  /** failJobLocked: only a running job fails. */
  ghost function FailJob(cfg: Config, s: State, id: JobId, now: int): State {
    if id in s.jobs && s.jobs[id].state == IsRunning then FailRunning(cfg, s, id, now) else s
  }

  ghost function FailAll(cfg: Config, s: State, ids: seq<JobId>, now: int): State
    decreases |ids|
  {
    if ids == [] then s else FailAll(cfg, FailJob(cfg, s, ids[0], now), ids[1..], now)
  }

  ghost function CheckTimeouts(cfg: Config, s: State, now: int): State {
    var ids := SortedIds(TimedOutJobs(s, now));
    if ids == [] then s else Admit(FailAll(cfg, s, ids, now), now)
  }

  ghost function DeleteEach(s: State, ids: seq<JobId>, now: int): State
    decreases |ids|
  {
    if ids == [] then s else DeleteEach(DeleteJob(s, ids[0], now), ids[1..], now)
  }

  predicate Waiting(st: JobState) {
    st == IsCreated || st == IsDelayed || st == IsPending || st == IsQueued
  }

  ghost function WaitingJobs(s: State): set<JobId> {
    set id | id in s.jobs && Waiting(s.jobs[id].state)
  }

  ghost function DeleteQueued(s: State, now: int): State {
    DeleteEach(s, SortedIds(WaitingJobs(s)), now)
  }

  ghost function CompletedJobs(s: State): set<JobId> {
    set id | id in s.jobs && s.jobs[id].IsCompleted()
  }

  ghost function LastUpdateOf(s: State, id: JobId): int {
    if id in s.jobs then s.jobs[id].LastUpdate() else 0
  }

  /** An order the retention check may visit the completed jobs in: each once, by last update
      (the library sort leaves equal keys in any order). */
  ghost predicate ByLastUpdate(s: State, order: seq<JobId>) {
    && (forall id :: id in order <==> id in CompletedJobs(s))
    && Distinct(order)
    && forall i, j :: 0 <= i < j < |order| ==> LastUpdateOf(s, order[i]) <= LastUpdateOf(s, order[j])
  }

  /** The age limit in milliseconds. */
  function AgeLimit(cfg: Config): int {
    if cfg.maxAge >= 0 then Int64(cfg.maxAge * 1000) else MAX_INT64
  }

  function Excess(cfg: Config, completed: nat): nat {
    if cfg.maxCompleted >= 0 && completed > cfg.maxCompleted then completed - cfg.maxCompleted else 0
  }

  /** The loop of deleteOldCompletedJobsLocked. */
  ghost function Retain(cfg: Config, s: State, order: seq<JobId>, excess: nat, deleted: nat, now: int): State
    decreases |order|
  {
    if order == [] then s
    else if order[0] in s.jobs && (deleted < excess || now - s.jobs[order[0]].LastUpdate() >= AgeLimit(cfg))
    then Retain(cfg, DeleteJob(s, order[0], now), order[1..], excess, deleted + 1, now)
    else Retain(cfg, s, order[1..], excess, deleted, now)
  }

  ghost function CheckRetention(cfg: Config, s: State, order: seq<JobId>, now: int): State {
    if !cfg.retention then s else Retain(cfg, s, order, Excess(cfg, |order|), 0, now)
  }

  // ---------- administration ----------

  ghost function DeleteAll(s: State): State {
    s.(retry := [], delayed := [], jobs := map[], pending := {}, queued := {}, locks := map[],
       metrics := Cleared(AllUnlocked(s.metrics)), saved := map[])
  }

  ghost function UnlockAll(s: State, now: int): State {
    Admit(s.(locks := map[], metrics := AllUnlocked(s.metrics)), now)
  }

  /** The topic the metrics are told of: that of the holder, or the empty one. */
  ghost function HolderTopic(s: State, r: Resource): Topic {
    if r in s.locks && s.locks[r] in s.jobs then s.jobs[s.locks[r]].spec.topic else Topic("")
  }

  ghost function UnlockOne(s: State, r: Resource, now: int): State {
    if r !in s.locks then s
    else Admit(s.(locks := s.locks - {r}, metrics := LocksNotified(s.metrics, HolderTopic(s, r), -1)), now)
  }

  /** The backend stores the change directly, if it knows the job. */
  ghost function ChangeTimeout(s: State, id: JobId, timeout: nat): State {
    if id !in s.jobs then s else
    var j := s.jobs[id].(spec := s.jobs[id].spec.(visibilityTimeout := timeout));
    s.(jobs := s.jobs[id := j], saved := if id in s.saved then s.saved[id := j] else s.saved)
  }
}
