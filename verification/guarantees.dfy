/** What holds in every state of every run: from loaded jobs or none, through operations, periodic tasks
    and restarts. */
module Guarantees {
  import opened Jobs
  import opened PullOrder
  import opened Metrics
  import opened Scheduler
  import opened Invariants
  import opened Operations
  import opened Runs
  import opened Exact
  import opened Restart

  /** An operation or a periodic task, or a stop and a start with the jobs the backend kept. */
  datatype Event = Perform(step: Step) | Restart

  /** A run: the service loads the stored jobs, and the i-th event, at the i-th time, leads from the i-th
      state to the next. */
  datatype Run = Run(
    stored: map<JobId, JobValue>,
    loadedAt: int,
    states: seq<State>,
    events: seq<Event>,
    times: seq<int>)

  ghost predicate Happens(s: State, e: Event) {
    e.Perform? ==> Possible(s, e.step)
  }

  ghost function Next(cfg: Config, s: State, e: Event, now: int): State {
    match e
    case Perform(step) => Apply(cfg, s, step, now)
    case Restart => LoadJobs(s.saved, now)
  }

  ghost predicate EventAt(cfg: Config, run: Run, i: nat)
    requires i < |run.events| == |run.times| && |run.states| == |run.events| + 1
  {
    && Happens(run.states[i], run.events[i])
    && run.states[i + 1] == Next(cfg, run.states[i], run.events[i], run.times[i])
    && TimeOf(run, i) <= run.times[i]
  }

  /** The service starts with stored jobs that leave no work undone. */
  ghost predicate IsRun(cfg: Config, run: Run) {
    && |run.events| == |run.times| && |run.states| == |run.events| + 1
    && Storable(cfg, run.stored, run.loadedAt) && NothingIdle(run.stored)
    && run.states[0] == LoadJobs(run.stored, run.loadedAt)
    && forall i :: 0 <= i < |run.events| ==> EventAt(cfg, run, i)
  }

  /** The time of the last event before a state. */
  function TimeOf(run: Run, i: nat): int
    requires i <= |run.times|
  {
    if i == 0 then run.loadedAt else run.times[i - 1]
  }

  predicate Unlocks(e: Event) {
    e.Perform? && ReleasesLocks(e.step)
  }

  lemma EmptyIsGood(cfg: Config, now: int)
    ensures Good(cfg, EMPTY, now) && Holding(EMPTY)
  {
    ClearingKeepsCounts(map[]);
    assert Cleared(map[]) == map[];
    assert forall st :: InState(map[], st) == {};
  }

  /** A service that finds no stored job starts empty. */
  lemma NothingStored(cfg: Config, now: int)
    ensures Storable(cfg, map[], now) && NothingIdle(map[]) && Exclusive(map[])
    ensures LoadJobs(map[], now) == EMPTY
  {
    assert forall st :: InState(map[], st) == {};
    assert Reload(map[]) == map[];
    assert SortedIds({}) == [];
    assert LocksCounted(EMPTY) == EMPTY;
  }

  lemma {:induction false} EventIsGood(cfg: Config, s: State, s': State, e: Event, now: int)
    requires Good(cfg, s, now) && Happens(s, e) && s' == Next(cfg, s, e, now)
    ensures Good(cfg, s', now) && (Holding(s) && !Unlocks(e) ==> Holding(s'))
  {
    hide Good, Apply, Holding, LoadJobs, SameItems, AllDueAt;
    match e
    case Perform(step) => StepIsGood(cfg, s, s', step, now);
    case Restart => RestartRoundTrip(cfg, s, s', now, now);
  }

  /** Container coherence, ownership of locks, exact counters, the backend's mirror and work
      conservation hold in every state of every run; and every running or queued job holds its
      resources, if no two stored ones claimed the same and as long as no lock was released by an
      administrator. */
  lemma {:induction false} EveryStateIsGood(cfg: Config, run: Run, i: nat)
    requires IsRun(cfg, run) && i < |run.states|
    ensures Good(cfg, run.states[i], TimeOf(run, i))
    ensures Exclusive(run.stored) && (forall k :: 0 <= k < i ==> !Unlocks(run.events[k])) ==> Holding(run.states[i])
  {
    hide Good, Next, Holding, Happens, Storable, NothingIdle, Exclusive, Rescheduled, SameOrAdmitted, LoadJobs;
    if i == 0 {
      LoadIsExact(cfg, run.stored, run.states[0], run.loadedAt);
    } else {
      EveryStateIsGood(cfg, run, i - 1);
      assert EventAt(cfg, run, i - 1);
      LaterIsDue(cfg, run.states[i - 1], TimeOf(run, i - 1), run.times[i - 1]);
      EventIsGood(cfg, run.states[i - 1], run.states[i], run.events[i - 1], run.times[i - 1]);
    }
  }

  // ---------- resources ----------

  lemma RunsAreExclusive(cfg: Config, run: Run, i: nat)
    requires IsRun(cfg, run) && i < |run.states|
    requires Exclusive(run.stored) && forall k :: 0 <= k < i ==> !Unlocks(run.events[k])
    ensures forall a, b, r :: Uses(run.states[i].jobs, a, r) && Uses(run.states[i].jobs, b, r) ==> a == b
    ensures forall r, id :: (r in run.states[i].locks && run.states[i].locks[r] == id) <==> Uses(run.states[i].jobs, id, r)
  {
    EveryStateIsGood(cfg, run, i);
    ResourcesAreExclusive(run.states[i]);
  }

  // ---------- histories ----------

  ghost predicate Accounted(maxRetry: nat, j: JobValue) {
    && Wordy(j)
    && CountEvents(j.history, Start)
       == CountEvents(j.history, Fail) + CountEvents(j.history, Cancel) + CountEvents(j.history, Success)
          + (if j.state == IsRunning then 1 else 0)
    && CountEvents(j.history, Fail) <= FailureLimit(maxRetry)
    && (j.state == IsFailed <==> CountEvents(j.history, Fail) == FailureLimit(maxRetry))
  }

  lemma RestingIsAccounted(maxRetry: nat, j: JobValue)
    requires Resting(maxRetry, j)
    ensures Accounted(maxRetry, j)
  {
    StartsAreAccounted(j.history);
  }

  /** In every run, every start of every job is accounted for by one outcome, and no job fails
      more often than the limit, which is reached exactly by the terminated ones. */
  lemma EveryHistoryIsAccounted(cfg: Config, run: Run, i: nat, id: JobId)
    requires IsRun(cfg, run) && i < |run.states| && id in run.states[i].jobs
    ensures Accounted(cfg.maxRetry, run.states[i].jobs[id])
  {
    EveryStateIsGood(cfg, run, i);
    assert Resting(cfg.maxRetry, run.states[i].jobs[id]);
    RestingIsAccounted(cfg.maxRetry, run.states[i].jobs[id]);
  }
}
