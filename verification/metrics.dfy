/** Counters kept by topic, one event at a time (metrics/servicemetrics.go). */
module Metrics {
  import opened Jobs
  import opened Ordering
  import opened Resources

  /** The counters of a topic: those of JobMetrics, the current number of jobs by state (one
      field a state in the source) being one table, and the job counts of TopicMetrics. */
  datatype Counters = Counters(
    resourcesLocked: nat, deleted: nat, existing: nat, status: map<JobState, nat>, total: nat, active: nat)

  type Table = map<Topic, Counters>

  const ZERO := Counters(0, 0, 0, map[], 0, 0)

  /** The states that have a current-number counter. */
  predicate Tracked(s: JobState) {
    s != NoState && s != IsDeleted
  }

  function Status(c: Counters, s: JobState): nat {
    if s in c.status then c.status[s] else 0
  }

  /** Unsigned counters stop at 0. */
  function Decrement(n: nat): nat {
    if n > 0 then n - 1 else 0
  }

  predicate IsActive(s: JobState) {
    s == IsPending || s == IsQueued || s == IsRunning
  }

  // ---------- the counters as values ----------

  function Left(c: Counters, s: JobState): Counters {
    if s == NoState then c
    else if s == IsDeleted then c.(deleted := Decrement(c.deleted))
    else c.(status := c.status[s := Decrement(Status(c, s))])
  }

  function Entered(c: Counters, s: JobState): Counters {
    if s == NoState then c
    else if s == IsDeleted then c.(existing := Decrement(c.existing), deleted := c.deleted + 1)
    else c.(existing := c.existing + (if s == IsCreated then 1 else 0),
            status := c.status[s := Status(c, s) + 1])
  }

  /** OnJobStateChange. */
  function StateChanged(c: Counters, previous: JobState, next: JobState): Counters {
    if previous == next then c else Entered(Left(c, previous), next)
  }

  /** The job counts of UpdateTopicMetrics. */
  function TopicChanged(c: Counters, previous: JobState, next: JobState): Counters {
    var d := if IsActive(previous) then c.(active := Decrement(c.active)) else c;
    if IsActive(next) then d.(active := d.active + 1)
    else if next == IsCreated then d.(total := d.total + 1)
    else if next == IsDeleted then d.(total := Decrement(d.total))
    else d
  }

  /** OnJobStateChange along the states of a loaded history. */
  function Replayed(c: Counters, h: seq<HistoryEvent>): Counters {
    if h == [] then c
    else StateChanged(Replayed(c, h[..|h| - 1]), PreviousFromHistory(h), StateFromHistory(h))
  }

  /** UpdateMetricsFromJobHistory. */
  function LoadedOnce(c: Counters, j: JobValue): Counters {
    var d := Replayed(c, j.history);
    d.(total := d.total + 1, active := d.active + if IsActive(j.state) then 1 else 0)
  }

  function LocksAdded(c: Counters, inc: int): Counters {
    c.(resourcesLocked :=
         if inc >= 0 then c.resourcesLocked + inc
         else if -inc >= c.resourcesLocked then 0
         else c.resourcesLocked + inc)
  }

  /** A topic seen for the first time starts at zero. */
  function At(m: Table, t: Topic): Counters {
    if t in m then m[t] else ZERO
  }

  /** What the metrics observer does when it is told of an event of a job. */
  function Notified(m: Table, t: Topic, previous: JobState, next: JobState): Table {
    m[t := TopicChanged(StateChanged(At(m, t), previous, next), previous, next)]
  }

  function LocksNotified(m: Table, t: Topic, inc: int): Table {
    m[t := LocksAdded(At(m, t), inc)]
  }

  /** OnDeleteAllJobs: everything that existed counts as deleted. */
  function Cleared(m: Table): Table {
    map t | t in m :: ZERO.(deleted := m[t].deleted + m[t].existing)
  }

  function AllUnlocked(m: Table): Table {
    map t | t in m :: m[t].(resourcesLocked := 0)
  }

  // ---------- what the counters should say ----------

  ghost function InTopic(jobs: map<JobId, JobValue>, t: Topic): set<JobId> {
    set id | id in jobs && jobs[id].spec.topic == t
  }

  ghost function InTopicAndState(jobs: map<JobId, JobValue>, t: Topic, s: JobState): set<JobId> {
    set id | id in jobs && jobs[id].spec.topic == t && jobs[id].state == s
  }

  ghost function ActiveIn(jobs: map<JobId, JobValue>, t: Topic): set<JobId> {
    set id | id in jobs && jobs[id].spec.topic == t && jobs[id].state in {IsPending, IsQueued, IsRunning}
  }

  ghost function LocksOf(locks: LockTable, jobs: map<JobId, JobValue>, t: Topic): set<Resource> {
    set r | r in locks && locks[r] in jobs && jobs[locks[r]].spec.topic == t
  }

  ghost predicate TopicExact(c: Counters, jobs: map<JobId, JobValue>, t: Topic) {
    && c.existing == |InTopic(jobs, t)|
    && c.total == |InTopic(jobs, t)|
    && c.active == |ActiveIn(jobs, t)|
    && forall s :: Tracked(s) ==> Status(c, s) == |InTopicAndState(jobs, t, s)|
  }

  /** Every job counter of every topic equals a recount over the jobs. */
  ghost predicate CountsJobs(m: Table, jobs: map<JobId, JobValue>) {
    forall t :: TopicExact(At(m, t), jobs, t)
  }

  /** Every topic's lock counter equals the number of locks its jobs hold. */
  ghost predicate CountsLocks(m: Table, locks: LockTable, jobs: map<JobId, JobValue>) {
    forall t :: At(m, t).resourcesLocked == |LocksOf(locks, jobs, t)|
  }

  // ---------- one state change, one recount ----------

  /** Sets that differ at most in one element. */
  lemma CountSwap<T>(before: set<T>, after: set<T>, x: T)
    requires before - {x} == after - {x}
    ensures |after| == |before| - (if x in before then 1 else 0) + (if x in after then 1 else 0)
  {
    assert |before| == |before - {x}| + if x in before then 1 else 0;
    assert |after| == |after - {x}| + if x in after then 1 else 0;
  }

  lemma {:induction false} RecountAfterChange(jobs: map<JobId, JobValue>, id: JobId, j: JobValue, t: Topic, s: JobState)
    requires id in jobs && j.spec.topic == jobs[id].spec.topic
    ensures |InTopicAndState(jobs[id := j], t, s)|
            == |InTopicAndState(jobs, t, s)|
               - (if t == j.spec.topic && s == jobs[id].state then 1 else 0)
               + (if t == j.spec.topic && s == j.state then 1 else 0)
  {
    CountSwap(InTopicAndState(jobs, t, s), InTopicAndState(jobs[id := j], t, s), id);
  }

  lemma {:induction false} ActiveAfterChange(jobs: map<JobId, JobValue>, id: JobId, j: JobValue, t: Topic)
    requires id in jobs && j.spec.topic == jobs[id].spec.topic
    ensures InTopic(jobs[id := j], t) == InTopic(jobs, t)
    ensures |ActiveIn(jobs[id := j], t)|
            == |ActiveIn(jobs, t)|
               - (if t == j.spec.topic && IsActive(jobs[id].state) then 1 else 0)
               + (if t == j.spec.topic && IsActive(j.state) then 1 else 0)
  {
    CountSwap(ActiveIn(jobs, t), ActiveIn(jobs[id := j], t), id);
  }

  /** A change of state moves one count from the previous state to the next. */
  lemma StatusOfChange(c: Counters, previous: JobState, next: JobState, s: JobState)
    requires previous != IsDeleted && next != IsDeleted && Tracked(s)
    ensures Status(StateChanged(c, previous, next), s)
         == if previous == next then Status(c, s)
            else (if s == previous then Decrement(Status(c, s)) else Status(c, s)) + if s == next then 1 else 0
  {
  }

  /** One counter of a state, after a job changed. */
  lemma {:induction false} StatusAfterChange(
    m: Table, m': Table, jobs: map<JobId, JobValue>, id: JobId, j: JobValue, t: Topic, s: JobState)
    requires TopicExact(At(m, t), jobs, t) && Tracked(s)
    requires id in jobs && j.spec.topic == jobs[id].spec.topic
    requires Tracked(jobs[id].state) && Tracked(j.state)
    requires m' == Notified(m, j.spec.topic, jobs[id].state, j.state)
    ensures Status(At(m', t), s) == |InTopicAndState(jobs[id := j], t, s)|
  {
    var was := jobs[id].state;
    RecountAfterChange(jobs, id, j, t, s);
    StatusOfChange(At(m, t), was, j.state, s);
    hide StateChanged;
    if t == j.spec.topic {
      assert id in InTopicAndState(jobs, t, was);
      hide InTopicAndState, InTopic, ActiveIn, Decrement;
      TopicKeepsStatus(StateChanged(At(m, t), was, j.state), was, j.state, s);
      hide TopicChanged, Status;
      assert At(m', t) == TopicChanged(StateChanged(At(m, t), was, j.state), was, j.state);
      DecrementExact(Status(At(m, t), s));
    }
  }

  lemma TopicKeepsStatus(c: Counters, previous: JobState, next: JobState, s: JobState)
    ensures Status(TopicChanged(c, previous, next), s) == Status(c, s)
  {
  }

  lemma DecrementExact(n: nat)
    ensures n > 0 ==> Decrement(n) == n - 1
  {
  }

  lemma {:induction false} TotalsAfterChange(
    m: Table, m': Table, jobs: map<JobId, JobValue>, id: JobId, j: JobValue, t: Topic)
    requires TopicExact(At(m, t), jobs, t)
    requires id in jobs && j.spec.topic == jobs[id].spec.topic
    requires Tracked(jobs[id].state) && Tracked(j.state) && j.state != IsCreated
    requires m' == Notified(m, j.spec.topic, jobs[id].state, j.state)
    ensures var c := At(m', t);
            && c.existing == |InTopic(jobs[id := j], t)| && c.total == |InTopic(jobs[id := j], t)|
            && c.active == |ActiveIn(jobs[id := j], t)|
  {
    ActiveAfterChange(jobs, id, j, t);
    assert t == j.spec.topic && IsActive(jobs[id].state) ==> id in ActiveIn(jobs, t);
    hide InTopicAndState, InTopic, ActiveIn;
  }

  /** Every counter from which the change takes one is above zero: no decrement saturates. */
  predicate Covers(c: Counters, previous: JobState, next: JobState) {
    && (previous != next && Tracked(previous) ==> Status(c, previous) > 0)
    && (IsActive(previous) ==> c.active > 0)
    && (next == IsDeleted ==> c.existing > 0 && c.total > 0)
  }

  lemma {:induction false} ExactCountsCover(m: Table, jobs: map<JobId, JobValue>, id: JobId, next: JobState)
    requires CountsJobs(m, jobs) && id in jobs
    ensures Covers(At(m, jobs[id].spec.topic), jobs[id].state, next)
  {
    var t, s := jobs[id].spec.topic, jobs[id].state;
    assert TopicExact(At(m, t), jobs, t);
    assert id in InTopic(jobs, t) && id in InTopicAndState(jobs, t, s);
    assert IsActive(s) ==> id in ActiveIn(jobs, t);
  }

  /** A job that changes state keeps every recount exact, and no decrement saturates. */
  lemma {:induction false} ChangeKeepsCounts(m: Table, jobs: map<JobId, JobValue>, id: JobId, j: JobValue)
    requires CountsJobs(m, jobs)
    requires id in jobs && j.spec.topic == jobs[id].spec.topic
    requires Tracked(jobs[id].state) && Tracked(j.state) && j.state != IsCreated
    ensures CountsJobs(Notified(m, j.spec.topic, jobs[id].state, j.state), jobs[id := j])
    ensures Covers(At(m, j.spec.topic), jobs[id].state, j.state)
  {
    ExactCountsCover(m, jobs, id, j.state);
    hide Covers;
    var m' := Notified(m, j.spec.topic, jobs[id].state, j.state);
    forall t ensures TopicExact(At(m', t), jobs[id := j], t) {
      assert TopicExact(At(m, t), jobs, t);
      TotalsAfterChange(m, m', jobs, id, j, t);
      forall s | Tracked(s) ensures Status(At(m', t), s) == |InTopicAndState(jobs[id := j], t, s)| {
        StatusAfterChange(m, m', jobs, id, j, t, s);
      }
      hide Notified, Status, At, InTopic, InTopicAndState, ActiveIn;
    }
  }

  lemma {:induction false} RecountAfterAdding(jobs: map<JobId, JobValue>, id: JobId, j: JobValue, t: Topic)
    requires id !in jobs
    ensures |InTopic(jobs[id := j], t)| == |InTopic(jobs, t)| + if t == j.spec.topic then 1 else 0
    ensures |ActiveIn(jobs[id := j], t)| == |ActiveIn(jobs, t)| + if t == j.spec.topic && IsActive(j.state) then 1 else 0
    ensures forall s ::
              |InTopicAndState(jobs[id := j], t, s)|
              == |InTopicAndState(jobs, t, s)| + if t == j.spec.topic && s == j.state then 1 else 0
  {
    CountSwap(InTopic(jobs, t), InTopic(jobs[id := j], t), id);
    CountSwap(ActiveIn(jobs, t), ActiveIn(jobs[id := j], t), id);
    forall s {
      CountSwap(InTopicAndState(jobs, t, s), InTopicAndState(jobs[id := j], t, s), id);
    }
  }

  /** A new job counts once, as created. */
  lemma {:induction false} CreationKeepsCounts(m: Table, jobs: map<JobId, JobValue>, id: JobId, j: JobValue)
    requires CountsJobs(m, jobs)
    requires id !in jobs && j.state == IsCreated
    ensures CountsJobs(Notified(m, j.spec.topic, NoState, IsCreated), jobs[id := j])
  {
    var m' := Notified(m, j.spec.topic, NoState, IsCreated);
    forall t ensures TopicExact(At(m', t), jobs[id := j], t) {
      assert TopicExact(At(m, t), jobs, t);
      RecountAfterAdding(jobs, id, j, t);
    }
  }

  lemma {:induction false} RecountAfterDeletion(jobs: map<JobId, JobValue>, id: JobId, t: Topic)
    requires id in jobs
    ensures |InTopic(jobs - {id}, t)| == |InTopic(jobs, t)| - if t == jobs[id].spec.topic then 1 else 0
    ensures |ActiveIn(jobs - {id}, t)| == |ActiveIn(jobs, t)|
            - if t == jobs[id].spec.topic && IsActive(jobs[id].state) then 1 else 0
    ensures forall s ::
              |InTopicAndState(jobs - {id}, t, s)|
              == |InTopicAndState(jobs, t, s)| - if t == jobs[id].spec.topic && s == jobs[id].state then 1 else 0
  {
    CountSwap(InTopic(jobs, t), InTopic(jobs - {id}, t), id);
    CountSwap(ActiveIn(jobs, t), ActiveIn(jobs - {id}, t), id);
    forall s {
      CountSwap(InTopicAndState(jobs, t, s), InTopicAndState(jobs - {id}, t, s), id);
    }
  }

  /** A deleted job leaves every counter it was in and is counted as deleted. */
  lemma {:induction false} DeletionKeepsCounts(m: Table, jobs: map<JobId, JobValue>, id: JobId)
    requires CountsJobs(m, jobs)
    requires id in jobs && Tracked(jobs[id].state)
    ensures CountsJobs(Notified(m, jobs[id].spec.topic, jobs[id].state, IsDeleted), jobs - {id})
    ensures Covers(At(m, jobs[id].spec.topic), jobs[id].state, IsDeleted)
  {
    ExactCountsCover(m, jobs, id, IsDeleted);
    hide Covers;
    var m' := Notified(m, jobs[id].spec.topic, jobs[id].state, IsDeleted);
    forall t ensures TopicExact(At(m', t), jobs - {id}, t) {
      assert TopicExact(At(m, t), jobs, t);
      RecountAfterDeletion(jobs, id, t);
    }
  }

  /** The counters with one job more, in the previous state; the job then goes on to the next. */
  lemma ReplayOneMore(c: Counters, d: Counters, previous: JobState, next: JobState)
    requires Tracked(previous) && Tracked(next) && next != IsCreated
    requires forall s :: Tracked(s) ==> Status(d, s) == Status(c, s) + if s == previous then 1 else 0
    ensures var e := StateChanged(d, previous, next);
            && e.existing == d.existing && e.deleted == d.deleted && e.resourcesLocked == d.resourcesLocked
            && e.total == d.total && e.active == d.active
            && forall s :: Tracked(s) ==> Status(e, s) == Status(c, s) + if s == next then 1 else 0
  {
    forall s | Tracked(s)
      ensures Status(StateChanged(d, previous, next), s) == Status(c, s) + if s == next then 1 else 0
    {
      StatusOfChange(d, previous, next, s);
    }
  }

  /** Loading telescopes: replaying a history the scheduler wrote adds the job once, in the
      state it was left in. */
  lemma {:induction false} ReplayTelescopes(c: Counters, h: seq<HistoryEvent>)
    requires Word(h)
    ensures var d := Replayed(c, h);
            && d.existing == c.existing + 1 && d.deleted == c.deleted
            && d.resourcesLocked == c.resourcesLocked && d.total == c.total && d.active == c.active
            && forall s :: Tracked(s) ==> Status(d, s) == Status(c, s) + if s == StateFromHistory(h) then 1 else 0
    decreases |h|
  {
    var p := h[..|h| - 1];
    if |h| > 1 {
      assert MayFollow(h[|h| - 2].eventType, h[|h| - 1].eventType);
      assert Word(p);
      ReplayTelescopes(c, p);
      assert StateFromHistory(p) == PreviousFromHistory(h) && StateFromHistory(h) != IsCreated;
      hide Word, MayFollow;
      ReplayOneMore(c, Replayed(c, p), PreviousFromHistory(h), StateFromHistory(h));
    } else {
      assert p == [];
    }
  }

  /** A loaded job is counted once, in the state it was left in. */
  lemma {:induction false} LoadingKeepsCounts(m: Table, jobs: map<JobId, JobValue>, id: JobId, j: JobValue)
    requires CountsJobs(m, jobs) && id !in jobs && Word(j.history) && j.state == StateFromHistory(j.history)
    ensures CountsJobs(m[j.spec.topic := LoadedOnce(At(m, j.spec.topic), j)], jobs[id := j])
  {
    var m' := m[j.spec.topic := LoadedOnce(At(m, j.spec.topic), j)];
    ReplayTelescopes(At(m, j.spec.topic), j.history);
    forall t ensures TopicExact(At(m', t), jobs[id := j], t) {
      assert TopicExact(At(m, t), jobs, t);
      RecountAfterAdding(jobs, id, j, t);
    }
  }

  // ---------- locks ----------

  lemma {:induction false} LocksAfterLocking(
    locks: LockTable, jobs: map<JobId, JobValue>, id: JobId, needs: set<Resource>, t: Topic)
    requires id in jobs
    ensures var extra := if t == jobs[id].spec.topic then Acquired(locks, needs) else {};
            && LocksOf(Locked(locks, id, needs), jobs, t) == LocksOf(locks, jobs, t) + extra
            && LocksOf(locks, jobs, t) !! extra
  {
  }

  lemma {:induction false} LockingKeepsCounts(
    m: Table, locks: LockTable, jobs: map<JobId, JobValue>, id: JobId, needs: set<Resource>)
    requires CountsLocks(m, locks, jobs) && id in jobs
    ensures CountsLocks(LocksNotified(m, jobs[id].spec.topic, |Acquired(locks, needs)|), Locked(locks, id, needs), jobs)
  {
    forall t {
      LocksAfterLocking(locks, jobs, id, needs, t);
    }
  }

  lemma {:induction false} LocksAfterReleasing(
    locks: LockTable, jobs: map<JobId, JobValue>, id: JobId, needs: set<Resource>, t: Topic)
    requires id in jobs
    ensures var gone := if t == jobs[id].spec.topic then Freed(locks, id, needs) else {};
            && LocksOf(Released(locks, id, needs), jobs, t) == LocksOf(locks, jobs, t) - gone
            && gone <= LocksOf(locks, jobs, t)
  {
    if t != jobs[id].spec.topic {
      assert LocksOf(Released(locks, id, needs), jobs, t) == LocksOf(locks, jobs, t);
    }
  }

  /** A release of the locks of one job; the lock counter does not saturate. */
  lemma {:induction false} ReleasingKeepsCounts(
    m: Table, locks: LockTable, jobs: map<JobId, JobValue>, id: JobId, needs: set<Resource>)
    requires CountsLocks(m, locks, jobs) && id in jobs
    ensures CountsLocks(
              LocksNotified(m, jobs[id].spec.topic, -|Freed(locks, id, needs)|), Released(locks, id, needs), jobs)
    ensures |Freed(locks, id, needs)| <= At(m, jobs[id].spec.topic).resourcesLocked
  {
    SubsetCount(Freed(locks, id, needs), LocksOf(locks, jobs, jobs[id].spec.topic));
    forall t {
      LocksAfterReleasing(locks, jobs, id, needs, t);
    }
  }

  /** The admin release of one resource whose holder exists. */
  lemma {:induction false} UnlockingOneKeepsCounts(m: Table, locks: LockTable, jobs: map<JobId, JobValue>, r: Resource)
    requires CountsLocks(m, locks, jobs) && r in locks && locks[r] in jobs
    ensures CountsLocks(LocksNotified(m, jobs[locks[r]].spec.topic, -1), locks - {r}, jobs)
    ensures At(m, jobs[locks[r]].spec.topic).resourcesLocked > 0
  {
    assert r in LocksOf(locks, jobs, jobs[locks[r]].spec.topic);
    forall t ensures |LocksOf(locks - {r}, jobs, t)|
                  == |LocksOf(locks, jobs, t)| - if t == jobs[locks[r]].spec.topic then 1 else 0
    {
      CountSwap(LocksOf(locks, jobs, t), LocksOf(locks - {r}, jobs, t), r);
    }
  }

  /** After deleting everything the counters start over. */
  lemma ClearingKeepsCounts(m: Table)
    ensures CountsJobs(Cleared(m), map[]) && CountsLocks(Cleared(m), map[], map[])
  {
    forall t ensures TopicExact(At(Cleared(m), t), map[], t) && LocksOf(map[], map[], t) == {} {
      assert InTopic(map[], t) == {} && ActiveIn(map[], t) == {};
      assert forall s :: InTopicAndState(map[], t, s) == {};
    }
  }
}
