/** Loading the jobs the backend kept (LoadJobs), and the round trip of a restart. */
module Restart {
  import opened Jobs
  import opened Ordering
  import opened PullOrder
  import opened PriorityQueues
  import opened Resources
  import opened Metrics
  import opened Scheduler
  import opened Invariants
  import opened Moves
  import opened Admission
  import opened Operations
  import opened Exact

  // ---------- loading ----------

  /** One loaded job goes to the container of its state. */
  ghost function Placed(s: State, id: JobId, now: int): State
    requires id in s.jobs
  {
    var j := s.jobs[id];
    s.(pending := if j.state == IsPending then s.pending + {id} else s.pending,
       queued := if j.state == IsQueued then s.queued + {id} else s.queued,
       retry := if j.state == IsHidden then Inserted(s.retry, Item(id, -now)) else s.retry,
       delayed := if j.state == IsDelayed then Inserted(s.delayed, Item(id, -j.spec.startAfter)) else s.delayed)
  }

  /** It is counted, and its topic is registered. */
  ghost function LoadOne(s: State, id: JobId, now: int): State
    requires id in s.jobs
  {
    var j := s.jobs[id];
    var t := j.spec.topic;
    Placed(s, id, now).(metrics := s.metrics[t := LocksAdded(LoadedOnce(At(s.metrics, t), j), 0)])
  }

  ghost function LoadEach(s: State, ids: seq<JobId>, now: int): State
    requires forall id :: id in ids ==> id in s.jobs
    ensures LoadEach(s, ids, now).jobs == s.jobs
  {
    if ids == [] then s else LoadOne(LoadEach(s, ids[..|ids| - 1], now), ids[|ids| - 1], now)
  }

  /** The jobs saved between their creation and their first scheduling are scheduled like new ones. */
  ghost function ScheduleEach(s: State, ids: seq<JobId>, now: int): State
    decreases |ids|
  {
    if ids == [] then s
    else ScheduleEach(if ids[0] in s.jobs then Schedule(s, ids[0], now) else s, ids[1..], now)
  }

  /** A fresh service and its backend, with the loaded jobs and the locks they claim. */
  ghost function Fresh(saved: map<JobId, JobValue>): State {
    var jobs := Reload(saved);
    EMPTY.(jobs := jobs, saved := jobs, locks := ClaimedBy(jobs, SortedIds(jobs.Keys)))
  }

  /** The lock counters, by topic of the owner. */
  ghost function LocksCounted(s: State): State {
    s.(metrics := map t | t in s.metrics :: LocksAdded(s.metrics[t], |LocksOf(s.locks, s.jobs, t)|))
  }

  /** The stored jobs, their locks, their containers and their counters. */
  ghost function LoadStored(saved: map<JobId, JobValue>, now: int): State {
    var s0 := Fresh(saved);
    LocksCounted(LoadEach(s0, SortedIds(s0.jobs.Keys), now))
  }

  ghost function LoadJobs(saved: map<JobId, JobValue>, now: int): State {
    var s1 := LoadStored(saved, now);
    var created := SortedIds(InState(s1.jobs, IsCreated));
    if created == [] then s1 else Admit(ScheduleEach(s1, created, now), now)
  }

  // ---------- the containers ----------

  ghost function Known(jobs: map<JobId, JobValue>, ids: seq<JobId>): map<JobId, JobValue>
    requires forall id :: id in ids ==> id in jobs
  {
    map id | id in ids :: jobs[id]
  }

  /** The counters are those of the jobs loaded so far, before the locks are counted. */
  ghost predicate CountedSoFar(m: Table, known: map<JobId, JobValue>) {
    && CountsJobs(m, known)
    && OnlyJobsYet(m)
    && TopicsKnown(m, known)
  }

  /** No lock was counted, and no deletion. */
  ghost predicate OnlyJobsYet(m: Table) {
    forall t :: At(m, t).resourcesLocked == 0 && At(m, t).deleted == 0
  }

  /** A topic is registered exactly when it has jobs. */
  ghost predicate TopicsKnown(m: Table, known: map<JobId, JobValue>) {
    forall t :: t in m <==> InTopic(known, t) != {}
  }

  ghost predicate AllDueAt(q: seq<Item<JobId>>, now: int) {
    forall w :: w in q ==> w.priority == -now
  }

  /** The containers and the counters are those of the jobs loaded so far. */
  ghost predicate LoadedSoFar(s: State, known: map<JobId, JobValue>, now: int) {
    Coherent(s.(jobs := known)) && CountedSoFar(s.metrics, known) && AllDueAt(s.retry, now)
  }

  /** A job that was in no queue goes to the retry queue when it is hidden. */
  lemma RetryAfterLoad(q: seq<Item<JobId>>, id: JobId, now: int)
    requires OncePerValue(q) && Descending(q) && id !in ValuesOf(q) && AllDueAt(q, now)
    ensures QueueMatches(Inserted(q, Item(id, -now)), ValuesOf(q) + {id})
    ensures AllDueAt(Inserted(q, Item(id, -now)), now) && Removed(q, id) == q
  {
    RemovedAbsent(q, id);
    InsertedKeeps(q, Item(id, -now));
    hide Inserted, Removed, ValuesOf, Descending, OncePerValue;
  }

  /** What is known of a job that was not loaded yet. */
  lemma NotLoadedYet(a: State, id: JobId)
    requires Coherent(a) && id !in a.jobs
    ensures OncePerValue(a.retry) && Descending(a.retry) && id !in ValuesOf(a.retry) && id !in ValuesOf(a.delayed)
    ensures id !in a.pending && id !in a.queued && Removed(a.delayed, id) == a.delayed
  {
    RemovedAbsent(a.delayed, id);
  }

  /** The containers after loading a job. */
  ghost predicate Contained(s: State, s': State, j: JobValue, id: JobId, now: int) {
    && s'.pending == (if j.state == IsPending then s.pending + {id} else s.pending)
    && s'.queued == (if j.state == IsQueued then s.queued + {id} else s.queued)
    && s'.retry == (if j.state == IsHidden then Inserted(s.retry, Item(id, -now)) else s.retry)
    && s'.delayed == (if j.state == IsDelayed then Inserted(s.delayed, Item(id, -j.spec.startAfter)) else s.delayed)
  }

  lemma {:induction false} ContainedMoves(a: State, b: State, id: JobId, j: JobValue, now: int)
    requires id !in a.jobs && AllDueAt(a.retry, now) && Coherent(a)
    requires b.jobs == a.jobs[id := j] && Contained(a, b, j, id, now)
    ensures Moved(a, b, id, j) && AllDueAt(b.retry, now)
  {
    NotLoadedYet(a, id);
    RetryAfterLoad(a.retry, id, now);
    hide Coherent, Removed, Inserted, ValuesOf, OncePerValue, Descending, QueueMatches, AllDueAt;
  }

  lemma {:induction false} LoadOneCoherent(s: State, s': State, known: map<JobId, JobValue>, id: JobId, now: int)
    requires Coherent(s.(jobs := known)) && id !in known && id in s.jobs && s.jobs[id].id == id
    requires AllDueAt(s.retry, now) && s' == LoadOne(s, id, now)
    ensures Coherent(s'.(jobs := known[id := s.jobs[id]])) && AllDueAt(s'.retry, now)
  {
    var j := s.jobs[id];
    var a, b := s.(jobs := known), s'.(jobs := known[id := j]);
    hide Coherent, Inserted, AllDueAt, LoadedOnce, LocksAdded;
    assert Contained(a, b, j, id, now);
    hide LoadOne, Contained;
    ContainedMoves(a, b, id, j, now);
    NotLoadedYet(a, id);
    hide Moved;
    MovedKeepsCoherent(a, b, id, j);
  }

  lemma {:induction false} TopicsSoFar(m: Table, m': Table, known: map<JobId, JobValue>, id: JobId, j: JobValue)
    requires TopicsKnown(m, known) && id !in known && m'.Keys == m.Keys + {j.spec.topic}
    ensures TopicsKnown(m', known[id := j])
  {
    forall t ensures t in m' <==> InTopic(known[id := j], t) != {} {
      assert InTopic(known[id := j], t) == InTopic(known, t) + if t == j.spec.topic then {id} else {};
      assert t in m <==> InTopic(known, t) != {};
    }
  }

  lemma ReplayCountsJobsOnly(c: Counters, j: JobValue)
    requires Word(j.history)
    ensures LoadedOnce(c, j).resourcesLocked == c.resourcesLocked && LoadedOnce(c, j).deleted == c.deleted
  {
    ReplayTelescopes(c, j.history);
  }

  lemma {:induction false} LoadOneCounts(m: Table, m': Table, known: map<JobId, JobValue>, id: JobId, j: JobValue)
    requires CountedSoFar(m, known) && id !in known && Wordy(j)
    requires m' == m[j.spec.topic := LocksAdded(LoadedOnce(At(m, j.spec.topic), j), 0)]
    ensures CountedSoFar(m', known[id := j])
  {
    var t := j.spec.topic;
    var c := LoadedOnce(At(m, t), j);
    assert LocksAdded(c, 0) == c;
    ReplayCountsJobsOnly(At(m, t), j);
    forall x ensures At(m', x).resourcesLocked == 0 && At(m', x).deleted == 0 {
      assert At(m, x).resourcesLocked == 0 && At(m, t).resourcesLocked == 0;
    }
    hide LoadedOnce, LocksAdded, CountsJobs, TopicsKnown;
    LoadingKeepsCounts(m, known, id, j);
    TopicsSoFar(m, m', known, id, j);
  }

  lemma {:induction false} LoadStep(s: State, s': State, known: map<JobId, JobValue>, id: JobId, now: int)
    requires LoadedSoFar(s, known, now) && id !in known && id in s.jobs && s.jobs[id].id == id && Wordy(s.jobs[id])
    requires s' == LoadOne(s, id, now)
    ensures LoadedSoFar(s', known[id := s.jobs[id]], now)
    ensures s'.jobs == s.jobs && s'.saved == s.saved && s'.locks == s.locks && s'.wake == s.wake
  {
    hide Coherent, CountedSoFar, LoadedOnce, LocksAdded;
    LoadOneCoherent(s, s', known, id, now);
    LoadOneCounts(s.metrics, s'.metrics, known, id, s.jobs[id]);
  }

  lemma {:induction false} LoadEachKeeps(s: State, s': State, ids: seq<JobId>, now: int)
    requires Distinct(ids) && (forall id :: id in ids ==> id in s.jobs)
    requires forall id :: id in s.jobs ==> s.jobs[id].id == id && Wordy(s.jobs[id])
    requires LoadedSoFar(s, map[], now) && s' == LoadEach(s, ids, now)
    ensures LoadedSoFar(s', Known(s.jobs, ids), now)
    ensures s'.jobs == s.jobs && s'.saved == s.saved && s'.locks == s.locks && s'.wake == s.wake
    decreases |ids|
  {
    hide LoadedSoFar, LoadOne, Wordy;
    if ids == [] {
      assert Known(s.jobs, ids) == map[];
    } else {
      var p, id := ids[..|ids| - 1], ids[|ids| - 1];
      var s1 := LoadEach(s, p, now);
      LoadEachKeeps(s, s1, p, now);
      assert id in ids && id !in p;
      LoadStep(s1, s', Known(s.jobs, p), id, now);
      assert ids == p + [id];
      assert Known(s.jobs, ids) == Known(s.jobs, p)[id := s.jobs[id]];
    }
  }

  // ---------- the locks ----------

  /** The claimed table says who uses what, among the jobs listed. */
  lemma {:induction false} ClaimsAreUses(s: State, ids: seq<JobId>)
    requires forall id :: id in ids ==> id in s.jobs
    ensures forall r :: r in ClaimedBy(s.jobs, ids) ==> Uses(s.jobs, ClaimedBy(s.jobs, ids)[r], r)
    ensures forall id, r :: id in ids && Uses(s.jobs, id, r) ==> r in ClaimedBy(s.jobs, ids)
  {
    if ids != [] {
      var p, id := ids[..|ids| - 1], ids[|ids| - 1];
      assert ids == p + [id];
      ClaimsAreUses(s, p);
    }
  }

  /** Counting the locks completes the counters. */
  lemma {:induction false} LocksCountedIsCounted(s: State, s': State)
    requires CountedSoFar(s.metrics, s.jobs) && s.saved == s.jobs && s' == LocksCounted(s)
    ensures Counted(s') && forall t :: At(s'.metrics, t).deleted == 0
  {
    forall t ensures At(s'.metrics, t).deleted == At(s.metrics, t).deleted {
    }
    forall t
      ensures TopicExact(At(s'.metrics, t), s.jobs, t)
      ensures At(s'.metrics, t).resourcesLocked == |LocksOf(s.locks, s.jobs, t)|
    {
      assert TopicExact(At(s.metrics, t), s.jobs, t);
      if t !in s.metrics {
        assert InTopic(s.jobs, t) == {};
        forall r ensures r !in LocksOf(s.locks, s.jobs, t) {
          assert r in s.locks && s.locks[r] in s.jobs ==> s.locks[r] !in InTopic(s.jobs, t);
        }
        assert LocksOf(s.locks, s.jobs, t) == {};
      }
    }
  }

  // ---------- what a backend may have kept ----------

  /** A job that was saved between its creation and its first scheduling. */
  ghost predicate JustCreated(j: JobValue) {
    Wordy(j) && Last(j) == Create
  }

  ghost predicate StorableJob(maxRetry: nat, j: JobValue, now: int) {
    (Resting(maxRetry, j) || JustCreated(j)) && (j.state == IsPending ==> !TooEarly(j, now))
  }

  /** Jobs at rest and jobs just created, the pending ones due. */
  ghost predicate Storable(cfg: Config, jobs: map<JobId, JobValue>, now: int) {
    IdsMatch(jobs) && forall id :: id in jobs ==> StorableJob(cfg.maxRetry, jobs[id], now)
  }

  lemma {:induction false} ReloadGivesBack(cfg: Config, jobs: map<JobId, JobValue>, now: int)
    requires Storable(cfg, jobs, now)
    ensures Reload(jobs) == jobs
    ensures forall id :: id in jobs ==> jobs[id].id == id && Wordy(jobs[id])
  {
    forall id | id in jobs ensures jobs[id].Reloaded() == jobs[id] && Wordy(jobs[id]) {
      assert StorableJob(cfg.maxRetry, jobs[id], now);
      if Resting(cfg.maxRetry, jobs[id]) {
        ReloadedAtRest(cfg.maxRetry, jobs[id]);
      }
    }
  }

  /** A job just created has its one event and no failure. */
  lemma CreatedOnce(j: JobValue)
    requires JustCreated(j)
    ensures j.state == IsCreated && |j.history| == 1 && j.Failures() == 0
  {
    var n := |j.history|;
    assert n > 1 ==> MayFollow(j.history[n - 2].eventType, j.history[n - 1].eventType);
    CountAppend([], j.history[0], Fail);
    assert j.history == [] + [j.history[0]];
  }

  lemma NothingLoaded(s: State, now: int)
    requires s.pending == {} && s.queued == {} && s.retry == [] && s.delayed == [] && s.metrics == map[]
    ensures LoadedSoFar(s, map[], now)
  {
    ClearingKeepsCounts(map[]);
    assert Cleared(map[]) == map[];
    assert forall st :: InState(map[], st) == {};
    assert forall t :: InTopic(map[], t) == {};
  }

  lemma {:induction false} LoadedAll(s0: State, s1: State, jobs: map<JobId, JobValue>, now: int)
    requires s0.jobs == jobs && s1.jobs == jobs && LoadedSoFar(s1, Known(jobs, SortedIds(jobs.Keys)), now)
    ensures Coherent(s1) && CountedSoFar(s1.metrics, jobs) && AllDueAt(s1.retry, now)
  {
    assert Known(jobs, SortedIds(jobs.Keys)) == jobs;
    assert s1.(jobs := jobs) == s1;
  }

  lemma {:induction false} LoadedContainers(
    cfg: Config, jobs: map<JobId, JobValue>, s0: State, s1: State, now: int)
    requires Storable(cfg, jobs, now)
    requires s0 == Fresh(jobs) && s1 == LoadEach(s0, SortedIds(s0.jobs.Keys), now)
    ensures s1.jobs == jobs && s1.saved == jobs && s1.locks == ClaimedBy(jobs, SortedIds(jobs.Keys))
    ensures Coherent(s1) && CountedSoFar(s1.metrics, s1.jobs) && AllDueAt(s1.retry, now) && s1.wake == 0
  {
    ReloadGivesBack(cfg, jobs, now);
    NothingLoaded(s0, now);
    hide LoadEach, ClaimedBy, CountedSoFar, LoadedSoFar, Coherent, AllDueAt, Known, Wordy, Storable;
    LoadEachKeeps(s0, s1, SortedIds(s0.jobs.Keys), now);
    LoadedAll(s0, s1, jobs, now);
  }

  /** The invariants, while the jobs just created wait for their scheduling. */
  ghost predicate Loaded(cfg: Config, s: State, now: int) {
    Coherent(s) && Owned(s) && Storable(cfg, s.jobs, now) && s.saved == s.jobs && Counted(s)
  }

  lemma {:induction false} LoadedShape(s1: State, s': State)
    requires Coherent(s1) && s' == LocksCounted(s1) && s1.locks == ClaimedBy(s1.jobs, SortedIds(s1.jobs.Keys))
    ensures Coherent(s') && Owned(s')
  {
    ClaimsAreUses(s1, SortedIds(s1.jobs.Keys));
    hide ClaimedBy;
  }

  lemma {:induction false} StoredIsLoaded(cfg: Config, jobs: map<JobId, JobValue>, s': State, now: int)
    requires Storable(cfg, jobs, now) && s' == LoadStored(jobs, now)
    ensures Loaded(cfg, s', now) && s'.jobs == jobs && s'.wake == 0
    ensures s'.locks == ClaimedBy(jobs, SortedIds(jobs.Keys)) && AllDueAt(s'.retry, now)
    ensures forall t :: At(s'.metrics, t).deleted == 0
  {
    var s0 := Fresh(jobs);
    var s1 := LoadEach(s0, SortedIds(s0.jobs.Keys), now);
    hide ClaimedBy, LoadEach, Fresh, CountedSoFar, AllDueAt, Counted, Storable, Coherent, Owned;
    LoadedContainers(cfg, jobs, s0, s1, now);
    LocksCountedIsCounted(s1, s');
    LoadedShape(s1, s');
  }

  // ---------- scheduling the jobs just created ----------

  /** The job after its first scheduling. */
  ghost function Scheduled(j: JobValue, now: int): JobValue {
    j.AddEvent(if TooEarly(j, now) then Delay else Pending, now)
  }

  lemma ScheduledRests(maxRetry: nat, j: JobValue, now: int)
    requires JustCreated(j)
    ensures Resting(maxRetry, Scheduled(j, now)) && StorableJob(maxRetry, Scheduled(j, now), now)
    ensures Scheduled(j, now).id == j.id && Scheduled(j, now).state in {IsDelayed, IsPending}
  {
    CreatedOnce(j);
    RestAfter(maxRetry, j, if TooEarly(j, now) then Delay else Pending, now);
  }

  /** Scheduling touches the job and its container, and the counters. */
  lemma ScheduleFields(s: State, s': State, id: JobId, now: int)
    requires id in s.jobs && s.jobs[id].state == IsCreated && s' == Schedule(s, id, now)
    ensures s'.jobs == s.jobs[id := Scheduled(s.jobs[id], now)]
    ensures s'.locks == s.locks && s'.queued == s.queued && s'.retry == s.retry
  {
    hide Notified, Inserted;
  }

  lemma {:induction false} ScheduleShape(s: State, s': State, id: JobId, now: int)
    requires Coherent(s) && Owned(s) && id in s.jobs && s.jobs[id].state == IsCreated && s' == Schedule(s, id, now)
    ensures Coherent(s') && Owned(s')
  {
    if TooEarly(s.jobs[id], now) {
      SetDelayedShape(s, s', id, now);
    } else {
      NotDelayed(s, id);
      SetPendingShape(s, s, s', id, now);
    }
  }

  lemma {:induction false} ScheduleBooks(s: State, s': State, id: JobId, now: int)
    requires id in s.jobs && s.saved == s.jobs && Counted(s) && s.jobs[id].state == IsCreated
    requires s' == Schedule(s, id, now)
    ensures s'.saved == s'.jobs && Counted(s')
  {
    if TooEarly(s.jobs[id], now) {
      SetDelayedBooks(s, s', id, now);
    } else {
      SetPendingBooks(s, s', id, now);
    }
  }

  lemma {:induction false} ScheduleOne(cfg: Config, s: State, s': State, id: JobId, now: int)
    requires Loaded(cfg, s, now) && id in s.jobs && JustCreated(s.jobs[id]) && s' == Schedule(s, id, now)
    ensures Loaded(cfg, s', now)
    ensures s'.jobs == s.jobs[id := Scheduled(s.jobs[id], now)]
    ensures s'.locks == s.locks && s'.queued == s.queued && s'.retry == s.retry
  {
    CreatedOnce(s.jobs[id]);
    hide Coherent, Owned, Counted, Schedule, StorableJob, JustCreated;
    ScheduleFields(s, s', id, now);
    ScheduleShape(s, s', id, now);
    ScheduleBooks(s, s', id, now);
    ScheduledRests(cfg.maxRetry, s.jobs[id], now);
    hide Scheduled;
  }

  /** The listed jobs are scheduled, everything else stays. */
  ghost predicate ScheduledEach(s: State, s': State, ids: seq<JobId>, now: int) {
    && s'.jobs.Keys == s.jobs.Keys
    && (forall k :: k in s.jobs ==> s'.jobs[k] == if k in ids then Scheduled(s.jobs[k], now) else s.jobs[k])
    && s'.locks == s.locks && s'.queued == s.queued && s'.retry == s.retry
  }

  lemma {:induction false} ScheduleEachKeeps(cfg: Config, s: State, s': State, ids: seq<JobId>, now: int)
    requires Loaded(cfg, s, now) && Distinct(ids) && s' == ScheduleEach(s, ids, now)
    requires forall id :: id in ids ==> id in s.jobs && JustCreated(s.jobs[id])
    ensures Loaded(cfg, s', now) && ScheduledEach(s, s', ids, now)
    decreases |ids|
  {
    hide Loaded, JustCreated, Scheduled, Schedule;
    if ids != [] {
      var s1 := Schedule(s, ids[0], now);
      assert ids[0] in ids && ids == [ids[0]] + ids[1..];
      assert forall id :: id in ids[1..] ==> id in ids && id != ids[0];
      ScheduleOne(cfg, s, s1, ids[0], now);
      ScheduleEachKeeps(cfg, s1, s', ids[1..], now);
    }
  }

  /** All jobs just created were scheduled: every job is at rest. */
  lemma {:induction false} AllScheduled(cfg: Config, s: State, s': State, ids: seq<JobId>, now: int)
    requires Loaded(cfg, s, now) && Loaded(cfg, s', now) && ScheduledEach(s, s', ids, now)
    requires forall id :: id in s.jobs && s.jobs[id].state == IsCreated ==> id in ids
    ensures Inv(cfg, s') && PendingDue(s', now)
  {
    hide Owned, Counted, Scheduled;
    forall id | id in s'.jobs ensures Resting(cfg.maxRetry, s'.jobs[id]) {
      JobScheduled(cfg, s, s', ids, id, now);
    }
    forall id | id in s'.pending && id in s'.jobs ensures !TooEarly(s'.jobs[id], now) {
      PendingIsKnown(s', id);
      assert StorableJob(cfg.maxRetry, s'.jobs[id], now);
    }
  }

  lemma {:induction false} JobScheduled(cfg: Config, s: State, s': State, ids: seq<JobId>, id: JobId, now: int)
    requires Storable(cfg, s.jobs, now) && ScheduledEach(s, s', ids, now) && id in s'.jobs
    requires forall id :: id in s.jobs && s.jobs[id].state == IsCreated ==> id in ids
    requires Storable(cfg, s'.jobs, now)
    ensures Resting(cfg.maxRetry, s'.jobs[id])
  {
    var j := s.jobs[id];
    assert StorableJob(cfg.maxRetry, j, now) && StorableJob(cfg.maxRetry, s'.jobs[id], now);
    if JustCreated(s'.jobs[id]) {
      CreatedOnce(s'.jobs[id]);
      if JustCreated(j) {
        CreatedOnce(j);
        ScheduledRests(cfg.maxRetry, j, now);
      }
    }
  }

  // ---------- a loaded scheduler ----------

  /** What loading makes of a stored job, before a pass may queue it. */
  ghost function Rescheduled(j: JobValue, now: int): JobValue {
    if j.state == IsCreated then Scheduled(j, now) else j
  }

  /** A queued or running job uses something the job lists. */
  ghost predicate InUse(jobs: map<JobId, JobValue>, id: JobId)
    requires id in jobs
  {
    exists k, r :: Uses(jobs, k, r) && r in NeedsOf(jobs[id])
  }

  /** No two queued or running jobs list the same resource. */
  ghost predicate Exclusive(jobs: map<JobId, JobValue>) {
    forall a, b, r :: Uses(jobs, a, r) && Uses(jobs, b, r) ==> a == b
  }

  /** The stored jobs leave no work undone: a pass follows, or every pending job needs something in use. */
  ghost predicate NothingIdle(jobs: map<JobId, JobValue>) {
    InState(jobs, IsCreated) != {} || forall id :: id in InState(jobs, IsPending) ==> InUse(jobs, id)
  }

  lemma {:induction false} BlockedByUsers(s: State, id: JobId)
    requires s.locks == ClaimedBy(s.jobs, SortedIds(s.jobs.Keys)) && id in s.jobs && !UsesLocks(s.jobs[id].state)
    ensures JobBlocked(s, id) <==> InUse(s.jobs, id)
  {
    var ids := SortedIds(s.jobs.Keys);
    ClaimsAreUses(s, ids);
    hide ClaimedBy;
    if JobBlocked(s, id) {
      var r :| r in NeedsOf(s.jobs[id]) && r in s.locks && s.locks[r] != id;
      assert Uses(s.jobs, s.locks[r], r);
    }
    if InUse(s.jobs, id) {
      var k, r :| Uses(s.jobs, k, r) && r in NeedsOf(s.jobs[id]);
      assert k in ids && r in s.locks && Uses(s.jobs, s.locks[r], r);
    }
  }

  /** Every user holds what it lists if and only if no two list the same. */
  lemma {:induction false} HeldWhenExclusive(s: State)
    requires s.locks == ClaimedBy(s.jobs, SortedIds(s.jobs.Keys)) && Exclusive(s.jobs)
    ensures Holding(s)
  {
    var ids := SortedIds(s.jobs.Keys);
    ClaimsAreUses(s, ids);
    hide ClaimedBy;
    forall id, r | id in s.jobs && UsesLocks(s.jobs[id].state) && r in NeedsOf(s.jobs[id])
      ensures r in s.locks && s.locks[r] == id
    {
      assert Uses(s.jobs, id, r) && id in ids;
      assert Uses(s.jobs, s.locks[r], r);
    }
  }

  lemma {:induction false} ExclusiveBefore(jobs: map<JobId, JobValue>, s': State, now: int)
    requires Owned(s') && Holding(s') && jobs.Keys == s'.jobs.Keys
    requires forall id :: id in jobs ==> SameOrAdmitted(Rescheduled(jobs[id], now), s'.jobs[id], now)
    ensures Exclusive(jobs)
  {
    ResourcesAreExclusive(s');
    forall id, r | Uses(jobs, id, r) ensures Uses(s'.jobs, id, r) {
      assert SameOrAdmitted(Rescheduled(jobs[id], now), s'.jobs[id], now);
    }
  }

  lemma {:induction false} ScheduledHolds(s: State, s': State, ids: seq<JobId>, now: int)
    requires ScheduledEach(s, s', ids, now) && Holding(s)
    requires forall id :: id in ids ==> id in s.jobs && JustCreated(s.jobs[id])
    ensures Holding(s')
  {
    forall id | id in s'.jobs && UsesLocks(s'.jobs[id].state)
      ensures HoldsAll(s'.locks, id, NeedsOf(s'.jobs[id]))
    {
      if id in ids {
        ScheduledRests(0, s.jobs[id], now);
      }
    }
  }

  lemma CreatedIsJustCreated(maxRetry: nat, j: JobValue, now: int)
    requires StorableJob(maxRetry, j, now)
    ensures j.state == IsCreated <==> JustCreated(j)
  {
    if JustCreated(j) {
      CreatedOnce(j);
    }
  }

  /** The jobs loaded as just created are those in that state. */
  lemma {:induction false} CreatedAreJustCreated(cfg: Config, jobs: map<JobId, JobValue>, now: int)
    requires Storable(cfg, jobs, now)
    ensures forall id :: id in InState(jobs, IsCreated) <==> id in jobs && JustCreated(jobs[id])
  {
    hide StorableJob, JustCreated, IdsMatch;
    forall id | id in jobs ensures jobs[id].state == IsCreated <==> JustCreated(jobs[id]) {
      CreatedIsJustCreated(cfg.maxRetry, jobs[id], now);
    }
  }

  lemma {:induction false} ConservingWhenInUse(s: State)
    requires Coherent(s) && s.locks == ClaimedBy(s.jobs, SortedIds(s.jobs.Keys))
    ensures Conserving(s) <==> forall id :: id in InState(s.jobs, IsPending) ==> InUse(s.jobs, id)
  {
    hide ClaimedBy, InUse, JobBlocked;
    forall id | id in s.jobs && s.jobs[id].state == IsPending ensures JobBlocked(s, id) <==> InUse(s.jobs, id) {
      BlockedByUsers(s, id);
    }
  }

  lemma {:induction false} NoneToSchedule(cfg: Config, s: State, now: int)
    requires Loaded(cfg, s, now) && InState(s.jobs, IsCreated) == {}
    ensures Inv(cfg, s) && PendingDue(s, now)
  {
    assert forall id :: id in s.jobs && s.jobs[id].state == IsCreated ==> id in InState(s.jobs, IsCreated);
    hide Loaded, Inv, PendingDue;
    AllScheduled(cfg, s, s, [], now);
  }

  lemma {:induction false} LoadedAtRest(cfg: Config, jobs: map<JobId, JobValue>, s': State, now: int)
    requires Storable(cfg, jobs, now) && InState(jobs, IsCreated) == {} && Loaded(cfg, s', now) && s'.jobs == jobs
    requires s'.locks == ClaimedBy(jobs, SortedIds(jobs.Keys))
    ensures Inv(cfg, s') && PendingDue(s', now) && (Conserving(s') <==> NothingIdle(jobs))
    ensures Exclusive(jobs) ==> Holding(s')
  {
    hide ClaimedBy, Owned, Counted, Holding, Exclusive, Storable, Coherent, PendingDue, Conserving;
    NoneToSchedule(cfg, s', now);
    ConservingWhenInUse(s');
    hide Inv;
    if Exclusive(jobs) {
      HeldWhenExclusive(s');
    }
  }

  lemma {:induction false} AllCreatedScheduled(cfg: Config, s1: State, s2: State, ids: seq<JobId>, now: int)
    requires Loaded(cfg, s1, now) && s1.locks == ClaimedBy(s1.jobs, SortedIds(s1.jobs.Keys))
    requires ids == SortedIds(InState(s1.jobs, IsCreated)) && s2 == ScheduleEach(s1, ids, now)
    ensures Inv(cfg, s2) && PendingDue(s2, now) && s2.jobs.Keys == s1.jobs.Keys
    ensures forall id :: id in s1.jobs ==> s2.jobs[id] == Rescheduled(s1.jobs[id], now)
    ensures Exclusive(s1.jobs) ==> Holding(s2)
  {
    hide ClaimedBy, ScheduleEach, Inv, PendingDue, Owned, Coherent, Counted, Holding, Storable, Scheduled, Exclusive;
    hide JustCreated, Distinct;
    CreatedAreJustCreated(cfg, s1.jobs, now);
    AscendingIdsOnce(s1.jobs);
    hide Loaded;
    ScheduleEachKeeps(cfg, s1, s2, ids, now);
    AllScheduled(cfg, s1, s2, ids, now);
    if Exclusive(s1.jobs) {
      HeldWhenExclusive(s1);
      ScheduledHolds(s1, s2, ids, now);
    }
  }

  lemma {:induction false} ScheduledThenAdmitted(
    cfg: Config, s1: State, s2: State, s': State, ids: seq<JobId>, now: int)
    requires Loaded(cfg, s1, now) && s1.locks == ClaimedBy(s1.jobs, SortedIds(s1.jobs.Keys))
    requires ids == SortedIds(InState(s1.jobs, IsCreated)) && s2 == ScheduleEach(s1, ids, now) && s' == Admit(s2, now)
    ensures Good(cfg, s', now) && s'.jobs.Keys == s1.jobs.Keys
    ensures forall id :: id in s1.jobs ==> SameOrAdmitted(Rescheduled(s1.jobs[id], now), s'.jobs[id], now)
    ensures Exclusive(s1.jobs) ==> Holding(s')
  {
    hide ClaimedBy, ScheduleEach, Admit, Good, Inv, PendingDue, Holding, Loaded, Exclusive, Rescheduled, SameOrAdmitted;
    AllCreatedScheduled(cfg, s1, s2, ids, now);
    AdmitIsExact(cfg, s2, s', now);
  }

  lemma AscendingIdsOnce(jobs: map<JobId, JobValue>)
    ensures Distinct(SortedIds(InState(jobs, IsCreated)))
  {
  }

  lemma {:induction false} AdmitIsExact(cfg: Config, s: State, s': State, now: int)
    requires Inv(cfg, s) && PendingDue(s, now) && s' == Admit(s, now)
    ensures Good(cfg, s', now) && (Holding(s) ==> Holding(s')) && s'.jobs.Keys == s.jobs.Keys
    ensures forall id :: id in s.jobs ==> SameOrAdmitted(s.jobs[id], s'.jobs[id], now)
  {
    hide PendingDue, Conserving, Holding, Admit, Woken, AllResting, Counted, Owned;
    PassServes(cfg, s, s', now);
    AdmitKeeps(cfg, s, s', now);
    AdmittedJobs(s, s', now);
    hide Coherent, Admitted;
  }

  lemma AdmittedJobs(s: State, s': State, now: int)
    requires Coherent(s) && Admitted(s, s', now)
    ensures s'.jobs.Keys == s.jobs.Keys
    ensures forall id :: id in s.jobs ==> SameOrAdmitted(s.jobs[id], s'.jobs[id], now)
  {
    forall id | id in s.jobs ensures SameOrAdmitted(s.jobs[id], s'.jobs[id], now) {
      PendingIsKnown(s, id);
    }
  }

  lemma {:induction false} LoadAtRest(cfg: Config, jobs: map<JobId, JobValue>, s': State, now: int)
    requires Storable(cfg, jobs, now) && InState(jobs, IsCreated) == {} && s' == LoadJobs(jobs, now)
    ensures Inv(cfg, s') && PendingDue(s', now) && (Conserving(s') <==> NothingIdle(jobs))
    ensures s'.jobs == jobs && s' == LoadStored(jobs, now)
    ensures forall id :: id in jobs ==> Rescheduled(jobs[id], now) == jobs[id]
    ensures Exclusive(jobs) ==> Holding(s')
  {
    assert forall id :: id in jobs && jobs[id].state == IsCreated ==> id in InState(jobs, IsCreated);
    hide LoadStored, ClaimedBy, Holding, Exclusive, PendingDue, Conserving, Inv, Loaded, Storable, NothingIdle, Scheduled;
    var s1 := LoadStored(jobs, now);
    StoredIsLoaded(cfg, jobs, s1, now);
    LoadedAtRest(cfg, jobs, s1, now);
  }

  lemma {:induction false} LoadAndSchedule(cfg: Config, jobs: map<JobId, JobValue>, s': State, now: int)
    requires Storable(cfg, jobs, now) && InState(jobs, IsCreated) != {} && s' == LoadJobs(jobs, now)
    ensures Good(cfg, s', now) && NothingIdle(jobs) && s'.jobs.Keys == jobs.Keys
    ensures forall id :: id in jobs ==> SameOrAdmitted(Rescheduled(jobs[id], now), s'.jobs[id], now)
    ensures Exclusive(jobs) ==> Holding(s')
  {
    var id :| id in InState(jobs, IsCreated);
    assert id in SortedIds(InState(jobs, IsCreated));
    hide LoadStored, ClaimedBy, Holding, Exclusive, ScheduleEach, Admit, Good, Loaded, Storable;
    hide Rescheduled, SameOrAdmitted;
    var s1 := LoadStored(jobs, now);
    var ids := SortedIds(InState(jobs, IsCreated));
    StoredIsLoaded(cfg, jobs, s1, now);
    ScheduledThenAdmitted(cfg, s1, ScheduleEach(s1, ids, now), s', ids, now);
  }

  /** Loading any jobs at rest or just created: the invariants hold; each job is as it was stored, a job
      just created is delayed or pending, or queued by the pass that follows; no pending job waits without
      need if and only if a pass followed or each one needed something in use; and every queued or running
      job holds what it lists if and only if no two stored ones list the same resource. */
  lemma {:induction false} LoadIsExact(cfg: Config, jobs: map<JobId, JobValue>, s': State, now: int)
    requires Storable(cfg, jobs, now) && s' == LoadJobs(jobs, now)
    ensures Inv(cfg, s') && PendingDue(s', now) && (Good(cfg, s', now) <==> NothingIdle(jobs))
    ensures s'.jobs.Keys == jobs.Keys
    ensures forall id :: id in jobs ==> SameOrAdmitted(Rescheduled(jobs[id], now), s'.jobs[id], now)
    ensures Holding(s') <==> Exclusive(jobs)
  {
    hide Holding, Exclusive, ScheduleEach, Admit, PendingDue, Conserving, Storable, NothingIdle, LoadJobs, Scheduled;
    hide Coherent, Owned, AllResting, Counted;
    if InState(jobs, IsCreated) == {} {
      LoadAtRest(cfg, jobs, s', now);
    } else {
      LoadAndSchedule(cfg, jobs, s', now);
    }
    if Holding(s') {
      hide Rescheduled, SameOrAdmitted;
      ExclusiveBefore(jobs, s', now);
    }
  }

  // ---------- the round trip ----------

  /** Same items, up to the order of equal priorities. */
  ghost predicate SameItems(a: seq<Item<JobId>>, b: seq<Item<JobId>>) {
    forall w :: w in a <==> w in b
  }

  /** Items are determined by the jobs they delay. */
  lemma {:induction false} DelayedComeBack(s: State, s1: State)
    requires Coherent(s) && Coherent(s1) && s1.jobs == s.jobs
    ensures SameItems(s1.delayed, s.delayed)
  {
    ValuesAreHeld(s.delayed);
    ValuesAreHeld(s1.delayed);
    forall w ensures w in s1.delayed <==> w in s.delayed {
      if w in s1.delayed {
        var x :| x in s.delayed && x.value == w.value;
        assert w.value in InState(s.jobs, IsDelayed) && x.priority == w.priority;
      }
      if w in s.delayed {
        var x :| x in s1.delayed && x.value == w.value;
        assert w.value in InState(s.jobs, IsDelayed) && x.priority == w.priority;
      }
    }
  }

  lemma {:induction false} GoodIsStorable(cfg: Config, s: State, stopped: int, now: int)
    requires Good(cfg, s, stopped) && stopped <= now
    ensures Storable(cfg, s.saved, now) && InState(s.saved, IsCreated) == {}
  {
    forall id | id in s.jobs ensures StorableJob(cfg.maxRetry, s.jobs[id], now) && s.jobs[id].state != IsCreated {
      assert Resting(cfg.maxRetry, s.jobs[id]);
      PendingIsKnown(s, id);
    }
  }

  /** Every pending job of a good scheduler needs something that a queued or running job uses. */
  lemma {:induction false} GoodIsNotIdle(cfg: Config, s: State, stopped: int)
    requires Good(cfg, s, stopped)
    ensures NothingIdle(s.saved)
  {
    forall id | id in InState(s.saved, IsPending) ensures InUse(s.saved, id) {
      PendingIsKnown(s, id);
      var r :| r in NeedsOf(s.jobs[id]) && r in s.locks && s.locks[r] != id;
      assert Uses(s.jobs, s.locks[r], r);
    }
  }

  lemma {:induction false} ContainersComeBack(s: State, s': State)
    requires Coherent(s) && Coherent(s') && s'.jobs == s.jobs
    ensures s'.pending == s.pending && s'.queued == s.queued && ValuesOf(s'.retry) == ValuesOf(s.retry)
    ensures SameItems(s'.delayed, s.delayed)
  {
    DelayedComeBack(s, s');
  }

  lemma {:induction false} LocksOfHolders(s: State, s': State)
    requires Owned(s) && Holding(s) && Owned(s') && Holding(s') && s'.jobs == s.jobs
    ensures s'.locks == s.locks
  {
    ResourcesAreExclusive(s);
    ResourcesAreExclusive(s');
    hide Owned, Holding;
    forall r ensures (r in s'.locks <==> r in s.locks) && (r in s.locks ==> s'.locks[r] == s.locks[r]) {
      assert r in s.locks ==> Uses(s.jobs, s.locks[r], r);
      assert r in s'.locks ==> Uses(s.jobs, s'.locks[r], r);
    }
  }

  /** Whatever locks were released, the rebuilt table gives every lock to a queued or running job that
      lists it; and it is the table before if every one of them held what it lists. */
  lemma {:induction false} LocksComeBack(s: State, s': State)
    requires Owned(s) && s' == s.(locks := ClaimedBy(s.jobs, SortedIds(s.jobs.Keys)))
    ensures Owned(s') && (Holding(s) ==> s'.locks == s.locks)
  {
    ClaimsAreUses(s, SortedIds(s.jobs.Keys));
    hide ClaimedBy;
    if Holding(s) {
      ResourcesAreExclusive(s);
      HeldWhenExclusive(s');
      LocksOfHolders(s, s');
    }
  }

  /** The same jobs in the same containers, every hidden job due, and the locks of a scheduler in which every
      queued or running job held its resources. */
  ghost predicate ComesBack(s: State, s': State, now: int) {
    && s'.jobs == s.jobs && s'.pending == s.pending && s'.queued == s.queued && s'.saved == s.saved
    && ValuesOf(s'.retry) == ValuesOf(s.retry) && AllDueAt(s'.retry, now)
    && SameItems(s'.delayed, s.delayed)
    && (Holding(s) ==> s'.locks == s.locks && Holding(s'))
  }

  /** The restart round trip: loading what the backend kept of a scheduler at rest gives the same
      jobs, in the same containers; every hidden job may be retried at once; the locks are the same
      if every queued or running job held its resources; the counters are exact again, and the
      scheduler goes on as well as it was stopped. */
  lemma {:induction false} RestartRoundTrip(cfg: Config, s: State, s': State, stopped: int, now: int)
    requires Good(cfg, s, stopped) && stopped <= now && s' == LoadJobs(s.saved, now)
    ensures ComesBack(s, s', now) && Good(cfg, s', now)
  {
    GoodIsStorable(cfg, s, stopped, now);
    GoodIsNotIdle(cfg, s, stopped);
    hide NothingIdle, Storable, AllResting, Counted, PendingDue, Conserving, LoadJobs;
    LoadAtRest(cfg, s.saved, s', now);
    hide Rescheduled;
    StoredIsLoaded(cfg, s.saved, s', now);
    hide Coherent, Owned, Loaded, Holding, SameItems, ValuesOf, AllDueAt, ClaimedBy, LoadStored;
    ContainersComeBack(s, s');
    if Holding(s) {
      ResourcesAreExclusive(s);
      LocksOfHolders(s, s');
    }
  }
}
