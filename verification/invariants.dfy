/** What every operation of the scheduler keeps, and the proof for each single change. */
module Invariants {
  import opened Jobs
  import opened PriorityQueues
  import opened Resources
  import opened Metrics
  import opened Scheduler

  // ---------- the invariants ----------

  ghost function InState(jobs: map<JobId, JobValue>, st: JobState): set<JobId> {
    set id | id in jobs && jobs[id].state == st
  }

  ghost predicate QueueMatches(q: seq<Item<JobId>>, ids: set<JobId>) {
    OncePerValue(q) && Descending(q) && ValuesOf(q) == ids
  }

  /** Each container holds exactly the jobs of its state, once. */
  ghost predicate Coherent(s: State) {
    && IdsMatch(s.jobs)
    && s.pending == InState(s.jobs, IsPending)
    && s.queued == InState(s.jobs, IsQueued)
    && QueueMatches(s.retry, InState(s.jobs, IsHidden))
    && QueueMatches(s.delayed, InState(s.jobs, IsDelayed))
    && DueInOrder(s.delayed, s.jobs)
  }

  /** A delayed job waits with the opposite of its start time as priority. */
  ghost predicate DueInOrder(q: seq<Item<JobId>>, jobs: map<JobId, JobValue>) {
    forall w :: w in q && w.value in jobs ==> w.priority == -jobs[w.value].spec.startAfter
  }

  ghost predicate IdsMatch(jobs: map<JobId, JobValue>) {
    forall id :: id in jobs ==> jobs[id].id == id
  }

  /** The job is queued or running and lists the resource. */
  ghost predicate Uses(jobs: map<JobId, JobValue>, id: JobId, r: Resource) {
    id in jobs && UsesLocks(jobs[id].state) && r in NeedsOf(jobs[id])
  }

  /** The owner of a lock is a queued or running job that lists the resource. */
  ghost predicate Owned(s: State) {
    forall r :: r in s.locks ==> Uses(s.jobs, s.locks[r], r)
  }

  /** Without admin releases, a queued or running job holds all it lists. */
  ghost predicate Holding(s: State) {
    forall id :: id in s.jobs && UsesLocks(s.jobs[id].state) ==> HoldsAll(s.locks, id, NeedsOf(s.jobs[id]))
  }

  ghost predicate AllResting(cfg: Config, s: State) {
    forall id :: id in s.jobs ==> Resting(cfg.maxRetry, s.jobs[id])
  }

  /** The counters are those of the jobs the observers know. */
  ghost predicate Counted(s: State) {
    CountsJobs(s.metrics, s.saved) && CountsLocks(s.metrics, s.locks, s.saved)
  }

  ghost predicate Inv(cfg: Config, s: State) {
    && Coherent(s)
    && Owned(s)
    && AllResting(cfg, s)
    && s.saved == s.jobs
    && Counted(s)
  }

  /** The start time of every pending job is reached. */
  ghost predicate PendingDue(s: State, now: int) {
    forall id :: id in s.pending && id in s.jobs ==> !TooEarly(s.jobs[id], now)
  }

  /** Work conservation: every pending job needs something another job holds. */
  ghost predicate Conserving(s: State) {
    forall id :: id in s.pending && id in s.jobs ==> JobBlocked(s, id)
  }

  /** Mutual exclusion: no two queued or running jobs list the same resource, and the lock table
      says exactly who uses what. */
  lemma ResourcesAreExclusive(s: State)
    requires Owned(s) && Holding(s)
    ensures forall a, b, r :: Uses(s.jobs, a, r) && Uses(s.jobs, b, r) ==> a == b
    ensures forall r, id :: (r in s.locks && s.locks[r] == id) <==> Uses(s.jobs, id, r)
  {
    forall r, id | Uses(s.jobs, id, r) ensures r in s.locks && s.locks[r] == id {
      assert HoldsAll(s.locks, id, NeedsOf(s.jobs[id]));
    }
  }

  // ---------- small facts ----------

  lemma PendingIsKnown(s: State, id: JobId)
    requires Coherent(s)
    ensures id in s.pending <==> id in s.jobs && s.jobs[id].state == IsPending
  {
    assert id in InState(s.jobs, IsPending) <==> id in s.jobs && s.jobs[id].state == IsPending;
  }

  lemma InStateAfter(jobs: map<JobId, JobValue>, id: JobId, j: JobValue, st: JobState)
    ensures InState(jobs[id := j], st)
         == if j.state == st then InState(jobs, st) + {id} else InState(jobs, st) - {id}
  {
  }

  lemma LockCountsOfKnown(locks: LockTable, known: map<JobId, JobValue>, id: JobId, j: JobValue, t: Topic)
    requires id in known && j.spec.topic == known[id].spec.topic
    ensures LocksOf(locks, known[id := j], t) == LocksOf(locks, known, t)
  {
  }

  /** Telling the observers of a change of one job makes their knowledge current. */
  lemma {:induction false} NotifyKeeps(s: State, id: JobId, was: JobValue)
    requires id in s.jobs && s.saved == s.jobs[id := was] && Counted(s)
    requires var j := s.jobs[id];
             && j.previousState == was.state && j.spec.topic == was.spec.topic
             && Tracked(was.state) && Tracked(j.state) && j.state != IsCreated
    ensures Notify(s, id).saved == s.jobs && Counted(Notify(s, id))
  {
    var j := s.jobs[id];
    var s' := Notify(s, id);
    assert s'.saved == s.jobs;
    assert s.saved[id := j] == s.jobs;
    ChangeKeepsCounts(s.metrics, s.saved, id, j);
    forall t ensures At(s'.metrics, t).resourcesLocked == |LocksOf(s.locks, s.jobs, t)| {
      LockCountsOfKnown(s.locks, s.saved, id, j, t);
    }
  }

  lemma {:induction false} LockForKeepsCounted(s: State, id: JobId)
    requires id in s.jobs && id in s.saved && s.jobs[id].spec.topic == s.saved[id].spec.topic && Counted(s)
    ensures Counted(LockFor(s, id))
  {
    var s' := LockFor(s, id);
    LockingKeepsCounts(s.metrics, s.locks, s.saved, id, NeedsOf(s.jobs[id]));
    forall t ensures TopicExact(At(s'.metrics, t), s.saved, t) {
      assert TopicExact(At(s.metrics, t), s.saved, t);
    }
  }

  lemma {:induction false} UnlockForKeepsCounted(s: State, id: JobId)
    requires id in s.jobs && id in s.saved && s.jobs[id].spec.topic == s.saved[id].spec.topic && Counted(s)
    ensures Counted(UnlockFor(s, id))
  {
    var s' := UnlockFor(s, id);
    ReleasingKeepsCounts(s.metrics, s.locks, s.saved, id, NeedsOf(s.jobs[id]));
    forall t ensures TopicExact(At(s'.metrics, t), s.saved, t) {
      assert TopicExact(At(s.metrics, t), s.saved, t);
    }
  }

  /** Releasing leaves no lock of the job: the table is the rest of what it was. */
  lemma UnlockForReleases(s: State, id: JobId)
    requires id in s.jobs
    ensures UnlockFor(s, id).locks == Released(s.locks, id, NeedsOf(s.jobs[id]))
    ensures Owned(s) ==> forall r :: r in UnlockFor(s, id).locks ==> UnlockFor(s, id).locks[r] != id
  {
    var needs := NeedsOf(s.jobs[id]);
    if Freed(s.locks, id, needs) == {} {
      assert forall r :: r in needs && r in s.locks ==> r !in Freed(s.locks, id, needs);
    }
  }
}
