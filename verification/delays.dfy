/** What the check of the delayed jobs does, job by job (CheckDelayedJobs). */
module Delays {
  import opened Jobs
  import opened PriorityQueues
  import opened Metrics
  import opened Scheduler
  import opened Invariants
  import opened Operations
  import opened Retries
  import opened Exact

  // ---------- delayed jobs ----------

  predicate DueNow(j: JobValue, now: int) {
    j.state == IsDelayed && j.spec.startAfter <= now
  }

  /** A due job becomes pending, any other is left alone. */
  function ReleasedNow(j: JobValue, now: int): JobValue {
    if DueNow(j, now) then j.AddEvent(Pending, now) else j
  }

  lemma {:induction false} NoneIsDue(s: State, now: int)
    requires Coherent(s) && (s.delayed == [] || s.delayed[0].priority < -now)
    ensures forall id :: id in s.jobs ==> !DueNow(s.jobs[id], now)
  {
    ValuesAreHeld(s.delayed);
    forall id | id in s.jobs && s.jobs[id].state == IsDelayed ensures !DueNow(s.jobs[id], now) {
      assert id in InState(s.jobs, IsDelayed);
      var w :| w in s.delayed && w.value == id;
      HeadIsHighest(s.delayed, w);
    }
  }

  lemma HeadIsHighest(q: seq<Item<JobId>>, w: Item<JobId>)
    requires Descending(q) && w in q
    ensures q[0].priority >= w.priority
  {
    assert q == [q[0]] + q[1..];
  }

  lemma OneReleasedFirst(a: map<JobId, JobValue>, b: map<JobId, JobValue>, c: map<JobId, JobValue>, id: JobId, now: int)
    requires id in a && DueNow(a[id], now) && b == a[id := a[id].AddEvent(Pending, now)]
    requires c.Keys == b.Keys && forall k :: k in b ==> c[k] == ReleasedNow(b[k], now)
    ensures c.Keys == a.Keys && forall k :: k in a ==> c[k] == ReleasedNow(a[k], now)
  {
  }

  lemma {:induction false} ReleaseDueIsExact(cfg: Config, s: State, s': State, now: int)
    requires Inv(cfg, s) && PendingDue(s, now) && s' == ReleaseDue(s, now)
    ensures s'.jobs.Keys == s.jobs.Keys && forall id :: id in s.jobs ==> s'.jobs[id] == ReleasedNow(s.jobs[id], now)
    decreases |s.delayed|
  {
    if s.delayed == [] || s.delayed[0].priority < -now {
      NoneIsDue(s, now);
    } else {
      FirstIsDelayed(s);
      var id := s.delayed[0].value;
      var s1 := s.(delayed := s.delayed[1..]);
      var s2 := SetPending(s1, id, now);
      SetPendingJobs(s1, id, now);
      hide SetPending, PendingDue, KeepsHolding, Woken, Inv, Coherent, Removed;
      ReleaseOne(cfg, s, s1, s2, id, now);
      ReleaseDueIsExact(cfg, s2, s', now);
      OneReleasedFirst(s.jobs, s2.jobs, s'.jobs, id, now);
    }
  }

  lemma SetPendingJobs(s: State, id: JobId, now: int)
    requires id in s.jobs
    ensures SetPending(s, id, now).jobs == s.jobs[id := s.jobs[id].AddEvent(Pending, now)]
  {
    hide Notified;
  }

  /** The check of the delayed jobs is exact: precisely the jobs whose start time is reached become
      pending, and may be admitted at once; every other job is left alone or admitted. None is due
      afterwards. */
  lemma {:induction false} DelayedCheckIsExact(cfg: Config, s: State, s': State, now: int)
    requires Good(cfg, s, now) && s' == CheckDelayed(s, now)
    ensures s'.jobs.Keys == s.jobs.Keys
    ensures forall id :: id in s.jobs ==> SameOrAdmitted(ReleasedNow(s.jobs[id], now), s'.jobs[id], now)
    ensures forall id :: id in s'.jobs ==> !DueNow(s'.jobs[id], now)
  {
    var s1 := ReleaseDue(s, now);
    hide ReleaseDue, Admit, Conserving, PendingDue, KeepsHolding, Woken, Inv, SameOrAdmitted, Shrunk;
    ReleaseDueIsExact(cfg, s, s1, now);
    ReleaseDueKeeps(cfg, s, s1, now);
    if |s1.delayed| != |s.delayed| {
      PassIsShrunk(cfg, s1, s', now);
    } else {
      ShrunkNothing(s, now);
    }
    ReleasedThenAdmitted(s.jobs, s1, s', now);
  }

  lemma ReleasedThenAdmitted(jobs: map<JobId, JobValue>, s1: State, s': State, now: int)
    requires s1.jobs.Keys == jobs.Keys && forall id :: id in jobs ==> s1.jobs[id] == ReleasedNow(jobs[id], now)
    requires Shrunk(s1, s', {}, now)
    ensures s'.jobs.Keys == jobs.Keys
    ensures forall id :: id in jobs ==> SameOrAdmitted(ReleasedNow(jobs[id], now), s'.jobs[id], now)
    ensures forall id :: id in s'.jobs ==> !DueNow(s'.jobs[id], now)
  {
    hide LocksOfOthersKept;
    forall id | id in s'.jobs ensures !DueNow(s'.jobs[id], now) {
      assert SameOrAdmitted(s1.jobs[id], s'.jobs[id], now) && !DueNow(s1.jobs[id], now);
    }
  }
}
