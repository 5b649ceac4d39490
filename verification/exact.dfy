/** What the operations on many jobs do, exactly. */
module Exact {
  import opened Jobs
  import opened Ordering
  import opened Integers
  import opened PullOrder
  import opened PriorityQueues
  import opened Metrics
  import opened Scheduler
  import opened Invariants
  import opened Moves
  import opened Admission
  import opened Operations

  // ---------- pulling ----------

  ghost predicate IdsOf(q: seq<Ticket>, id: JobId) {
    exists i :: 0 <= i < |q| && q[i].id == id
  }

  /** Exactly the jobs of the list were started. */
  ghost predicate StartedExactly(
    jobs: map<JobId, JobValue>, jobs': map<JobId, JobValue>, q: seq<Ticket>, timeout: nat, now: int)
  {
    && jobs'.Keys == jobs.Keys
    && forall id :: id in jobs ==> jobs'[id] == if IdsOf(q, id) then Started(jobs[id], timeout, now) else jobs[id]
  }

  lemma {:induction false} StartedThen(
    jobs: map<JobId, JobValue>, jobs1: map<JobId, JobValue>, jobs': map<JobId, JobValue>, q: seq<Ticket>, timeout: nat, now: int)
    requires q != [] && q[0].id in jobs && IdsOnce(q)
    requires jobs1 == jobs[q[0].id := Started(jobs[q[0].id], timeout, now)]
    requires StartedExactly(jobs1, jobs', q[1..], timeout, now)
    ensures StartedExactly(jobs, jobs', q, timeout, now)
  {
    forall id | id in jobs
      ensures jobs'[id] == if IdsOf(q, id) then Started(jobs[id], timeout, now) else jobs[id]
    {
      IdsOfTail(q, id);
    }
  }

  /** Every job of the list is queued, then started; all the others are left as they are. */
  lemma StartedJobs(s: State, id: JobId, timeout: nat, now: int)
    requires id in s.jobs && s.jobs[id].state == IsQueued
    ensures StartJob(s, id, timeout, now).jobs == s.jobs[id := Started(s.jobs[id], timeout, now)]
  {
    hide Notified;
  }

  lemma {:induction false} StartAllExact(s: State, s': State, q: seq<Ticket>, timeout: nat, now: int)
    requires IdsOnce(q) && (forall t :: t in q ==> t.id in s.jobs && s.jobs[t.id].state == IsQueued)
    requires s' == StartAll(s, q, timeout, now)
    ensures StartedExactly(s.jobs, s'.jobs, q, timeout, now)
    decreases |q|
  {
    if q != [] {
      assert q[0] in q;
      var s1 := StartJob(s, q[0].id, timeout, now);
      StartedJobs(s, q[0].id, timeout, now);
      hide StartJob, StartedExactly, Started;
      forall t | t in q[1..] ensures t in q && t.id != q[0].id {
        var i :| 0 <= i < |q[1..]| && q[1..][i] == t;
        assert q[i + 1] == t;
      }
      StartAllExact(s1, s', q[1..], timeout, now);
      StartedThen(s.jobs, s1.jobs, s'.jobs, q, timeout, now);
    }
  }

  lemma IdsOfTail(q: seq<Ticket>, id: JobId)
    requires q != []
    ensures IdsOf(q, id) <==> q[0].id == id || IdsOf(q[1..], id)
    ensures IdsOnce(q) && q[0].id == id ==> !IdsOf(q[1..], id)
  {
    if IdsOf(q, id) && q[0].id != id {
      var i :| 0 <= i < |q| && q[i].id == id;
      assert q[1..][i - 1].id == id;
    }
    if IdsOf(q[1..], id) {
      var i :| 0 <= i < |q[1..]| && q[1..][i].id == id;
      assert q[i + 1].id == id;
    }
  }

  /** Pull is exact: the first jobs of the topic are started, none is refused, and no other job
      changes. */
  lemma {:induction false} PullIsExact(cfg: Config, s: State, s': State, topic: Topic, n: nat, timeout: nat, now: int)
    requires Inv(cfg, s) && s' == Pull(s, topic, n, timeout, now)
    ensures var q := Best(s, topic, n);
            var waiting := Matching(TicketsOf(s.jobs, InState(s.jobs, IsQueued)), topic);
            && |q| == Min(n, |waiting|) && Ascending(Before, q)
            && (forall t :: t in q ==> t in waiting)
            && (forall t, u :: t in q && u in waiting && u !in q ==> Before(t, u))
            && StartedExactly(s.jobs, s'.jobs, q, timeout, now)
  {
    var q := Best(s, topic, n);
    FirstAreFirst(TicketsOf(s.jobs, s.queued), topic, n);
    BestAreQueued(s, q, topic, n);
    hide Inv, StartAll, Best, FirstTickets;
    StartAllExact(s, s', q, timeout, now);
  }

  lemma {:induction false} BestAreQueued(s: State, q: seq<Ticket>, topic: Topic, n: nat)
    requires Coherent(s) && q == Best(s, topic, n)
    ensures IdsOnce(q) && forall t :: t in q ==> t.id in s.jobs && s.jobs[t.id].state == IsQueued
  {
    FirstAreFirst(TicketsOf(s.jobs, s.queued), topic, n);
    forall t | t in q ensures t.id in s.jobs && s.jobs[t.id].state == IsQueued {
      assert t.id in InState(s.jobs, IsQueued);
    }
    forall i, j | 0 <= i < j < |q| ensures q[i].id != q[j].id {
      assert q[i] in q && q[j] in q && Before(q[i], q[j]);
    }
  }

  // ---------- deleting several jobs ----------

  /** A job that was left alone, or was pending and has been admitted meanwhile. */
  ghost predicate SameOrAdmitted(j: JobValue, j': JobValue, now: int) {
    j' == j || (j.state == IsPending && j' == j.AddEvent(Enqueue, now))
  }

  /** Exactly the given jobs are gone; the others were left alone or admitted. */
  ghost predicate Shrunk(s: State, s': State, gone: set<JobId>, now: int) {
    && s'.jobs.Keys == s.jobs.Keys - gone
    && (forall k :: k in s'.jobs ==> SameOrAdmitted(s.jobs[k], s'.jobs[k], now))
    && LocksOfOthersKept(s, s')
  }

  /** The jobs that were not pending hold what they held. */
  ghost predicate LocksOfOthersKept(s: State, s': State) {
    forall r, k :: k in s'.jobs && k in s.jobs && s.jobs[k].state != IsPending ==>
      ((r in s'.locks && s'.locks[r] == k) <==> (r in s.locks && s.locks[r] == k))
  }

  lemma ShrunkNothing(s: State, now: int)
    ensures Shrunk(s, s, {}, now)
  {
  }

  lemma {:induction false} ShrunkThen(s: State, s1: State, s2: State, a: set<JobId>, b: set<JobId>, now: int)
    requires Shrunk(s, s1, a, now) && Shrunk(s1, s2, b, now)
    ensures Shrunk(s, s2, a + b, now)
  {
    assert s2.jobs.Keys == s.jobs.Keys - (a + b);
    forall r, k | k in s2.jobs && k in s.jobs && s.jobs[k].state != IsPending
      ensures (r in s2.locks && s2.locks[r] == k) <==> (r in s.locks && s.locks[r] == k)
    {
      assert SameOrAdmitted(s.jobs[k], s1.jobs[k], now);
      assert (r in s1.locks && s1.locks[r] == k) <==> (r in s.locks && s.locks[r] == k);
    }
  }

  lemma {:induction false} AdmittedIsShrunk(s: State, s': State, now: int)
    requires Admitted(s, s', now) && Coherent(s)
    ensures Shrunk(s, s', {}, now)
  {
    forall k | k in s'.jobs ensures SameOrAdmitted(s.jobs[k], s'.jobs[k], now) {
      PendingIsKnown(s, k);
    }
    forall r, k | k in s'.jobs && k in s.jobs && s.jobs[k].state != IsPending
      ensures (r in s'.locks && s'.locks[r] == k) <==> (r in s.locks && s.locks[r] == k)
    {
      PendingIsKnown(s, k);
    }
  }

  lemma {:induction false} RemoveIsShrunk(s: State, s1: State, s2: State, id: JobId, now: int)
    requires id in s.jobs && s1 == UnlockFor(s, id) && s2 == Remove(s, id, now)
    ensures Shrunk(s, s2, {id}, now)
  {
    hide Remove;
    RemoveFields(s, s1, s2, id, now);
    UnlockForReleases(s, id);
  }

  lemma {:induction false} DeleteThenPass(cfg: Config, s: State, s1: State, s2: State, s': State, id: JobId, now: int)
    requires Inv(cfg, s) && id in s.jobs && s1 == UnlockFor(s, id) && s2 == Remove(s, id, now) && s' == Admit(s2, now)
    ensures Shrunk(s, s', {id}, now)
  {
    hide Shrunk, UnlockFor, Remove, Admit, Admitted, Owned, AllResting, Counted;
    RemoveKeeps(cfg, s, s1, s2, id, now);
    RemoveIsShrunk(s, s1, s2, id, now);
    AdmitKeeps(cfg, s2, s', now);
    AdmittedIsShrunk(s2, s', now);
    ShrunkThen(s, s2, s', {id}, {}, now);
    assert {id} + {} == {id};
  }

  lemma {:induction false} DeleteIsShrunk(cfg: Config, s: State, s': State, id: JobId, now: int)
    requires Good(cfg, s, now) && s' == DeleteJob(s, id, now)
    ensures Good(cfg, s', now) && Shrunk(s, s', {id}, now)
  {
    hide PendingDue, Conserving, KeepsHolding, Woken, Shrunk, Inv, UnlockFor, Remove, Admit;
    DeleteServes(cfg, s, s', id, now);
    if id in s.jobs {
      DeleteThenPass(cfg, s, UnlockFor(s, id), Remove(s, id, now), s', id, now);
    } else {
      MissingIsShrunk(s, id, now);
    }
  }

  lemma MissingIsShrunk(s: State, id: JobId, now: int)
    requires id !in s.jobs
    ensures Shrunk(s, s, {id}, now)
  {
  }

  lemma {:induction false} DeleteEachIsShrunk(cfg: Config, s: State, s': State, ids: seq<JobId>, now: int)
    requires Good(cfg, s, now) && s' == DeleteEach(s, ids, now)
    ensures Good(cfg, s', now) && Shrunk(s, s', Elements(ids), now)
    decreases |ids|
  {
    hide Good, Shrunk, DeleteJob;
    if ids == [] {
      ShrunkNothing(s, now);
      assert Elements(ids) == {};
    } else {
      var s1 := DeleteJob(s, ids[0], now);
      DeleteIsShrunk(cfg, s, s1, ids[0], now);
      DeleteEachIsShrunk(cfg, s1, s', ids[1..], now);
      ShrunkThen(s, s1, s', {ids[0]}, Elements(ids[1..]), now);
      assert Elements(ids) == {ids[0]} + Elements(ids[1..]);
    }
  }

  lemma {:induction false} OthersUntouched(s: State, s': State, now: int)
    requires Shrunk(s, s', WaitingJobs(s), now)
    ensures s'.jobs == s.jobs - WaitingJobs(s)
  {
    forall k | k in s'.jobs ensures s'.jobs[k] == s.jobs[k] {
      assert SameOrAdmitted(s.jobs[k], s'.jobs[k], now);
      assert k !in WaitingJobs(s);
    }
  }

  lemma {:induction false} WaitingAreDeleted(cfg: Config, s: State, s': State, now: int)
    requires Good(cfg, s, now) && s' == DeleteQueued(s, now)
    ensures Good(cfg, s', now) && Shrunk(s, s', WaitingJobs(s), now)
  {
    hide Good, Shrunk, DeleteEach, WaitingJobs;
    var ids := SortedIds(WaitingJobs(s));
    DeleteEachIsShrunk(cfg, s, s', ids, now);
    assert Elements(ids) == WaitingJobs(s);
  }

  /** DeleteQueuedJobs is exact, although every deletion may admit other jobs meanwhile: the
      waiting jobs are gone, all others are untouched and hold what they held, and nothing is
      left in the containers of the waiting jobs. */
  lemma {:induction false} DeleteQueuedIsExact(cfg: Config, s: State, s': State, now: int)
    requires Good(cfg, s, now) && s' == DeleteQueued(s, now)
    ensures s'.jobs == s.jobs - WaitingJobs(s)
    ensures s'.pending == {} && s'.queued == {} && ValuesOf(s'.delayed) == {}
    ensures forall r :: r in s'.locks <==> r in s.locks && s.locks[r] in s'.jobs
    ensures forall r :: r in s'.locks ==> s'.locks[r] == s.locks[r]
  {
    hide Good, WaitingJobs, DeleteQueued;
    WaitingAreDeleted(cfg, s, s', now);
    OthersUntouched(s, s', now);
    NoneWaiting(cfg, s, s', now);
    OnlyOldLocks(cfg, s, s', now);
  }

  lemma NoneWaiting(cfg: Config, s: State, s': State, now: int)
    requires Good(cfg, s', now) && s'.jobs == s.jobs - WaitingJobs(s)
    ensures s'.pending == {} && s'.queued == {} && ValuesOf(s'.delayed) == {}
  {
    assert InState(s'.jobs, IsPending) == {} && InState(s'.jobs, IsQueued) == {} && InState(s'.jobs, IsDelayed) == {};
  }

  lemma {:induction false} OnlyOldLocks(cfg: Config, s: State, s': State, now: int)
    requires Good(cfg, s', now) && s'.jobs == s.jobs - WaitingJobs(s) && LocksOfOthersKept(s, s')
    ensures forall r :: r in s'.locks <==> r in s.locks && s.locks[r] in s'.jobs
    ensures forall r :: r in s'.locks ==> s'.locks[r] == s.locks[r]
  {
    hide Coherent, AllResting, Counted, PendingDue, Conserving;
    forall r | r in s'.locks ensures r in s.locks && s.locks[r] in s'.jobs && s'.locks[r] == s.locks[r] {
      assert Uses(s'.jobs, s'.locks[r], r);
      assert s'.locks[r] !in WaitingJobs(s);
    }
    forall r | r in s.locks && s.locks[r] in s'.jobs ensures r in s'.locks {
      assert s.locks[r] !in WaitingJobs(s);
    }
  }

  // ---------- retention ----------

  /** Past the limits nothing more is deleted. */
  lemma {:induction false} RetainStops(cfg: Config, s: State, order: seq<JobId>, excess: nat, deleted: nat, now: int)
    requires deleted >= excess
    requires forall i :: 0 <= i < |order| && order[i] in s.jobs ==> now - s.jobs[order[i]].LastUpdate() < AgeLimit(cfg)
    ensures Retain(cfg, s, order, excess, deleted, now) == s
    decreases |order|
  {
    if order != [] {
      assert forall i :: 0 <= i < |order[1..]| ==> order[1..][i] == order[i + 1];
      RetainStops(cfg, s, order[1..], excess, deleted, now);
    }
  }

  /** The completed jobs to visit, oldest first. */
  ghost predicate OldestFirst(s: State, order: seq<JobId>) {
    && (forall id :: id in order ==> id in s.jobs && s.jobs[id].IsCompleted())
    && Distinct(order)
    && forall i, j :: 0 <= i < j < |order| ==> LastUpdateOf(s, order[i]) <= LastUpdateOf(s, order[j])
  }

  lemma {:induction false} OldestFirstAfter(s: State, s1: State, order: seq<JobId>, now: int)
    requires order != [] && OldestFirst(s, order) && Shrunk(s, s1, {order[0]}, now)
    ensures OldestFirst(s1, order[1..])
    ensures forall i :: 0 < i < |order| ==> LastUpdateOf(s1, order[i]) == LastUpdateOf(s, order[i])
  {
    forall i | 0 < i < |order| ensures order[i] in s1.jobs && s1.jobs[order[i]] == s.jobs[order[i]] {
      assert order[i] in order && order[0] != order[i];
      assert SameOrAdmitted(s.jobs[order[i]], s1.jobs[order[i]], now);
    }
    assert forall i :: 0 <= i < |order[1..]| ==> order[1..][i] == order[i + 1];
  }

  /** How many of the oldest completed jobs the check deletes, and why. */
  ghost predicate CutAt(cfg: Config, s: State, s': State, order: seq<JobId>, excess: nat, deleted: nat, k: nat, now: int) {
    && k <= |order|
    && Shrunk(s, s', Elements(order[..k]), now)
    && (forall i :: 0 <= i < k ==> deleted + i < excess || now - LastUpdateOf(s, order[i]) >= AgeLimit(cfg))
    && (k < |order| ==> deleted + k >= excess)
    && YoungFrom(cfg, s, order, k, now)
  }

  ghost predicate YoungFrom(cfg: Config, s: State, order: seq<JobId>, k: nat, now: int) {
    forall i :: k <= i < |order| ==> now - LastUpdateOf(s, order[i]) < AgeLimit(cfg)
  }

  lemma {:induction false} RetainCuts(
    cfg: Config, s: State, s': State, order: seq<JobId>, excess: nat, deleted: nat, now: int) returns (k: nat)
    requires Good(cfg, s, now) && OldestFirst(s, order)
    requires s' == Retain(cfg, s, order, excess, deleted, now)
    ensures Good(cfg, s', now) && CutAt(cfg, s, s', order, excess, deleted, k, now)
    decreases |order|
  {
    hide Good, Shrunk, DeleteJob;
    if order == [] {
      k := 0;
      ShrunkNothing(s, now);
      assert Elements(order[..0]) == {};
    } else {
      assert order[0] in order;
      if deleted < excess || now - s.jobs[order[0]].LastUpdate() >= AgeLimit(cfg) {
        var s1 := DeleteJob(s, order[0], now);
        DeleteIsShrunk(cfg, s, s1, order[0], now);
        OldestFirstAfter(s, s1, order, now);
        var n := RetainCuts(cfg, s1, s', order[1..], excess, deleted + 1, now);
        k := n + 1;
        ShrunkThen(s, s1, s', {order[0]}, Elements(order[1..][..n]), now);
        CutLater(cfg, s, s1, s', order, excess, deleted, n, now);
      } else {
        k := 0;
        ShrunkNothing(s, now);
        assert Elements(order[..0]) == {};
        AllYounger(cfg, s, order, now);
        RetainStops(cfg, s, order, excess, deleted, now);
      }
    }
  }

  lemma {:induction false} AllYounger(cfg: Config, s: State, order: seq<JobId>, now: int)
    requires order != [] && OldestFirst(s, order) && now - LastUpdateOf(s, order[0]) < AgeLimit(cfg)
    ensures forall i :: 0 <= i < |order| ==> order[i] in s.jobs && now - LastUpdateOf(s, order[i]) < AgeLimit(cfg)
  {
    forall i | 0 <= i < |order|
      ensures order[i] in s.jobs && now - LastUpdateOf(s, order[i]) < AgeLimit(cfg)
    {
      assert order[i] in order;
    }
  }

  lemma {:induction false} CutLater(
    cfg: Config, s: State, s1: State, s': State, order: seq<JobId>, excess: nat, deleted: nat, n: nat, now: int)
    requires order != [] && order[0] in s.jobs
    requires deleted < excess || now - LastUpdateOf(s, order[0]) >= AgeLimit(cfg)
    requires forall i :: 0 < i < |order| ==> LastUpdateOf(s1, order[i]) == LastUpdateOf(s, order[i])
    requires CutAt(cfg, s1, s', order[1..], excess, deleted + 1, n, now)
    requires Shrunk(s, s', {order[0]} + Elements(order[1..][..n]), now)
    ensures CutAt(cfg, s, s', order, excess, deleted, n + 1, now)
  {
    hide LastUpdateOf, AgeLimit, Shrunk;
    assert order[..n + 1] == [order[0]] + order[1..][..n];
    assert Elements(order[..n + 1]) == {order[0]} + Elements(order[1..][..n]);
    forall i | 0 <= i < n + 1
      ensures deleted + i < excess || now - LastUpdateOf(s, order[i]) >= AgeLimit(cfg)
    {
      if i > 0 {
        var x := order[1..][i - 1];
        assert x == order[i] && LastUpdateOf(s1, x) == LastUpdateOf(s, x);
      }
    }
    YoungLater(cfg, s, s1, order, n, now);
  }

  lemma YoungLater(cfg: Config, s: State, s1: State, order: seq<JobId>, n: nat, now: int)
    requires order != [] && YoungFrom(cfg, s1, order[1..], n, now)
    requires forall i :: 0 < i < |order| ==> LastUpdateOf(s1, order[i]) == LastUpdateOf(s, order[i])
    ensures YoungFrom(cfg, s, order, n + 1, now)
  {
    hide LastUpdateOf, AgeLimit;
    var rest := order[1..];
    forall i | n + 1 <= i < |order| ensures now - LastUpdateOf(s, order[i]) < AgeLimit(cfg) {
      assert rest[i - 1] == order[i];
    }
  }

  /** The retention check deletes a prefix of the completed jobs in last-update order, and no
      other job: at most the allowed number survives, none of them as old as the limit. */
  lemma {:induction false} RetentionIsExact(cfg: Config, s: State, s': State, order: seq<JobId>, now: int)
    returns (k: nat)
    requires Good(cfg, s, now) && cfg.retention && ByLastUpdate(s, order)
    requires s' == CheckRetention(cfg, s, order, now)
    ensures k <= |order| && s'.jobs.Keys == s.jobs.Keys - Elements(order[..k])
    ensures forall id :: id in s'.jobs ==> SameOrAdmitted(s.jobs[id], s'.jobs[id], now)
    ensures CompletedJobs(s') == Elements(order[k..])
    ensures cfg.maxCompleted >= 0 ==> |CompletedJobs(s')| <= cfg.maxCompleted
    ensures forall id :: id in CompletedJobs(s') ==> now - s'.jobs[id].LastUpdate() < AgeLimit(cfg)
    ensures forall i :: 0 <= i < k ==>
              i < Excess(cfg, |order|) || now - LastUpdateOf(s, order[i]) >= AgeLimit(cfg)
  {
    k := RetainOldest(cfg, s, s', order, now);
    hide Good, CheckRetention;
    SurvivorsAre(s, s', order, k, now);
    SuffixCount(order, k);
    SurvivorsAreYoung(cfg, s, s', order, k, now);
  }

  lemma {:induction false} RetainOldest(cfg: Config, s: State, s': State, order: seq<JobId>, now: int) returns (k: nat)
    requires Good(cfg, s, now) && cfg.retention && ByLastUpdate(s, order) && s' == CheckRetention(cfg, s, order, now)
    ensures CutAt(cfg, s, s', order, Excess(cfg, |order|), 0, k, now)
  {
    hide Good, Retain, CutAt;
    assert forall id :: id in order ==> id in CompletedJobs(s);
    k := RetainCuts(cfg, s, s', order, Excess(cfg, |order|), 0, now);
  }

  lemma {:induction false} SurvivorsAreYoung(cfg: Config, s: State, s': State, order: seq<JobId>, k: nat, now: int)
    requires ByLastUpdate(s, order) && CutAt(cfg, s, s', order, Excess(cfg, |order|), 0, k, now)
    ensures forall id :: id in CompletedJobs(s') ==> now - s'.jobs[id].LastUpdate() < AgeLimit(cfg)
  {
    SurvivorsAre(s, s', order, k, now);
    forall id | id in CompletedJobs(s') ensures now - s'.jobs[id].LastUpdate() < AgeLimit(cfg) {
      assert id in Elements(order[k..]);
      var i :| 0 <= i < |order[k..]| && order[k..][i] == id;
      assert order[k + i] == id && SameOrAdmitted(s.jobs[id], s'.jobs[id], now);
    }
  }

  lemma {:induction false} SurvivorsAre(s: State, s': State, order: seq<JobId>, k: nat, now: int)
    requires ByLastUpdate(s, order) && k <= |order| && Shrunk(s, s', Elements(order[..k]), now)
    ensures CompletedJobs(s') == Elements(order[k..])
    ensures forall id :: id in Elements(order[k..]) ==> id in s.jobs && s.jobs[id].IsCompleted()
  {
    assert order == order[..k] + order[k..];
    forall id | id in order[k..] ensures id in CompletedJobs(s) && id !in order[..k] {
      var i :| 0 <= i < |order[k..]| && order[k..][i] == id;
      assert order[k + i] == id && id in order;
    }
    forall id | id in s'.jobs ensures id in CompletedJobs(s') <==> id in CompletedJobs(s) {
      assert SameOrAdmitted(s.jobs[id], s'.jobs[id], now);
    }
  }

  lemma {:induction false} SuffixCount(order: seq<JobId>, k: nat)
    requires Distinct(order) && k <= |order|
    ensures |Elements(order[k..])| == |order| - k
  {
    DistinctCount(order[k..]);
  }

  // ---------- timeouts ----------

  /** The job failed once: it was terminated if and only if its failures are used up. */
  ghost predicate FailedOnce(maxRetry: nat, j: JobValue, j': JobValue, now: int) {
    exists e :: FailedWith(maxRetry, j, j', e, now)
  }

  ghost predicate FailedWith(maxRetry: nat, j: JobValue, j': JobValue, e: EventType, now: int) {
    && e in {Enqueue, EventType.Hide, Terminate}
    && j' == j.AddEvent(Fail, now).AddEvent(e, now)
    && (e == Terminate <==> j.Failures() + 1 == FailureLimit(maxRetry))
  }

  /** The jobs of the list failed once; the others were left alone or admitted. */
  ghost predicate AllFailedOnce(cfg: Config, s: State, s': State, ids: set<JobId>, now: int) {
    && s'.jobs.Keys == s.jobs.Keys
    && forall k :: k in s.jobs ==>
         if k in ids then FailedOnce(cfg.maxRetry, s.jobs[k], s'.jobs[k], now)
         else SameOrAdmitted(s.jobs[k], s'.jobs[k], now)
  }

  lemma {:induction false} FailCases(cfg: Config, s: State, s1: State, s2: State, s': State, id: JobId, e: EventType, now: int)
    requires id in s.jobs && s.jobs[id].state == IsRunning
    requires s1.jobs == s.jobs[id := s.jobs[id].AddEvent(Fail, now)]
    requires e in {EventType.Hide, Terminate} && (e == Terminate <==> s.jobs[id].Failures() + 1 == FailureLimit(cfg.maxRetry))
    requires s2.jobs == s1.jobs[id := s1.jobs[id].AddEvent(e, now)] && Shrunk(s2, s', {}, now)
    ensures AllFailedOnce(cfg, s, s', {id}, now)
  {
    assert FailedWith(cfg.maxRetry, s.jobs[id], s2.jobs[id], e, now);
    forall k | k in s.jobs
      ensures if k == id then FailedOnce(cfg.maxRetry, s.jobs[k], s'.jobs[k], now)
              else SameOrAdmitted(s.jobs[k], s'.jobs[k], now)
    {
      assert SameOrAdmitted(s2.jobs[k], s'.jobs[k], now);
    }
  }

  lemma {:induction false} PassIsShrunk(cfg: Config, s: State, s': State, now: int)
    requires Inv(cfg, s) && s' == Admit(s, now)
    ensures Shrunk(s, s', {}, now)
  {
    AdmitKeeps(cfg, s, s', now);
    hide Shrunk, Admitted, Admit, Owned, AllResting, Counted;
    AdmittedIsShrunk(s, s', now);
  }

  lemma {:induction false} GiveUpOnce(cfg: Config, s: State, s1: State, s2: State, s': State, id: JobId, now: int)
    requires id in s.jobs && s.jobs[id].state == IsRunning && s1.jobs == s.jobs[id := s.jobs[id].AddEvent(Fail, now)]
    requires Almost(cfg, s1, id) && Last(s1.jobs[id]) == Fail && s1.jobs[id].state == IsRunning
    requires s1.jobs[id].Failures() == s.jobs[id].Failures() + 1 == FailureLimit(cfg.maxRetry)
    requires s2 == Closed(s1, id, Terminate, now) && s' == Admit(s2, now)
    ensures AllFailedOnce(cfg, s, s', {id}, now)
  {
    hide Inv, Admit, AllFailedOnce, Closed;
    GiveUpKeeps(cfg, s1, s2, id, now);
    ClosedBooks(s1, s2, id, Terminate, now);
    PassIsShrunk(cfg, s2, s', now);
    FailCases(cfg, s, s1, s2, s', id, Terminate, now);
  }

  lemma {:induction false} HideOnce(
    cfg: Config, s: State, s1: State, s2: State, s3: State, s': State, id: JobId, retryAt: int, now: int)
    requires id in s.jobs && s.jobs[id].state == IsRunning && s1.jobs == s.jobs[id := s.jobs[id].AddEvent(Fail, now)]
    requires Almost(cfg, s1, id) && Last(s1.jobs[id]) == Fail && s1.jobs[id].state == IsRunning
    requires s1.jobs[id].Failures() == s.jobs[id].Failures() + 1 < FailureLimit(cfg.maxRetry)
    requires s2 == Closed(s1, id, EventType.Hide, now)
    requires s3 == s2.(retry := Inserted(s2.retry, Item(id, -retryAt))) && s' == Admit(s3, now)
    ensures AllFailedOnce(cfg, s, s', {id}, now)
  {
    hide Inv, Admit, AllFailedOnce, Closed;
    HideKeeps(cfg, s1, s2, s3, id, retryAt, now);
    ClosedBooks(s1, s2, id, EventType.Hide, now);
    PassIsShrunk(cfg, s3, s', now);
    FailCases(cfg, s, s1, s3, s', id, EventType.Hide, now);
  }

  lemma {:induction false} RetryOnce(cfg: Config, s: State, s1: State, s': State, id: JobId, now: int)
    requires id in s.jobs && s1.jobs == s.jobs[id := s.jobs[id].AddEvent(Fail, now)] && s' == MakeQueued(s1, id, now)
    requires s.jobs[id].Failures() + 1 < FailureLimit(cfg.maxRetry)
    ensures AllFailedOnce(cfg, s, s', {id}, now)
  {
    assert FailedWith(cfg.maxRetry, s.jobs[id], s'.jobs[id], Enqueue, now);
  }

  lemma {:induction false} FailedIsExact(cfg: Config, s: State, s1: State, s': State, id: JobId, now: int)
    requires id in s.jobs && s.jobs[id].state == IsRunning && s1.jobs == s.jobs[id := s.jobs[id].AddEvent(Fail, now)]
    requires id in s1.jobs && Almost(cfg, s1, id) && Last(s1.jobs[id]) == Fail && s1.jobs[id].state == IsRunning
    requires s1.jobs[id].Failures() == s.jobs[id].Failures() + 1 <= FailureLimit(cfg.maxRetry)
    requires s' == Failed(cfg, s1, id, now)
    ensures AllFailedOnce(cfg, s, s', {id}, now)
  {
    hide Admit, AllFailedOnce, Notify, UnlockFor, AddHistoryEvent, MakeQueued, Almost;
    var failures := s1.jobs[id].Failures();
    if failures >= cfg.maxRetry {
      GiveUpOnce(cfg, s, s1, GiveUp(s1, id, now), s', id, now);
    } else if cfg.backoff(failures) == 0 && !JobBlocked(s1, id) {
      RetryOnce(cfg, s, s1, s', id, now);
    } else {
      var retryAt := now + cfg.backoff(failures) / 1_000_000;
      HideOnce(cfg, s, s1, Closed(s1, id, EventType.Hide, now), Scheduler.Hide(s1, id, retryAt, now), s', id, retryAt, now);
    }
  }

  /** A failure concerns its job only, besides the jobs it lets in. */
  lemma {:induction false} FailIsExact(cfg: Config, s: State, s1: State, s': State, id: JobId, now: int)
    requires Inv(cfg, s) && id in s.jobs && s.jobs[id].state == IsRunning
    requires s1 == Record(s, id, Fail, now) && s' == FailRunning(cfg, s, id, now)
    ensures AllFailedOnce(cfg, s, s', {id}, now)
  {
    hide Record, AllFailedOnce, Failed, Almost, Coherent, Owned, AllResting, Counted;
    FailKeeps(cfg, s, s1, id, now);
    FailEffect(s, s1, id, now);
    FailedIsExact(cfg, s, s1, s', id, now);
  }

  ghost predicate AllRunning(s: State, ids: seq<JobId>) {
    forall id :: id in ids ==> id in s.jobs && s.jobs[id].state == IsRunning
  }

  lemma {:induction false} FailedThen(cfg: Config, s: State, s1: State, s': State, ids: seq<JobId>, now: int)
    requires ids != [] && Distinct(ids) && AllRunning(s, ids)
    requires AllFailedOnce(cfg, s, s1, {ids[0]}, now) && AllFailedOnce(cfg, s1, s', Elements(ids[1..]), now)
    ensures AllFailedOnce(cfg, s, s', Elements(ids), now)
  {
    assert Elements(ids) == {ids[0]} + Elements(ids[1..]);
    forall k | k in s.jobs
      ensures if k in Elements(ids) then FailedOnce(cfg.maxRetry, s.jobs[k], s'.jobs[k], now)
              else SameOrAdmitted(s.jobs[k], s'.jobs[k], now)
    {
      if k == ids[0] {
        assert k !in Elements(ids[1..]);
        var e :| FailedWith(cfg.maxRetry, s.jobs[k], s1.jobs[k], e, now);
        assert s'.jobs[k] == s1.jobs[k];
      } else if k in Elements(ids[1..]) {
        assert k in ids;
        assert SameOrAdmitted(s.jobs[k], s1.jobs[k], now);
      } else {
        assert SameOrAdmitted(s.jobs[k], s1.jobs[k], now);
        assert SameOrAdmitted(s1.jobs[k], s'.jobs[k], now);
      }
    }
  }

  lemma {:induction false} StillRunning(cfg: Config, s: State, s1: State, ids: seq<JobId>, now: int)
    requires ids != [] && Distinct(ids) && AllRunning(s, ids) && AllFailedOnce(cfg, s, s1, {ids[0]}, now)
    ensures AllRunning(s1, ids[1..]) && Distinct(ids[1..])
  {
    forall id | id in ids[1..] ensures id in s1.jobs && s1.jobs[id].state == IsRunning {
      var i :| 0 <= i < |ids[1..]| && ids[1..][i] == id;
      assert ids[i + 1] == id && ids[0] != id;
      assert SameOrAdmitted(s.jobs[id], s1.jobs[id], now);
    }
  }

  lemma {:induction false} FailAllIsExact(cfg: Config, s: State, s': State, ids: seq<JobId>, now: int)
    requires Good(cfg, s, now) && Distinct(ids) && AllRunning(s, ids) && s' == FailAll(cfg, s, ids, now)
    ensures AllFailedOnce(cfg, s, s', Elements(ids), now)
    decreases |ids|
  {
    if ids == [] {
      assert Elements(ids) == {};
    } else {
      assert ids[0] in ids;
      var s1 := FailRunning(cfg, s, ids[0], now);
      FailOneIsExact(cfg, s, s1, ids[0], now);
      hide Good, AllFailedOnce, FailRunning;
      StillRunning(cfg, s, s1, ids, now);
      FailAllIsExact(cfg, s1, s', ids[1..], now);
      FailedThen(cfg, s, s1, s', ids, now);
    }
  }

  lemma {:induction false} FailOneIsExact(cfg: Config, s: State, s': State, id: JobId, now: int)
    requires Good(cfg, s, now) && id in s.jobs && s.jobs[id].state == IsRunning && s' == FailRunning(cfg, s, id, now)
    ensures Good(cfg, s', now) && AllFailedOnce(cfg, s, s', {id}, now)
  {
    hide Inv, FailRunning, AllFailedOnce, Record, PendingDue, Conserving, KeepsHolding, Woken;
    FailServes(cfg, s, Record(s, id, Fail, now), s', id, now);
    FailIsExact(cfg, s, Record(s, id, Fail, now), s', id, now);
  }

  lemma {:induction false} FailAllThenPass(cfg: Config, s: State, s1: State, s': State, ids: seq<JobId>, now: int)
    requires Good(cfg, s, now) && Distinct(ids) && AllRunning(s, ids)
    requires s1 == FailAll(cfg, s, ids, now) && s' == Admit(s1, now)
    ensures AllFailedOnce(cfg, s, s', Elements(ids), now)
  {
    hide FailAll, Admit, Inv, PendingDue, Conserving, AllFailedOnce, KeepsHolding, Woken, Shrunk, AllRunning, Elements;
    FailAllServes(cfg, s, s1, ids, now);
    FailAllIsExact(cfg, s, s1, ids, now);
    PassIsShrunk(cfg, s1, s', now);
    FailedThenAdmitted(cfg, s, s1, s', ids, now);
  }

  /** The timeout check is exact: each job that has been running for too long fails once, and
      every other job is left alone or admitted. */
  lemma {:induction false} TimeoutsAreExact(cfg: Config, s: State, s': State, now: int)
    requires Good(cfg, s, now) && s' == CheckTimeouts(cfg, s, now)
    ensures AllFailedOnce(cfg, s, s', TimedOutJobs(s, now), now)
  {
    hide Good, FailAll, Admit, SameOrAdmitted;
    var ids := SortedIds(TimedOutJobs(s, now));
    assert Elements(ids) == TimedOutJobs(s, now);
    if ids != [] {
      hide AllFailedOnce;
      FailAllThenPass(cfg, s, FailAll(cfg, s, ids, now), s', ids, now);
    } else {
      NoneFailed(cfg, s, now);
    }
  }

  lemma NoneFailed(cfg: Config, s: State, now: int)
    ensures AllFailedOnce(cfg, s, s, {}, now)
  {
  }

  lemma FailedStays(maxRetry: nat, j: JobValue, j1: JobValue, j': JobValue, now: int)
    requires FailedOnce(maxRetry, j, j1, now) && SameOrAdmitted(j1, j', now)
    ensures FailedOnce(maxRetry, j, j', now)
  {
    var e :| FailedWith(maxRetry, j, j1, e, now);
    assert j1.state != IsPending;
  }

  lemma AdmittedTwice(j: JobValue, j1: JobValue, j': JobValue, now: int)
    requires SameOrAdmitted(j, j1, now) && SameOrAdmitted(j1, j', now)
    ensures SameOrAdmitted(j, j', now)
  {
  }

  lemma {:induction false} FailedThenAdmitted(cfg: Config, s: State, s1: State, s': State, ids: seq<JobId>, now: int)
    requires AllFailedOnce(cfg, s, s1, Elements(ids), now) && Shrunk(s1, s', {}, now)
    ensures AllFailedOnce(cfg, s, s', Elements(ids), now)
  {
    hide SameOrAdmitted, FailedOnce, Elements, LocksOfOthersKept;
    forall k | k in s.jobs
      ensures if k in Elements(ids) then FailedOnce(cfg.maxRetry, s.jobs[k], s'.jobs[k], now)
              else SameOrAdmitted(s.jobs[k], s'.jobs[k], now)
    {
      if k in Elements(ids) {
        FailedStays(cfg.maxRetry, s.jobs[k], s1.jobs[k], s'.jobs[k], now);
      } else {
        AdmittedTwice(s.jobs[k], s1.jobs[k], s'.jobs[k], now);
      }
    }
  }
}
