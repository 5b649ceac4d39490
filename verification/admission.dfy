/** The admission pass over the pending jobs: invariants, work conservation and priority. */
module Admission {
  import opened Jobs
  import opened Ordering
  import opened PullOrder
  import opened Resources
  import opened Scheduler
  import opened Invariants
  import opened Moves

  /** Locks are only taken. */
  ghost predicate Grown(a: LockTable, b: LockTable) {
    forall r :: r in a ==> r in b && b[r] == a[r]
  }

  /** What a pass may do: some pending jobs were queued and took the new locks; nothing else changed. */
  ghost predicate Admitted(s: State, s': State, now: int) {
    && s'.jobs.Keys == s.jobs.Keys
    && s'.pending <= s.pending
    && (forall id :: id in s.jobs && (id in s.pending ==> id in s'.pending) ==> s'.jobs[id] == s.jobs[id])
    && (forall id :: id in s.jobs && id in s.pending - s'.pending ==> s'.jobs[id] == s.jobs[id].AddEvent(Enqueue, now))
    && s'.queued == s.queued + (s.pending - s'.pending)
    && s'.retry == s.retry && s'.delayed == s.delayed
    && Grown(s.locks, s'.locks)
    && NewLocksOfAdmitted(s, s')
    && s.wake <= s'.wake && (s'.pending != s.pending ==> s.wake < s'.wake)
  }

  ghost predicate NewLocksOfAdmitted(s: State, s': State) {
    forall r :: r in s'.locks && r !in s.locks ==> s'.locks[r] in s.pending && s'.locks[r] !in s'.pending
  }

  lemma AdmittedNothing(s: State, now: int)
    ensures Admitted(s, s, now)
  {
  }

  /** A job that is refused or queued, one at a time. */
  lemma {:induction false} EnqueueStep(cfg: Config, s: State, s': State, id: JobId, now: int)
    requires Inv(cfg, s) && id in s.pending && s' == EnqueueJob(s, id, now)
    ensures Inv(cfg, s') && Admitted(s, s', now)
    ensures id in s'.pending ==> s' == s && (TooEarly(s.jobs[id], now) || JobBlocked(s, id))
    ensures s.pending - {id} <= s'.pending
  {
    assert id in InState(s.jobs, IsPending);
    if TooEarly(s.jobs[id], now) || JobBlocked(s, id) {
      AdmittedNothing(s, now);
    } else {
      assert Resting(cfg.maxRetry, s.jobs[id]);
      RemovedAbsent(s.retry, id);
      var s1 := MakeQueued(s, id, now);
      assert s' == Queued(s, id, now);
      QueuedKeeps(cfg, s, s', id, now);
      QueuedIsAdmitted(s, s', id, now);
    }
  }

  lemma {:induction false} QueuedIsAdmitted(s: State, s': State, id: JobId, now: int)
    requires Coherent(s) && id in s.pending && id in s.jobs && s' == Queued(s, id, now)
    ensures Admitted(s, s', now) && s'.pending == s.pending - {id}
  {
    RemovedAbsent(s.retry, id);
    assert s.pending - s'.pending == {id};
  }

  lemma {:induction false} AdmittedThen(s: State, s1: State, s2: State, now: int)
    requires s.pending <= s.jobs.Keys
    requires Admitted(s, s1, now) && Admitted(s1, s2, now)
    ensures Admitted(s, s2, now)
  {
    assert s.pending - s2.pending == (s.pending - s1.pending) + (s1.pending - s2.pending);
    forall r | r in s2.locks && r !in s.locks
      ensures s2.locks[r] in s.pending && s2.locks[r] !in s2.pending
    {
      if r in s1.locks {
        assert s2.locks[r] == s1.locks[r];
      }
    }
  }

  /** What blocks a job goes on blocking it while locks are only taken. */
  lemma StillBlocked(a: LockTable, b: LockTable, id: JobId, needs: set<Resource>)
    requires Blocked(a, id, needs) && Grown(a, b)
    ensures Blocked(b, id, needs)
  {
  }

  ghost predicate IdsOnce(q: seq<Ticket>) {
    forall i, j :: 0 <= i < j < |q| ==> q[i].id != q[j].id
  }

  ghost predicate LeftOnlyBlocked(s: State, q: seq<Ticket>, now: int) {
    forall t :: t in q && t.id in s.pending && t.id in s.jobs ==> TooEarly(s.jobs[t.id], now) || JobBlocked(s, t.id)
  }

  lemma TailStillPending(s: State, s1: State, q: seq<Ticket>)
    requires q != [] && IdsOnce(q) && (forall t :: t in q ==> t.id in s.pending)
    requires s.pending - {q[0].id} <= s1.pending
    ensures IdsOnce(q[1..]) && forall t :: t in q[1..] ==> t.id in s1.pending
  {
    forall t | t in q[1..] ensures t.id in s1.pending {
      var i :| 0 <= i < |q[1..]| && q[1..][i] == t;
      assert q[i + 1] == t && q[0].id != q[i + 1].id;
    }
  }

  lemma {:induction false} EnqueueAllKeeps(cfg: Config, s: State, s': State, q: seq<Ticket>, now: int)
    requires Inv(cfg, s) && IdsOnce(q) && (forall t :: t in q ==> t.id in s.pending)
    requires s' == EnqueueAll(s, q, now)
    ensures Inv(cfg, s') && Admitted(s, s', now)
    ensures LeftOnlyBlocked(s', q, now)
    decreases |q|
  {
    if q == [] {
      AdmittedNothing(s, now);
    } else {
      var id := q[0].id;
      assert q[0] in q && id in InState(s.jobs, IsPending);
      var s1 := EnqueueJob(s, id, now);
      EnqueueStep(cfg, s, s1, id, now);
      TailStillPending(s, s1, q);
      EnqueueAllKeeps(cfg, s1, s', q[1..], now);
      AdmittedThen(s, s1, s', now);
      LeftThenAll(s1, s', q, id, now);
    }
  }

  lemma {:induction false} LeftThenAll(s1: State, s': State, q: seq<Ticket>, id: JobId, now: int)
    requires q != [] && q[0].id == id && Admitted(s1, s', now)
    requires id in s1.pending && id in s1.jobs ==> TooEarly(s1.jobs[id], now) || JobBlocked(s1, id)
    requires LeftOnlyBlocked(s', q[1..], now)
    ensures LeftOnlyBlocked(s', q, now)
  {
    forall t | t in q && t.id in s'.pending && t.id in s'.jobs
      ensures TooEarly(s'.jobs[t.id], now) || JobBlocked(s', t.id)
    {
      if t == q[0] {
        if JobBlocked(s1, id) {
          StillBlocked(s1.locks, s'.locks, id, NeedsOf(s1.jobs[id]));
        }
      } else {
        assert t in q[1..];
      }
    }
  }

  lemma PassOrderIdsOnce(s: State)
    ensures IdsOnce(PassOrder(s))
  {
    var q := PassOrder(s);
    forall i, j | 0 <= i < j < |q| ensures q[i].id != q[j].id {
      assert q[i] in q && q[j] in q && Before(q[i], q[j]);
    }
  }

  /** A pass keeps the invariants and leaves every due pending job blocked: work conservation. */
  lemma {:induction false} AdmitKeeps(cfg: Config, s: State, s': State, now: int)
    requires Inv(cfg, s) && s' == Admit(s, now)
    ensures Inv(cfg, s') && Admitted(s, s', now)
    ensures PendingDue(s, now) ==> Conserving(s') && PendingDue(s', now)
  {
    var q := PassOrder(s);
    PassOrderIdsOnce(s);
    EnqueueAllKeeps(cfg, s, s', q, now);
    forall id | id in s'.pending && id in s'.jobs && PendingDue(s, now)
      ensures JobBlocked(s', id) && !TooEarly(s'.jobs[id], now)
    {
      if id in Candidates(s) {
        assert TicketOf(id, s.jobs[id]) in q;
      } else {
        StillBlocked(s.locks, s'.locks, id, NeedsOf(s.jobs[id]));
      }
    }
  }

  // ---------- priority ----------

  /** The holder of a lock was there before the pass, or was queued by it ahead of the ticket. */
  ghost predicate RightfulHolder(s0: State, s: State, r: Resource, t: Ticket) {
    && r in s.locks
    && ((r in s0.locks && s0.locks[r] == s.locks[r]) || QueuedAhead(s0, s, s.locks[r], t))
  }

  ghost predicate QueuedAhead(s0: State, s: State, h: JobId, t: Ticket) {
    h in s0.pending && h !in s.pending && h in s0.jobs && Before(TicketOf(h, s0.jobs[h]), t)
  }

  /** What blocks the job of a ticket is rightfully held. */
  ghost predicate RightlyBlocked(s0: State, s: State, t: Ticket) {
    t.id in s0.jobs && exists r :: r in NeedsOf(s0.jobs[t.id]) && RightfulHolder(s0, s, r, t) && s.locks[r] != t.id
  }

  /** In the middle of a pass: every lock is rightfully held with respect to the tickets to come. */
  ghost predicate Ahead(s0: State, s: State, q: seq<Ticket>) {
    forall r, t :: r in s.locks && t in q ==> RightfulHolder(s0, s, r, t)
  }

  /** The tickets are those of jobs that were pending when the pass began, and still are. */
  ghost predicate Fits(s0: State, s: State, q: seq<Ticket>) {
    forall t :: t in q ==>
      && t.id in s.pending && t.id in s.jobs && t.id in s0.pending && t.id in s0.jobs
      && s.jobs[t.id] == s0.jobs[t.id] && t == TicketOf(t.id, s0.jobs[t.id])
  }

  lemma {:induction false} RightlyBlockedPersists(s0: State, s: State, s': State, t: Ticket)
    requires RightlyBlocked(s0, s, t) && Grown(s.locks, s'.locks) && s'.pending <= s.pending
    ensures RightlyBlocked(s0, s', t)
  {
    var r :| r in NeedsOf(s0.jobs[t.id]) && RightfulHolder(s0, s, r, t) && s.locks[r] != t.id;
    assert RightfulHolder(s0, s', r, t);
  }

  lemma {:induction false} AheadAfterStep(s0: State, s: State, s1: State, q: seq<Ticket>, now: int)
    requires q != [] && Ahead(s0, s, q) && Fits(s0, s, q) && Ascending(Before, q)
    requires Admitted(s, s1, now) && s.pending - {q[0].id} <= s1.pending
    ensures Ahead(s0, s1, q[1..])
  {
    forall r, t | r in s1.locks && t in q[1..] ensures RightfulHolder(s0, s1, r, t) {
      var i :| 0 <= i < |q[1..]| && q[1..][i] == t;
      assert Before(q[0], q[i + 1]) && t in q && q[0] in q;
      if r in s.locks {
        assert RightfulHolder(s0, s, r, t);
      } else {
        assert s1.locks[r] == q[0].id;
      }
    }
  }

  lemma {:induction false} FitsAfterStep(s0: State, s: State, s1: State, q: seq<Ticket>, now: int)
    requires q != [] && Fits(s0, s, q) && IdsOnce(q) && Admitted(s, s1, now) && s.pending - {q[0].id} <= s1.pending
    ensures Fits(s0, s1, q[1..]) && IdsOnce(q[1..])
  {
    TailStillPending(s, s1, q);
    assert forall t :: t in q[1..] ==> t in q;
  }

  lemma {:induction false} PassIsRightful(
    cfg: Config, s0: State, s: State, s': State, q: seq<Ticket>, t: Ticket, now: int)
    requires Inv(cfg, s) && s' == EnqueueAll(s, q, now) && IdsOnce(q) && Ascending(Before, q)
    requires Fits(s0, s, q) && Ahead(s0, s, q)
    requires t in q && t.id in s'.pending && !TooEarly(s0.jobs[t.id], now)
    ensures RightlyBlocked(s0, s', t)
    decreases |q|
  {
    hide Inv, Admitted, EnqueueJob, Ahead;
    var id := q[0].id;
    assert q[0] in q;
    var s1 := EnqueueJob(s, id, now);
    EnqueueStep(cfg, s, s1, id, now);
    FitsAfterStep(s0, s, s1, q, now);
    EnqueueAllKeeps(cfg, s1, s', q[1..], now);
    if t == q[0] {
      RefusedIsRightful(s0, s, q);
      RightlyBlockedPersists(s0, s1, s', t);
    } else {
      AheadAfterStep(s0, s, s1, q, now);
      PassIsRightful(cfg, s0, s1, s', q[1..], t, now);
    }
  }

  lemma {:induction false} RefusedIsRightful(s0: State, s: State, q: seq<Ticket>)
    requires q != [] && Fits(s0, s, q) && Ahead(s0, s, q) && q[0].id in s.jobs && JobBlocked(s, q[0].id)
    ensures RightlyBlocked(s0, s, q[0])
  {
    assert q[0] in q;
    var r :| r in NeedsOf(s.jobs[q[0].id]) && r in s.locks && s.locks[r] != q[0].id;
    assert RightfulHolder(s0, s, r, q[0]);
  }

  lemma StartAhead(s: State, q: seq<Ticket>)
    ensures Ahead(s, s, q)
  {
  }

  lemma PendingAfterPass(cfg: Config, s: State, s': State, id: JobId, now: int)
    requires Inv(cfg, s) && Admitted(s, s', now) && id in s'.pending
    ensures id in s.pending && id in s.jobs && id in s'.jobs && s.jobs[id].state == IsPending
    ensures Grown(s.locks, s'.locks)
  {
    PendingIsKnown(s, id);
  }

  lemma {:induction false} CandidateLeft(cfg: Config, s: State, s': State, t: Ticket, now: int)
    requires Inv(cfg, s) && s' == Admit(s, now)
    requires t.id in Candidates(s) && t == TicketOf(t.id, s.jobs[t.id])
    requires t.id in s'.pending && !TooEarly(s.jobs[t.id], now)
    ensures RightlyBlocked(s, s', t)
  {
    hide Inv, Ahead;
    var q := PassOrder(s);
    assert t in q;
    PassOrderIdsOnce(s);
    StartAhead(s, q);
    PassIsRightful(cfg, s, s, s', q, t, now);
  }

  lemma {:induction false} OtherLeft(s: State, s': State, id: JobId)
    requires id in s.jobs && JobBlocked(s, id) && Grown(s.locks, s'.locks)
    ensures RightlyBlocked(s, s', TicketOf(id, s.jobs[id]))
  {
    var r :| r in NeedsOf(s.jobs[id]) && r in s.locks && s.locks[r] != id;
    assert RightfulHolder(s, s', r, TicketOf(id, s.jobs[id]));
  }

  /** Admission respects priority: what a due job left pending waits for is held since before
      the pass, or by a job the pass queued that comes before it in pull order. */
  lemma {:induction false} AdmissionRespectsPriority(cfg: Config, s: State, s': State, id: JobId, now: int)
    requires Inv(cfg, s) && PendingDue(s, now) && s' == Admit(s, now)
    requires id in s'.pending
    ensures id in s.jobs && RightlyBlocked(s, s', TicketOf(id, s.jobs[id]))
  {
    hide Inv, Admitted;
    AdmitKeeps(cfg, s, s', now);
    PendingAfterPass(cfg, s, s', id, now);
    if id in Candidates(s) {
      CandidateLeft(cfg, s, s', TicketOf(id, s.jobs[id]), now);
    } else {
      OtherLeft(s, s', id);
    }
  }
}
