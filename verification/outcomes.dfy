/** What the operations of the scheduler mean, in the states, histories and fields of the jobs and in the
    settings as the configuration has them. */
module Outcomes {
  import opened Jobs
  import opened Integers
  import opened PullOrder
  import opened PriorityQueues
  import opened Resources
  import opened Scheduler
  import opened Invariants
  import opened Admission
  import opened Operations
  import opened Retries
  import opened Exact
  import opened Restart
  import opened Guarantees
  import opened Delays
  import opened Effects

  // ---------- pulling ----------

  lemma {:induction false} QueuedHaveHistories(cfg: Config, s: State)
    requires Coherent(s) && AllResting(cfg, s)
    ensures HaveHistories(s.jobs, s.queued) && s.queued == InState(s.jobs, IsQueued)
  {
    forall id | id in s.queued ensures id in s.jobs && s.jobs[id].history != [] {
      assert id in InState(s.jobs, IsQueued);
      assert Resting(cfg.maxRetry, s.jobs[id]);
    }
  }

  /** The job was started at this time, with this visibility timeout; nothing else of it changed. */
  ghost predicate RunsNow(j: JobValue, j': JobValue, timeout: nat, now: int) {
    && j.state == IsQueued && j'.state == IsRunning && j'.previousState == IsQueued && j'.id == j.id
    && j'.history == j.history + [HistoryEvent(Start, now)]
    && j'.spec.visibilityTimeout == timeout && j'.spec.topic == j.spec.topic && j'.spec.priority == j.spec.priority
    && j'.spec.lockResources == j.spec.lockResources && j'.spec.startAfter == j.spec.startAfter
  }

  /** A pull of `n` jobs starts the first `n` in line of the queued jobs of the topic, or all of them, and no
      other job changes. */
  lemma {:induction false} PullStartsFirstInLine(
    cfg: Config, s: State, s': State, topic: Topic, n: nat, timeout: nat, now: int) returns (q: seq<JobId>)
    requires Inv(cfg, s) && s' == Pull(s, topic, n, timeout, now)
    ensures FirstInLine(s.jobs, WaitingFor(s.jobs, InState(s.jobs, IsQueued), topic), n, q)
    ensures s'.jobs.Keys == s.jobs.Keys
    ensures forall id :: id in s.jobs ==>
              if id in q then RunsNow(s.jobs[id], s'.jobs[id], timeout, now) else s'.jobs[id] == s.jobs[id]
  {
    var tickets := Best(s, topic, n);
    q := IdsIn(tickets);
    QueuedHaveHistories(cfg, s);
    hide FirstInLine, HaveHistories, Coherent, AllResting, Owned, Counted, Best, Pull;
    PullIsExact(cfg, s, s', topic, n, timeout, now);
    BestInLine(s, tickets, topic, n);
    hide WaitingFor, InState, Inv;
    StartedInFields(s, s', tickets, topic, n, timeout, now);
  }

  lemma BestInLine(s: State, tickets: seq<Ticket>, topic: Topic, n: nat)
    requires HaveHistories(s.jobs, s.queued) && tickets == Best(s, topic, n)
    ensures FirstInLine(s.jobs, WaitingFor(s.jobs, s.queued, topic), n, IdsIn(tickets))
  {
    hide HaveHistories, FirstInLine, WaitingFor, FirstTickets, TicketsOf;
    FirstTicketsAreFirstInLine(s.jobs, s.queued, topic, n, tickets);
  }

  lemma {:induction false} StartedInFields(
    s: State, s': State, tickets: seq<Ticket>, topic: Topic, n: nat, timeout: nat, now: int)
    requires StartedExactly(s.jobs, s'.jobs, tickets, timeout, now)
    requires FirstInLine(s.jobs, WaitingFor(s.jobs, InState(s.jobs, IsQueued), topic), n, IdsIn(tickets))
    ensures forall id :: id in s.jobs ==>
              if id in IdsIn(tickets) then RunsNow(s.jobs[id], s'.jobs[id], timeout, now)
              else s'.jobs[id] == s.jobs[id]
  {
    var ids := IdsIn(tickets);
    hide Outranks;
    forall id | id in s.jobs ensures id in ids <==> IdsOf(tickets, id) {
      if id in ids {
        var i :| 0 <= i < |ids| && ids[i] == id;
        assert tickets[i].id == id;
      }
      if IdsOf(tickets, id) {
        var i :| 0 <= i < |tickets| && tickets[i].id == id;
        assert ids[i] == id;
      }
    }
    forall id | id in s.jobs && id in ids ensures s.jobs[id].state == IsQueued {
      assert id in WaitingFor(s.jobs, InState(s.jobs, IsQueued), topic);
    }
  }

  /** Of two queued jobs of the topic, the one that a pull starts and the one that it leaves. */
  lemma {:induction false} PullPrefers(
    cfg: Config, s: State, s': State, topic: Topic, n: nat, timeout: nat, now: int, a: JobId, b: JobId)
    requires Inv(cfg, s) && s' == Pull(s, topic, n, timeout, now)
    requires a in s.jobs && s.jobs[a].state == IsQueued && (topic.name == "*" || s.jobs[a].spec.topic == topic)
    requires b in s.jobs && s.jobs[b].state == IsQueued && (topic.name == "*" || s.jobs[b].spec.topic == topic)
    requires a in s'.jobs && s'.jobs[a].state == IsRunning && b in s'.jobs && s'.jobs[b].state == IsQueued
    ensures s.jobs[a].history != [] && s.jobs[b].history != []
    ensures || s.jobs[a].spec.priority > s.jobs[b].spec.priority
            || (&& s.jobs[a].spec.priority == s.jobs[b].spec.priority
                && (|| s.jobs[a].history[0].timestamp < s.jobs[b].history[0].timestamp
                    || (s.jobs[a].history[0].timestamp == s.jobs[b].history[0].timestamp && a < b)))
  {
    hide Pull, Inv;
    var q := PullStartsFirstInLine(cfg, s, s', topic, n, timeout, now);
    assert b in WaitingFor(s.jobs, InState(s.jobs, IsQueued), topic);
    assert Outranks(s.jobs, a, b);
  }

  // ---------- admission ----------

  /** What a due job that a pass leaves pending waits for: a resource that it lists is held by another job,
      which held it before the pass, or was pending, was queued by the pass and outranks it. */
  lemma {:induction false} AdmissionPrefers(cfg: Config, s: State, s': State, id: JobId, now: int)
    requires Inv(cfg, s) && PendingDue(s, now) && s' == Admit(s, now)
    requires id in s'.jobs && s'.jobs[id].state == IsPending
    ensures id in s.jobs
    ensures exists r :: r in s.jobs[id].spec.lockResources && r in s'.locks && WaitsRightly(s, s', id, r)
  {
    hide Inv, Admit;
    AdmitKeeps(cfg, s, s', now);
    StillPending(cfg, s', id);
    AdmissionRespectsPriority(cfg, s, s', id, now);
    hide Admitted;
    var r :| r in NeedsOf(s.jobs[id]) && RightfulHolder(s, s', r, TicketOf(id, s.jobs[id])) && s'.locks[r] != id;
    HolderInFields(cfg, s, s', id, r, now);
  }

  ghost predicate WaitsRightly(s: State, s': State, id: JobId, r: Resource)
    requires r in s'.locks
  {
    var h := s'.locks[r];
    && h != id
    && (|| (r in s.locks && s.locks[r] == h)
        || (&& h in s.jobs && s.jobs[h].state == IsPending && h in s'.jobs && s'.jobs[h].state == IsQueued
            && Outranks(s.jobs, h, id)))
  }

  lemma StillPending(cfg: Config, s: State, id: JobId)
    requires Inv(cfg, s) && id in s.jobs && s.jobs[id].state == IsPending
    ensures id in s.pending
  {
    PendingIsKnown(s, id);
  }

  lemma {:induction false} HolderInFields(cfg: Config, s: State, s': State, id: JobId, r: Resource, now: int)
    requires Inv(cfg, s) && Admitted(s, s', now) && id in s.jobs
    requires r in NeedsOf(s.jobs[id]) && RightfulHolder(s, s', r, TicketOf(id, s.jobs[id])) && s'.locks[r] != id
    ensures r in s.jobs[id].spec.lockResources && WaitsRightly(s, s', id, r)
  {
    var h := s'.locks[r];
    hide Owned, Counted, Resting, Before, Outranks, TicketOf, Admitted;
    if !(r in s.locks && s.locks[r] == h) {
      HasHistory(cfg, s, h);
      HasHistory(cfg, s, id);
      BeforeOutranks(s.jobs, h, id);
      QueuedByPass(s, s', h, now);
    }
  }

  lemma HasHistory(cfg: Config, s: State, id: JobId)
    requires AllResting(cfg, s) && id in s.jobs
    ensures s.jobs[id].history != []
  {
    assert Resting(cfg.maxRetry, s.jobs[id]);
  }

  lemma QueuedByPass(s: State, s': State, h: JobId, now: int)
    requires Coherent(s) && Admitted(s, s', now) && h in s.pending && h !in s'.pending && h in s.jobs
    ensures s.jobs[h].state == IsPending && h in s'.jobs && s'.jobs[h].state == IsQueued
  {
    PendingIsKnown(s, h);
  }

  // ---------- creation ----------

  /** Creation in full: refused at one of the limits, and otherwise one job more, with the specification of the
      client and its first events, delayed if and only if its start time is not reached. */
  lemma {:induction false} CreateInFields(cfg: Config, s: State, s': State, id: JobId, spec: JobSpec, now: int)
    requires Good(cfg, s, now) && id !in s.jobs && s' == CreateJob(cfg, s, id, spec, now)
    ensures if (cfg.maxAllowedJobs != 0 && |s.jobs| >= cfg.maxAllowedJobs)
               || (cfg.backendMaxJobs > 0 && |s.jobs| >= cfg.backendMaxJobs)
            then s' == s
            else && s'.jobs.Keys == s.jobs.Keys + {id} && s'.jobs[id].id == id && s'.jobs[id].spec == spec
                 && FirstEvents(spec, s'.jobs[id].state, s'.jobs[id].history, now)
  {
    hide Good, CreateJob, Scheduled, SameOrAdmitted, FirstEvents;
    CreateIsExact(cfg, s, s', id, spec, now);
    if !Refused(cfg, s) {
      NewJobInFields(id, spec, s'.jobs[id], now);
    }
  }

  /** Created, and then delayed, or pending, or pending and queued at once. */
  predicate FirstEvents(spec: JobSpec, state: JobState, history: seq<HistoryEvent>, now: int) {
    if spec.startAfter != 0 && spec.startAfter > now
    then state == IsDelayed && history == [HistoryEvent(Create, now), HistoryEvent(Delay, now)]
    else || (state == IsPending && history == [HistoryEvent(Create, now), HistoryEvent(Pending, now)])
         || (state == IsQueued
             && history == [HistoryEvent(Create, now), HistoryEvent(Pending, now), HistoryEvent(Enqueue, now)])
  }

  lemma NewJobInFields(id: JobId, spec: JobSpec, j: JobValue, now: int)
    requires SameOrAdmitted(Scheduled(NewJob(id, spec, now), now), j, now)
    ensures j.id == id && j.spec == spec && FirstEvents(spec, j.state, j.history, now)
  {
  }

  /** A stored job that was just created is delayed at its loading if and only if its start time is not
      reached; otherwise it is pending or queued. Every other job is as it was stored. */
  lemma {:induction false} LoadInFields(cfg: Config, jobs: map<JobId, JobValue>, s': State, now: int, id: JobId)
    requires Storable(cfg, jobs, now) && s' == LoadJobs(jobs, now) && id in jobs
    ensures id in s'.jobs && s'.jobs[id].spec == jobs[id].spec
    ensures var st, st' := jobs[id].state, s'.jobs[id].state;
            if st == IsCreated then
              if jobs[id].spec.startAfter != 0 && jobs[id].spec.startAfter > now then st' == IsDelayed
              else st' == IsPending || st' == IsQueued
            else s'.jobs[id] == jobs[id] || (st == IsPending && st' == IsQueued)
  {
    hide Storable, LoadJobs, Inv, PendingDue, NothingIdle, Holding, Exclusive;
    LoadIsExact(cfg, jobs, s', now);
  }

  /** In every state of every run the start time of a pending job is reached. */
  lemma {:induction false} PendingIsDue(cfg: Config, run: Run, i: nat, id: JobId)
    requires IsRun(cfg, run) && i < |run.states|
    requires id in run.states[i].jobs && run.states[i].jobs[id].state == IsPending
    ensures i <= |run.times|
    ensures var start := run.states[i].jobs[id].spec.startAfter; start == 0 || start <= TimeOf(run, i)
  {
    hide Inv, Conserving, Storable, NothingIdle, LoadJobs, Holding;
    EveryStateIsGood(cfg, run, i);
    PendingHere(cfg, run.states[i], id, TimeOf(run, i));
  }

  lemma PendingHere(cfg: Config, s: State, id: JobId, now: int)
    requires Good(cfg, s, now) && id in s.jobs && s.jobs[id].state == IsPending
    ensures s.jobs[id].spec.startAfter == 0 || s.jobs[id].spec.startAfter <= now
  {
    PendingIsKnown(s, id);
  }

  // ---------- the end of a job ----------

  /** The events of the job were appended at this time, and its last two states are the given ones. */
  predicate WentOn(
    j: JobValue, j': JobValue, events: seq<EventType>, previous: JobState, state: JobState, now: int)
  {
    && j'.id == j.id && j'.spec == j.spec && j'.previousState == previous && j'.state == state
    && |j'.history| == |j.history| + |events| && j.history <= j'.history
    && forall i :: 0 <= i < |events| ==> j'.history[|j.history| + i] == HistoryEvent(events[i], now)
  }

  lemma {:induction false} FinishInFields(cfg: Config, s: State, s': State, id: JobId, now: int)
    requires Inv(cfg, s) && id in s.jobs && s.jobs[id].state == IsRunning && s' == Admit(Finish(s, id, now), now)
    ensures id in s'.jobs && WentOn(s.jobs[id], s'.jobs[id], [Success], IsRunning, IsSucceeded, now)
    ensures forall r :: r in s'.locks ==> s'.locks[r] != id
  {
    hide Inv, Admit, Finish, Released, NeedsOf;
    FinishIsExact(cfg, s, s', id, now);
    HoldsNothing(cfg, s, s', id);
  }

  lemma {:induction false} CancelInFields(cfg: Config, s: State, s': State, id: JobId, now: int)
    requires Inv(cfg, s) && id in s.jobs && s.jobs[id].state == IsRunning && s' == Admit(Requeue(s, id, now), now)
    ensures id in s'.jobs && WentOn(s.jobs[id], s'.jobs[id], [Cancel, Enqueue], IsCanceled, IsQueued, now)
    ensures forall r :: r in s.locks ==> r in s'.locks && s'.locks[r] == s.locks[r]
  {
    hide Inv, Admit, Requeue;
    CancelIsExact(cfg, s, s', id, now);
  }

  /** What a job held that is not pending is released, and it got nothing. */
  lemma {:induction false} HoldsNothing(cfg: Config, s: State, s': State, id: JobId)
    requires Inv(cfg, s) && id in s.jobs && s.jobs[id].state == IsRunning
    requires OnlyAdmittedLock(Released(s.locks, id, NeedsOf(s.jobs[id])), s.pending, s')
    ensures forall r :: r in s'.locks ==> s'.locks[r] != id
  {
    PendingIsKnown(s, id);
    assert forall r :: r in s.locks && s.locks[r] == id ==> Uses(s.jobs, s.locks[r], r);
  }

  lemma {:induction false} ChangeTimeoutInFields(s: State, s': State, id: JobId, timeout: nat)
    requires id in s.jobs && s' == ChangeTimeout(s, id, timeout)
    ensures s'.jobs.Keys == s.jobs.Keys && forall k :: k in s.jobs && k != id ==> s'.jobs[k] == s.jobs[k]
    ensures s'.jobs[id].spec.visibilityTimeout == timeout
    ensures s'.jobs[id] == s.jobs[id].(spec := s.jobs[id].spec.(visibilityTimeout := timeout))
    ensures id in s.saved ==> s'.saved == s.saved[id := s'.jobs[id]]
  {
  }

  // ---------- a failure ----------

  /** How often the events say FAIL. */
  ghost function FailuresIn(history: seq<HistoryEvent>): set<int> {
    set i | 0 <= i < |history| && history[i].eventType == Fail
  }

  lemma {:induction false} FailuresCounted(j: JobValue)
    ensures j.Failures() == |FailuresIn(j.history)|
  {
    EventsCounted(j.history);
  }

  lemma {:induction false} EventsCounted(h: seq<HistoryEvent>)
    ensures CountEvents(h, Fail) == |FailuresIn(h)|
    decreases |h|
  {
    if h != [] {
      var p := h[..|h| - 1];
      EventsCounted(p);
      assert FailuresIn(h) == FailuresIn(p) + if h[|h| - 1].eventType == Fail then {|h| - 1} else {};
    } else {
      assert FailuresIn(h) == {};
    }
  }

  /** Another job holds something the job lists. */
  ghost predicate HeldByAnother(s: State, id: JobId)
    requires id in s.jobs
  {
    exists r :: r in s.jobs[id].spec.lockResources && r in s.locks && s.locks[r] != id
  }

  /** A failure in full: terminated when the failures with this one reach the limit; queued again at once, with
      all it lists, when there is no delay and no other job holds any of it; and otherwise hidden, to be
      retried when the delay (nanoseconds) is over on the clock (milliseconds). */
  lemma {:induction false} FailInFields(cfg: Config, s: State, s': State, id: JobId, now: int)
    requires Inv(cfg, s) && id in s.jobs && s.jobs[id].state == IsRunning && s' == FailRunning(cfg, s, id, now)
    ensures id in s'.jobs && FailedAs(cfg, s, s', id, |FailuresIn(s.jobs[id].history)| + 1, now)
  {
    var e := AfterFail(cfg, s, id);
    EventInFields(cfg, s, id);
    hide *;
    FailDecides(cfg, s, s', id, now);
    FailedAsDecided(cfg, s, s', id, |FailuresIn(s.jobs[id].history)| + 1, e, now);
  }

  /** What becomes of a job at its failure number `f`. */
  ghost predicate FailedAs(cfg: Config, s: State, s': State, id: JobId, f: nat, now: int)
    requires id in s.jobs && id in s'.jobs
  {
    if f >= cfg.maxRetry then GaveUp(s, s', id, now)
    else if cfg.backoff(f) == 0 && !HeldByAnother(s, id) then QueuedAgain(s, s', id, now)
    else HiddenUntil(s, s', id, now + cfg.backoff(f) / 1_000_000, now)
  }

  lemma {:induction false} FailedAsDecided(cfg: Config, s: State, s': State, id: JobId, f: nat, e: EventType, now: int)
    requires Inv(cfg, s) && id in s.jobs && s.jobs[id].state == IsRunning && Decided(cfg, s, s', id, e, now)
    requires f == s.jobs[id].Failures() + 1 && (e == Enqueue ==> !JobBlocked(s, id))
    requires e == if f >= cfg.maxRetry then Terminate
                  else if cfg.backoff(f) == 0 && !HeldByAnother(s, id) then Enqueue
                  else EventType.Hide
    ensures id in s'.jobs && FailedAs(cfg, s, s', id, f, now)
  {
    hide Inv, GaveUp, QueuedAgain, HiddenUntil, Decided, HeldByAnother, JobBlocked, JobValue.Failures;
    if e == Terminate {
      GivenUp(cfg, s, s', id, now);
    } else if e == Enqueue {
      RetriedAtOnce(cfg, s, s', id, now);
    } else {
      HiddenThen(cfg, s, s', id, now + cfg.backoff(f) / 1_000_000, now);
    }
  }

  lemma EventInFields(cfg: Config, s: State, id: JobId)
    requires id in s.jobs
    ensures var f := |FailuresIn(s.jobs[id].history)| + 1;
            && f == s.jobs[id].Failures() + 1
            && AfterFail(cfg, s, id) == (if f >= cfg.maxRetry then Terminate
                                         else if cfg.backoff(f) == 0 && !HeldByAnother(s, id) then Enqueue
                                         else EventType.Hide)
            && (AfterFail(cfg, s, id) == Enqueue ==> !JobBlocked(s, id))
  {
    FailuresCounted(s.jobs[id]);
    hide FailuresIn, JobValue.Failures;
    assert JobBlocked(s, id) <==> HeldByAnother(s, id);
  }

  ghost predicate HoldsNone(s: State, id: JobId) {
    forall r :: r in s.locks ==> s.locks[r] != id
  }

  ghost predicate GaveUp(s: State, s': State, id: JobId, now: int)
    requires id in s.jobs && id in s'.jobs
  {
    WentOn(s.jobs[id], s'.jobs[id], [Fail, Terminate], IsRunning, IsFailed, now) && HoldsNone(s', id)
  }

  ghost predicate QueuedAgain(s: State, s': State, id: JobId, now: int)
    requires id in s.jobs && id in s'.jobs
  {
    && WentOn(s.jobs[id], s'.jobs[id], [Fail, Enqueue], IsRunning, IsQueued, now)
    && forall r :: r in s.jobs[id].spec.lockResources ==> r in s'.locks && s'.locks[r] == id
  }

  ghost predicate HiddenUntil(s: State, s': State, id: JobId, retryAt: int, now: int)
    requires id in s.jobs && id in s'.jobs
  {
    && WentOn(s.jobs[id], s'.jobs[id], [Fail, EventType.Hide], IsRunning, IsHidden, now) && HoldsNone(s', id)
    && Item(id, -retryAt) in s'.retry
  }

  lemma {:induction false} GivenUp(cfg: Config, s: State, s': State, id: JobId, now: int)
    requires Inv(cfg, s) && id in s.jobs && s.jobs[id].state == IsRunning && Decided(cfg, s, s', id, Terminate, now)
    ensures id in s'.jobs && GaveUp(s, s', id, now)
  {
    hide Inv, Released, NeedsOf, Locked, Inserted, OnlyAdmittedLock;
    HoldsNothing(cfg, s, s', id);
  }

  lemma {:induction false} RetriedAtOnce(cfg: Config, s: State, s': State, id: JobId, now: int)
    requires Inv(cfg, s) && id in s.jobs && s.jobs[id].state == IsRunning && Decided(cfg, s, s', id, Enqueue, now)
    requires !JobBlocked(s, id)
    ensures id in s'.jobs && QueuedAgain(s, s', id, now)
  {
    hide Inv, Released, Inserted, OnlyAdmittedLock;
  }

  lemma {:induction false} HiddenThen(cfg: Config, s: State, s': State, id: JobId, retryAt: int, now: int)
    requires Inv(cfg, s) && id in s.jobs && s.jobs[id].state == IsRunning
    requires Decided(cfg, s, s', id, EventType.Hide, now)
    requires retryAt == now + cfg.backoff(s.jobs[id].Failures() + 1) / 1_000_000
    ensures id in s'.jobs && HiddenUntil(s, s', id, retryAt, now)
  {
    InsertedKeeps(s.retry, Item(id, -retryAt));
    hide Inv, Released, NeedsOf, Locked, Inserted, OnlyAdmittedLock, JobValue.Failures;
    hide ValuesOf, Descending, OncePerValue;
    assert s'.retry == Inserted(s.retry, Item(id, -retryAt));
    assert Became(s, s', id, FailedJob(s.jobs[id], EventType.Hide, now), now);
    assert OnlyAdmittedLock(Released(s.locks, id, NeedsOf(s.jobs[id])), s.pending, s');
    hide Decided;
    HoldsNothing(cfg, s, s', id);
    HiddenJob(s, s', id, now);
  }

  lemma HiddenJob(s: State, s': State, id: JobId, now: int)
    requires id in s.jobs && Became(s, s', id, FailedJob(s.jobs[id], EventType.Hide, now), now)
    ensures id in s'.jobs && WentOn(s.jobs[id], s'.jobs[id], [Fail, EventType.Hide], IsRunning, IsHidden, now)
  {
  }

  /** What FailJob answers: the limit is reached exactly for a job that is terminated. */
  lemma {:induction false} LimitMeansFailed(cfg: Config, s: State, s': State, id: JobId, now: int)
    requires Inv(cfg, s) && id in s.jobs && s.jobs[id].state == IsRunning && s' == FailRunning(cfg, s, id, now)
    ensures id in s'.jobs && (s.jobs[id].Failures() + 1 >= cfg.maxRetry <==> s'.jobs[id].state == IsFailed)
  {
    FailuresCounted(s.jobs[id]);
    hide Inv, FailRunning, FailuresIn, HeldByAnother, JobValue.Failures, HoldsNone;
    FailInFields(cfg, s, s', id, now);
  }

  // ---------- the periodic tasks ----------

  /** The check of the retries: an item that is not due leaves its job hidden; the job of a due one is queued, or
      stays hidden because another job holds something it lists. No other job changes. */
  lemma {:induction false} RetryInFields(cfg: Config, s: State, s': State, now: int)
    requires Good(cfg, s, now) && s' == AttemptRetries(s, now)
    ensures s'.jobs.Keys == s.jobs.Keys
    ensures forall w :: w in s.retry ==> w.value in s.jobs && RetriedWhenDue(s, s', w.value, -w.priority, now)
    ensures forall id :: id in s.jobs && s.jobs[id].state != IsHidden ==> s'.jobs[id] == s.jobs[id]
  {
    hide Good, AttemptRetries, RetryPass;
    AttemptRetriesServes(cfg, s, s', now);
    RetryKeepsIds(s, s', now);
    forall w | w in s.retry ensures w.value in s.jobs && RetriedWhenDue(s, s', w.value, -w.priority, now) {
      RetryOfItem(cfg, s, s', w, now);
    }
    forall id | id in s.jobs && s.jobs[id].state != IsHidden ensures s'.jobs[id] == s.jobs[id] {
      OnlyHiddenRetried(cfg, s, s', id, now);
    }
  }

  lemma RetryKeepsIds(s: State, s': State, now: int)
    requires RetryPass(s, s', now)
    ensures s'.jobs.Keys == s.jobs.Keys
  {
  }

  ghost predicate RetriedWhenDue(s: State, s': State, id: JobId, retryAt: int, now: int)
    requires id in s.jobs
  {
    && id in s'.jobs && s.jobs[id].state == IsHidden
    && (if now < retryAt then s'.jobs[id] == s.jobs[id]
        else if s'.jobs[id].state == IsQueued then WentOn(s.jobs[id], s'.jobs[id], [Enqueue], IsHidden, IsQueued, now)
        else s'.jobs[id] == s.jobs[id] && HeldByAnother(s', id))
  }

  lemma {:induction false} RetryOfItem(cfg: Config, s: State, s': State, w: Item<JobId>, now: int)
    requires Good(cfg, s, now) && RetryPass(s, s', now) && w in s.retry
    ensures w.value in s.jobs && RetriedWhenDue(s, s', w.value, -w.priority, now)
  {
    var id := w.value;
    ItemIsHidden(s, w);
    RetryKeepsIds(s, s', now);
    hide Good, RetriedWhenDue, RetriedNow;
    if s'.jobs[id] == s.jobs[id] {
      hide RetryPass;
      LeftHidden(s, s', w, now);
    } else {
      assert RetriedNow(s, s', id, now);
      hide RetryPass;
      QueuedWhenDue(s, s', w, now);
    }
  }

  lemma QueuedWhenDue(s: State, s': State, w: Item<JobId>, now: int)
    requires RetriedNow(s, s', w.value, now) && w in s.retry && OncePerValue(s.retry)
    requires s.jobs[w.value].state == IsHidden
    ensures RetriedWhenDue(s, s', w.value, -w.priority, now)
  {
    var x :| x in s.retry && x.value == w.value && x.priority >= -now;
    OneItemPerJob(s.retry, w, x);
  }

  lemma {:induction false} ItemIsHidden(s: State, w: Item<JobId>)
    requires Coherent(s) && w in s.retry
    ensures w.value in s.jobs && s.jobs[w.value].state == IsHidden && OncePerValue(s.retry)
  {
    ValuesAreHeld(s.retry);
    assert w.value in InState(s.jobs, IsHidden);
  }

  lemma {:induction false} LeftHidden(s: State, s': State, w: Item<JobId>, now: int)
    requires RetryPass(s, s', now) && w in s.retry && w.value in s.jobs && s.jobs[w.value].state == IsHidden
    requires s'.jobs[w.value] == s.jobs[w.value]
    ensures RetriedWhenDue(s, s', w.value, -w.priority, now)
  {
    HiddenStaysInQueue(s.retry, s'.jobs, w);
    assert JobBlocked(s', w.value) <==> HeldByAnother(s', w.value);
    hide JobBlocked, HeldByAnother, StillWaiting;
  }

  lemma {:induction false} HiddenStaysInQueue(q: seq<Item<JobId>>, jobs: map<JobId, JobValue>, w: Item<JobId>)
    requires w in q && w.value in jobs && jobs[w.value].state == IsHidden
    ensures w in StillWaiting(q, jobs)
  {
    if q[0] != w {
      assert w in q[1..];
      HiddenStaysInQueue(q[1..], jobs, w);
    }
  }

  lemma {:induction false} OneItemPerJob(q: seq<Item<JobId>>, w: Item<JobId>, x: Item<JobId>)
    requires OncePerValue(q) && w in q && x in q && w.value == x.value
    ensures w == x
  {
    assert q == [q[0]] + q[1..];
    ValuesAreHeld(q[1..]);
    if w in q[1..] && x in q[1..] {
      OneItemPerJob(q[1..], w, x);
    }
  }

  lemma {:induction false} OnlyHiddenRetried(cfg: Config, s: State, s': State, id: JobId, now: int)
    requires Good(cfg, s, now) && RetryPass(s, s', now) && id in s.jobs && s.jobs[id].state != IsHidden
    ensures s'.jobs[id] == s.jobs[id]
  {
    ValuesAreHeld(s.retry);
    assert id !in InState(s.jobs, IsHidden);
    hide Owned, AllResting, Counted, PendingDue, Conserving, StillWaiting;
    assert !RetriedNow(s, s', id, now);
  }

  /** The check of the delayed jobs: a delayed job whose start time is reached becomes pending, or queued at
      once; one whose start time is not reached stays as it is. */
  lemma {:induction false} DelayInFields(cfg: Config, s: State, s': State, id: JobId, now: int)
    requires Good(cfg, s, now) && s' == CheckDelayed(s, now) && id in s.jobs && s.jobs[id].state == IsDelayed
    ensures id in s'.jobs
    ensures if s.jobs[id].spec.startAfter > now then s'.jobs[id] == s.jobs[id]
            else || WentOn(s.jobs[id], s'.jobs[id], [Pending], IsDelayed, IsPending, now)
                 || WentOn(s.jobs[id], s'.jobs[id], [Pending, Enqueue], IsPending, IsQueued, now)
  {
    hide Good, CheckDelayed;
    DelayedCheckIsExact(cfg, s, s', now);
  }

  /** A time in seconds on a clock of milliseconds, as 64 bits hold it: it wraps this often, which is 0 for a time
      that fits. */
  ghost predicate Milliseconds(seconds: int, wraps: int, limit: int) {
    limit == 1000 * seconds - wraps * 0x1_0000_0000_0000_0000
    && -0x8000_0000_0000_0000 <= limit <= 0x7FFF_FFFF_FFFF_FFFF
  }

  /** The check of the visibility timeouts: a job that has been running for that long since its last event fails
      once, and no other job does. */
  lemma {:induction false} TimeoutInFields(
    cfg: Config, s: State, s': State, id: JobId, wraps: int, limit: int, now: int)
    requires Good(cfg, s, now) && s' == CheckTimeouts(cfg, s, now) && id in s.jobs
    requires Milliseconds(s.jobs[id].spec.visibilityTimeout, wraps, limit)
    ensures id in s'.jobs && s.jobs[id].history != []
    ensures var j := s.jobs[id];
            if j.state == IsRunning && now - j.history[|j.history| - 1].timestamp >= limit
            then FailedInFields(cfg, j, s'.jobs[id], now)
            else || s'.jobs[id] == j
                 || (j.state == IsPending && WentOn(j, s'.jobs[id], [Enqueue], IsPending, IsQueued, now))
  {
    HasHistory(cfg, s, id);
    TimedOutInFields(s.jobs[id], wraps, limit, now);
    hide *;
    TimeoutsAreExact(cfg, s, s', now);
    FailedWhenTimedOut(cfg, s, s', id, now);
  }

  lemma TimedOutInFields(j: JobValue, wraps: int, limit: int, now: int)
    requires j.history != [] && Milliseconds(j.spec.visibilityTimeout, wraps, limit)
    ensures TimedOut(j, now) <==> j.state == IsRunning && now - j.history[|j.history| - 1].timestamp >= limit
  {
    Int64Is(j.spec.visibilityTimeout * 1000, wraps);
    hide Int64;
  }

  lemma {:induction false} FailedWhenTimedOut(cfg: Config, s: State, s': State, id: JobId, now: int)
    requires Good(cfg, s, now) && id in s.jobs && AllFailedOnce(cfg, s, s', TimedOutJobs(s, now), now)
    ensures id in s'.jobs
    ensures var j := s.jobs[id];
            if TimedOut(j, now) then FailedInFields(cfg, j, s'.jobs[id], now)
            else || s'.jobs[id] == j
                 || (j.state == IsPending && WentOn(j, s'.jobs[id], [Enqueue], IsPending, IsQueued, now))
  {
    hide Coherent, Owned, Counted, PendingDue, Conserving, Resting, FailedInFields, FailedOnce, Int64;
    if TimedOut(s.jobs[id], now) {
      MayFailOnce(cfg, s, id);
      FailedOnceInFields(cfg, s.jobs[id], s'.jobs[id], now);
    }
  }

  lemma MayFailOnce(cfg: Config, s: State, id: JobId)
    requires AllResting(cfg, s) && id in s.jobs && s.jobs[id].state == IsRunning
    ensures s.jobs[id].Failures() < FailureLimit(cfg.maxRetry)
  {
    assert Resting(cfg.maxRetry, s.jobs[id]);
  }

  /** The job failed, and is terminated if and only if its failures reached the limit. */
  ghost predicate FailedInFields(cfg: Config, j: JobValue, j': JobValue, now: int) {
    if |FailuresIn(j.history)| + 1 >= cfg.maxRetry then WentOn(j, j', [Fail, Terminate], IsRunning, IsFailed, now)
    else || WentOn(j, j', [Fail, Enqueue], IsRunning, IsQueued, now)
         || WentOn(j, j', [Fail, EventType.Hide], IsRunning, IsHidden, now)
  }

  lemma {:induction false} FailedOnceInFields(cfg: Config, j: JobValue, j': JobValue, now: int)
    requires FailedOnce(cfg.maxRetry, j, j', now) && j.Failures() < FailureLimit(cfg.maxRetry)
    ensures FailedInFields(cfg, j, j', now)
  {
    FailuresCounted(j);
    hide FailuresIn, JobValue.Failures;
  }

  /** Deleting the queued jobs deletes the created, delayed, pending and queued ones, and leaves every other job as
      it is. */
  lemma {:induction false} DeleteQueuedInFields(cfg: Config, s: State, s': State, now: int)
    requires Good(cfg, s, now) && s' == DeleteQueued(s, now)
    ensures forall id :: id in s'.jobs <==>
              id in s.jobs && s.jobs[id].state in {IsRunning, IsHidden, IsSucceeded, IsFailed, IsCanceled}
    ensures forall id :: id in s'.jobs ==> s'.jobs[id] == s.jobs[id]
  {
    hide Good, DeleteQueued;
    DeleteQueuedIsExact(cfg, s, s', now);
    forall id | id in s.jobs ensures id in s'.jobs <==>
                  s.jobs[id].state in {IsRunning, IsHidden, IsSucceeded, IsFailed, IsCanceled} {
      KnownState(cfg, s, id, now);
    }
  }

  /** The states a job at rest may have. */
  lemma KnownState(cfg: Config, s: State, id: JobId, now: int)
    requires Good(cfg, s, now) && id in s.jobs
    ensures s.jobs[id].state != NoState && s.jobs[id].state != IsDeleted
  {
    assert Resting(cfg.maxRetry, s.jobs[id]);
  }

  // ---------- retention ----------

  /** The job succeeded, was terminated or was canceled. */
  ghost predicate Ended(j: JobValue) {
    j.state == IsSucceeded || j.state == IsFailed || j.state == IsCanceled
  }

  /** What the retention check looks at: the ended jobs, each once, the one updated first in front. */
  ghost predicate OldestInFront(jobs: map<JobId, JobValue>, order: seq<JobId>) {
    && (forall id :: id in order <==> id in jobs && Ended(jobs[id]))
    && (forall i, j :: 0 <= i < j < |order| ==> order[i] != order[j])
    && (forall id :: id in order ==> jobs[id].history != [])
    && forall i, j :: 0 <= i < j < |order| ==> UpdatedAt(jobs[order[i]]) <= UpdatedAt(jobs[order[j]])
  }

  /** The age in milliseconds from which an ended job is deleted: that of the settings in seconds, or the largest
      64-bit number when the settings have none. */
  ghost predicate DeletedFromAge(cfg: Config, wraps: int, limit: int) {
    if cfg.maxAge >= 0 then Milliseconds(cfg.maxAge, wraps, limit) else limit == 0x7FFF_FFFF_FFFF_FFFF
  }

  ghost predicate TooOld(j: JobValue, limit: int, now: int)
    requires j.history != []
  {
    now - UpdatedAt(j) >= limit
  }

  /** The retention check in terms of the settings: it deletes the `k` oldest of the ended jobs and no other job; at
      most `maxCompleted` ended jobs are left, none of them too old; and each deleted job was one too many, or too
      old. */
  lemma {:induction false} RetentionInSettings(
    cfg: Config, s: State, s': State, order: seq<JobId>, wraps: int, limit: int, now: int) returns (k: nat)
    requires Good(cfg, s, now) && cfg.retention && DeletedFromAge(cfg, wraps, limit)
    requires OldestInFront(s.jobs, order) && s' == CheckRetention(cfg, s, order, now)
    ensures k <= |order| && forall id :: id in s'.jobs <==> id in s.jobs && id !in order[..k]
    ensures cfg.maxCompleted >= 0 ==> |order| - k <= cfg.maxCompleted
    ensures forall i :: k <= i < |order| ==> !TooOld(s.jobs[order[i]], limit, now)
    ensures forall i :: 0 <= i < k ==>
              (cfg.maxCompleted >= 0 && i < |order| - cfg.maxCompleted) || TooOld(s.jobs[order[i]], limit, now)
  {
    OrderIsByUpdate(s, order);
    LimitInSettings(cfg, wraps, limit);
    hide Good, CheckRetention, AgeLimit, ByLastUpdate, CutAt, OldestInFront;
    k := RetainOldest(cfg, s, s', order, now);
    CutInSettings(cfg, s, s', order, k, limit, now);
  }

  lemma OrderIsByUpdate(s: State, order: seq<JobId>)
    requires OldestInFront(s.jobs, order)
    ensures ByLastUpdate(s, order)
  {
    forall i, j | 0 <= i < j < |order| ensures LastUpdateOf(s, order[i]) <= LastUpdateOf(s, order[j]) {
      assert order[i] in order && order[j] in order;
      assert UpdatedAt(s.jobs[order[i]]) <= UpdatedAt(s.jobs[order[j]]);
    }
  }

  lemma LimitInSettings(cfg: Config, wraps: int, limit: int)
    requires DeletedFromAge(cfg, wraps, limit)
    ensures AgeLimit(cfg) == limit
  {
    if cfg.maxAge >= 0 {
      Int64Is(cfg.maxAge * 1000, wraps);
      hide Int64;
    }
  }

  lemma {:induction false} CutInSettings(
    cfg: Config, s: State, s': State, order: seq<JobId>, k: nat, limit: int, now: int)
    requires OldestInFront(s.jobs, order) && CutAt(cfg, s, s', order, Excess(cfg, |order|), 0, k, now)
    requires AgeLimit(cfg) == limit
    ensures k <= |order| && forall id :: id in s'.jobs <==> id in s.jobs && id !in order[..k]
    ensures cfg.maxCompleted >= 0 ==> |order| - k <= cfg.maxCompleted
    ensures forall i :: k <= i < |order| ==> !TooOld(s.jobs[order[i]], limit, now)
    ensures forall i :: 0 <= i < k ==>
              (cfg.maxCompleted >= 0 && i < |order| - cfg.maxCompleted) || TooOld(s.jobs[order[i]], limit, now)
  {
    hide AgeLimit, SameOrAdmitted, LocksOfOthersKept;
    forall i | 0 <= i < |order|
      ensures order[i] in s.jobs && s.jobs[order[i]].history != []
      ensures LastUpdateOf(s, order[i]) == UpdatedAt(s.jobs[order[i]])
    {
      assert order[i] in order;
    }
  }
}
