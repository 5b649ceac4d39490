/** Each single change of one job keeps the invariants. */
module Moves {
  import opened Jobs
  import opened PriorityQueues
  import opened Resources
  import opened Metrics
  import opened Scheduler
  import opened Invariants

  /** The invariants, while one job may be between two resting points. */
  ghost predicate Almost(cfg: Config, s: State, id: JobId) {
    && id in s.jobs
    && Coherent(s)
    && Owned(s)
    && s.saved == s.jobs
    && Counted(s)
    && Wordy(s.jobs[id])
    && OthersResting(cfg, s.jobs, id)
  }

  ghost predicate OthersResting(cfg: Config, jobs: map<JobId, JobValue>, id: JobId) {
    forall k :: k in jobs && k != id ==> Resting(cfg.maxRetry, jobs[k])
  }

  lemma RemovedAbsent(q: seq<Item<JobId>>, v: JobId)
    requires v !in ValuesOf(q)
    ensures Removed(q, v) == q
  {
    var k := RemovedSplits(q, v);
  }

  /** What is in the containers after one job moved. */
  ghost predicate Moved(s: State, s': State, id: JobId, j: JobValue) {
    && s'.jobs == s.jobs[id := j]
    && s'.pending == (if j.state == IsPending then s.pending + {id} else s.pending - {id})
    && s'.queued == (if j.state == IsQueued then s.queued + {id} else s.queued - {id})
    && (j.state == IsHidden ==> QueueMatches(s'.retry, ValuesOf(s.retry) + {id}))
    && (j.state != IsHidden ==> s'.retry == Removed(s.retry, id))
    && (if j.state == IsDelayed then s'.delayed == Inserted(s.delayed, Item(id, -j.spec.startAfter))
        else s'.delayed == Removed(s.delayed, id))
  }

  lemma {:induction false} MovedKeepsDueInOrder(s: State, s': State, id: JobId, j: JobValue)
    requires OncePerValue(s.delayed) && DueInOrder(s.delayed, s.jobs) && Moved(s, s', id, j)
    requires if id in s.jobs then j.spec.startAfter == s.jobs[id].spec.startAfter else id !in ValuesOf(s.delayed)
    ensures DueInOrder(s'.delayed, s'.jobs)
  {
    ValuesAreHeld(s.delayed);
    var x := Item(id, -j.spec.startAfter);
    RemovedKeeps(s.delayed, id);
    InsertedKeeps(s.delayed, x);
    forall w | w in s'.delayed && w.value in s'.jobs ensures w.priority == -s'.jobs[w.value].spec.startAfter {
      assert w in s.delayed || w == x;
    }
  }

  lemma {:induction false} MovedKeepsCoherent(s: State, s': State, id: JobId, j: JobValue)
    requires Coherent(s) && j.id == id && Moved(s, s', id, j)
    requires id in s.jobs ==> j.spec.startAfter == s.jobs[id].spec.startAfter
    requires j.state == IsDelayed ==> id !in ValuesOf(s.delayed)
    ensures Coherent(s')
  {
    InStateAfter(s.jobs, id, j, IsPending);
    InStateAfter(s.jobs, id, j, IsQueued);
    InStateAfter(s.jobs, id, j, IsHidden);
    InStateAfter(s.jobs, id, j, IsDelayed);
    RemovedKeeps(s.retry, id);
    RemovedKeeps(s.delayed, id);
    InsertedKeeps(s.delayed, Item(id, -j.spec.startAfter));
    MovedKeepsDueInOrder(s, s', id, j);
  }

  /** A job that keeps or takes its locks stays their rightful owner; so do the others. */
  lemma OwnedAfterMove(s: State, s': State, id: JobId, j: JobValue)
    requires Owned(s) && s'.jobs == s.jobs[id := j]
    requires id in s.jobs ==> j.spec.lockResources == s.jobs[id].spec.lockResources
    requires UsesLocks(j.state) || forall r :: r in s'.locks ==> s'.locks[r] != id
    requires forall r :: r in s'.locks ==>
               (r in s.locks && s'.locks[r] == s.locks[r]) || (s'.locks[r] == id && r in NeedsOf(j))
    ensures Owned(s')
  {
    forall r | r in s'.locks ensures Uses(s'.jobs, s'.locks[r], r) {
      if r in s.locks {
        assert Uses(s.jobs, s.locks[r], r);
      }
    }
  }

  /** The containers and the locks after a move. */
  lemma {:induction false} MoveKeepsShape(s: State, s': State, id: JobId)
    requires Coherent(s) && Owned(s) && id in s.jobs && id in s'.jobs
    requires Moved(s, s', id, s'.jobs[id]) && s'.jobs[id].id == id
    requires s'.jobs[id].spec.lockResources == s.jobs[id].spec.lockResources
    requires s'.jobs[id].spec.startAfter == s.jobs[id].spec.startAfter
    requires s'.jobs[id].state == IsDelayed ==> s.jobs[id].state != IsDelayed
    requires LocksFollow(s, s', id)
    ensures Coherent(s') && Owned(s')
  {
    MovedKeepsCoherent(s, s', id, s'.jobs[id]);
    OwnedAfterMove(s, s', id, s'.jobs[id]);
  }

  /** The job took what it lists or gave back what it held; nothing else changed. */
  ghost predicate LocksFollow(s: State, s': State, id: JobId)
    requires id in s.jobs && id in s'.jobs
  {
    if UsesLocks(s'.jobs[id].state)
    then s'.locks == s.locks || s'.locks == Locked(s.locks, id, NeedsOf(s.jobs[id]))
    else (forall r :: r in s'.locks ==> s'.locks[r] != id && r in s.locks && s'.locks[r] == s.locks[r])
  }

  /** One job moved, with its containers and its locks. */
  ghost predicate OneMoved(s: State, s': State, id: JobId) {
    && id in s.jobs && id in s'.jobs
    && Moved(s, s', id, s'.jobs[id]) && s'.jobs[id].id == s.jobs[id].id
    && s'.jobs[id].spec.lockResources == s.jobs[id].spec.lockResources
    && s'.jobs[id].spec.startAfter == s.jobs[id].spec.startAfter
    && (s'.jobs[id].state == IsDelayed ==> s.jobs[id].state != IsDelayed)
    && LocksFollow(s, s', id)
  }

  lemma OwnId(s: State, id: JobId)
    requires Coherent(s) && id in s.jobs
    ensures s.jobs[id].id == id
  {
  }

  lemma OneMovedKeepsShape(s: State, s': State, id: JobId)
    requires Coherent(s) && Owned(s) && OneMoved(s, s', id)
    ensures Coherent(s') && Owned(s')
  {
    OwnId(s, id);
    hide Coherent, Owned, Moved, LocksFollow;
    MoveKeepsShape(s, s', id);
  }

  /** A pending or hidden job, or a running one that just failed, is queued. */
  ghost function Queued(s: State, id: JobId, now: int): State
    requires id in s.jobs
  {
    MakeQueued(s, id, now).(pending := s.pending - {id}, retry := Removed(s.retry, id))
  }

  lemma NotDelayed(s: State, id: JobId)
    requires Coherent(s) && id in s.jobs && s.jobs[id].state != IsDelayed
    ensures Removed(s.delayed, id) == s.delayed
  {
    RemovedAbsent(s.delayed, id);
  }

  lemma PendingOrNot(s: State, id: JobId)
    requires Coherent(s) && id in s.jobs
    ensures s.jobs[id].state == IsQueued <==> id in s.queued
  {
    assert id in InState(s.jobs, IsQueued) <==> s.jobs[id].state == IsQueued;
  }

  lemma QueuedFields(s: State, s1: State, s': State, id: JobId, now: int)
    requires id in s.jobs && s1 == Record(LockFor(s, id), id, Enqueue, now) && s' == Queued(s, id, now)
    ensures s'.jobs == s1.jobs && s'.queued == s1.queued && s'.delayed == s1.delayed && s'.locks == s1.locks
    ensures s'.pending == s.pending - {id} && s'.retry == Removed(s.retry, id)
  {
    hide LockFor, Record, Removed;
  }

  /** Locking, then queueing: what the event changes. */
  lemma LockedEvent(s: State, s1: State, id: JobId, now: int)
    requires id in s.jobs && s1 == Record(LockFor(s, id), id, Enqueue, now)
    ensures OnlyEvent(s, s1, id, Enqueue, now)
  {
    LockedFields(s, id);
    hide LockFor, Record, JobValue.AddEvent;
    RecordFields(LockFor(s, id), id, Enqueue, now);
  }

  lemma LockedFields(s: State, id: JobId)
    requires id in s.jobs
    ensures var s' := LockFor(s, id);
            && s'.jobs == s.jobs && s'.pending == s.pending && s'.queued == s.queued
            && s'.retry == s.retry && s'.delayed == s.delayed
  {
  }

  lemma {:induction false} QueuedMoves(s: State, s1: State, s': State, id: JobId, now: int)
    requires Coherent(s) && id in s.jobs && s.jobs[id].state != IsDelayed
    requires OnlyEvent(s, s1, id, Enqueue, now)
    requires s'.jobs == s1.jobs && s'.queued == s1.queued && s'.delayed == s1.delayed
    requires s'.pending == s.pending - {id} && s'.retry == Removed(s.retry, id)
    ensures Moved(s, s', id, s'.jobs[id])
  {
    hide Removed, Inserted;
    NotDelayed(s, id);
    PendingOrNot(s, id);
    hide Coherent, QueueMatches, ValuesOf;
  }

  lemma {:induction false} QueuedShape(s: State, id: JobId, now: int)
    requires Coherent(s) && Owned(s) && id in s.jobs && s.jobs[id].state != IsDelayed
    ensures Coherent(Queued(s, id, now)) && Owned(Queued(s, id, now))
  {
    hide Coherent, Owned, Moved, LocksFollow, Queued, LockFor, OnlyEvent;
    LockedFields(s, id);
    var s1 := Record(LockFor(s, id), id, Enqueue, now);
    var s' := Queued(s, id, now);
    LockedEvent(s, s1, id, now);
    QueuedFields(s, s1, s', id, now);
    hide Record;
    QueuedMoves(s, s1, s', id, now);
    QueuedFollows(s, s1, s', id, now);
    OneMovedKeepsShape(s, s', id);
  }

  lemma QueuedFollows(s: State, s1: State, s': State, id: JobId, now: int)
    requires id in s.jobs && s1 == Record(LockFor(s, id), id, Enqueue, now)
    requires s'.jobs == s1.jobs && s'.locks == s1.locks
    ensures s'.jobs == s.jobs[id := s.jobs[id].AddEvent(Enqueue, now)] && LocksFollow(s, s', id)
  {
    LockedEvent(s, s1, id, now);
    RecordFields(LockFor(s, id), id, Enqueue, now);
    hide Record, LocksNotified, Locked, Acquired;
  }

  lemma {:induction false} QueuedBooks(s: State, id: JobId, now: int)
    requires id in s.jobs && s.saved == s.jobs && Counted(s) && Tracked(s.jobs[id].state)
    ensures var s' := Queued(s, id, now);
            s'.jobs == s.jobs[id := s.jobs[id].AddEvent(Enqueue, now)] && s'.saved == s'.jobs && Counted(s')
  {
    LockForKeepsCounted(s, id);
    var s1 := AddHistoryEvent(LockFor(s, id), id, Enqueue, now);
    assert s1.saved == s1.jobs[id := s.jobs[id]];
    NotifyKeeps(s1, id, s.jobs[id]);
  }

  /** One job came to rest, everything else stayed. */
  lemma Settle(cfg: Config, s: State, s': State, id: JobId)
    requires OthersResting(cfg, s.jobs, id)
    requires id in s'.jobs && s'.jobs == s.jobs[id := s'.jobs[id]] && Resting(cfg.maxRetry, s'.jobs[id])
    requires Coherent(s') && Owned(s') && s'.saved == s'.jobs && Counted(s')
    ensures Inv(cfg, s')
  {
  }

  lemma {:induction false} QueuedKeeps(cfg: Config, s: State, s': State, id: JobId, now: int)
    requires Almost(cfg, s, id) && s' == Queued(s, id, now)
    requires MayFollow(Last(s.jobs[id]), Enqueue) && s.jobs[id].state != IsCanceled
    requires s.jobs[id].Failures() < FailureLimit(cfg.maxRetry)
    ensures Inv(cfg, s')
  {
    RestAfter(cfg.maxRetry, s.jobs[id], Enqueue, now);
    QueuedShape(s, id, now);
    QueuedBooks(s, id, now);
    Settle(cfg, s, s', id);
  }

  lemma Unsettle(cfg: Config, s: State, s': State, id: JobId)
    requires AllResting(cfg, s) || OthersResting(cfg, s.jobs, id)
    requires id in s'.jobs && s'.jobs == s.jobs[id := s'.jobs[id]] && Wordy(s'.jobs[id])
    requires Coherent(s') && Owned(s') && s'.saved == s'.jobs && Counted(s')
    ensures Almost(cfg, s', id)
  {
  }

  // ---------- failing ----------

  lemma RunningIsNowhere(s: State, id: JobId)
    requires Coherent(s) && id in s.jobs && s.jobs[id].state == IsRunning
    ensures s.pending - {id} == s.pending && s.queued - {id} == s.queued
    ensures Removed(s.retry, id) == s.retry && Removed(s.delayed, id) == s.delayed
    ensures id !in ValuesOf(s.retry)
  {
    RemovedAbsent(s.delayed, id);
    RemovedAbsent(s.retry, id);
  }

  /** What recording an event changes. */
  ghost predicate OnlyEvent(s: State, s': State, id: JobId, e: EventType, now: int)
    requires id in s.jobs
  {
    && s'.jobs == s.jobs[id := s.jobs[id].AddEvent(e, now)]
    && s'.pending == s.pending && s'.retry == s.retry && s'.delayed == s.delayed
    && s'.queued == (var rest := if s.jobs[id].state == IsQueued then s.queued - {id} else s.queued;
                     if StateFromEvent(e) == IsQueued then rest + {id} else rest)
  }

  lemma RecordFields(s: State, id: JobId, e: EventType, now: int)
    requires id in s.jobs
    ensures OnlyEvent(s, Record(s, id, e, now), id, e, now) && Record(s, id, e, now).locks == s.locks
  {
    hide Notified;
  }

  lemma ClosedFields(s: State, id: JobId, e: EventType, now: int)
    requires id in s.jobs
    ensures OnlyEvent(s, Closed(s, id, e, now), id, e, now)
  {
    hide Notified, LocksNotified, Released, Freed, NeedsOf;
  }

  /** A running job is in no container: its move out of the running state is one. */
  lemma RunningMoves(s: State, s': State, id: JobId, j: JobValue)
    requires Coherent(s) && id in s.jobs && s.jobs[id].state == IsRunning
    requires s'.jobs == s.jobs[id := j] && s'.pending == s.pending && s'.retry == s.retry && s'.delayed == s.delayed
    requires j.state == IsRunning || j.state == IsFailed || j.state == IsSucceeded || j.state == IsQueued
    requires s'.queued == if j.state == IsQueued then s.queued + {id} else s.queued
    ensures Moved(s, s', id, j)
  {
    RunningIsNowhere(s, id);
    hide Coherent, Removed;
  }

  lemma {:induction false} FailShape(s: State, s': State, id: JobId, now: int)
    requires Coherent(s) && Owned(s) && id in s.jobs && s.jobs[id].state == IsRunning
    requires s' == Record(s, id, Fail, now)
    ensures Coherent(s') && Owned(s')
  {
    hide Record, Coherent, Owned;
    RecordFields(s, id, Fail, now);
    RunningMoves(s, s', id, s'.jobs[id]);
    hide Moved;
    OneMovedKeepsShape(s, s', id);
  }

  lemma {:induction false} RecordBooks(s: State, s': State, id: JobId, e: EventType, now: int)
    requires id in s.jobs && s.saved == s.jobs && Counted(s) && Tracked(s.jobs[id].state)
    requires e != Delete && e != Create && s' == Record(s, id, e, now)
    ensures s'.jobs == s.jobs[id := s.jobs[id].AddEvent(e, now)] && s'.saved == s'.jobs && Counted(s')
  {
    var s1 := AddHistoryEvent(s, id, e, now);
    assert s1.saved == s1.jobs[id := s.jobs[id]];
    NotifyKeeps(s1, id, s.jobs[id]);
  }

  /** The job alone: its history after a failure. */
  lemma RunningFails(cfg: Config, s: State, id: JobId, now: int)
    requires AllResting(cfg, s) && id in s.jobs && s.jobs[id].state == IsRunning
    ensures var j := s.jobs[id].AddEvent(Fail, now);
            && Wordy(j) && Last(j) == Fail && j.state == IsRunning
            && j.Failures() == s.jobs[id].Failures() + 1 <= FailureLimit(cfg.maxRetry)
  {
    assert Resting(cfg.maxRetry, s.jobs[id]);
    AddEventKeepsWord(s.jobs[id], Fail, now);
  }

  lemma {:induction false} FailKeeps(cfg: Config, s: State, s': State, id: JobId, now: int)
    requires Inv(cfg, s) && id in s.jobs && s.jobs[id].state == IsRunning && s' == Record(s, id, Fail, now)
    ensures Almost(cfg, s', id) && Last(s'.jobs[id]) == Fail && s'.jobs[id].state == IsRunning
    ensures s'.jobs[id].Failures() == s.jobs[id].Failures() + 1 <= FailureLimit(cfg.maxRetry)
  {
    hide Record, Coherent, Owned, Counted;
    RunningFails(cfg, s, id, now);
    FailShape(s, s', id, now);
    RecordBooks(s, s', id, Fail, now);
    Unsettle(cfg, s, s', id);
  }

  /** The job gives its locks back between its event and its notification. */
  ghost function Closed(s: State, id: JobId, e: EventType, now: int): State
    requires id in s.jobs
  {
    Notify(UnlockFor(AddHistoryEvent(s, id, e, now), id), id)
  }

  lemma {:induction false} ClosedBooks(s: State, s': State, id: JobId, e: EventType, now: int)
    requires id in s.jobs && s.saved == s.jobs && Counted(s) && Tracked(s.jobs[id].state)
    requires e != Delete && e != Create && s' == Closed(s, id, e, now)
    ensures s'.jobs == s.jobs[id := s.jobs[id].AddEvent(e, now)] && s'.saved == s'.jobs && Counted(s')
  {
    var s1 := AddHistoryEvent(s, id, e, now);
    UnlockForKeepsCounted(s1, id);
    var s2 := UnlockFor(s1, id);
    assert s2.saved == s2.jobs[id := s.jobs[id]];
    NotifyKeeps(s2, id, s.jobs[id]);
  }

  lemma {:induction false} ClosedLocks(s: State, s': State, id: JobId, e: EventType, now: int)
    requires Owned(s) && id in s.jobs && s' == Closed(s, id, e, now)
    ensures forall r :: r in s'.locks ==> s'.locks[r] != id && r in s.locks && s'.locks[r] == s.locks[r]
  {
    var s1 := AddHistoryEvent(s, id, e, now);
    UnlockForReleases(s1, id);
    forall r | r in s'.locks ensures s'.locks[r] != id && r in s.locks && s'.locks[r] == s.locks[r] {
      assert Uses(s.jobs, s.locks[r], r);
    }
  }

  /** A running job is closed for good. */
  lemma {:induction false} ClosedShape(s: State, s': State, id: JobId, e: EventType, now: int)
    requires Coherent(s) && Owned(s) && id in s.jobs && s.jobs[id].state == IsRunning
    requires (e == Terminate || e == Success) && s' == Closed(s, id, e, now)
    ensures Coherent(s') && Owned(s')
  {
    hide Coherent, Owned, Closed;
    ClosedLocks(s, s', id, e, now);
    ClosedFields(s, id, e, now);
    RunningMoves(s, s', id, s'.jobs[id]);
    hide Moved;
    OneMovedKeepsShape(s, s', id);
  }

  /** A running job is in no queue: it is inserted in the retry queue. */
  lemma RetryQueueMatches(s: State, id: JobId, retryAt: int)
    requires Coherent(s) && id in s.jobs && s.jobs[id].state == IsRunning
    ensures QueueMatches(Inserted(s.retry, Item(id, -retryAt)), ValuesOf(s.retry) + {id})
  {
    RunningIsNowhere(s, id);
    InsertedKeeps(s.retry, Item(id, -retryAt));
    hide Inserted, ValuesOf, Descending, OncePerValue;
  }

  /** A running job is hidden, and waits for its retry. */
  lemma {:induction false} HiddenMoves(s: State, s1: State, s': State, id: JobId, retryAt: int, now: int)
    requires Coherent(s) && id in s.jobs && s.jobs[id].state == IsRunning
    requires OnlyEvent(s, s1, id, EventType.Hide, now)
    requires s' == s1.(retry := Inserted(s1.retry, Item(id, -retryAt)))
    ensures Moved(s, s', id, s'.jobs[id])
  {
    RunningIsNowhere(s, id);
    RetryQueueMatches(s, id, retryAt);
    hide Coherent, Removed, Inserted, ValuesOf, QueueMatches;
    assert s'.jobs[id].state == IsHidden;
    hide JobValue.AddEvent;
  }

  lemma {:induction false} HiddenShape(s: State, s1: State, s': State, id: JobId, retryAt: int, now: int)
    requires Coherent(s) && Owned(s) && id in s.jobs && s.jobs[id].state == IsRunning
    requires s1 == Closed(s, id, EventType.Hide, now)
    requires s' == s1.(retry := Inserted(s1.retry, Item(id, -retryAt)))
    ensures Coherent(s') && Owned(s')
  {
    hide Coherent, Owned, Closed, Inserted, Moved;
    ClosedLocks(s, s1, id, EventType.Hide, now);
    ClosedFields(s, id, EventType.Hide, now);
    HiddenMoves(s, s1, s', id, retryAt, now);
    OneMovedKeepsShape(s, s', id);
  }

  lemma {:induction false} GiveUpKeeps(cfg: Config, s: State, s': State, id: JobId, now: int)
    requires Almost(cfg, s, id) && Last(s.jobs[id]) == Fail && s.jobs[id].state == IsRunning
    requires s.jobs[id].Failures() == FailureLimit(cfg.maxRetry)
    requires s' == Closed(s, id, Terminate, now)
    ensures Inv(cfg, s')
  {
    RestAfter(cfg.maxRetry, s.jobs[id], Terminate, now);
    ClosedBooks(s, s', id, Terminate, now);
    ClosedShape(s, s', id, Terminate, now);
    Settle(cfg, s, s', id);
  }

  lemma {:induction false} HideKeeps(cfg: Config, s: State, s1: State, s': State, id: JobId, retryAt: int, now: int)
    requires Almost(cfg, s, id) && Last(s.jobs[id]) == Fail && s.jobs[id].state == IsRunning
    requires s.jobs[id].Failures() < FailureLimit(cfg.maxRetry)
    requires s1 == Closed(s, id, EventType.Hide, now)
    requires s' == s1.(retry := Inserted(s1.retry, Item(id, -retryAt)))
    ensures Inv(cfg, s')
  {
    RestAfter(cfg.maxRetry, s.jobs[id], EventType.Hide, now);
    ClosedBooks(s, s1, id, EventType.Hide, now);
    HiddenShape(s, s1, s', id, retryAt, now);
    Settle(cfg, s, s', id);
  }

  // ---------- finishing, cancelling, starting ----------

  lemma {:induction false} FinishKeeps(cfg: Config, s: State, s1: State, s': State, id: JobId, now: int)
    requires Inv(cfg, s) && id in s.jobs && s.jobs[id].state == IsRunning
    requires s1 == UnlockFor(s, id) && s' == Record(s1, id, Success, now)
    ensures Inv(cfg, s')
  {
    assert Resting(cfg.maxRetry, s.jobs[id]);
    RestAfter(cfg.maxRetry, s.jobs[id], Success, now);
    UnlockForKeepsCounted(s, id);
    UnlockedFields(s, id);
    FinishShape(s, s1, s', id, now);
    hide UnlockFor;
    RecordBooks(s1, s', id, Success, now);
    hide Record, Coherent, Owned, Counted;
    Settle(cfg, s, s', id);
  }

  lemma UnlockedFields(s: State, id: JobId)
    requires id in s.jobs
    ensures var s' := UnlockFor(s, id);
            && s'.jobs == s.jobs && s'.pending == s.pending && s'.queued == s.queued
            && s'.retry == s.retry && s'.delayed == s.delayed
  {
  }

  lemma {:induction false} FinishShape(s: State, s1: State, s': State, id: JobId, now: int)
    requires Coherent(s) && Owned(s) && id in s.jobs && s.jobs[id].state == IsRunning
    requires s1 == UnlockFor(s, id) && s' == Record(s1, id, Success, now)
    ensures Coherent(s') && Owned(s')
  {
    hide Record, UnlockFor, Coherent, Owned;
    UnlockForReleases(s, id);
    UnlockedFields(s, id);
    RecordFields(s1, id, Success, now);
    RunningMoves(s, s', id, s'.jobs[id]);
    hide Moved;
    OneMovedKeepsShape(s, s', id);
  }

  lemma {:induction false} RequeueBooks(s: State, s1: State, s2: State, id: JobId, now: int)
    requires id in s.jobs && s.saved == s.jobs && Counted(s) && s.jobs[id].state == IsRunning
    requires s1 == Record(s, id, Cancel, now) && s2 == Record(s1, id, Enqueue, now)
    ensures s2.jobs == s.jobs[id := s.jobs[id].AddEvent(Cancel, now).AddEvent(Enqueue, now)]
    ensures s2.saved == s2.jobs && Counted(s2)
  {
    RecordBooks(s, s1, id, Cancel, now);
    RecordBooks(s1, s2, id, Enqueue, now);
  }

  lemma RequeueRests(maxRetry: nat, j: JobValue, now: int)
    requires Resting(maxRetry, j) && j.state == IsRunning
    ensures Resting(maxRetry, j.AddEvent(Cancel, now).AddEvent(Enqueue, now))
  {
    AddEventKeepsWord(j, Cancel, now);
    RestAfter(maxRetry, j.AddEvent(Cancel, now), Enqueue, now);
  }

  lemma {:induction false} RequeueKeeps(cfg: Config, s: State, s1: State, s2: State, s': State, id: JobId, now: int)
    requires Inv(cfg, s) && id in s.jobs && s.jobs[id].state == IsRunning
    requires s1 == Record(s, id, Cancel, now) && s2 == Record(s1, id, Enqueue, now) && s' == WakePolls(s2)
    ensures Inv(cfg, s')
  {
    RequeueRests(cfg.maxRetry, s.jobs[id], now);
    RequeueBooks(s, s1, s2, id, now);
    RequeueShape(s, s1, s', id, now);
    Settle(cfg, s, s', id);
  }

  lemma {:induction false} RequeueShape(s: State, s1: State, s': State, id: JobId, now: int)
    requires Coherent(s) && Owned(s) && id in s.jobs && s.jobs[id].state == IsRunning
    requires s1 == Record(s, id, Cancel, now) && s' == WakePolls(Record(s1, id, Enqueue, now))
    ensures Coherent(s') && Owned(s')
  {
    hide Record, Coherent, Owned;
    RecordFields(s, id, Cancel, now);
    RecordFields(s1, id, Enqueue, now);
    assert s'.jobs == s.jobs[id := s'.jobs[id]];
    RunningMoves(s, s', id, s'.jobs[id]);
    hide Moved;
    OneMovedKeepsShape(s, s', id);
  }

  ghost function Started(j: JobValue, timeout: nat, now: int): JobValue {
    var k := j.AddEvent(Start, now);
    k.(spec := k.spec.(visibilityTimeout := timeout))
  }

  lemma {:induction false} StartBooks(s: State, s': State, id: JobId, timeout: nat, now: int)
    requires id in s.jobs && s.saved == s.jobs && Counted(s) && s.jobs[id].state == IsQueued
    requires s' == StartJob(s, id, timeout, now)
    ensures s'.jobs == s.jobs[id := Started(s.jobs[id], timeout, now)] && s'.saved == s'.jobs && Counted(s')
    ensures s'.queued == s.queued - {id} && s'.pending == s.pending - {id}
    ensures s'.retry == s.retry && s'.delayed == s.delayed && s'.locks == s.locks && s'.wake == s.wake
  {
    var s1 := AddHistoryEvent(s.(pending := s.pending - {id}), id, Start, now);
    var s2 := s1.(jobs := s1.jobs[id := Started(s.jobs[id], timeout, now)]);
    assert s2.saved == s2.jobs[id := s.jobs[id]];
    NotifyKeeps(s2, id, s.jobs[id]);
  }

  lemma {:induction false} StartShape(s: State, s': State, id: JobId, timeout: nat, now: int)
    requires Coherent(s) && Owned(s) && id in s.jobs && s.jobs[id].state == IsQueued
    requires s' == StartJob(s, id, timeout, now)
    ensures Coherent(s') && Owned(s')
  {
    RemovedAbsent(s.delayed, id);
    RemovedAbsent(s.retry, id);
    assert s'.jobs == s.jobs[id := s'.jobs[id]];
    MoveKeepsShape(s, s', id);
  }

  lemma {:induction false} StartKeeps(cfg: Config, s: State, s': State, id: JobId, timeout: nat, now: int)
    requires Inv(cfg, s) && id in s.jobs && s.jobs[id].state == IsQueued
    requires s' == StartJob(s, id, timeout, now)
    ensures Inv(cfg, s')
  {
    assert Resting(cfg.maxRetry, s.jobs[id]);
    RestAfter(cfg.maxRetry, s.jobs[id], Start, now);
    StartBooks(s, s', id, timeout, now);
    StartShape(s, s', id, timeout, now);
    hide StartJob, Coherent, Owned, Counted;
    Settle(cfg, s, s', id);
  }

  // ---------- creating, delaying, releasing ----------

  lemma {:induction false} BornBooks(cfg: Config, s: State, s': State, id: JobId, spec: JobSpec, now: int)
    requires s.saved == s.jobs && Counted(s) && Owned(s) && id !in s.jobs && !Refused(cfg, s)
    requires s' == Born(cfg, s, id, spec, now)
    ensures s'.jobs == s.jobs[id := NewJob(id, spec, now)] && s'.saved == s'.jobs && Counted(s')
  {
    var j := NewJob(id, spec, now);
    CreationKeepsCounts(s.metrics, s.jobs, id, j);
    assert s'.saved == s.jobs[id := j];
    forall t ensures At(s'.metrics, t).resourcesLocked == |LocksOf(s.locks, s.jobs[id := j], t)| {
      NewJobHasNoLocks(s, id, j, t);
    }
  }

  lemma NewJobHasNoLocks(s: State, id: JobId, j: JobValue, t: Topic)
    requires Owned(s) && id !in s.jobs
    ensures LocksOf(s.locks, s.jobs[id := j], t) == LocksOf(s.locks, s.jobs, t)
  {
    assert forall r :: r in s.locks ==> Uses(s.jobs, s.locks[r], r);
  }

  lemma NewJobIsWordy(id: JobId, spec: JobSpec, now: int)
    ensures var j := NewJob(id, spec, now); Wordy(j) && Last(j) == Create && j.Failures() == 0
  {
    assert NewJob(id, spec, now).history == [HistoryEvent(Create, now)];
    OneCreation(HistoryEvent(Create, now));
    hide CountEvents;
  }

  lemma OneCreation(e: HistoryEvent)
    requires e.eventType == Create
    ensures CountEvents([e], Fail) == 0
  {
    CountAppend([], e, Fail);
    assert [] + [e] == [e];
  }

  lemma {:induction false} BornKeeps(cfg: Config, s: State, s': State, id: JobId, spec: JobSpec, now: int)
    requires Inv(cfg, s) && id !in s.jobs && !Refused(cfg, s)
    requires s' == Born(cfg, s, id, spec, now)
    ensures Almost(cfg, s', id) && s'.jobs == s.jobs[id := NewJob(id, spec, now)]
    ensures Last(s'.jobs[id]) == Create && s'.jobs[id].Failures() == 0
  {
    NewJobIsWordy(id, spec, now);
    BornBooks(cfg, s, s', id, spec, now);
    BornShape(cfg, s, s', id, spec, now);
    Unsettle(cfg, s, s', id);
  }

  lemma {:induction false} BornShape(cfg: Config, s: State, s': State, id: JobId, spec: JobSpec, now: int)
    requires Coherent(s) && Owned(s) && id !in s.jobs
    requires s' == Born(cfg, s, id, spec, now)
    ensures Coherent(s') && Owned(s')
  {
    var j := NewJob(id, spec, now);
    RemovedAbsent(s.delayed, id);
    RemovedAbsent(s.retry, id);
    assert s.pending - {id} == s.pending && s.queued - {id} == s.queued;
    MovedKeepsCoherent(s, s', id, j);
    assert forall r :: r in s.locks ==> Uses(s.jobs, s.locks[r], r);
    OwnedAfterMove(s, s', id, j);
  }

  lemma {:induction false} SetPendingBooks(s: State, s': State, id: JobId, now: int)
    requires id in s.jobs && s.saved == s.jobs && Counted(s) && Tracked(s.jobs[id].state)
    requires s' == SetPending(s, id, now)
    ensures s'.jobs == s.jobs[id := s.jobs[id].AddEvent(Pending, now)] && s'.saved == s'.jobs && Counted(s')
  {
    var s2 := AddHistoryEvent(s, id, Pending, now);
    var s3 := s2.(pending := s2.pending + {id});
    assert s3.saved == s3.jobs[id := s.jobs[id]];
    NotifyKeeps(s3, id, s.jobs[id]);
  }

  /** A new job, or one whose delay is over, becomes pending. */
  lemma {:induction false} SetPendingKeeps(cfg: Config, s: State, s1: State, s': State, id: JobId, now: int)
    requires Almost(cfg, s, id) && s1 == s.(delayed := Removed(s.delayed, id))
    requires MayFollow(Last(s.jobs[id]), Pending) && s.jobs[id].Failures() < FailureLimit(cfg.maxRetry)
    requires !TooEarly(s.jobs[id], now) && s' == SetPending(s1, id, now)
    ensures Inv(cfg, s')
  {
    RestAfter(cfg.maxRetry, s.jobs[id], Pending, now);
    SetPendingBooks(s1, s', id, now);
    SetPendingShape(s, s1, s', id, now);
    Settle(cfg, s, s', id);
  }

  lemma {:induction false} SetPendingShape(s: State, s1: State, s': State, id: JobId, now: int)
    requires Coherent(s) && Owned(s) && id in s.jobs && s1 == s.(delayed := Removed(s.delayed, id))
    requires s.jobs[id].state == IsCreated || s.jobs[id].state == IsDelayed
    requires s' == SetPending(s1, id, now)
    ensures Coherent(s') && Owned(s')
  {
    RemovedAbsent(s.retry, id);
    assert s.queued - {id} == s.queued;
    assert forall r :: r in s.locks ==> Uses(s.jobs, s.locks[r], r);
    MoveKeepsShape(s, s', id);
  }

  lemma {:induction false} SetDelayedBooks(s: State, s': State, id: JobId, now: int)
    requires id in s.jobs && s.saved == s.jobs && Counted(s) && Tracked(s.jobs[id].state)
    requires s' == SetDelayed(s, id, now)
    ensures s'.jobs == s.jobs[id := s.jobs[id].AddEvent(Delay, now)] && s'.saved == s'.jobs && Counted(s')
  {
    var s2 := AddHistoryEvent(s, id, Delay, now);
    var s3 := s2.(delayed := Inserted(s2.delayed, Item(id, -s2.jobs[id].spec.startAfter)));
    assert s3.saved == s3.jobs[id := s.jobs[id]];
    NotifyKeeps(s3, id, s.jobs[id]);
  }

  lemma {:induction false} SetDelayedKeeps(cfg: Config, s: State, s': State, id: JobId, now: int)
    requires Almost(cfg, s, id) && Last(s.jobs[id]) == Create && s.jobs[id].Failures() < FailureLimit(cfg.maxRetry)
    requires s' == SetDelayed(s, id, now)
    ensures Inv(cfg, s')
  {
    RestAfter(cfg.maxRetry, s.jobs[id], Delay, now);
    SetDelayedBooks(s, s', id, now);
    SetDelayedShape(s, s', id, now);
    Settle(cfg, s, s', id);
  }

  lemma {:induction false} SetDelayedShape(s: State, s': State, id: JobId, now: int)
    requires Coherent(s) && Owned(s) && id in s.jobs && s.jobs[id].state == IsCreated
    requires s' == SetDelayed(s, id, now)
    ensures Coherent(s') && Owned(s')
  {
    RemovedAbsent(s.retry, id);
    assert s.pending - {id} == s.pending && s.queued - {id} == s.queued;
    assert forall r :: r in s.locks ==> Uses(s.jobs, s.locks[r], r);
    MoveKeepsShape(s, s', id);
  }

  // ---------- deleting ----------

  lemma {:induction false} RemoveFields(s: State, s1: State, s': State, id: JobId, now: int)
    requires id in s.jobs && s1 == UnlockFor(s, id) && s' == Remove(s, id, now)
    ensures s'.jobs == s.jobs - {id} && s'.saved == s.saved - {id} && s'.locks == s1.locks
    ensures s'.metrics == Notified(s1.metrics, s.jobs[id].spec.topic, s.jobs[id].state, IsDeleted)
    ensures s'.pending == s.pending - {id}
    ensures s'.queued == if s.jobs[id].state == IsQueued then s.queued - {id} else s.queued
    ensures s'.retry == Removed(s.retry, id) && s'.delayed == Removed(s.delayed, id)
    ensures s'.wake == s.wake
  {
    assert s'.jobs == s.jobs - {id};
  }

  lemma DeletedJobHasNoLocks(locks: LockTable, jobs: map<JobId, JobValue>, id: JobId, t: Topic)
    requires forall r :: r in locks ==> locks[r] != id
    ensures LocksOf(locks, jobs - {id}, t) == LocksOf(locks, jobs, t)
  {
  }

  lemma {:induction false} DeletionKeepsCounted(m: Table, locks: LockTable, jobs: map<JobId, JobValue>, id: JobId)
    requires CountsJobs(m, jobs) && CountsLocks(m, locks, jobs) && id in jobs && Tracked(jobs[id].state)
    requires forall r :: r in locks ==> locks[r] != id
    ensures CountsJobs(Notified(m, jobs[id].spec.topic, jobs[id].state, IsDeleted), jobs - {id})
    ensures CountsLocks(Notified(m, jobs[id].spec.topic, jobs[id].state, IsDeleted), locks, jobs - {id})
  {
    DeletionKeepsCounts(m, jobs, id);
    forall t {
      DeletedJobHasNoLocks(locks, jobs, id, t);
    }
  }

  lemma {:induction false} RemoveBooks(s: State, s1: State, s': State, id: JobId, now: int)
    requires id in s.jobs && s.saved == s.jobs && Counted(s) && Owned(s) && Tracked(s.jobs[id].state)
    requires s1 == UnlockFor(s, id) && s' == Remove(s, id, now)
    ensures s'.saved == s'.jobs && Counted(s')
  {
    RemoveFields(s, s1, s', id, now);
    UnlockForKeepsCounted(s, id);
    UnlockForReleases(s, id);
    DeletionKeepsCounted(s1.metrics, s1.locks, s1.saved, id);
  }

  lemma InStateWithout(jobs: map<JobId, JobValue>, id: JobId, st: JobState)
    ensures InState(jobs - {id}, st) == InState(jobs, st) - {id}
  {
  }

  lemma {:induction false} RemoveCoherent(s: State, s': State, id: JobId)
    requires Coherent(s) && id in s.jobs && s'.jobs == s.jobs - {id}
    requires s'.pending == s.pending - {id} && s'.queued == s.queued - {id}
    requires s'.retry == Removed(s.retry, id) && s'.delayed == Removed(s.delayed, id)
    ensures Coherent(s')
  {
    RemovedKeeps(s.retry, id);
    RemovedKeeps(s.delayed, id);
    InStateWithout(s.jobs, id, IsPending);
    InStateWithout(s.jobs, id, IsQueued);
    InStateWithout(s.jobs, id, IsHidden);
    InStateWithout(s.jobs, id, IsDelayed);
  }

  lemma {:induction false} RemoveOwned(s: State, s1: State, s': State, id: JobId)
    requires Owned(s) && id in s.jobs && s1 == UnlockFor(s, id) && s'.locks == s1.locks && s'.jobs == s.jobs - {id}
    ensures Owned(s')
  {
    UnlockForReleases(s, id);
    forall r | r in s'.locks ensures Uses(s'.jobs, s'.locks[r], r) {
      assert Uses(s.jobs, s.locks[r], r);
    }
  }

  lemma {:induction false} RemoveShape(s: State, s1: State, s': State, id: JobId, now: int)
    requires Coherent(s) && Owned(s) && id in s.jobs && s1 == UnlockFor(s, id) && s' == Remove(s, id, now)
    ensures Coherent(s') && Owned(s')
  {
    RemoveFields(s, s1, s', id, now);
    RemoveOwned(s, s1, s', id);
    assert s.jobs[id].state != IsQueued ==> s.queued - {id} == s.queued;
    RemoveCoherent(s, s', id);
  }

  lemma {:induction false} RemoveKeeps(cfg: Config, s: State, s1: State, s': State, id: JobId, now: int)
    requires Inv(cfg, s) && id in s.jobs && s1 == UnlockFor(s, id) && s' == Remove(s, id, now)
    ensures Inv(cfg, s') && s'.jobs == s.jobs - {id}
  {
    assert Resting(cfg.maxRetry, s.jobs[id]);
    RemoveFields(s, s1, s', id, now);
    RemoveBooks(s, s1, s', id, now);
    RemoveShape(s, s1, s', id, now);
    FewerRest(cfg, s, s', id);
  }

  lemma FewerRest(cfg: Config, s: State, s': State, id: JobId)
    requires AllResting(cfg, s) && s'.jobs == s.jobs - {id}
    ensures AllResting(cfg, s')
  {
  }
}
