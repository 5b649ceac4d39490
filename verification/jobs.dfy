/** Jobs, their history and the automaton the scheduler drives them through (job/job.go). */
module Jobs {

  /** Version 7 UUIDs, compared byte by byte: a totally ordered identifier. */
  type JobId = nat
  datatype Topic = Topic(name: string)
  datatype Resource = Resource(name: string)
  /** A signed 8-bit priority. */
  type Priority = p: int | -128 <= p < 128

  datatype EventType =
    | Create | Delay | Pending | Enqueue | Start | Success | Cancel | Fail | Retry | Hide | Terminate | Delete

  datatype JobState =
    | NoState | IsCreated | IsDelayed | IsPending | IsQueued | IsRunning | IsSucceeded | IsFailed
    | IsCanceled | IsDeleted | IsHidden

  datatype HistoryEvent = HistoryEvent(eventType: EventType, timestamp: int)

  function StateFromEvent(e: EventType): JobState {
    match e
    case Create => IsCreated
    case Delay => IsDelayed
    case Pending => IsPending
    case Enqueue => IsQueued
    case Start => IsRunning
    case Fail => IsRunning
    case Retry => IsRunning
    case Success => IsSucceeded
    case Hide => IsHidden
    case Cancel => IsCanceled
    case Terminate => IsFailed
    case Delete => NoState
  }

  function StateFromHistory(h: seq<HistoryEvent>): JobState {
    if |h| > 0 then StateFromEvent(h[|h| - 1].eventType) else NoState
  }

  function PreviousFromHistory(h: seq<HistoryEvent>): JobState {
    if |h| > 1 then StateFromEvent(h[|h| - 2].eventType) else NoState
  }

  function CountEvents(h: seq<HistoryEvent>, e: EventType): nat {
    if h == [] then 0
    else CountEvents(h[..|h| - 1], e) + if h[|h| - 1].eventType == e then 1 else 0
  }

  /** What a client chooses when it creates a job. */
  datatype JobSpec = JobSpec(
    topic: Topic, priority: Priority, lockResources: seq<Resource>, startAfter: int, visibilityTimeout: nat)

  /** The value of a job at one moment; the service, its index and the backend agree on it. */
  datatype JobValue = JobValue(
    id: JobId,
    spec: JobSpec,
    history: seq<HistoryEvent>,
    state: JobState,
    previousState: JobState)
  {
    /** AddHistoryEvent appends the event and derives the state from it. */
    function AddEvent(e: EventType, timestamp: int): JobValue {
      this.(history := history + [HistoryEvent(e, timestamp)],
            previousState := state,
            state := StateFromEvent(e))
    }

    /** The first event is the creation; the source panics on an empty history, which
        no job of a reachable state has. */
    function Created(): int {
      if |history| > 0 then history[0].timestamp else 0
    }

    function LastUpdate(): int {
      if |history| > 0 then history[|history| - 1].timestamp else 0
    }

    predicate IsCompleted() {
      state == IsSucceeded || state == IsCanceled || state == IsFailed
    }

    function Failures(): nat {
      CountEvents(history, Fail)
    }

    /** SetStateFromHistory: what a loaded job is. */
    function Reloaded(): JobValue {
      this.(state := StateFromHistory(history), previousState := PreviousFromHistory(history))
    }
  }

  /** What reading stored jobs gives: their states are computed from their histories. */
  function Reload(stored: map<JobId, JobValue>): map<JobId, JobValue> {
    map id | id in stored :: stored[id].Reloaded()
  }

  function NewJob(id: JobId, spec: JobSpec, now: int): JobValue {
    JobValue(id, spec, [], NoState, NoState).AddEvent(Create, now)
  }

  /** The times of the first and of the last event of a job that has some. */
  ghost function CreatedAt(j: JobValue): int
    requires j.history != []
  {
    j.history[0].timestamp
  }

  ghost function UpdatedAt(j: JobValue): int
    requires j.history != []
  {
    j.history[|j.history| - 1].timestamp
  }

  // ---------- the automaton ----------

  /** Which event the scheduler may record after which. */
  predicate MayFollow(last: EventType, next: EventType) {
    match last
    case Create => next == Delay || next == Pending
    case Delay => next == Pending
    case Pending => next == Enqueue
    case Enqueue => next == Start
    case Start => next == Success || next == Cancel || next == Fail
    case Cancel => next == Enqueue
    case Fail => next == Enqueue || next == Hide || next == Terminate
    case Hide => next == Enqueue
    case _ => false
  }

  /** A history the scheduler can write. */
  ghost predicate Word(h: seq<HistoryEvent>) {
    && |h| > 0
    && h[0].eventType == Create
    && forall i :: 0 < i < |h| ==> MayFollow(h[i - 1].eventType, h[i].eventType)
  }

  /** The job became pending only when its start time was reached, if it has one. */
  ghost predicate Timely(j: JobValue) {
    forall i :: 0 <= i < |j.history| && j.history[i].eventType == Pending ==>
      j.spec.startAfter == 0 || j.spec.startAfter <= j.history[i].timestamp
  }

  /** The last event of a job that no operation is in the middle of changing. */
  predicate RestingEvent(e: EventType) {
    e in {Delay, Pending, Enqueue, Start, Success, Hide, Terminate}
  }

  function FailureLimit(maxRetry: nat): nat {
    if maxRetry > 1 then maxRetry else 1
  }

  /** A job between two operations: its history is a word that may be left there, its states
      are those of its history, and it is terminated exactly when its failures are used up. */
  ghost predicate Resting(maxRetry: nat, j: JobValue) {
    && Word(j.history) && Timely(j)
    && RestingEvent(Last(j))
    && j.state == StateFromHistory(j.history)
    && j.previousState == PreviousFromHistory(j.history)
    && j.Failures() <= FailureLimit(maxRetry)
    && (j.state == IsFailed <==> j.Failures() == FailureLimit(maxRetry))
  }

  ghost function Last(j: JobValue): EventType
    requires |j.history| > 0
  {
    j.history[|j.history| - 1].eventType
  }

  lemma CountAppend(h: seq<HistoryEvent>, x: HistoryEvent, e: EventType)
    ensures CountEvents(h + [x], e) == CountEvents(h, e) + if x.eventType == e then 1 else 0
  {
    assert (h + [x])[..|h|] == h;
  }

  /** The states of the job are those of its history, which is a word without early events. */
  ghost predicate Wordy(j: JobValue) {
    && Word(j.history) && Timely(j)
    && j.state == StateFromHistory(j.history)
    && j.previousState == PreviousFromHistory(j.history)
  }

  lemma AddEventKeepsWord(j: JobValue, e: EventType, now: int)
    requires Wordy(j) && MayFollow(Last(j), e)
    requires e == Pending ==> j.spec.startAfter == 0 || j.spec.startAfter <= now
    ensures Wordy(j.AddEvent(e, now)) && Last(j.AddEvent(e, now)) == e
    ensures j.AddEvent(e, now).Failures() == j.Failures() + if e == Fail then 1 else 0
  {
    CountAppend(j.history, HistoryEvent(e, now), Fail);
  }

  /** A job may be left after a resting event, terminated if and only if its failures are used up. */
  lemma RestAfter(maxRetry: nat, j: JobValue, e: EventType, now: int)
    requires Wordy(j) && MayFollow(Last(j), e) && RestingEvent(e)
    requires e == Pending ==> j.spec.startAfter == 0 || j.spec.startAfter <= now
    requires if e == Terminate then j.Failures() == FailureLimit(maxRetry) else j.Failures() < FailureLimit(maxRetry)
    ensures Resting(maxRetry, j.AddEvent(e, now))
  {
    AddEventKeepsWord(j, e, now);
  }

  /** Loading a job left at rest gives the job back. */
  lemma ReloadedAtRest(maxRetry: nat, j: JobValue)
    requires Resting(maxRetry, j)
    ensures j.Reloaded() == j
  {
  }

  /** Every start is closed by exactly one outcome, except the current one of a running job. */
  lemma {:induction false} StartsAreAccounted(h: seq<HistoryEvent>)
    requires Word(h)
    ensures CountEvents(h, Start) ==
              CountEvents(h, Fail) + CountEvents(h, Cancel) + CountEvents(h, Success)
              + if h[|h| - 1].eventType == Start then 1 else 0
    decreases |h|
  {
    if |h| > 1 {
      var p := h[..|h| - 1];
      StartsAreAccounted(p);
      assert MayFollow(h[|h| - 2].eventType, h[|h| - 1].eventType);
    } else {
      assert h[..0] == [];
    }
  }

  /** Between two starts the job was queued again. */
  lemma {:induction false} StartsAreSeparated(h: seq<HistoryEvent>, i: nat, j: nat)
    requires Word(h) && i < j < |h|
    requires h[i].eventType == Start && h[j].eventType == Start
    ensures i < j - 1 && h[j - 1].eventType == Enqueue
  {
    assert MayFollow(h[j - 1].eventType, h[j].eventType);
  }

  /** Success and termination are the end of a history. */
  lemma {:induction false} FinalEventsAreLast(h: seq<HistoryEvent>, i: nat)
    requires Word(h) && i < |h| - 1
    ensures h[i].eventType != Success && h[i].eventType != Terminate
  {
    assert MayFollow(h[i].eventType, h[i + 1].eventType);
  }

  // ---------- the job object ----------

  /** A job held by the service; only its history, its states and its visibility timeout change. */
  class Job {
    const id: JobId
    const topic: Topic
    const priority: Priority
    const lockResources: seq<Resource>
    const startAfter: int
    var visibilityTimeout: nat
    var history: seq<HistoryEvent>
    var state: JobState
    var previousState: JobState

    function Value(): JobValue
      reads this
    {
      JobValue(id, JobSpec(topic, priority, lockResources, startAfter, visibilityTimeout),
               history, state, previousState)
    }

    /** Init: a new job has one event, its creation. */
    constructor (id: JobId, spec: JobSpec, creationDate: int)
      ensures Value() == NewJob(id, spec, creationDate)
    {
      this.id := id;
      topic, priority, lockResources := spec.topic, spec.priority, spec.lockResources;
      startAfter, visibilityTimeout := spec.startAfter, spec.visibilityTimeout;
      state, previousState := NoState, NoState;
      history := [];
      new;
      AddHistoryEvent(Create, creationDate);
    }

    method AddHistoryEvent(e: EventType, timestamp: int)
      modifies this`history, this`state, this`previousState
      ensures Value() == old(Value()).AddEvent(e, timestamp)
    {
      history := history + [HistoryEvent(e, timestamp)];
      previousState := state;
      state := StateFromEvent(e);
    }

    /** SetStateFromHistory rebuilds the states from the list of the states of the events. */
    method SetStateFromHistory()
      modifies this`state, this`previousState
      ensures Value() == old(Value()).Reloaded()
    {
      state := NoState;
      var states := GetHistoryStates();
      if |states| > 0 {
        state := states[|states| - 1];
      }
      previousState := NoState;
      if |states| > 1 {
        previousState := states[|states| - 2];
      }
    }

    method GetHistoryStates() returns (states: seq<JobState>)
      ensures |states| == |history|
      ensures forall i :: 0 <= i < |states| ==> states[i] == StateFromEvent(history[i].eventType)
    {
      states := [];
      for i := 0 to |history|
        invariant |states| == i
        invariant forall k :: 0 <= k < i ==> states[k] == StateFromEvent(history[k].eventType)
      {
        states := states + [StateFromEvent(history[i].eventType)];
      }
    }

    method GetCountFailures() returns (count: nat)
      ensures count == Value().Failures()
    {
      count := CountFailures(history);
    }
  }

  /** GetCountFaillures on a history. */
  method CountFailures(history: seq<HistoryEvent>) returns (count: nat)
    ensures count == CountEvents(history, Fail)
  {
    count := 0;
    for i := 0 to |history|
      invariant count == CountEvents(history[..i], Fail)
    {
      assert history[..i + 1][..i] == history[..i];
      if history[i].eventType == Fail {
        count := count + 1;
      }
    }
    assert history[..|history|] == history;
  }
}
