/** The counters of one topic, a field a state, changed in place (JobMetrics and TopicMetrics in
    metrics/servicemetrics.go). */
module TopicCounters {
  import opened Jobs
  import opened Metrics

  class JobMetrics {
    var resourcesLockedCount: nat
    var jobsCounterDeleted: nat
    var jobsExisting: nat
    var created: nat
    var delayed: nat
    var pending: nat
    var queued: nat
    var running: nat
    var succeeded: nat
    var failed: nat
    var hidden: nat
    var canceled: nat
    var totalJobs: nat
    var activeJobs: nat

    /** The fields hold the counters `c`. */
    ghost predicate Shows(c: Counters)
      reads this
    {
      Rest() == c.(status := map[]) && forall s :: Tracked(s) ==> CountOf(s) == Status(c, s)
    }

    /** The field of a state. */
    ghost function CountOf(s: JobState): nat
      reads this
    {
      match s
      case IsCreated => created
      case IsDelayed => delayed
      case IsPending => pending
      case IsQueued => queued
      case IsRunning => running
      case IsSucceeded => succeeded
      case IsFailed => failed
      case IsHidden => hidden
      case IsCanceled => canceled
      case IsDeleted => 0
      case NoState => 0
    }

    /** What the counters of the states do not say. */
    ghost function Rest(): Counters
      reads this
    {
      Counters(resourcesLockedCount, jobsCounterDeleted, jobsExisting, map[], totalJobs, activeJobs)
    }

    constructor ()
      ensures Shows(ZERO)
    {
      resourcesLockedCount, jobsCounterDeleted, jobsExisting, totalJobs, activeJobs := 0, 0, 0, 0, 0;
      created, delayed, pending, queued, running := 0, 0, 0, 0, 0;
      succeeded, failed, hidden, canceled := 0, 0, 0, 0;
    }

    /** The first switch of OnJobStateChange. */
    method Leave(previous: JobState)
      modifies this
      ensures forall s :: Tracked(s) ==> CountOf(s) == if s == previous then Decrement(old(CountOf(s))) else old(CountOf(s))
      ensures Rest() == if previous == IsDeleted then old(Rest()).(deleted := Decrement(old(jobsCounterDeleted)))
                        else old(Rest())
    {
      match previous {
        case IsCreated => created := Decrement(created);
        case IsDelayed => delayed := Decrement(delayed);
        case IsPending => pending := Decrement(pending);
        case IsQueued => queued := Decrement(queued);
        case IsRunning => running := Decrement(running);
        case IsSucceeded => succeeded := Decrement(succeeded);
        case IsFailed => failed := Decrement(failed);
        case IsHidden => hidden := Decrement(hidden);
        case IsDeleted => jobsCounterDeleted := Decrement(jobsCounterDeleted);
        case IsCanceled => canceled := Decrement(canceled);
        case NoState =>
      }
    }

    /** The second switch of OnJobStateChange. */
    method Enter(next: JobState)
      modifies this
      ensures forall s :: Tracked(s) ==> CountOf(s) == old(CountOf(s)) + if s == next then 1 else 0
      ensures Rest() == if next == IsDeleted
                        then old(Rest()).(existing := Decrement(old(jobsExisting)), deleted := old(jobsCounterDeleted) + 1)
                        else old(Rest()).(existing := old(jobsExisting) + if next == IsCreated then 1 else 0)
    {
      match next {
        case IsCreated =>
          jobsExisting := jobsExisting + 1;
          created := created + 1;
        case IsDelayed => delayed := delayed + 1;
        case IsPending => pending := pending + 1;
        case IsQueued => queued := queued + 1;
        case IsRunning => running := running + 1;
        case IsSucceeded => succeeded := succeeded + 1;
        case IsFailed => failed := failed + 1;
        case IsHidden => hidden := hidden + 1;
        case IsCanceled => canceled := canceled + 1;
        case IsDeleted =>
          jobsExisting := Decrement(jobsExisting);
          jobsCounterDeleted := jobsCounterDeleted + 1;
        case NoState =>
      }
    }

    method LeaveState(previous: JobState, ghost c: Counters)
      requires Shows(c)
      modifies this
      ensures Shows(Left(c, previous))
    {
      hide CountOf;
      Leave(previous);
    }

    method EnterState(next: JobState, ghost c: Counters)
      requires Shows(c)
      modifies this
      ensures Shows(Entered(c, next))
    {
      hide CountOf;
      Enter(next);
    }

    method OnJobStateChange(previous: JobState, next: JobState, ghost c: Counters)
      requires Shows(c)
      modifies this
      ensures Shows(StateChanged(c, previous, next))
    {
      if previous == next {
        return;
      }
      hide Shows, Left, Entered;
      LeaveState(previous, c);
      EnterState(next, Left(c, previous));
    }

    /** The job counts of UpdateTopicMetrics. */
    method UpdateTopicMetrics(previous: JobState, next: JobState, ghost c: Counters)
      requires Shows(c)
      modifies this
      ensures Shows(TopicChanged(c, previous, next))
    {
      if IsActive(previous) {
        activeJobs := Decrement(activeJobs);
      }
      match next {
        case IsPending => activeJobs := activeJobs + 1;
        case IsQueued => activeJobs := activeJobs + 1;
        case IsRunning => activeJobs := activeJobs + 1;
        case IsCreated => totalJobs := totalJobs + 1;
        case IsDeleted => totalJobs := Decrement(totalJobs);
        case _ =>
      }
    }

    /** UpdateMetricsFromJobHistory: the states of a loaded history, one after the other. */
    method UpdateFromHistory(j: JobValue, ghost c: Counters)
      requires Shows(c)
      modifies this
      ensures Shows(LoadedOnce(c, j))
    {
      Replay(j.history, c);
      CountLoaded(j.state, Replayed(c, j.history));
    }

    /** A loaded job counts in the topic statistics like a created one. */
    method CountLoaded(state: JobState, ghost c: Counters)
      requires Shows(c)
      modifies this
      ensures Shows(c.(total := c.total + 1, active := c.active + if IsActive(state) then 1 else 0))
    {
      totalJobs := totalJobs + 1;
      match state {
        case IsPending => activeJobs := activeJobs + 1;
        case IsQueued => activeJobs := activeJobs + 1;
        case IsRunning => activeJobs := activeJobs + 1;
        case _ =>
      }
    }

    method Replay(h: seq<HistoryEvent>, ghost c: Counters)
      requires Shows(c)
      modifies this
      ensures Shows(Replayed(c, h))
    {
      hide StateChanged, Shows;
      var previous := NoState;
      for i := 0 to |h|
        invariant Shows(Replayed(c, h[..i])) && previous == StateFromHistory(h[..i])
      {
        ghost var p := h[..i + 1];
        assert p[..i] == h[..i];
        var next := StateFromEvent(h[i].eventType);
        OnJobStateChange(previous, next, Replayed(c, h[..i]));
        previous := next;
      }
      assert h[..|h|] == h;
    }

    /** updateResourcesLockedCount. */
    method UpdateResourcesLockedCount(inc: int, ghost c: Counters)
      requires Shows(c)
      modifies this
      ensures Shows(LocksAdded(c, inc))
    {
      if inc < 0 {
        if -inc >= resourcesLockedCount {
          resourcesLockedCount := 0;
        } else {
          resourcesLockedCount := resourcesLockedCount - (-inc);
        }
      } else {
        resourcesLockedCount := resourcesLockedCount + inc;
      }
    }

    method UnlockAll(ghost c: Counters)
      requires Shows(c)
      modifies this
      ensures Shows(c.(resourcesLocked := 0))
    {
      resourcesLockedCount := 0;
    }

    method ClearStates()
      modifies this
      ensures forall s :: Tracked(s) ==> CountOf(s) == 0
    {
      created, delayed, pending, queued, running := 0, 0, 0, 0, 0;
      succeeded, failed, hidden, canceled := 0, 0, 0, 0;
    }

    method Clear()
      modifies this
      ensures Shows(ZERO)
    {
      ClearStates();
      resourcesLockedCount, jobsCounterDeleted, jobsExisting, totalJobs, activeJobs := 0, 0, 0, 0, 0;
    }

    /** OnDeleteAllJobs: what existed counts as deleted. */
    method ClearAll(ghost c: Counters)
      requires Shows(c)
      modifies this
      ensures Shows(ZERO.(deleted := c.deleted + c.existing))
    {
      var numberOfDeletedJobs := jobsCounterDeleted + jobsExisting;
      Clear();
      jobsCounterDeleted := numberOfDeletedJobs;
    }
  }

  /** The counters of the service, an object for each topic. */
  class ServiceMetrics {
    var byTopic: map<Topic, JobMetrics>
    /** The counters that the objects show. */
    ghost var table: Table

    ghost function Footprint(): set<object>
      reads this
    {
      {this} + (set m | m in byTopic.Values :: m as object)
    }

    /** Each topic has its own object, which shows its counters. */
    ghost predicate ShowTable(m: Table)
      reads `byTopic, byTopic.Values
    {
      && byTopic.Keys == m.Keys
      && (forall t :: t in byTopic ==> byTopic[t].Shows(m[t]))
      && (forall t, u :: t in byTopic && u in byTopic && t != u ==> byTopic[t] != byTopic[u])
    }

    ghost predicate Valid()
      reads Footprint()
    {
      this in Footprint() && ShowTable(table)
    }

    constructor ()
      ensures Valid() && table == map[] && fresh(Footprint())
    {
      byTopic, table := map[], map[];
    }

    lemma FootprintIsAllocated()
      ensures forall o :: o in Footprint() ==> allocated(o)
    {
    }

    lemma FootprintHasCounters()
      ensures forall o :: o in Footprint() ==> o is ServiceMetrics || o is JobMetrics
    {
    }

    /** The object of one topic changed, the others did not. */
    twostate lemma OneTopicShows(c: (Topic, Counters))
      requires old(Valid()) && byTopic == old(byTopic) && table == old(table) && c.0 in byTopic
      requires byTopic[c.0].Shows(c.1)
      requires forall m :: m in byTopic.Values && m != byTopic[c.0] ==> unchanged(m)
      ensures ShowTable(table[c.0 := c.1])
    {
      hide JobMetrics.Shows;
      forall t | t in byTopic && t != c.0 ensures byTopic[t].Shows(table[t]) {
        assert byTopic[t] in byTopic.Values && unchanged(byTopic[t]);
      }
    }

    /** EnsureTopicExists: a topic seen for the first time is registered. */
    method EnsureTopicExists(topic: Topic)
      requires Valid()
      modifies this
      ensures Valid() && topic in byTopic && table == old(table)[topic := At(old(table), topic)]
      ensures forall o :: o in Footprint() ==> o in old(Footprint()) || fresh(o)
    {
      hide JobMetrics.Shows;
      if topic !in byTopic {
        var m := new JobMetrics();
        byTopic := byTopic[topic := m];
        table := table[topic := ZERO];
        forall o | o in Footprint() ensures o in old(Footprint()) || fresh(o) {
          if o != this {
            var t :| t in byTopic && byTopic[t] == o;
            assert t != topic ==> old(byTopic)[t] in old(byTopic).Values;
          }
        }
      }
    }

    /** OnJobStateChange and UpdateTopicMetrics for a registered topic. */
    method ChangeTopic(topic: Topic, previous: JobState, next: JobState)
      requires Valid() && topic in byTopic
      modifies `table, byTopic[topic]
      ensures Valid() && byTopic == old(byTopic)
      ensures table == old(table)[topic := TopicChanged(StateChanged(old(table)[topic], previous, next), previous, next)]
    {
      hide JobMetrics.Shows, StateChanged, TopicChanged;
      ghost var c := table[topic];
      byTopic[topic].OnJobStateChange(previous, next, c);
      byTopic[topic].UpdateTopicMetrics(previous, next, StateChanged(c, previous, next));
      ghost var d := TopicChanged(StateChanged(c, previous, next), previous, next);
      OneTopicShows((topic, d));
      hide ShowTable;
      table := table[topic := d];
    }

    /** The observer is told of an event of a job. */
    method NotifyJobEvent(topic: Topic, previous: JobState, next: JobState)
      requires Valid()
      modifies Footprint()
      ensures Valid() && table == Notified(old(table), topic, previous, next)
      ensures forall o :: o in Footprint() ==> o in old(Footprint()) || fresh(o)
    {
      hide ShowTable, StateChanged, TopicChanged;
      EnsureTopicExists(topic);
      assert byTopic[topic] in byTopic.Values;
      ChangeTopic(topic, previous, next);
    }

    /** UpdateMetricsFromJobHistory for a registered topic. */
    method ReplayTopic(j: JobValue)
      requires Valid() && j.spec.topic in byTopic
      modifies `table, byTopic[j.spec.topic]
      ensures Valid() && byTopic == old(byTopic)
      ensures table == old(table)[j.spec.topic := LoadedOnce(old(table)[j.spec.topic], j)]
    {
      hide JobMetrics.Shows, LoadedOnce;
      var topic := j.spec.topic;
      ghost var d := LoadedOnce(table[topic], j);
      byTopic[topic].UpdateFromHistory(j, table[topic]);
      OneTopicShows((topic, d));
      hide ShowTable;
      table := table[topic := d];
    }

    method UpdateMetricsFromJobHistory(j: JobValue)
      requires Valid()
      modifies Footprint()
      ensures Valid() && table == old(table)[j.spec.topic := LoadedOnce(At(old(table), j.spec.topic), j)]
      ensures forall o :: o in Footprint() ==> o in old(Footprint()) || fresh(o)
    {
      hide ShowTable, LoadedOnce;
      EnsureTopicExists(j.spec.topic);
      assert byTopic[j.spec.topic] in byTopic.Values;
      ReplayTopic(j);
    }

    method CountLocks(topic: Topic, inc: int)
      requires Valid() && topic in byTopic
      modifies `table, byTopic[topic]
      ensures Valid() && byTopic == old(byTopic) && table == old(table)[topic := LocksAdded(old(table)[topic], inc)]
    {
      hide JobMetrics.Shows, LocksAdded;
      ghost var d := LocksAdded(table[topic], inc);
      byTopic[topic].UpdateResourcesLockedCount(inc, table[topic]);
      OneTopicShows((topic, d));
      hide ShowTable;
      table := table[topic := d];
    }

    method UpdateResourcesLockedCount(topic: Topic, inc: int)
      requires Valid()
      modifies Footprint()
      ensures Valid() && table == LocksNotified(old(table), topic, inc)
      ensures forall o :: o in Footprint() ==> o in old(Footprint()) || fresh(o)
    {
      hide ShowTable, LocksAdded;
      EnsureTopicExists(topic);
      assert byTopic[topic] in byTopic.Values;
      CountLocks(topic, inc);
    }

    method UnlockTopic(topic: Topic)
      requires Valid() && topic in byTopic
      modifies `table, byTopic[topic]
      ensures Valid() && byTopic == old(byTopic) && table == old(table)[topic := old(table)[topic].(resourcesLocked := 0)]
    {
      hide JobMetrics.Shows;
      ghost var d := table[topic].(resourcesLocked := 0);
      byTopic[topic].UnlockAll(table[topic]);
      OneTopicShows((topic, d));
      hide ShowTable;
      table := table[topic := d];
    }

    method OnUnlockAllResources()
      requires Valid()
      modifies Footprint()
      ensures Valid() && table == AllUnlocked(old(table)) && Footprint() == old(Footprint())
    {
      hide ShowTable, UnlockedBut, AllUnlocked;
      var left := byTopic.Keys;
      KeysShown();
      UnlockedSoFar(table, left);
      while left != {}
        invariant left <= byTopic.Keys && Valid() && byTopic == old(byTopic)
        invariant table == UnlockedBut(old(table), left) && old(table).Keys == byTopic.Keys
        decreases left
      {
        var t :| t in left;
        assert byTopic[t] in byTopic.Values;
        UnlockedSoFar(old(table), left);
        UnlockTopic(t);
        left := left - {t};
      }
      UnlockedSoFar(old(table), {});
    }

    method ClearTopic(topic: Topic)
      requires Valid() && topic in byTopic
      modifies `table, byTopic[topic]
      ensures Valid() && byTopic == old(byTopic)
      ensures var c := old(table)[topic]; table == old(table)[topic := ZERO.(deleted := c.deleted + c.existing)]
    {
      hide JobMetrics.Shows;
      ghost var d := ZERO.(deleted := table[topic].deleted + table[topic].existing);
      byTopic[topic].ClearAll(table[topic]);
      OneTopicShows((topic, d));
      hide ShowTable;
      table := table[topic := d];
    }

    method OnDeleteAllJobs()
      requires Valid()
      modifies Footprint()
      ensures Valid() && table == Cleared(old(table)) && Footprint() == old(Footprint())
    {
      hide ShowTable, ClearedBut, Cleared;
      var left := byTopic.Keys;
      KeysShown();
      ClearedSoFar(table, left);
      while left != {}
        invariant left <= byTopic.Keys && Valid() && byTopic == old(byTopic)
        invariant table == ClearedBut(old(table), left) && old(table).Keys == byTopic.Keys
        decreases left
      {
        var t :| t in left;
        assert byTopic[t] in byTopic.Values;
        ClearedSoFar(old(table), left);
        ClearTopic(t);
        left := left - {t};
      }
      ClearedSoFar(old(table), {});
    }

    lemma KeysShown()
      requires Valid()
      ensures byTopic.Keys == table.Keys
    {
    }
  }

  // ---------- the loops over the topics ----------

  /** The counters when the locks of all topics but those of a set were cleared. */
  ghost function UnlockedBut(m: Table, left: set<Topic>): Table {
    map t | t in m :: if t in left then m[t] else m[t].(resourcesLocked := 0)
  }

  lemma UnlockedSoFar(m: Table, left: set<Topic>)
    ensures left == m.Keys ==> UnlockedBut(m, left) == m
    ensures left == {} ==> UnlockedBut(m, left) == AllUnlocked(m)
    ensures forall t :: t in left && t in m ==>
              && t in UnlockedBut(m, left) && UnlockedBut(m, left)[t] == m[t]
              && UnlockedBut(m, left - {t}) == UnlockedBut(m, left)[t := m[t].(resourcesLocked := 0)]
  {
  }

  /** The counters when all topics but those of a set were cleared. */
  ghost function ClearedBut(m: Table, left: set<Topic>): Table {
    map t | t in m :: if t in left then m[t] else ZERO.(deleted := m[t].deleted + m[t].existing)
  }

  lemma ClearedSoFar(m: Table, left: set<Topic>)
    ensures left == m.Keys ==> ClearedBut(m, left) == m
    ensures left == {} ==> ClearedBut(m, left) == Cleared(m)
    ensures forall t :: t in left && t in m ==>
              && t in ClearedBut(m, left) && ClearedBut(m, left)[t] == m[t]
              && ClearedBut(m, left - {t}) == ClearedBut(m, left)[t := ZERO.(deleted := m[t].deleted + m[t].existing)]
  {
  }
}
