/** The service: its maps, queues, lock table and index, changed in place by the operations
    (service/service.go). Each operation is proved to be a step of the scheduler. */
module JobService {
  import opened Jobs
  import opened Ordering
  import opened PullOrder
  import opened PriorityQueues
  import opened Resources
  import opened Metrics
  import opened TopicCounters
  import opened QueueIndex
  import Invariants
  import opened InMemoryProvider
  import Restart
  import Scheduler

  /** Stored jobs are found under their ids and have histories. */
  ghost predicate Loadable(stored: map<JobId, JobValue>) {
    forall id :: id in stored ==> stored[id].history != [] && stored[id].id == id
  }

  class Service {
    const cfg: Scheduler.Config
    const bp: Provider                     // the backend, which keeps a copy of every job
    const resourcesManager: ResourcesManager
    const metrics: ServiceMetrics
    const pqRetryJobs: PriorityQueue<JobId>
    const pqDelayedJobs: PriorityQueue<JobId>
    var jobs: map<JobId, JobValue>
    var pendingJobs: set<JobId>
    var queuedJobs: QueuedJobs
    var wake: nat                          // how often the channel of the long polls was replaced
    /** The ids of the jobs in the index. */
    ghost var queuedIds: set<JobId>

    /** The scheduler state the objects stand for. */
    ghost function St(): Scheduler.State
      reads this, resourcesManager, bp, metrics, pqRetryJobs, pqDelayedJobs
    {
      Scheduler.State(jobs, pendingJobs, queuedIds, pqRetryJobs.Contents(), pqDelayedJobs.Contents(),
                      resourcesManager.lockedResources, wake, bp.jobs, metrics.table)
    }

    /** The objects of the service. */
    ghost function Repr(): set<object>
      reads this, queuedJobs, metrics, pqRetryJobs, pqDelayedJobs
    {
      {this, resourcesManager, bp} + metrics.Footprint() + queuedJobs.Footprint()
      + pqRetryJobs.Footprint() + pqDelayedJobs.Footprint()
    }

    /** No object belongs to two of them. */
    ghost predicate Apart()
      reads this, queuedJobs, metrics, pqRetryJobs, pqDelayedJobs
    {
      && {this, resourcesManager, bp} !! queuedJobs.Footprint() && {this, resourcesManager, bp} !! metrics.Footprint()
      && {this, resourcesManager, bp} !! pqRetryJobs.Footprint() && {this, resourcesManager, bp} !! pqDelayedJobs.Footprint()
      && metrics.Footprint() !! queuedJobs.Footprint() && metrics.Footprint() !! pqRetryJobs.Footprint()
      && metrics.Footprint() !! pqDelayedJobs.Footprint() && queuedJobs.Footprint() !! pqRetryJobs.Footprint()
      && queuedJobs.Footprint() !! pqDelayedJobs.Footprint() && pqRetryJobs.Footprint() !! pqDelayedJobs.Footprint()
    }

    /** The objects of the parts exist. */
    lemma PartsAreAllocated()
      ensures forall o :: o in queuedJobs.Footprint() ==> allocated(o)
      ensures forall o :: o in metrics.Footprint() ==> allocated(o)
      ensures forall o :: o in pqRetryJobs.Footprint() ==> allocated(o)
      ensures forall o :: o in pqDelayedJobs.Footprint() ==> allocated(o)
    {
      queuedJobs.FootprintIsAllocated();
      metrics.FootprintIsAllocated();
      pqRetryJobs.FootprintIsAllocated();
      pqDelayedJobs.FootprintIsAllocated();
    }

    /** The index holds the tickets of its jobs, which are queued; every job has its id and a history. */
    ghost predicate Valid()
      reads Repr()
    {
      && Apart() && metrics.Valid() && pqRetryJobs.Valid() && pqDelayedJobs.Valid()
      && bp.Valid() && bp.maxJobs == cfg.backendMaxJobs && !bp.restoreFlag
      && queuedJobs.Valid() && queuedIds <= jobs.Keys
      && queuedJobs.Contents() == TicketsOf(jobs, queuedIds)
      && (forall id :: id in jobs ==> jobs[id].history != [] && jobs[id].id == id)
      && (forall id :: id in queuedIds ==> jobs[id].state == IsQueued)
    }

    constructor (
      cfg: Scheduler.Config, bp: Provider, resourcesManager: ResourcesManager, metrics: ServiceMetrics,
      pqRetryJobs: PriorityQueue<JobId>, pqDelayedJobs: PriorityQueue<JobId>, queuedJobs: QueuedJobs)
      requires bp.Valid() && bp.maxJobs == cfg.backendMaxJobs && !bp.restoreFlag && bp.jobs == map[]
      requires resourcesManager.lockedResources == map[] && metrics.Valid() && metrics.table == map[]
      requires pqRetryJobs.Valid() && pqRetryJobs.Contents() == [] && pqDelayedJobs.Valid() && pqDelayedJobs.Contents() == []
      requires queuedJobs.Valid() && queuedJobs.Contents() == {}
      requires metrics.Footprint() !! queuedJobs.Footprint() && metrics.Footprint() !! pqRetryJobs.Footprint()
      requires metrics.Footprint() !! pqDelayedJobs.Footprint() && queuedJobs.Footprint() !! pqRetryJobs.Footprint()
      requires queuedJobs.Footprint() !! pqDelayedJobs.Footprint() && pqRetryJobs.Footprint() !! pqDelayedJobs.Footprint()
      ensures Valid() && St() == Scheduler.EMPTY && this.cfg == cfg && this.bp == bp
      ensures Repr() == {this, resourcesManager, bp} + metrics.Footprint() + queuedJobs.Footprint()
                        + pqRetryJobs.Footprint() + pqDelayedJobs.Footprint()
    {
      hide QueuedJobs.AllIndex, QueuedJobs.TopicIndex, QueuedJobs.Contents, QueuedJobs.Footprint,
        ServiceMetrics.ShowTable, ServiceMetrics.Footprint, PriorityQueue.Linked, PriorityQueue.Footprint,
        PriorityQueue.Contents, TicketsOf;
      this.cfg, this.bp, this.resourcesManager := cfg, bp, resourcesManager;
      this.metrics, this.pqRetryJobs, this.pqDelayedJobs := metrics, pqRetryJobs, pqDelayedJobs;
      this.queuedJobs := queuedJobs;
      jobs, pendingJobs, wake, queuedIds := map[], {}, 0, {};
      new;
      metrics.FootprintHasCounters();
      queuedJobs.FootprintHasIndex();
      pqRetryJobs.FootprintHasNodes();
      pqDelayedJobs.FootprintHasNodes();
      NoTickets();
    }

    // ---------- the parts ----------

    /** The index takes in the ticket of a job. */
    method IndexAdd(id: JobId)
      requires Valid() && id in jobs && jobs[id].state == IsQueued
      modifies Repr()
      ensures Valid() && forall o :: o in Repr() ==> o in old(Repr()) || fresh(o)
      ensures St() == old(St()).(queued := old(queuedIds) + {id})
    {
      hide QueuedJobs.AllIndex, QueuedJobs.TopicIndex, QueuedJobs.Contents, QueuedJobs.Footprint,
        ServiceMetrics.ShowTable, ServiceMetrics.Footprint, PriorityQueue.Linked, PriorityQueue.Footprint,
        PriorityQueue.Contents;
      PartsAreAllocated();
      var j := jobs[id];
      queuedJobs.Add(TicketOf(id, j));
      queuedIds := queuedIds + {id};
      TicketsWith(jobs, old(queuedIds), id);
      hide TicketsOf;
    }

    method IndexRemove(id: JobId)
      requires Valid()
      modifies Repr()
      ensures Valid() && forall o :: o in Repr() ==> o in old(Repr()) || fresh(o)
      ensures St() == old(St()).(queued := old(queuedIds) - {id})
    {
      hide QueuedJobs.AllIndex, QueuedJobs.TopicIndex, QueuedJobs.Contents, QueuedJobs.Footprint,
        ServiceMetrics.ShowTable, ServiceMetrics.Footprint, PriorityQueue.Linked, PriorityQueue.Footprint,
        PriorityQueue.Contents;
      PartsAreAllocated();
      queuedJobs.Remove(id);
      queuedIds := queuedIds - {id};
      TicketsWithout(jobs, old(queuedIds), id);
      hide TicketsOf;
    }

    /** A job changes; what the index knows of it does not. */
    method SetJob(id: JobId, j: JobValue)
      requires Valid() && j.history != [] && j.id == id
      requires id in queuedIds ==> j.state == IsQueued && TicketOf(id, j) == TicketOf(id, jobs[id])
      modifies Repr()
      ensures Valid() && forall o :: o in Repr() ==> o in old(Repr()) || fresh(o)
      ensures St() == old(St()).(jobs := old(jobs)[id := j])
    {
      hide QueuedJobs.AllIndex, QueuedJobs.TopicIndex, QueuedJobs.Contents, QueuedJobs.Footprint,
        ServiceMetrics.ShowTable, ServiceMetrics.Footprint, PriorityQueue.Linked, PriorityQueue.Footprint,
        PriorityQueue.Contents;
      TicketsKept(jobs, jobs[id := j], queuedIds);
      hide TicketsOf;
      jobs := jobs[id := j];
    }

    /** The index follows the state of a job that changes. */
    method ChangeJob(id: JobId, j: JobValue)
      requires Valid() && id in jobs && j.history != [] && j.id == id && TicketOf(id, j) == TicketOf(id, jobs[id])
      modifies Repr()
      ensures Valid() && forall o :: o in Repr() ==> o in old(Repr()) || fresh(o)
      ensures St() == old(St()).(
                jobs := old(jobs)[id := j],
                queued := var kept := if old(jobs)[id].state == IsQueued then old(queuedIds) - {id} else old(queuedIds);
                          if j.state == IsQueued then kept + {id} else kept)
    {
      hide QueuedJobs.AllIndex, QueuedJobs.TopicIndex, QueuedJobs.Contents, QueuedJobs.Footprint,
        ServiceMetrics.ShowTable, ServiceMetrics.Footprint, PriorityQueue.Linked, PriorityQueue.Footprint,
        PriorityQueue.Contents, TicketsOf, TicketOf;
      assert id in queuedIds ==> jobs[id].state == IsQueued;
      hide Valid, Repr, PriorityQueue.Contents;
      if jobs[id].state == IsQueued {
        IndexRemove(id);
      }
      SetJob(id, j);
      if jobs[id].state == IsQueued {
        IndexAdd(id);
      }
    }

    /** addHistoryEventLocked. */
    method AddHistoryEvent(id: JobId, e: EventType, now: int)
      requires Valid() && id in jobs
      modifies Repr()
      ensures Valid() && forall o :: o in Repr() ==> o in old(Repr()) || fresh(o)
      ensures jobs.Keys == old(jobs.Keys) && pendingJobs == old(pendingJobs)
      ensures jobs[id].state == StateFromEvent(e) && jobs[id].id == id && jobs[id] == old(jobs)[id].AddEvent(e, now)
      ensures forall k :: k in jobs && k != id ==> jobs[k] == old(jobs)[k]
      ensures St() == Scheduler.AddHistoryEvent(old(St()), id, e, now)
    {
      assert jobs[id].history != [] && jobs[id].id == id;
      hide Valid, Repr, PriorityQueue.Contents, TicketOf;
      var j := jobs[id].AddEvent(e, now);
      EventKeepsTicket(id, jobs[id], e, now);
      hide JobValue.AddEvent, StateFromEvent;
      ChangeJob(id, j);
    }

    // ---------- the observers ----------

    /** The metrics are told of an event of a job. */
    method CountEvent(topic: Topic, previous: JobState, next: JobState)
      requires Valid()
      modifies Repr()
      ensures Valid() && forall o :: o in Repr() ==> o in old(Repr()) || fresh(o)
      ensures St() == old(St()).(metrics := Notified(old(metrics.table), topic, previous, next))
    {
      hide QueuedJobs.AllIndex, QueuedJobs.TopicIndex, QueuedJobs.Contents, QueuedJobs.Footprint,
        ServiceMetrics.ShowTable, ServiceMetrics.Footprint, PriorityQueue.Linked, PriorityQueue.Footprint,
        PriorityQueue.Contents, TicketsOf, Notified;
      PartsAreAllocated();
      metrics.NotifyJobEvent(topic, previous, next);
    }

    /** Locks were taken, or given back. */
    method CountLocked(topic: Topic, inc: int)
      requires Valid()
      modifies Repr()
      ensures Valid() && forall o :: o in Repr() ==> o in old(Repr()) || fresh(o)
      ensures jobs == old(jobs) && pendingJobs == old(pendingJobs) && queuedIds == old(queuedIds)
      ensures St() == old(St()).(metrics := LocksNotified(old(metrics.table), topic, inc))
    {
      hide QueuedJobs.AllIndex, QueuedJobs.TopicIndex, QueuedJobs.Contents, QueuedJobs.Footprint,
        ServiceMetrics.ShowTable, ServiceMetrics.Footprint, PriorityQueue.Linked, PriorityQueue.Footprint,
        PriorityQueue.Contents, TicketsOf, LocksNotified;
      PartsAreAllocated();
      metrics.UpdateResourcesLockedCount(topic, inc);
    }

    /** A loaded job is counted; its topic is registered. */
    method CountLoaded(j: JobValue)
      requires Valid()
      modifies Repr()
      ensures Valid() && forall o :: o in Repr() ==> o in old(Repr()) || fresh(o)
      ensures St() == old(St()).(metrics := var m, t := old(metrics.table), j.spec.topic; m[t := LoadedOnce(At(m, t), j)])
    {
      hide QueuedJobs.AllIndex, QueuedJobs.TopicIndex, QueuedJobs.Contents, QueuedJobs.Footprint,
        ServiceMetrics.ShowTable, ServiceMetrics.Footprint, PriorityQueue.Linked, PriorityQueue.Footprint,
        PriorityQueue.Contents, TicketsOf, LoadedOnce;
      PartsAreAllocated();
      metrics.UpdateMetricsFromJobHistory(j);
    }

    /** No lock is counted any more. */
    method CountUnlocked()
      requires Valid()
      modifies Repr()
      ensures Valid() && forall o :: o in Repr() ==> o in old(Repr()) || fresh(o)
      ensures St() == old(St()).(metrics := AllUnlocked(old(metrics.table)))
    {
      hide QueuedJobs.AllIndex, QueuedJobs.TopicIndex, QueuedJobs.Contents, QueuedJobs.Footprint,
        ServiceMetrics.ShowTable, ServiceMetrics.Footprint, PriorityQueue.Linked, PriorityQueue.Footprint,
        PriorityQueue.Contents, TicketsOf, AllUnlocked;
      PartsAreAllocated();
      metrics.OnUnlockAllResources();
    }

    /** Every job is counted as deleted. */
    method CountDeletedAll()
      requires Valid()
      modifies Repr()
      ensures Valid() && forall o :: o in Repr() ==> o in old(Repr()) || fresh(o)
      ensures St() == old(St()).(metrics := Cleared(old(metrics.table)))
    {
      hide QueuedJobs.AllIndex, QueuedJobs.TopicIndex, QueuedJobs.Contents, QueuedJobs.Footprint,
        ServiceMetrics.ShowTable, ServiceMetrics.Footprint, PriorityQueue.Linked, PriorityQueue.Footprint,
        PriorityQueue.Contents, TicketsOf, Cleared;
      PartsAreAllocated();
      metrics.OnDeleteAllJobs();
    }

    /** The backend is told of an event of a job. */
    method StoreEvent(j: JobValue, e: EventType)
      requires Valid() && e != Retry
      modifies Repr()
      ensures Valid() && forall o :: o in Repr() ==> o in old(Repr()) || fresh(o)
      ensures jobs == old(jobs) && St() == old(St()).(saved := Mirrored(old(bp.jobs), j, e, cfg.backendMaxJobs))
    {
      hide QueuedJobs.AllIndex, QueuedJobs.TopicIndex, QueuedJobs.Contents, QueuedJobs.Footprint,
        ServiceMetrics.ShowTable, ServiceMetrics.Footprint, PriorityQueue.Linked, PriorityQueue.Footprint,
        PriorityQueue.Contents, TicketsOf, Provider.Tracked, Mirrored;
      bp.NotifyJobEvent(j, e);
    }

    /** The observers: the backend keeps a copy, the metrics count. */
    method NotifyJobEvent(id: JobId, e: EventType)
      requires Valid() && id in jobs && e != Create && e != Delete && e != Retry
      modifies Repr()
      ensures Valid() && forall o :: o in Repr() ==> o in old(Repr()) || fresh(o)
      ensures jobs == old(jobs) && St() == Scheduler.Notify(old(St()), id)
    {
      assert jobs[id].id == id;
      hide Valid, Repr, PriorityQueue.Contents, Notified;
      var j := jobs[id];
      StoreEvent(j, e);
      CountEvent(j.spec.topic, j.previousState, j.state);
    }

    /** notifyQueuedLocked. */
    method NotifyQueued()
      requires Valid()
      modifies Repr()
      ensures Valid() && forall o :: o in Repr() ==> o in old(Repr()) || fresh(o)
      ensures St() == Scheduler.WakePolls(old(St()))
    {
      hide QueuedJobs.AllIndex, QueuedJobs.TopicIndex, QueuedJobs.Contents, QueuedJobs.Footprint,
        ServiceMetrics.ShowTable, ServiceMetrics.Footprint, PriorityQueue.Linked, PriorityQueue.Footprint,
        PriorityQueue.Contents, TicketsOf;
      wake := wake + 1;
    }

    method LockResources(id: JobId) returns (ok: bool)
      requires Valid() && id in jobs
      modifies Repr()
      ensures Valid() && forall o :: o in Repr() ==> o in old(Repr()) || fresh(o)
      ensures ok == !Scheduler.JobBlocked(old(St()), id)
      ensures jobs == old(jobs) && pendingJobs == old(pendingJobs)
      ensures St() == if ok then Scheduler.LockFor(old(St()), id) else old(St())
    {
      hide QueuedJobs.AllIndex, QueuedJobs.TopicIndex, QueuedJobs.Contents, QueuedJobs.Footprint,
        ServiceMetrics.ShowTable, ServiceMetrics.Footprint, PriorityQueue.Linked, PriorityQueue.Footprint,
        PriorityQueue.Contents, TicketsOf;
      hide LocksNotified, Locked, Acquired, Blocked;
      var acquired;
      ok, acquired := resourcesManager.LockResources(id, jobs[id].spec.lockResources);
      if ok {
        CountLocked(jobs[id].spec.topic, acquired);
      }
    }

    method UnlockJobResources(id: JobId)
      requires Valid() && id in jobs
      modifies Repr()
      ensures Valid() && forall o :: o in Repr() ==> o in old(Repr()) || fresh(o)
      ensures jobs == old(jobs) && queuedIds == old(queuedIds) && St() == Scheduler.UnlockFor(old(St()), id)
    {
      hide QueuedJobs.AllIndex, QueuedJobs.TopicIndex, QueuedJobs.Contents, QueuedJobs.Footprint,
        ServiceMetrics.ShowTable, ServiceMetrics.Footprint, PriorityQueue.Linked, PriorityQueue.Footprint,
        PriorityQueue.Contents, TicketsOf, LocksNotified;
      var listed := jobs[id].spec.lockResources;
      var released := resourcesManager.UnlockResources(id, listed);
      if |released| == 0 {
        NothingReleased(old(resourcesManager.lockedResources), id, NamesIn(listed));
        return;
      }
      CountLocked(jobs[id].spec.topic, -|released|);
    }

    /** requiresLockedResources. */
    method RequiresLockedResources(id: JobId) returns (blocked: bool)
      requires id in jobs
      ensures blocked == Scheduler.JobBlocked(St(), id)
    {
      var listed := jobs[id].spec.lockResources;
      for i := 0 to |listed|
        invariant forall k :: 0 <= k < i ==>
          listed[k] in resourcesManager.lockedResources ==> resourcesManager.lockedResources[listed[k]] == id
      {
        if listed[i] in resourcesManager.lockedResources && resourcesManager.lockedResources[listed[i]] != id {
          return true;
        }
      }
      return false;
    }

    // ---------- admission ----------

    /** retryJobLocked. */
    method RetryJob(id: JobId, now: int) returns (ok: bool)
      requires Valid() && id in jobs
      modifies Repr()
      ensures Valid() && forall o :: o in Repr() ==> o in old(Repr()) || fresh(o)
      ensures ok == !Scheduler.JobBlocked(old(St()), id)
      ensures St() == if ok then Scheduler.MakeQueued(old(St()), id, now) else old(St())
    {
      hide Valid, Repr, PriorityQueue.Contents, Scheduler.JobBlocked, Scheduler.LockFor,
        Scheduler.AddHistoryEvent, Scheduler.Notify;
      ok := LockResources(id);
      if !ok {
        return;
      }
      AddHistoryEvent(id, Enqueue, now);
      NotifyJobEvent(id, Enqueue);
      NotifyQueued();
    }

    /** enqueueJobLocked: a job that is early or blocked stays pending. */
    method EnqueueJob(id: JobId, now: int)
      requires Valid() && id in jobs
      modifies Repr()
      ensures Valid() && forall o :: o in Repr() ==> o in old(Repr()) || fresh(o)
      ensures St() == Scheduler.EnqueueJob(old(St()), id, now)
      ensures jobs.Keys == old(jobs.Keys)
    {
      hide Valid, Repr, PriorityQueue.Contents, Scheduler.JobBlocked, Scheduler.LockFor,
        Scheduler.AddHistoryEvent, Notified;
      if Scheduler.TooEarly(jobs[id], now) {
        return;
      }
      hide Scheduler.TooEarly;
      var ok := LockResources(id);
      if !ok {
        return;
      }
      AddHistoryEvent(id, Enqueue, now);
      SetPendingJobs(pendingJobs - {id});
      NotifyJobEvent(id, Enqueue);
      NotifyQueued();
    }

    method SetPendingJobs(ids: set<JobId>)
      requires Valid()
      modifies Repr()
      ensures Valid() && forall o :: o in Repr() ==> o in old(Repr()) || fresh(o)
      ensures St() == old(St()).(pending := ids)
    {
      hide QueuedJobs.AllIndex, QueuedJobs.TopicIndex, QueuedJobs.Contents, QueuedJobs.Footprint,
        ServiceMetrics.ShowTable, ServiceMetrics.Footprint, PriorityQueue.Linked, PriorityQueue.Footprint,
        PriorityQueue.Contents, TicketsOf;
      pendingJobs := ids;
    }

    /** The pending jobs nothing blocks, found in any order. */
    method UnblockedJobs() returns (found: seq<Ticket>)
      requires Valid()
      ensures Distinct(found) && OneTicketPerJob(Elements(found))
      ensures forall t :: t in found <==> t.id in Scheduler.Candidates(St()) && t == TicketOf(t.id, jobs[t.id])
    {
      hide Valid, Scheduler.JobBlocked, TicketOf;
      found := [];
      var left := pendingJobs;
      while left != {}
        invariant left <= pendingJobs && Distinct(found)
        invariant forall t :: t in found <==>
          && t.id in pendingJobs && t.id !in left && t.id in jobs && !Scheduler.JobBlocked(St(), t.id)
          && t == TicketOf(t.id, jobs[t.id])
        decreases |left|
      {
        var id :| id in left;
        left := left - {id};
        if id in jobs {
          var blocked := RequiresLockedResources(id);
          TicketHasId(id, jobs[id]);
          if !blocked {
            found := found + [TicketOf(id, jobs[id])];
          }
        }
      }
    }

    /** The pending jobs that a pass tries, in pull order. */
    method PassList() returns (q: seq<Ticket>)
      requires Valid()
      ensures q == Scheduler.PassOrder(St())
    {
      var found := UnblockedJobs();
      BeforeIsStrictTotal(Elements(found));
      q := Sort(Before, found);
      OrderOfPass(St(), found, q);
    }

    method EnqueueEach(q: seq<Ticket>, now: int)
      requires Valid()
      modifies Repr()
      ensures Valid() && forall o :: o in Repr() ==> o in old(Repr()) || fresh(o)
      ensures St() == Scheduler.EnqueueAll(old(St()), q, now)
    {
      hide Valid, Repr, PriorityQueue.Contents, Scheduler.EnqueueJob;
      for i := 0 to |q|
        invariant Valid() && forall o :: o in Repr() ==> o in old(Repr()) || fresh(o)
        invariant Scheduler.EnqueueAll(St(), q[i..], now) == Scheduler.EnqueueAll(old(St()), q, now)
      {
        assert q[i..][0] == q[i] && q[i..][1..] == q[i + 1..];
        if q[i].id in jobs {
          EnqueueJob(q[i].id, now);
        }
      }
      assert q[|q|..] == [];
    }

    /** tryEnqueuePendingJobsLocked. */
    method TryEnqueuePendingJobs(now: int)
      requires Valid()
      modifies Repr()
      ensures Valid() && forall o :: o in Repr() ==> o in old(Repr()) || fresh(o)
      ensures St() == Scheduler.Admit(old(St()), now)
    {
      hide QueuedJobs.AllIndex, QueuedJobs.TopicIndex, Scheduler.PassOrder, Scheduler.EnqueueAll;
      var q := PassList();
      hide Valid, Repr, PriorityQueue.Contents;
      EnqueueEach(q, now);
    }

    // ---------- creation ----------

    // ---------- the queues ----------

    /** A job waits in the delayed queue. */
    method EnqueueDelayed(id: JobId, priority: int)
      requires Valid()
      modifies Repr()
      ensures Valid() && forall o :: o in Repr() ==> o in old(Repr()) || fresh(o)
      ensures St() == old(St()).(delayed := Inserted(old(pqDelayedJobs.Contents()), Item(id, priority)))
    {
      hide QueuedJobs.AllIndex, QueuedJobs.TopicIndex, QueuedJobs.Contents, QueuedJobs.Footprint,
        ServiceMetrics.ShowTable, ServiceMetrics.Footprint, PriorityQueue.Linked, PriorityQueue.Footprint,
        PriorityQueue.Contents, TicketsOf, Inserted, Removed;
      PartsAreAllocated();
      pqDelayedJobs.Enqueue(id, priority);
    }

    /** A job waits in the retry queue. */
    method EnqueueRetry(id: JobId, priority: int)
      requires Valid()
      modifies Repr()
      ensures Valid() && forall o :: o in Repr() ==> o in old(Repr()) || fresh(o)
      ensures St() == old(St()).(retry := Inserted(old(pqRetryJobs.Contents()), Item(id, priority)))
    {
      hide QueuedJobs.AllIndex, QueuedJobs.TopicIndex, QueuedJobs.Contents, QueuedJobs.Footprint,
        ServiceMetrics.ShowTable, ServiceMetrics.Footprint, PriorityQueue.Linked, PriorityQueue.Footprint,
        PriorityQueue.Contents, TicketsOf, Inserted, Removed;
      PartsAreAllocated();
      pqRetryJobs.Enqueue(id, priority);
    }

    /** The first delayed job, when it is due. */
    method DequeueDelayed(minPriority: int) returns (r: Dequeued<JobId>)
      requires Valid()
      modifies Repr()
      ensures Valid() && forall o :: o in Repr() ==> o in old(Repr()) || fresh(o)
      ensures var q := old(pqDelayedJobs.Contents());
              if q == [] || q[0].priority < minPriority then r == Nothing && St() == old(St())
              else r == Got(q[0]) && St() == old(St()).(delayed := q[1..])
    {
      hide QueuedJobs.AllIndex, QueuedJobs.TopicIndex, QueuedJobs.Contents, QueuedJobs.Footprint,
        ServiceMetrics.ShowTable, ServiceMetrics.Footprint, PriorityQueue.Linked, PriorityQueue.Footprint,
        PriorityQueue.Contents, TicketsOf, Inserted, Removed;
      PartsAreAllocated();
      r := pqDelayedJobs.DequeueWithPriority(minPriority);
    }

    /** The first hidden job, when it is due. */
    method DequeueRetry(minPriority: int) returns (r: Dequeued<JobId>)
      requires Valid()
      modifies Repr()
      ensures Valid() && forall o :: o in Repr() ==> o in old(Repr()) || fresh(o)
      ensures var q := old(pqRetryJobs.Contents());
              if q == [] || q[0].priority < minPriority then r == Nothing && St() == old(St())
              else r == Got(q[0]) && St() == old(St()).(retry := q[1..])
    {
      hide QueuedJobs.AllIndex, QueuedJobs.TopicIndex, QueuedJobs.Contents, QueuedJobs.Footprint,
        ServiceMetrics.ShowTable, ServiceMetrics.Footprint, PriorityQueue.Linked, PriorityQueue.Footprint,
        PriorityQueue.Contents, TicketsOf, Inserted, Removed;
      PartsAreAllocated();
      r := pqRetryJobs.DequeueWithPriority(minPriority);
    }

    /** A deleted job leaves the delayed queue. */
    method RemoveDelayed(id: JobId)
      requires Valid()
      modifies Repr()
      ensures Valid() && forall o :: o in Repr() ==> o in old(Repr()) || fresh(o)
      ensures St() == old(St()).(delayed := Removed(old(pqDelayedJobs.Contents()), id))
    {
      hide QueuedJobs.AllIndex, QueuedJobs.TopicIndex, QueuedJobs.Contents, QueuedJobs.Footprint,
        ServiceMetrics.ShowTable, ServiceMetrics.Footprint, PriorityQueue.Linked, PriorityQueue.Footprint,
        PriorityQueue.Contents, TicketsOf, Inserted, Removed;
      PartsAreAllocated();
      var found := pqDelayedJobs.Remove(id);
    }

    /** A deleted job leaves the retry queue. */
    method RemoveRetry(id: JobId)
      requires Valid()
      modifies Repr()
      ensures Valid() && forall o :: o in Repr() ==> o in old(Repr()) || fresh(o)
      ensures St() == old(St()).(retry := Removed(old(pqRetryJobs.Contents()), id))
    {
      hide QueuedJobs.AllIndex, QueuedJobs.TopicIndex, QueuedJobs.Contents, QueuedJobs.Footprint,
        ServiceMetrics.ShowTable, ServiceMetrics.Footprint, PriorityQueue.Linked, PriorityQueue.Footprint,
        PriorityQueue.Contents, TicketsOf, Inserted, Removed;
      PartsAreAllocated();
      var found := pqRetryJobs.Remove(id);
    }

    /** No job is delayed. */
    method ClearDelayed()
      requires Valid()
      modifies Repr()
      ensures Valid() && forall o :: o in Repr() ==> o in old(Repr()) || fresh(o)
      ensures St() == old(St()).(delayed := [])
    {
      hide QueuedJobs.AllIndex, QueuedJobs.TopicIndex, QueuedJobs.Contents, QueuedJobs.Footprint,
        ServiceMetrics.ShowTable, ServiceMetrics.Footprint, PriorityQueue.Linked, PriorityQueue.Footprint,
        PriorityQueue.Contents, TicketsOf, Inserted, Removed;
      PartsAreAllocated();
      pqDelayedJobs.Clear();
    }

    /** No job is hidden. */
    method ClearRetry()
      requires Valid()
      modifies Repr()
      ensures Valid() && forall o :: o in Repr() ==> o in old(Repr()) || fresh(o)
      ensures St() == old(St()).(retry := [])
    {
      hide QueuedJobs.AllIndex, QueuedJobs.TopicIndex, QueuedJobs.Contents, QueuedJobs.Footprint,
        ServiceMetrics.ShowTable, ServiceMetrics.Footprint, PriorityQueue.Linked, PriorityQueue.Footprint,
        PriorityQueue.Contents, TicketsOf, Inserted, Removed;
      PartsAreAllocated();
      pqRetryJobs.Clear();
    }

    // ---------- the first states ----------

    /** setJobStateToDelayedLocked. */
    method SetJobStateToDelayed(id: JobId, now: int)
      requires Valid() && id in jobs
      modifies Repr()
      ensures Valid() && forall o :: o in Repr() ==> o in old(Repr()) || fresh(o)
      ensures St() == Scheduler.SetDelayed(old(St()), id, now)
    {
      hide Valid, Repr, PriorityQueue.Contents, Scheduler.AddHistoryEvent, Notified;
      AddHistoryEvent(id, Delay, now);
      EnqueueDelayed(id, -jobs[id].spec.startAfter);
      NotifyJobEvent(id, Delay);
    }

    /** setJobStateToPendingLocked. */
    method SetJobStateToPending(id: JobId, now: int)
      requires Valid() && id in jobs
      modifies Repr()
      ensures Valid() && forall o :: o in Repr() ==> o in old(Repr()) || fresh(o)
      ensures St() == Scheduler.SetPending(old(St()), id, now)
    {
      hide Valid, Repr, PriorityQueue.Contents, Scheduler.AddHistoryEvent, Notified;
      AddHistoryEvent(id, Pending, now);
      SetPendingJobs(pendingJobs + {id});
      NotifyJobEvent(id, Pending);
    }

    /** The new job is kept, and the observers are told of it; a full backend does not keep it. */
    method Register(id: JobId, spec: JobSpec, now: int)
      requires Valid() && id !in jobs
      modifies Repr()
      ensures Valid() && forall o :: o in Repr() ==> o in old(Repr()) || fresh(o)
      ensures id in jobs && St() == Scheduler.Born(cfg, old(St()), id, spec, now)
    {
      var j := NewJob(id, spec, now);
      assert j.history != [] && id !in queuedIds && j.id == id && j.spec == spec;
      hide Valid, Repr, PriorityQueue.Contents, Notified, NewJob;
      SetJob(id, j);
      NotifyCreation(j);
    }

    method NotifyCreation(j: JobValue)
      requires Valid()
      modifies Repr()
      ensures Valid() && forall o :: o in Repr() ==> o in old(Repr()) || fresh(o)
      ensures St() == old(St()).(
                saved := if cfg.backendMaxJobs > 0 && |old(bp.jobs)| == cfg.backendMaxJobs then old(bp.jobs)
                         else old(bp.jobs)[j.id := j],
                metrics := Notified(old(metrics.table), j.spec.topic, j.previousState, j.state))
    {
      assert bp.maxJobs == cfg.backendMaxJobs && bp.maxJobs > 0;
      hide Valid, Repr, PriorityQueue.Contents, Notified;
      StoreEvent(j, Create);
      CountEvent(j.spec.topic, j.previousState, j.state);
    }

    /** CreateJob with the id the generator chose, which no job has. */
    method CreateJob(id: JobId, spec: JobSpec, now: int) returns (ok: bool)
      requires Valid() && id !in jobs
      modifies Repr()
      ensures Valid() && forall o :: o in Repr() ==> o in old(Repr()) || fresh(o)
      ensures ok == !Scheduler.Refused(cfg, old(St())) && St() == Scheduler.CreateJob(cfg, old(St()), id, spec, now)
    {
      hide Valid, Repr, PriorityQueue.Contents, Scheduler.Born, Scheduler.SetDelayed, Scheduler.SetPending,
        Scheduler.Admit;
      if cfg.maxAllowedJobs != 0 && |jobs| >= cfg.maxAllowedJobs {
        return false;
      }
      if cfg.backendMaxJobs > 0 && |jobs| >= cfg.backendMaxJobs {
        return false;
      }
      Register(id, spec, now);
      hide Scheduler.Refused, Scheduler.TooEarly;
      if Scheduler.TooEarly(jobs[id], now) {
        SetJobStateToDelayed(id, now);
      } else {
        SetJobStateToPending(id, now);
      }
      TryEnqueuePendingJobs(now);
      ok := true;
    }

    /** CloneJob: a new job with what the client chose for another one. */
    method CloneJob(from: JobId, id: JobId, now: int) returns (ok: bool)
      requires Valid() && id !in jobs
      modifies Repr()
      ensures Valid() && forall o :: o in Repr() ==> o in old(Repr()) || fresh(o)
      ensures ok == (from in old(jobs) && !Scheduler.Refused(cfg, old(St())))
      ensures St() == if from in old(jobs) then Scheduler.CreateJob(cfg, old(St()), id, old(jobs)[from].spec, now)
                      else old(St())
    {
      if from !in jobs {
        return false;
      }
      hide Valid, Repr, PriorityQueue.Contents, Scheduler.Refused, Scheduler.CreateJob;
      ok := CreateJob(id, jobs[from].spec, now);
    }

    // ---------- the life of a job ----------

    /** startJobLocked. */
    method StartJob(id: JobId, timeout: nat, now: int) returns (ok: bool)
      requires Valid()
      modifies Repr()
      ensures Valid() && forall o :: o in Repr() ==> o in old(Repr()) || fresh(o)
      ensures ok == (id in old(jobs) && old(jobs)[id].state == IsQueued) && jobs.Keys == old(jobs.Keys)
      ensures forall k :: k in jobs && k != id ==> jobs[k] == old(jobs)[k]
      ensures if ok then jobs[id].state == IsRunning && jobs[id].spec.visibilityTimeout == timeout else jobs == old(jobs)
      ensures St() == if id in old(jobs) then Scheduler.StartJob(old(St()), id, timeout, now) else old(St())
    {
      hide Valid, Repr, PriorityQueue.Contents, Scheduler.AddHistoryEvent, Notified;
      if id !in jobs || jobs[id].state != IsQueued {
        return false;
      }
      SetPendingJobs(pendingJobs - {id});
      AddHistoryEvent(id, Start, now);
      SetTimeout(id, timeout);
      NotifyJobEvent(id, Start);
      ok := true;
    }

    method SetTimeout(id: JobId, timeout: nat)
      requires Valid() && id in jobs
      modifies Repr()
      ensures Valid() && forall o :: o in Repr() ==> o in old(Repr()) || fresh(o)
      ensures var j := old(jobs)[id];
              St() == old(St()).(jobs := old(jobs)[id := j.(spec := j.spec.(visibilityTimeout := timeout))])
    {
      assert jobs[id].history != [];
      hide Valid, Repr, PriorityQueue.Contents;
      SetJob(id, jobs[id].(spec := jobs[id].spec.(visibilityTimeout := timeout)));
    }

    /** The first tickets of the index. */
    method FirstOfIndex(topic: Topic, n: nat) returns (q: seq<Ticket>)
      requires Valid()
      modifies Repr()
      ensures Valid() && Repr() <= old(Repr()) && St() == old(St())
      ensures q == Scheduler.Best(St(), topic, n)
    {
      hide QueuedJobs.AllIndex, QueuedJobs.TopicIndex, QueuedJobs.Contents, QueuedJobs.Footprint,
        ServiceMetrics.ShowTable, ServiceMetrics.Footprint, PriorityQueue.Linked, PriorityQueue.Footprint,
        PriorityQueue.Contents, TicketsOf, FirstTickets, OneTicketPerJob;
      PartsAreAllocated();
      q := queuedJobs.First(topic, n);
    }

    /** findBestJobCandidatesLocked. */
    method FindBestJobCandidates(topic: Topic, n: nat) returns (q: seq<Ticket>)
      requires Valid()
      modifies Repr()
      ensures Valid() && Repr() <= old(Repr()) && St() == old(St())
      ensures q == Scheduler.Best(St(), topic, n)
    {
      hide Valid, Repr, PriorityQueue.Contents, Scheduler.Best, PriorityQueue.Contents;
      if |jobs| == 0 {
        EmptyHasNoBest(St(), topic, n);
        return [];
      }
      q := FirstOfIndex(topic, n);
    }

    /** pullJobsOnce: the candidates are chosen and started in one critical section. */
    method PullJobsOnce(topic: Topic, n: nat, timeout: nat, now: int) returns (started: seq<JobId>, found: bool)
      requires Valid()
      modifies Repr()
      ensures Valid() && forall o :: o in Repr() ==> o in old(Repr()) || fresh(o)
      ensures St() == Scheduler.Pull(old(St()), topic, n, timeout, now)
      ensures started == IdsIn(Scheduler.Best(old(St()), topic, n)) && found == (started != [])
      ensures FirstInLine(old(jobs), WaitingFor(old(jobs), old(queuedIds), topic), n, started)
      ensures forall id :: id in started ==>
                id in jobs && jobs[id].state == IsRunning && jobs[id].spec.visibilityTimeout == timeout
    {
      ghost var s := St();
      assert HaveHistories(jobs, queuedIds) && forall id :: id in queuedIds ==> jobs[id].state == IsQueued;
      hide Valid, Repr, PriorityQueue.Contents, Scheduler.Best, Scheduler.StartAll, Startable, FirstInLine,
        HaveHistories, WaitingFor;
      var q := FindBestJobCandidates(topic, n);
      BestIsStartable(s, q, topic, n);
      started := StartEach(q, timeout, now);
      found := |q| > 0;
    }

    method StartEach(q: seq<Ticket>, timeout: nat, now: int) returns (started: seq<JobId>)
      requires Valid()
      modifies Repr()
      ensures Valid() && forall o :: o in Repr() ==> o in old(Repr()) || fresh(o)
      ensures St() == Scheduler.StartAll(old(St()), q, timeout, now)
      ensures Startable(old(jobs), q) ==> started == IdsIn(q)
      ensures forall id :: id in started ==>
                id in jobs && jobs[id].state == IsRunning && jobs[id].spec.visibilityTimeout == timeout
    {
      hide Valid, Repr, PriorityQueue.Contents, Scheduler.StartJob;
      started := [];
      for i := 0 to |q|
        invariant Valid() && forall o :: o in Repr() ==> o in old(Repr()) || fresh(o)
        invariant Scheduler.StartAll(St(), q[i..], timeout, now) == Scheduler.StartAll(old(St()), q, timeout, now)
        invariant Startable(old(jobs), q) ==> Startable(jobs, q[i..]) && started == IdsIn(q[..i])
        invariant forall id :: id in started ==>
                    id in jobs && jobs[id].state == IsRunning && jobs[id].spec.visibilityTimeout == timeout
      {
        assert q[i..][0] == q[i] && q[i..][1..] == q[i + 1..];
        assert IdsIn(q[..i + 1]) == IdsIn(q[..i]) + [q[i].id];
        assert forall k :: i < k < |q| ==> q[i..][k - i] == q[k];
        var ok := StartJob(q[i].id, timeout, now);
        if ok {
          started := started + [q[i].id];
        }
      }
      assert q[|q|..] == [] && q[..|q|] == q;
    }

    method SetJobAsSuccessful(id: JobId, now: int) returns (ok: bool)
      requires Valid()
      modifies Repr()
      ensures Valid() && forall o :: o in Repr() ==> o in old(Repr()) || fresh(o)
      ensures ok == (id in old(jobs) && old(jobs)[id].state == IsRunning)
      ensures St() == if ok then Scheduler.Admit(Scheduler.Finish(old(St()), id, now), now) else old(St())
    {
      hide Valid, Repr, PriorityQueue.Contents, Scheduler.AddHistoryEvent, Scheduler.Notify,
        Scheduler.UnlockFor, Scheduler.Admit;
      if id !in jobs || jobs[id].state != IsRunning {
        return false;
      }
      UnlockJobResources(id);
      AddHistoryEvent(id, Success, now);
      NotifyJobEvent(id, Success);
      TryEnqueuePendingJobs(now);
      ok := true;
    }

    method CancelJob(id: JobId, now: int) returns (ok: bool)
      requires Valid()
      modifies Repr()
      ensures Valid() && forall o :: o in Repr() ==> o in old(Repr()) || fresh(o)
      ensures ok == (id in old(jobs) && old(jobs)[id].state == IsRunning)
      ensures St() == if ok then Scheduler.Admit(Scheduler.Requeue(old(St()), id, now), now) else old(St())
    {
      hide Valid, Repr, PriorityQueue.Contents, Scheduler.AddHistoryEvent, Scheduler.Notify, Scheduler.Admit;
      if id !in jobs || jobs[id].state != IsRunning {
        return false;
      }
      AddHistoryEvent(id, Cancel, now);
      NotifyJobEvent(id, Cancel);
      AddHistoryEvent(id, Enqueue, now);
      NotifyJobEvent(id, Enqueue);
      NotifyQueued();
      TryEnqueuePendingJobs(now);
      ok := true;
    }

    /** onJobFailedTooManyTimesLocked. */
    method OnJobFailedTooManyTimes(id: JobId, now: int)
      requires Valid() && id in jobs
      modifies Repr()
      ensures Valid() && forall o :: o in Repr() ==> o in old(Repr()) || fresh(o)
      ensures St() == Scheduler.Admit(Scheduler.GiveUp(old(St()), id, now), now)
    {
      hide Valid, Repr, PriorityQueue.Contents, Scheduler.AddHistoryEvent, Scheduler.Notify,
        Scheduler.UnlockFor, Scheduler.Admit;
      AddHistoryEvent(id, Terminate, now);
      UnlockJobResources(id);
      NotifyJobEvent(id, Terminate);
      TryEnqueuePendingJobs(now);
    }

    /** retryJobLaterLocked. */
    method RetryJobLater(id: JobId, retryAt: int, now: int)
      requires Valid() && id in jobs
      modifies Repr()
      ensures Valid() && forall o :: o in Repr() ==> o in old(Repr()) || fresh(o)
      ensures St() == Scheduler.Admit(Scheduler.Hide(old(St()), id, retryAt, now), now)
    {
      hide Valid, Repr, PriorityQueue.Contents, Scheduler.AddHistoryEvent, Scheduler.Notify,
        Scheduler.UnlockFor, Scheduler.Admit, Inserted;
      AddHistoryEvent(id, EventType.Hide, now);
      UnlockJobResources(id);
      NotifyJobEvent(id, EventType.Hide);
      EnqueueRetry(id, -retryAt);
      TryEnqueuePendingJobs(now);
    }

    /** What follows a failure: the end, a retry at once, or a later one. */
    method AfterFailure(id: JobId, failures: nat, now: int) returns (reachedMaxRetry: bool)
      requires Valid() && id in jobs && failures == jobs[id].Failures()
      modifies Repr()
      ensures Valid() && forall o :: o in Repr() ==> o in old(Repr()) || fresh(o)
      ensures St() == Scheduler.Failed(cfg, old(St()), id, now)
      ensures reachedMaxRetry == (failures >= cfg.maxRetry)
    {
      hide Valid, Repr, PriorityQueue.Contents, Scheduler.Admit, Scheduler.GiveUp, Scheduler.MakeQueued,
        Scheduler.Hide, Scheduler.JobBlocked;
      hide JobValue.Failures;
      if failures >= cfg.maxRetry {
        OnJobFailedTooManyTimes(id, now);
        return true;
      }
      var delay := cfg.backoff(failures);
      if delay == 0 {
        var ok := RetryJob(id, now);
        if ok {
          return false;
        }
        RetryJobLater(id, now, now);
        return false;
      }
      RetryJobLater(id, now + delay / 1_000_000, now);
      return false;
    }

    /** failJobLocked. */
    method FailJob(id: JobId, now: int) returns (ok: bool, reachedMaxRetry: bool)
      requires Valid()
      modifies Repr()
      ensures Valid() && forall o :: o in Repr() ==> o in old(Repr()) || fresh(o)
      ensures ok == (id in old(jobs) && old(jobs)[id].state == IsRunning)
      ensures reachedMaxRetry == (ok && old(jobs)[id].Failures() + 1 >= cfg.maxRetry)
      ensures St() == Scheduler.FailJob(cfg, old(St()), id, now)
    {
      hide Valid, Repr, PriorityQueue.Contents, Scheduler.Failed, Scheduler.AddHistoryEvent,
        Scheduler.Notify, JobValue.Failures;
      if id !in jobs || jobs[id].state != IsRunning {
        return false, false;
      }
      AddHistoryEvent(id, Fail, now);
      OneFailureMore(old(jobs)[id], now);
      NotifyJobEvent(id, Fail);
      reachedMaxRetry := FailOnce(id, now);
      ok := true;
    }

    method FailOnce(id: JobId, now: int) returns (reachedMaxRetry: bool)
      requires Valid() && id in jobs
      modifies Repr()
      ensures Valid() && forall o :: o in Repr() ==> o in old(Repr()) || fresh(o)
      ensures St() == Scheduler.Failed(cfg, old(St()), id, now)
      ensures reachedMaxRetry == (old(jobs)[id].Failures() >= cfg.maxRetry)
    {
      hide QueuedJobs.AllIndex, QueuedJobs.TopicIndex, QueuedJobs.Contents, QueuedJobs.Footprint,
        ServiceMetrics.ShowTable, ServiceMetrics.Footprint, PriorityQueue.Linked, PriorityQueue.Footprint,
        PriorityQueue.Contents, TicketsOf;
      hide Scheduler.Failed;
      var failures := CountFailures(jobs[id].history);
      assert failures == jobs[id].Failures();
      hide JobValue.Failures;
      reachedMaxRetry := AfterFailure(id, failures, now);
    }

    // ---------- deletion ----------

    /** The job leaves the map and the pending jobs. */
    method DropJob(id: JobId)
      requires Valid() && (id in jobs ==> jobs[id].state != IsQueued)
      modifies Repr()
      ensures Valid() && forall o :: o in Repr() ==> o in old(Repr()) || fresh(o)
      ensures St() == old(St()).(jobs := old(jobs) - {id}, pending := old(pendingJobs) - {id})
    {
      hide QueuedJobs.AllIndex, QueuedJobs.TopicIndex, QueuedJobs.Contents, QueuedJobs.Footprint,
        ServiceMetrics.ShowTable, ServiceMetrics.Footprint, PriorityQueue.Linked, PriorityQueue.Footprint,
        PriorityQueue.Contents;
      TicketsKept(jobs, jobs - {id}, queuedIds);
      hide TicketsOf;
      jobs := jobs - {id};
      pendingJobs := pendingJobs - {id};
    }

    /** The job leaves the queues, the map and the pending jobs. */
    method Forget(id: JobId)
      requires Valid() && (id in jobs ==> jobs[id].state != IsQueued)
      modifies Repr()
      ensures Valid() && forall o :: o in Repr() ==> o in old(Repr()) || fresh(o)
      ensures St() == old(St()).(retry := Removed(old(pqRetryJobs.Contents()), id),
                                 delayed := Removed(old(pqDelayedJobs.Contents()), id),
                                 jobs := old(jobs) - {id}, pending := old(pendingJobs) - {id})
    {
      hide Valid, Repr, PriorityQueue.Contents, Removed, PriorityQueue.Contents;
      RemoveRetry(id);
      RemoveDelayed(id);
      DropJob(id);
    }

    /** The observers are told of the deletion of a job. */
    method NotifyDeletion(id: JobId, j: JobValue)
      requires Valid() && j.id == id
      modifies Repr()
      ensures Valid() && forall o :: o in Repr() ==> o in old(Repr()) || fresh(o)
      ensures St() == old(St()).(saved := old(bp.jobs) - {id},
                                 metrics := Notified(old(metrics.table), j.spec.topic, j.previousState, IsDeleted))
    {
      hide Valid, Repr, PriorityQueue.Contents, Notified;
      StoreEvent(j, Delete);
      CountEvent(j.spec.topic, j.previousState, IsDeleted);
    }

    /** deleteJobLocked up to its admission pass. */
    method RemoveJob(id: JobId, now: int)
      requires Valid() && id in jobs
      modifies Repr()
      ensures Valid() && forall o :: o in Repr() ==> o in old(Repr()) || fresh(o)
      ensures St() == Scheduler.Remove(old(St()), id, now)
    {
      hide Valid, Repr, PriorityQueue.Contents, Scheduler.AddHistoryEvent, Scheduler.UnlockFor, Notified,
        Removed;
      UnlockJobResources(id);
      AddHistoryEvent(id, Delete, now);
      var j := jobs[id];
      Forget(id);
      NotifyDeletion(id, j);
    }

    /** deleteJobLocked. */
    method DeleteJob(id: JobId, now: int) returns (ok: bool)
      requires Valid()
      modifies Repr()
      ensures Valid() && forall o :: o in Repr() ==> o in old(Repr()) || fresh(o)
      ensures ok == (id in old(jobs)) && St() == Scheduler.DeleteJob(old(St()), id, now)
    {
      if id !in jobs {
        return false;
      }
      hide Valid, Repr, PriorityQueue.Contents, Scheduler.Remove, Scheduler.Admit;
      RemoveJob(id, now);
      TryEnqueuePendingJobs(now);
      ok := true;
    }

    /** The maps and the index are replaced. */
    method ClearMaps()
      requires Valid()
      modifies Repr()
      ensures Valid() && forall o :: o in Repr() ==> o in old(Repr()) || fresh(o)
      ensures St() == old(St()).(jobs := map[], pending := {}, queued := {})
    {
      hide QueuedJobs.AllIndex, QueuedJobs.TopicIndex, QueuedJobs.Contents, QueuedJobs.Footprint,
        ServiceMetrics.ShowTable, ServiceMetrics.Footprint, PriorityQueue.Linked, PriorityQueue.Footprint,
        PriorityQueue.Contents, TicketsOf;
      PartsAreAllocated();
      jobs := map[];
      pendingJobs := {};
      queuedIds := {};
      queuedJobs := new QueuedJobs();
      NoTickets();
    }

    /** Every container is replaced or cleared. */
    method ClearJobs()
      requires Valid()
      modifies Repr()
      ensures Valid() && forall o :: o in Repr() ==> o in old(Repr()) || fresh(o)
      ensures St() == old(St()).(retry := [], delayed := [], jobs := map[], pending := {}, queued := {})
    {
      hide Valid, Repr, PriorityQueue.Contents;
      ClearRetry();
      ClearDelayed();
      ClearMaps();
    }

    method ReleaseAll()
      requires Valid()
      modifies Repr()
      ensures Valid() && forall o :: o in Repr() ==> o in old(Repr()) || fresh(o)
      ensures St() == old(St()).(locks := map[])
    {
      hide QueuedJobs.AllIndex, QueuedJobs.TopicIndex, QueuedJobs.Contents, QueuedJobs.Footprint,
        ServiceMetrics.ShowTable, ServiceMetrics.Footprint, PriorityQueue.Linked, PriorityQueue.Footprint,
        PriorityQueue.Contents, TicketsOf;
      resourcesManager.UnlockAllResources();
      bp.NotifyChange();
    }

    /** unlockAllResourcesLocked. */
    method UnlockEverything()
      requires Valid()
      modifies Repr()
      ensures Valid() && forall o :: o in Repr() ==> o in old(Repr()) || fresh(o)
      ensures St() == old(St()).(locks := map[], metrics := AllUnlocked(old(metrics.table)))
    {
      hide Valid, Repr, PriorityQueue.Contents, AllUnlocked;
      ReleaseAll();
      CountUnlocked();
    }

    method ForgetStored()
      requires Valid()
      modifies Repr()
      ensures Valid() && forall o :: o in Repr() ==> o in old(Repr()) || fresh(o)
      ensures St() == old(St()).(saved := map[])
    {
      hide QueuedJobs.AllIndex, QueuedJobs.TopicIndex, QueuedJobs.Contents, QueuedJobs.Footprint,
        ServiceMetrics.ShowTable, ServiceMetrics.Footprint, PriorityQueue.Linked, PriorityQueue.Footprint,
        PriorityQueue.Contents, TicketsOf, Provider.Tracked;
      bp.OnJobsDeleted();
    }

    /** The observers are told that everything was deleted. */
    method NotifyDeletedAll()
      requires Valid()
      modifies Repr()
      ensures Valid() && forall o :: o in Repr() ==> o in old(Repr()) || fresh(o)
      ensures St() == old(St()).(saved := map[], metrics := Cleared(old(metrics.table)))
    {
      hide Valid, Repr, PriorityQueue.Contents, Cleared;
      ForgetStored();
      CountDeletedAll();
    }

    method DeleteAllJobs()
      requires Valid()
      modifies Repr()
      ensures Valid() && forall o :: o in Repr() ==> o in old(Repr()) || fresh(o)
      ensures St() == Scheduler.DeleteAll(old(St()))
    {
      hide Valid, Repr, PriorityQueue.Contents, Cleared, AllUnlocked;
      ClearJobs();
      UnlockEverything();
      NotifyDeletedAll();
    }

    /** sortedJobIDs of the jobs that satisfy a condition. */
    method SortedJobIds(condition: JobValue -> bool) returns (ids: seq<JobId>)
      ensures ids == SortedIds(Chosen(jobs, condition))
    {
      var found: seq<JobId> := [];
      var left := jobs.Keys;
      while left != {}
        invariant left <= jobs.Keys && Distinct(found)
        invariant forall id :: id in found <==> id in jobs && id !in left && condition(jobs[id])
        decreases |left|
      {
        var id :| id in left;
        left := left - {id};
        if condition(jobs[id]) {
          found := found + [id];
        }
      }
      IdBeforeIsStrictTotal(Elements(found));
      ids := Sort(IdBefore, found);
      SortedIdsIn(found, ids, Chosen(jobs, condition));
    }

    /** The jobs of a list are deleted, one after the other. */
    method DeleteEach(ids: seq<JobId>, now: int)
      requires Valid()
      modifies Repr()
      ensures Valid() && forall o :: o in Repr() ==> o in old(Repr()) || fresh(o)
      ensures St() == Scheduler.DeleteEach(old(St()), ids, now)
    {
      hide Valid, Repr, PriorityQueue.Contents, Scheduler.DeleteJob;
      for i := 0 to |ids|
        invariant Valid() && forall o :: o in Repr() ==> o in old(Repr()) || fresh(o)
        invariant Scheduler.DeleteEach(St(), ids[i..], now) == Scheduler.DeleteEach(old(St()), ids, now)
      {
        assert ids[i..][0] == ids[i] && ids[i..][1..] == ids[i + 1..];
        var ok := DeleteJob(ids[i], now);
      }
      assert ids[|ids|..] == [];
    }

    method DeleteQueuedJobs(now: int)
      requires Valid()
      modifies Repr()
      ensures Valid() && forall o :: o in Repr() ==> o in old(Repr()) || fresh(o)
      ensures St() == Scheduler.DeleteQueued(old(St()), now)
    {
      hide QueuedJobs.AllIndex, QueuedJobs.TopicIndex, QueuedJobs.Contents, QueuedJobs.Footprint,
        ServiceMetrics.ShowTable, ServiceMetrics.Footprint, PriorityQueue.Linked, PriorityQueue.Footprint,
        PriorityQueue.Contents, TicketsOf;
      hide Scheduler.DeleteEach, SortedIds;
      var condition := (j: JobValue) => Scheduler.Waiting(j.state);
      var ids := SortedJobIds(condition);
      assert Chosen(jobs, condition) == Scheduler.WaitingJobs(St());
      hide Valid, Repr, PriorityQueue.Contents;
      DeleteEach(ids, now);
    }

    // ---------- the periodic tasks ----------

    /** AttemptJobRetries: the due jobs that are blocked are put back afterwards. */
    method AttemptJobRetries(now: int)
      requires Valid()
      modifies Repr()
      ensures Valid() && forall o :: o in Repr() ==> o in old(Repr()) || fresh(o)
      ensures St() == Scheduler.AttemptRetries(old(St()), now)
    {
      hide Valid, Repr, PriorityQueue.Contents, Scheduler.MakeQueued, Scheduler.JobBlocked,
        Scheduler.Reinserted;
      var blocked: seq<Item<JobId>> := [];
      while true
        invariant Valid() && forall o :: o in Repr() ==> o in old(Repr()) || fresh(o)
        invariant Scheduler.RetryDue(St(), blocked, now) == Scheduler.AttemptRetries(old(St()), now)
        decreases |pqRetryJobs.Contents()|
      {
        ghost var s := St();
        var r := DequeueRetry(-now);
        if r == Nothing {
          break;
        }
        assert s.retry != [] && s.retry[0].priority >= -now && St() == s.(retry := s.retry[1..]);
        var w := r.item;
        var ok := false;
        if w.value in jobs {
          QueuesKept(St(), w.value, now);
          ok := RetryJob(w.value, now);
        }
        if !ok {
          blocked := blocked + [w];
        }
      }
      PutBack(blocked);
    }

    method PutBack(blocked: seq<Item<JobId>>)
      requires Valid()
      modifies Repr()
      ensures Valid() && forall o :: o in Repr() ==> o in old(Repr()) || fresh(o)
      ensures St() == old(St()).(retry := Scheduler.Reinserted(old(pqRetryJobs.Contents()), blocked))
    {
      hide Valid, Repr, PriorityQueue.Contents;
      for i := 0 to |blocked|
        invariant Valid() && forall o :: o in Repr() ==> o in old(Repr()) || fresh(o)
        invariant St() == old(St()).(retry := pqRetryJobs.Contents())
        invariant Scheduler.Reinserted(pqRetryJobs.Contents(), blocked[i..])
               == Scheduler.Reinserted(old(pqRetryJobs.Contents()), blocked)
      {
        assert blocked[i..][0] == blocked[i] && blocked[i..][1..] == blocked[i + 1..];
        EnqueueRetry(blocked[i].value, blocked[i].priority);
      }
      assert blocked[|blocked|..] == [];
    }

    method CheckDelayedJobs(now: int)
      requires Valid()
      modifies Repr()
      ensures Valid() && forall o :: o in Repr() ==> o in old(Repr()) || fresh(o)
      ensures St() == Scheduler.CheckDelayed(old(St()), now)
    {
      hide Valid, Repr, PriorityQueue.Contents, Scheduler.SetPending, Scheduler.Admit;
      var found := false;
      while true
        invariant Valid() && forall o :: o in Repr() ==> o in old(Repr()) || fresh(o)
        invariant Scheduler.ReleaseDue(St(), now) == Scheduler.ReleaseDue(old(St()), now)
        invariant |St().delayed| <= |old(St()).delayed| && found == (|St().delayed| < |old(St()).delayed|)
        decreases |pqDelayedJobs.Contents()|
      {
        ghost var s := St();
        var r := DequeueDelayed(-now);
        if r == Nothing {
          break;
        }
        assert s.delayed != [] && s.delayed[0].priority >= -now && St() == s.(delayed := s.delayed[1..]);
        var id := r.item.value;
        if id in jobs {
          QueuesKept(St(), id, now);
          SetJobStateToPending(id, now);
        }
        found := true;
      }
      if found {
        TryEnqueuePendingJobs(now);
      }
    }

    method FailEach(ids: seq<JobId>, now: int)
      requires Valid()
      modifies Repr()
      ensures Valid() && forall o :: o in Repr() ==> o in old(Repr()) || fresh(o)
      ensures St() == Scheduler.FailAll(cfg, old(St()), ids, now)
    {
      hide Valid, Repr, PriorityQueue.Contents, Scheduler.FailJob;
      for i := 0 to |ids|
        invariant Valid() && forall o :: o in Repr() ==> o in old(Repr()) || fresh(o)
        invariant Scheduler.FailAll(cfg, St(), ids[i..], now) == Scheduler.FailAll(cfg, old(St()), ids, now)
      {
        assert ids[i..][0] == ids[i] && ids[i..][1..] == ids[i + 1..];
        var ok, reached := FailJob(ids[i], now);
      }
      assert ids[|ids|..] == [];
    }

    method CheckJobsVisibilityTimeout(now: int)
      requires Valid()
      modifies Repr()
      ensures Valid() && forall o :: o in Repr() ==> o in old(Repr()) || fresh(o)
      ensures St() == Scheduler.CheckTimeouts(cfg, old(St()), now)
    {
      hide QueuedJobs.AllIndex, QueuedJobs.TopicIndex, QueuedJobs.Contents, QueuedJobs.Footprint,
        ServiceMetrics.ShowTable, ServiceMetrics.Footprint, PriorityQueue.Linked, PriorityQueue.Footprint,
        PriorityQueue.Contents, TicketsOf;
      hide Scheduler.FailAll, Scheduler.Admit, Scheduler.TimedOut, SortedIds;
      var condition := (j: JobValue) => Scheduler.TimedOut(j, now);
      var ids := SortedJobIds(condition);
      assert Chosen(jobs, condition) == Scheduler.TimedOutJobs(St(), now);
      hide Valid, Repr, PriorityQueue.Contents;
      if |ids| == 0 {
        return;
      }
      FailEach(ids, now);
      TryEnqueuePendingJobs(now);
    }

    // ---------- administration ----------

    method UnlockAllResources(now: int)
      requires Valid()
      modifies Repr()
      ensures Valid() && forall o :: o in Repr() ==> o in old(Repr()) || fresh(o)
      ensures St() == Scheduler.UnlockAll(old(St()), now)
    {
      hide Valid, Repr, PriorityQueue.Contents, AllUnlocked, Scheduler.Admit;
      UnlockEverything();
      TryEnqueuePendingJobs(now);
    }

    method ReleaseResource(r: Resource) returns (ok: bool)
      requires Valid()
      modifies Repr()
      ensures Valid() && forall o :: o in Repr() ==> o in old(Repr()) || fresh(o)
      ensures jobs == old(jobs) && ok == (r in old(resourcesManager.lockedResources))
      ensures St() == if ok then old(St()).(locks := old(resourcesManager.lockedResources) - {r}) else old(St())
    {
      hide QueuedJobs.AllIndex, QueuedJobs.TopicIndex, QueuedJobs.Contents, QueuedJobs.Footprint,
        ServiceMetrics.ShowTable, ServiceMetrics.Footprint, PriorityQueue.Linked, PriorityQueue.Footprint,
        PriorityQueue.Contents, TicketsOf;
      ok := resourcesManager.UnlockResource(r);
      if ok {
        bp.NotifyChange();
      }
    }

    method UnlockResource(r: Resource, now: int) returns (ok: bool)
      requires Valid()
      modifies Repr()
      ensures Valid() && forall o :: o in Repr() ==> o in old(Repr()) || fresh(o)
      ensures ok == (r in old(resourcesManager.lockedResources)) && St() == Scheduler.UnlockOne(old(St()), r, now)
    {
      hide Valid, Repr, PriorityQueue.Contents, LocksNotified, Scheduler.Admit;
      var topic := Topic("");
      if r in resourcesManager.lockedResources && resourcesManager.lockedResources[r] in jobs {
        topic := jobs[resourcesManager.lockedResources[r]].spec.topic;
      }
      ok := ReleaseResource(r);
      if ok {
        CountLocked(topic, -1);
        TryEnqueuePendingJobs(now);
      }
    }

    method ChangeVisibilityTimeoutJob(id: JobId, timeout: nat) returns (ok: bool)
      requires Valid()
      modifies Repr()
      ensures Valid() && forall o :: o in Repr() ==> o in old(Repr()) || fresh(o)
      ensures ok == (id in old(jobs)) && St() == Scheduler.ChangeTimeout(old(St()), id, timeout)
    {
      if id !in jobs {
        return false;
      }
      hide Valid, Repr, PriorityQueue.Contents;
      SetTimeout(id, timeout);
      OnJobUpdated(id);
      ok := true;
    }

    /** The backend stores the change of a job it knows. */
    method OnJobUpdated(id: JobId)
      requires Valid() && id in jobs
      modifies Repr()
      ensures Valid() && forall o :: o in Repr() ==> o in old(Repr()) || fresh(o)
      ensures St() == old(St()).(saved := if id in old(bp.jobs) then old(bp.jobs)[id := old(jobs)[id]] else old(bp.jobs))
    {
      hide Provider.Tracked;
      hide QueuedJobs.AllIndex, QueuedJobs.TopicIndex, QueuedJobs.Contents, QueuedJobs.Footprint,
        ServiceMetrics.ShowTable, ServiceMetrics.Footprint, PriorityQueue.Linked, PriorityQueue.Footprint,
        PriorityQueue.Contents, TicketsOf;
      bp.OnJobUpdated(jobs[id]);
    }

    // ---------- retention ----------

    /** The completed jobs, found in any order. */
    method CompletedJobs() returns (found: seq<JobId>)
      ensures Distinct(found) && forall id :: id in found <==> id in Scheduler.CompletedJobs(St())
    {
      found := [];
      var left := jobs.Keys;
      while left != {}
        invariant left <= jobs.Keys && Distinct(found)
        invariant forall id :: id in found <==> id in jobs && id !in left && jobs[id].IsCompleted()
        decreases |left|
      {
        var id :| id in left;
        left := left - {id};
        if jobs[id].IsCompleted() {
          found := found + [id];
        }
      }
    }

    method SortByLastUpdate(found: seq<JobId>) returns (order: seq<JobId>)
      requires Distinct(found) && forall id :: id in found <==> id in Scheduler.CompletedJobs(St())
      ensures Scheduler.ByLastUpdate(St(), order)
    {
      order := [];
      for i := 0 to |found|
        invariant Distinct(order) && forall id :: id in order <==> id in found[..i]
        invariant InUpdateOrder(jobs, order)
      {
        assert found[..i + 1] == found[..i] + [found[i]];
        assert found[i] in found;
        order := PlaceByLastUpdate(order, found[i]);
      }
      assert found[..|found|] == found;
    }

    method PlaceByLastUpdate(order: seq<JobId>, id: JobId) returns (r: seq<JobId>)
      requires InUpdateOrder(jobs, order) && Distinct(order) && id !in order && id in jobs
      ensures InUpdateOrder(jobs, r) && Distinct(r) && forall k :: k in r <==> k in order || k == id
    {
      var i := 0;
      while i < |order| && jobs[order[i]].LastUpdate() <= jobs[id].LastUpdate()
        invariant 0 <= i <= |order|
        invariant forall k :: 0 <= k < i ==> jobs[order[k]].LastUpdate() <= jobs[id].LastUpdate()
      {
        i := i + 1;
      }
      r := order[..i] + [id] + order[i..];
      PlacedInOrder(jobs, order, id, i);
      PlacedOnce(order, id, i);
      hide InUpdateOrder, Distinct;
    }

    /** deleteOldCompletedJobsLocked; `order` is the order the sort chose. */
    method DeleteOldCompletedJobs(now: int) returns (ghost order: seq<JobId>)
      requires Valid()
      modifies Repr()
      ensures Valid() && forall o :: o in Repr() ==> o in old(Repr()) || fresh(o)
      ensures cfg.retention ==> Scheduler.ByLastUpdate(old(St()), order)
      ensures St() == Scheduler.CheckRetention(cfg, old(St()), order, now)
    {
      hide QueuedJobs.AllIndex, QueuedJobs.TopicIndex, QueuedJobs.Contents, QueuedJobs.Footprint,
        ServiceMetrics.ShowTable, ServiceMetrics.Footprint, PriorityQueue.Linked, PriorityQueue.Footprint,
        PriorityQueue.Contents, TicketsOf;
      hide Scheduler.ByLastUpdate, Scheduler.Retain, Scheduler.CompletedJobs;
      order := [];
      if !cfg.retention {
        return;
      }
      var found := CompletedJobs();
      var sorted := SortByLastUpdate(found);
      order := sorted;
      hide Valid, Repr, PriorityQueue.Contents;
      var excess := if cfg.maxCompleted >= 0 && |sorted| > cfg.maxCompleted then |sorted| - cfg.maxCompleted else 0;
      DeleteOldest(sorted, excess, now);
    }

    method DeleteOldest(order: seq<JobId>, excess: nat, now: int)
      requires Valid()
      modifies Repr()
      ensures Valid() && forall o :: o in Repr() ==> o in old(Repr()) || fresh(o)
      ensures St() == Scheduler.Retain(cfg, old(St()), order, excess, 0, now)
    {
      hide Valid, Repr, PriorityQueue.Contents, Scheduler.DeleteJob;
      var deleted: nat := 0;
      for i := 0 to |order|
        invariant Valid() && forall o :: o in Repr() ==> o in old(Repr()) || fresh(o)
        invariant Scheduler.Retain(cfg, St(), order[i..], excess, deleted, now)
               == Scheduler.Retain(cfg, old(St()), order, excess, 0, now)
      {
        assert order[i..][0] == order[i] && order[i..][1..] == order[i + 1..];
        if order[i] in jobs && (deleted < excess || now - jobs[order[i]].LastUpdate() >= Scheduler.AgeLimit(cfg)) {
          var ok := DeleteJob(order[i], now);
          deleted := deleted + 1;
        }
      }
      assert order[|order|..] == [];
    }

    // ---------- loading ----------

    /** The jobs of the backend, with the states of their histories. */
    method Adopt()
      requires Valid() && jobs == map[] && Loadable(bp.file)
      modifies Repr()
      ensures Valid() && forall o :: o in Repr() ==> o in old(Repr()) || fresh(o)
      ensures St() == old(St()).(jobs := Reload(old(bp.file)), saved := Reload(old(bp.file)))
    {
      hide Provider.Tracked;
      hide QueuedJobs.AllIndex, QueuedJobs.TopicIndex, QueuedJobs.Contents, QueuedJobs.Footprint,
        ServiceMetrics.ShowTable, ServiceMetrics.Footprint, PriorityQueue.Linked, PriorityQueue.Footprint,
        PriorityQueue.Contents;
      var loaded := bp.LoadJobs();
      TicketsKept(jobs, loaded, queuedIds);
      hide TicketsOf;
      jobs := loaded;
    }

    /** The loaded jobs claim their locks. */
    method ClaimLocks(ids: seq<JobId>)
      requires Valid() && forall id :: id in ids ==> id in jobs
      modifies Repr()
      ensures Valid() && forall o :: o in Repr() ==> o in old(Repr()) || fresh(o)
      ensures St() == old(St()).(locks := ClaimedBy(old(jobs), ids))
    {
      hide QueuedJobs.AllIndex, QueuedJobs.TopicIndex, QueuedJobs.Contents, QueuedJobs.Footprint,
        ServiceMetrics.ShowTable, ServiceMetrics.Footprint, PriorityQueue.Linked, PriorityQueue.Footprint,
        PriorityQueue.Contents, TicketsOf, ClaimedBy;
      resourcesManager.LockResourcesForJobs(jobs, ids);
    }

    method AllIds() returns (ids: seq<JobId>)
      ensures ids == SortedIds(jobs.Keys)
    {
      var condition := (j: JobValue) => true;
      ids := SortedJobIds(condition);
      assert Chosen(jobs, condition) == jobs.Keys;
    }

    /** The container of the state of a loaded job; a hidden job may be retried now. */
    method PlaceLoaded(id: JobId, now: int)
      requires Valid() && id in jobs
      modifies Repr()
      ensures Valid() && forall o :: o in Repr() ==> o in old(Repr()) || fresh(o)
      ensures St() == Restart.Placed(old(St()), id, now)
    {
      hide Valid, Repr, PriorityQueue.Contents, Inserted;
      var j := jobs[id];
      match j.state {
        case IsPending => SetPendingJobs(pendingJobs + {id});
        case IsQueued => IndexAdd(id);
        case IsHidden => EnqueueRetry(id, -now);
        case IsDelayed => EnqueueDelayed(id, -j.spec.startAfter);
        case _ =>
      }
    }

    /** One loaded job goes to the container of its state and is counted. */
    method LoadOne(id: JobId, now: int)
      requires Valid() && id in jobs
      modifies Repr()
      ensures Valid() && forall o :: o in Repr() ==> o in old(Repr()) || fresh(o)
      ensures St() == Restart.LoadOne(old(St()), id, now)
      ensures jobs == old(jobs) && metrics.table.Keys == old(metrics.table).Keys + {jobs[id].spec.topic}
    {
      hide Valid, Repr, PriorityQueue.Contents, LoadedOnce, LocksAdded, Inserted;
      var j := jobs[id];
      PlaceLoaded(id, now);
      CountLoaded(j);
      CountLocked(j.spec.topic, 0);
    }

    method LoadEach(ids: seq<JobId>, now: int)
      requires Valid() && forall id :: id in ids ==> id in jobs
      modifies Repr()
      ensures Valid() && forall o :: o in Repr() ==> o in old(Repr()) || fresh(o)
      ensures St() == Restart.LoadEach(old(St()), ids, now)
      ensures jobs == old(jobs) && forall id :: id in ids ==> jobs[id].spec.topic in metrics.table
    {
      hide Valid, Repr, PriorityQueue.Contents, Inserted, Restart.LoadOne;
      for i := 0 to |ids|
        invariant Valid() && forall o :: o in Repr() ==> o in old(Repr()) || fresh(o)
        invariant jobs == old(jobs) && St() == Restart.LoadEach(old(St()), ids[..i], now)
        invariant forall k :: 0 <= k < i ==> jobs[ids[k]].spec.topic in metrics.table
      {
        assert ids[..i + 1][..i] == ids[..i];
        LoadOne(ids[i], now);
      }
      assert ids[..|ids|] == ids;
    }

    /** How many locks the jobs of each topic hold. */
    method CountLocks() returns (counts: map<Topic, nat>)
      ensures forall t :: (if t in counts then counts[t] else 0) == |LocksOf(resourcesManager.lockedResources, jobs, t)|
      ensures forall t :: t in counts ==> exists id :: id in jobs && jobs[id].spec.topic == t
    {
      var locks := resourcesManager.lockedResources;
      counts := map[];
      var left := locks.Keys;
      ghost var seen: LockTable := map[];
      while left != {}
        invariant left <= locks.Keys && seen == map r | r in locks && r !in left :: locks[r]
        invariant forall t :: (if t in counts then counts[t] else 0) == |LocksOf(seen, jobs, t)|
        invariant forall t :: t in counts ==> exists id :: id in jobs && jobs[id].spec.topic == t
        decreases |left|
      {
        var r :| r in left;
        left := left - {r};
        LockSeen(seen, jobs, r, locks[r]);
        seen := seen[r := locks[r]];
        if locks[r] in jobs {
          var t := jobs[locks[r]].spec.topic;
          counts := counts[t := (if t in counts then counts[t] else 0) + 1];
        }
      }
      assert seen == locks;
    }

    method CountLoadedLocks()
      requires Valid() && forall id :: id in jobs ==> jobs[id].spec.topic in metrics.table
      modifies Repr()
      ensures Valid() && forall o :: o in Repr() ==> o in old(Repr()) || fresh(o)
      ensures St() == Restart.LocksCounted(old(St()))
    {
      hide QueuedJobs.AllIndex, QueuedJobs.TopicIndex, QueuedJobs.Contents, QueuedJobs.Footprint,
        ServiceMetrics.ShowTable, ServiceMetrics.Footprint, PriorityQueue.Linked, PriorityQueue.Footprint,
        PriorityQueue.Contents, TicketsOf, LocksOf, CountsAdded, Restart.LocksCounted;
      PartsAreAllocated();
      assert forall o :: o in Repr() ==> allocated(o);
      var counts := CountLocks();
      assert Valid();
      hide Valid, Repr, PriorityQueue.Contents;
      LocksCountedOf(St(), counts);
      CountLocksOf(counts);
    }

    /** The counts are added topic by topic, in any order. */
    method CountLocksOf(counts: map<Topic, nat>)
      requires Valid() && counts.Keys <= metrics.table.Keys
      modifies Repr()
      ensures Valid() && forall o :: o in Repr() ==> o in old(Repr()) || fresh(o)
      ensures St() == old(St()).(metrics := CountsAdded(old(metrics.table), counts, {}))
    {
      hide Valid, Repr, PriorityQueue.Contents, CountsAdded;
      var left := counts.Keys;
      CountsAddedSoFar(metrics.table, counts, left);
      while left != {}
        invariant left <= counts.Keys
        invariant Valid() && forall o :: o in Repr() ==> o in old(Repr()) || fresh(o)
        invariant St() == old(St()).(metrics := CountsAdded(old(metrics.table), counts, left))
        decreases left
      {
        var t :| t in left;
        CountsAddedSoFar(old(metrics.table), counts, left);
        CountLocked(t, counts[t]);
        left := left - {t};
      }
    }

    /** The jobs that were not scheduled before the stop are scheduled like new ones. */
    method ScheduleEach(ids: seq<JobId>, now: int)
      requires Valid()
      modifies Repr()
      ensures Valid() && forall o :: o in Repr() ==> o in old(Repr()) || fresh(o)
      ensures St() == Restart.ScheduleEach(old(St()), ids, now)
    {
      hide Valid, Repr, PriorityQueue.Contents, Scheduler.SetDelayed, Scheduler.SetPending,
        Scheduler.TooEarly;
      for i := 0 to |ids|
        invariant Valid() && forall o :: o in Repr() ==> o in old(Repr()) || fresh(o)
        invariant Restart.ScheduleEach(St(), ids[i..], now) == Restart.ScheduleEach(old(St()), ids, now)
      {
        assert ids[i..][0] == ids[i] && ids[i..][1..] == ids[i + 1..];
        if ids[i] in jobs {
          if Scheduler.TooEarly(jobs[ids[i]], now) {
            SetJobStateToDelayed(ids[i], now);
          } else {
            SetJobStateToPending(ids[i], now);
          }
        }
      }
      assert ids[|ids|..] == [];
    }

    /** The stored jobs, their locks, their containers and their counters. */
    method LoadStored(now: int)
      requires Valid() && St() == Scheduler.EMPTY && Loadable(bp.file)
      modifies Repr()
      ensures Valid() && forall o :: o in Repr() ==> o in old(Repr()) || fresh(o)
      ensures St() == Restart.LoadStored(old(bp.file), now)
    {
      hide QueuedJobs.AllIndex, QueuedJobs.TopicIndex, QueuedJobs.Contents, QueuedJobs.Footprint,
        ServiceMetrics.ShowTable, ServiceMetrics.Footprint, PriorityQueue.Linked, PriorityQueue.Footprint,
        PriorityQueue.Contents, TicketsOf;
      hide ClaimedBy, SortedIds, Restart.LoadEach, Restart.LocksCounted, Reload, Loadable;
      Adopt();
      var ids := AllIds();
      hide Valid, Repr, PriorityQueue.Contents;
      ClaimLocks(ids);
      LoadEach(ids, now);
      CountLoadedLocks();
    }

    /** LoadJobs of a fresh service. */
    method LoadJobs(now: int)
      requires Valid() && St() == Scheduler.EMPTY && Loadable(bp.file)
      modifies Repr()
      ensures Valid() && forall o :: o in Repr() ==> o in old(Repr()) || fresh(o)
      ensures St() == Restart.LoadJobs(old(bp.file), now)
    {
      hide QueuedJobs.AllIndex, QueuedJobs.TopicIndex, QueuedJobs.Contents, QueuedJobs.Footprint,
        ServiceMetrics.ShowTable, ServiceMetrics.Footprint, PriorityQueue.Linked, PriorityQueue.Footprint,
        PriorityQueue.Contents, TicketsOf;
      hide ClaimedBy, SortedIds, Restart.LoadStored, Restart.ScheduleEach, Scheduler.Admit;
      LoadStored(now);
      var created := CreatedIds();
      hide Valid, Repr, PriorityQueue.Contents;
      if |created| > 0 {
        ScheduleEach(created, now);
        TryEnqueuePendingJobs(now);
      }
    }

    method CreatedIds() returns (ids: seq<JobId>)
      ensures ids == SortedIds(Invariants.InState(jobs, IsCreated))
    {
      var condition := (j: JobValue) => j.state == IsCreated;
      ids := SortedJobIds(condition);
      assert Chosen(jobs, condition) == Invariants.InState(jobs, IsCreated);
    }
  }

  /** NewService. */
  method NewService(cfg: Scheduler.Config, bp: Provider) returns (svc: Service)
    requires bp.Valid() && bp.maxJobs == cfg.backendMaxJobs && !bp.restoreFlag && bp.jobs == map[]
    ensures svc.Valid() && svc.St() == Scheduler.EMPTY && svc.cfg == cfg && svc.bp == bp && fresh(svc.Repr() - {bp})
  {
    hide QueuedJobs.AllIndex, QueuedJobs.TopicIndex, QueuedJobs.Contents, QueuedJobs.Footprint,
      ServiceMetrics.ShowTable, ServiceMetrics.Footprint, PriorityQueue.Linked, PriorityQueue.Footprint,
      PriorityQueue.Contents;
    hide Service.Valid, Service.St, Service.Repr;
    var resourcesManager := new ResourcesManager();
    var metrics := new ServiceMetrics();
    metrics.FootprintIsAllocated();
    var pqRetryJobs := new PriorityQueue<JobId>();
    pqRetryJobs.FootprintIsAllocated();
    var pqDelayedJobs := new PriorityQueue<JobId>();
    pqDelayedJobs.FootprintIsAllocated();
    var queuedJobs := new QueuedJobs();
    svc := new Service(cfg, bp, resourcesManager, metrics, pqRetryJobs, pqDelayedJobs, queuedJobs);
  }

  /** Queued jobs, each once. */
  ghost predicate Startable(jobs: map<JobId, JobValue>, q: seq<Ticket>) {
    && (forall i :: 0 <= i < |q| ==> q[i].id in jobs && jobs[q[i].id].state == IsQueued)
    && forall i, j :: 0 <= i < j < |q| ==> q[i].id != q[j].id
  }

  lemma OneFailureMore(j: JobValue, now: int)
    ensures j.AddEvent(Fail, now).Failures() == j.Failures() + 1
  {
    CountAppend(j.history, HistoryEvent(Fail, now), Fail);
  }

  /** What a pull takes from an index of queued jobs. */
  lemma {:induction false} BestIsStartable(s: Scheduler.State, q: seq<Ticket>, topic: Topic, n: nat)
    requires HaveHistories(s.jobs, s.queued) && forall id :: id in s.queued ==> s.jobs[id].state == IsQueued
    requires q == Scheduler.Best(s, topic, n)
    ensures Startable(s.jobs, q) && FirstInLine(s.jobs, WaitingFor(s.jobs, s.queued, topic), n, IdsIn(q))
  {
    hide FirstTickets, TicketsOf, FirstInLine, OneTicketPerJob;
    FirstTicketsAreFirstInLine(s.jobs, s.queued, topic, n, q);
    hide Scheduler.Best;
    LineIsDistinct(s.jobs, WaitingFor(s.jobs, s.queued, topic), n, IdsIn(q));
    LineIsStartable(s.jobs, s.queued, topic, q);
  }

  lemma LineIsStartable(jobs: map<JobId, JobValue>, queued: set<JobId>, topic: Topic, q: seq<Ticket>)
    requires forall id :: id in queued ==> id in jobs && jobs[id].state == IsQueued
    requires forall k :: k in IdsIn(q) ==> k in WaitingFor(jobs, queued, topic)
    requires forall i, j :: 0 <= i < j < |q| ==> IdsIn(q)[i] != IdsIn(q)[j]
    ensures Startable(jobs, q)
  {
    forall i | 0 <= i < |q| ensures q[i].id in queued {
      assert IdsIn(q)[i] in IdsIn(q);
    }
    forall i, j | 0 <= i < j < |q| ensures q[i].id != q[j].id {
      assert IdsIn(q)[i] != IdsIn(q)[j];
    }
  }

  lemma {:induction false} LineIsDistinct(jobs: map<JobId, JobValue>, waiting: set<JobId>, n: nat, q: seq<JobId>)
    requires FirstInLine(jobs, waiting, n, q)
    ensures forall k :: k in q ==> k in waiting
    ensures forall i, j :: 0 <= i < j < |q| ==> q[i] != q[j]
  {
    hide Outranks;
    forall i, j | 0 <= i < j < |q| ensures q[i] != q[j] {
      assert Outranks(jobs, q[i], q[j]);
      RankIsStrict(jobs, q[i], q[j]);
    }
  }

  ghost predicate InUpdateOrder(jobs: map<JobId, JobValue>, order: seq<JobId>) {
    && (forall id :: id in order ==> id in jobs)
    && forall i, j :: 0 <= i < j < |order| ==> jobs[order[i]].LastUpdate() <= jobs[order[j]].LastUpdate()
  }

  lemma PlacedInOrder(jobs: map<JobId, JobValue>, order: seq<JobId>, id: JobId, i: nat)
    requires InUpdateOrder(jobs, order) && id in jobs && i <= |order|
    requires forall k :: 0 <= k < i ==> jobs[order[k]].LastUpdate() <= jobs[id].LastUpdate()
    requires i < |order| ==> jobs[order[i]].LastUpdate() > jobs[id].LastUpdate()
    ensures InUpdateOrder(jobs, order[..i] + [id] + order[i..])
  {
    hide JobValue.LastUpdate;
    assert forall k :: i <= k < |order| ==> jobs[order[i]].LastUpdate() <= jobs[order[k]].LastUpdate();
  }

  lemma PlacedOnce(order: seq<JobId>, id: JobId, i: nat)
    requires Distinct(order) && id !in order && i <= |order|
    ensures var r := order[..i] + [id] + order[i..]; Distinct(r) && forall k :: k in r <==> k in order || k == id
  {
  }

  lemma LockSeen(seen: LockTable, jobs: map<JobId, JobValue>, r: Resource, owner: JobId)
    requires r !in seen
    ensures forall t :: |LocksOf(seen[r := owner], jobs, t)|
                     == |LocksOf(seen, jobs, t)| + if owner in jobs && jobs[owner].spec.topic == t then 1 else 0
  {
    forall t ensures |LocksOf(seen[r := owner], jobs, t)|
                     == |LocksOf(seen, jobs, t)| + if owner in jobs && jobs[owner].spec.topic == t then 1 else 0 {
      if owner in jobs && jobs[owner].spec.topic == t {
        assert LocksOf(seen[r := owner], jobs, t) == LocksOf(seen, jobs, t) + {r};
      } else {
        assert LocksOf(seen[r := owner], jobs, t) == LocksOf(seen, jobs, t);
      }
    }
  }

  lemma NoLockAdded(c: Counters)
    ensures LocksAdded(c, 0) == c
  {
  }

  /** The lock counters when the counts of all topics but those of a set were added. */
  ghost function CountsAdded(m: Table, counts: map<Topic, nat>, left: set<Topic>): Table {
    map t | t in m :: if t in counts && t !in left then LocksAdded(m[t], counts[t]) else m[t]
  }

  lemma CountsAddedSoFar(m: Table, counts: map<Topic, nat>, left: set<Topic>)
    requires counts.Keys <= m.Keys
    ensures left == counts.Keys ==> CountsAdded(m, counts, left) == m
    ensures forall t :: t in left && t in counts ==>
              CountsAdded(m, counts, left - {t}) == LocksNotified(CountsAdded(m, counts, left), t, counts[t])
  {
    hide LocksAdded;
  }

  lemma LocksCountedOf(s: Scheduler.State, counts: map<Topic, nat>)
    requires forall t :: (if t in counts then counts[t] else 0) == |LocksOf(s.locks, s.jobs, t)|
    requires forall t :: t in counts ==> exists id :: id in s.jobs && s.jobs[id].spec.topic == t
    requires forall id :: id in s.jobs ==> s.jobs[id].spec.topic in s.metrics
    ensures counts.Keys <= s.metrics.Keys
    ensures s.(metrics := CountsAdded(s.metrics, counts, {})) == Restart.LocksCounted(s)
  {
    forall t | t in s.metrics ensures LocksAdded(s.metrics[t], 0) == s.metrics[t] {
      NoLockAdded(s.metrics[t]);
    }
    hide LocksAdded, LocksOf;
  }

  ghost function Chosen(jobs: map<JobId, JobValue>, condition: JobValue -> bool): set<JobId> {
    set id | id in jobs && condition(jobs[id])
  }

  lemma QueuesKept(s: Scheduler.State, id: JobId, now: int)
    requires id in s.jobs
    ensures Scheduler.MakeQueued(s, id, now).retry == s.retry
    ensures Scheduler.SetPending(s, id, now).delayed == s.delayed
  {
  }

  lemma SortedIdsIn(found: seq<JobId>, ids: seq<JobId>, s: set<JobId>)
    requires Distinct(found) && forall id :: id in found <==> id in s
    requires StrictTotal(IdBefore, Elements(found)) && ids == Arrange(IdBefore, Elements(found))
    ensures ids == SortedIds(s)
  {
    assert Elements(found) == s;
  }

  lemma EmptyHasNoBest(s: Scheduler.State, topic: Topic, n: nat)
    requires s.jobs == map[]
    ensures Scheduler.Best(s, topic, n) == []
  {
    assert Matching(TicketsOf(s.jobs, s.queued), topic) == {};
    BeforeIsStrictTotal({});
  }

  lemma TicketHasId(id: JobId, j: JobValue)
    ensures TicketOf(id, j).id == id
  {
  }

  lemma OrderOfPass(s: Scheduler.State, found: seq<Ticket>, q: seq<Ticket>)
    requires forall t :: t in found <==> t.id in Scheduler.Candidates(s) && t == TicketOf(t.id, s.jobs[t.id])
    requires StrictTotal(Before, Elements(found)) && q == Arrange(Before, Elements(found))
    ensures q == Scheduler.PassOrder(s)
  {
    hide Before, TicketOf;
    assert Elements(found) == TicketsOf(s.jobs, Scheduler.Candidates(s));
  }

  lemma EventKeepsTicket(id: JobId, j: JobValue, e: EventType, now: int)
    requires j.history != []
    ensures TicketOf(id, j.AddEvent(e, now)) == TicketOf(id, j) && j.AddEvent(e, now).history != []
    ensures j.AddEvent(e, now).state == StateFromEvent(e)
  {
  }

  lemma NoTickets()
    ensures TicketsOf(map[], {}) == {}
  {
  }

  lemma TicketsWith(jobs: map<JobId, JobValue>, ids: set<JobId>, id: JobId)
    requires id in jobs
    ensures TicketsOf(jobs, ids + {id}) == TicketsOf(jobs, ids) + {TicketOf(id, jobs[id])}
  {
  }

  lemma TicketsWithout(jobs: map<JobId, JobValue>, ids: set<JobId>, id: JobId)
    ensures TicketsOf(jobs, ids - {id}) == set t | t in TicketsOf(jobs, ids) && t.id != id
  {
  }

  lemma TicketsKept(jobs: map<JobId, JobValue>, jobs': map<JobId, JobValue>, ids: set<JobId>)
    requires forall id :: id in ids ==> id in jobs && id in jobs' && TicketOf(id, jobs'[id]) == TicketOf(id, jobs[id])
    ensures TicketsOf(jobs', ids) == TicketsOf(jobs, ids)
  {
  }

  lemma NothingReleased(locks: LockTable, id: JobId, needs: set<Resource>)
    requires |Freed(locks, id, needs)| == 0
    ensures Released(locks, id, needs) == locks
  {
    assert Freed(locks, id, needs) == {};
    assert forall r :: r in needs && r in locks && locks[r] == id ==> r in Freed(locks, id, needs);
  }
}
