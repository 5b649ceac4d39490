/** The table of locked resources (service/resourcesmanager.go). */
module Resources {
  import opened Jobs

  type LockTable = map<Resource, JobId>

  // ---------- the table as a value ----------

  /** The names a job lists, each once. */
  ghost function NamesIn(listed: seq<Resource>): set<Resource> {
    set r | r in listed
  }

  /** requiresLockedResources: some resource of the job is held by another job. */
  ghost predicate Blocked(locks: LockTable, id: JobId, needs: set<Resource>) {
    exists r :: r in needs && r in locks && locks[r] != id
  }

  /** The table once the job holds everything it needs, when nothing blocks it. */
  ghost function Locked(locks: LockTable, id: JobId, needs: set<Resource>): LockTable {
    (map r | r in needs :: id) + locks
  }

  /** The table without what the job holds among the resources it lists. */
  ghost function Released(locks: LockTable, id: JobId, needs: set<Resource>): LockTable {
    map r | r in locks && !(r in needs && locks[r] == id) :: locks[r]
  }

  /** The resources that locking takes for the job. */
  ghost function Acquired(locks: LockTable, needs: set<Resource>): set<Resource> {
    set r | r in needs && r !in locks
  }

  /** The resources that unlocking gives back. */
  ghost function Freed(locks: LockTable, id: JobId, needs: set<Resource>): set<Resource> {
    set r | r in needs && r in locks && locks[r] == id
  }

  /** The job holds each resource it lists. */
  ghost predicate HoldsAll(locks: LockTable, id: JobId, needs: set<Resource>) {
    forall r :: r in needs ==> r in locks && locks[r] == id
  }

  predicate UsesLocks(s: JobState) {
    s == IsQueued || s == IsRunning
  }

  /** LockResourcesForJobs: the queued and running jobs of an ascending list of ids claim what
      they list, a later claim replacing an earlier one. */
  ghost function ClaimedBy(jobs: map<JobId, JobValue>, ids: seq<JobId>): LockTable
    requires forall id :: id in ids ==> id in jobs
  {
    if ids == [] then map[] else
      var j := jobs[ids[|ids| - 1]];
      var before := ClaimedBy(jobs, ids[..|ids| - 1]);
      if UsesLocks(j.state) then before + (map r | r in NamesIn(j.spec.lockResources) :: ids[|ids| - 1]) else before
  }

  /** All or none: afterwards an unblocked job holds everything, and unlocking it again
      gives the table back when it held nothing. */
  lemma LockThenRelease(locks: LockTable, id: JobId, needs: set<Resource>)
    requires !Blocked(locks, id, needs)
    ensures HoldsAll(Locked(locks, id, needs), id, needs)
    ensures Freed(locks, id, needs) == {} ==> Released(Locked(locks, id, needs), id, needs) == locks
  {
    if Freed(locks, id, needs) == {} {
      assert forall r :: r in needs && r in locks ==> r !in Freed(locks, id, needs);
    }
  }

  lemma AcquireOneMore(locks: LockTable, needs: set<Resource>, r: Resource)
    ensures |Acquired(locks, needs + {r})|
         == |Acquired(locks, needs)| + if r !in needs && r !in locks then 1 else 0
  {
    if r !in needs && r !in locks {
      assert Acquired(locks, needs + {r}) == Acquired(locks, needs) + {r};
    } else {
      assert Acquired(locks, needs + {r}) == Acquired(locks, needs);
    }
  }

  lemma LockOneMore(locks: LockTable, id: JobId, needs: set<Resource>, r: Resource)
    ensures var before := Locked(locks, id, needs);
            && (r in before <==> r in needs || r in locks)
            && Locked(locks, id, needs + {r}) == if r in before then before else before[r := id]
  {
  }

  // ---------- the manager ----------

  class ResourcesManager {
    var lockedResources: LockTable

    constructor ()
      ensures lockedResources == map[]
    {
      lockedResources := map[];
    }

    /** Locks every resource of the job or none; a resource it holds already is kept and a
        name listed twice is locked once. */
    method LockResources(id: JobId, listed: seq<Resource>) returns (ok: bool, acquired: nat)
      modifies this
      ensures ok <==> !Blocked(old(lockedResources), id, NamesIn(listed))
      ensures ok ==> lockedResources == Locked(old(lockedResources), id, NamesIn(listed))
      ensures ok ==> acquired == |Acquired(old(lockedResources), NamesIn(listed))|
      ensures !ok ==> lockedResources == old(lockedResources) && acquired == 0
    {
      for i := 0 to |listed|
        invariant !Blocked(lockedResources, id, NamesIn(listed[..i]))
      {
        assert NamesIn(listed[..i + 1]) == NamesIn(listed[..i]) + {listed[i]};
        if listed[i] in lockedResources && lockedResources[listed[i]] != id {
          assert listed[i] in NamesIn(listed);
          return false, 0;
        }
      }
      assert listed[..|listed|] == listed;
      acquired := 0;
      for i := 0 to |listed|
        invariant lockedResources == Locked(old(lockedResources), id, NamesIn(listed[..i]))
        invariant acquired == |Acquired(old(lockedResources), NamesIn(listed[..i]))|
      {
        var r := listed[i];
        LockOneMore(old(lockedResources), id, NamesIn(listed[..i]), r);
        AcquireOneMore(old(lockedResources), NamesIn(listed[..i]), r);
        assert NamesIn(listed[..i + 1]) == NamesIn(listed[..i]) + {r};
        hide Locked, Acquired, NamesIn;
        if r !in lockedResources {
          lockedResources := lockedResources[r := id];
          acquired := acquired + 1;
        }
      }
      ok := true;
    }

    /** Releases only what the job holds, and lists it. */
    method UnlockResources(id: JobId, listed: seq<Resource>) returns (released: seq<Resource>)
      modifies this
      ensures lockedResources == Released(old(lockedResources), id, NamesIn(listed))
      ensures |released| == |Freed(old(lockedResources), id, NamesIn(listed))|
      ensures forall r :: r in released <==> r in Freed(old(lockedResources), id, NamesIn(listed))
    {
      released := [];
      for i := 0 to |listed|
        invariant lockedResources == Released(old(lockedResources), id, NamesIn(listed[..i]))
        invariant |released| == |Freed(old(lockedResources), id, NamesIn(listed[..i]))|
        invariant forall r :: r in released <==> r in Freed(old(lockedResources), id, NamesIn(listed[..i]))
      {
        var r := listed[i];
        assert NamesIn(listed[..i + 1]) == NamesIn(listed[..i]) + {r};
        if r in lockedResources && lockedResources[r] == id {
          assert Freed(old(lockedResources), id, NamesIn(listed[..i + 1]))
              == Freed(old(lockedResources), id, NamesIn(listed[..i])) + {r};
          lockedResources := lockedResources - {r};
          released := released + [r];
        } else {
          assert Freed(old(lockedResources), id, NamesIn(listed[..i + 1]))
              == Freed(old(lockedResources), id, NamesIn(listed[..i]));
        }
      }
      assert listed[..|listed|] == listed;
    }

    method UnlockResource(r: Resource) returns (found: bool)
      modifies this
      ensures found <==> r in old(lockedResources)
      ensures lockedResources == old(lockedResources) - {r}
    {
      found := r in lockedResources;
      lockedResources := lockedResources - {r};
    }

    method UnlockAllResources()
      modifies this
      ensures lockedResources == map[]
    {
      lockedResources := map[];
    }

    method Claim(id: JobId, listed: seq<Resource>)
      modifies this
      ensures lockedResources == old(lockedResources) + (map r | r in NamesIn(listed) :: id)
    {
      for k := 0 to |listed|
        invariant lockedResources == old(lockedResources) + (map r | r in NamesIn(listed[..k]) :: id)
      {
        assert NamesIn(listed[..k + 1]) == NamesIn(listed[..k]) + {listed[k]};
        lockedResources := lockedResources[listed[k] := id];
      }
      assert listed[..|listed|] == listed;
    }

    /** Rebuilds the table from loaded jobs, in id order. */
    method LockResourcesForJobs(jobs: map<JobId, JobValue>, ids: seq<JobId>)
      requires forall id :: id in ids ==> id in jobs
      modifies this
      ensures lockedResources == ClaimedBy(jobs, ids)
    {
      lockedResources := map[];
      for i := 0 to |ids|
        invariant lockedResources == ClaimedBy(jobs, ids[..i])
      {
        assert ids[..i + 1][..i] == ids[..i];
        var j := jobs[ids[i]];
        if UsesLocks(j.state) {
          Claim(ids[i], j.spec.lockResources);
        }
      }
      assert ids[..|ids|] == ids;
    }
  }
}
