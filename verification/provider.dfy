/** The in-memory provider: the copies it keeps of the jobs, and their file
    (inmemoryprovider.go, with persistent storage), and the life of its loop (lifecycle.go). */
module InMemoryProvider {
  import opened Jobs

  // ---------- the mirror ----------

  /** What an event of a job does to the copies the provider keeps. */
  function Mirrored(saved: map<JobId, JobValue>, j: JobValue, e: EventType, maxJobs: nat): map<JobId, JobValue> {
    match e
    case Create => if |saved| == maxJobs then saved else saved[j.id := j]
    case Delete => saved - {j.id}
    case _ => if j.id in saved then saved[j.id := j] else saved
  }

  /** States computed from histories stay when they are computed again. */
  lemma ReloadTwice(stored: map<JobId, JobValue>)
    ensures Reload(Reload(stored)) == Reload(stored)
  {
  }

  // ---------- the provider ----------

  class Provider {
    const maxJobs: nat
    var jobs: map<JobId, JobValue>
    var generation: nat
    var savedGeneration: nat
    var restoreFlag: bool
    /** The content of the storage file. */
    var file: map<JobId, JobValue>

    ghost predicate Valid()
      reads this
    {
      maxJobs > 0 && savedGeneration <= generation
    }

    /** The generations tell whether the file is up to date: once the jobs were loaded. */
    ghost predicate Tracked()
      reads this
    {
      savedGeneration == generation ==> Reload(file) == Reload(jobs)
    }

    constructor (maxJobs: nat, file: map<JobId, JobValue>)
      requires maxJobs > 0
      ensures this.maxJobs == maxJobs && jobs == map[] && this.file == file && !restoreFlag
      ensures generation == savedGeneration == 0 && Valid()
    {
      this.maxJobs := maxJobs;
      this.file := file;
      jobs, generation, savedGeneration, restoreFlag := map[], 0, 0, false;
    }

    /** LoadJobs: what the file holds, with the states of the histories; the caller gets its own copies. */
    method LoadJobs() returns (loaded: map<JobId, JobValue>)
      requires Valid()
      modifies `jobs, `savedGeneration
      ensures Valid() && Tracked() && jobs == loaded == Reload(file) && savedGeneration == generation
    {
      jobs := Reload(file);
      loaded := jobs;
      savedGeneration := generation;
      ReloadTwice(file);
    }

    method SetRestoreFlag(enabled: bool)
      modifies `restoreFlag
      ensures restoreFlag == enabled
    {
      restoreFlag := enabled;
    }

    method NotifyChange()
      modifies `generation
      ensures generation == old(generation) + 1
    {
      generation := generation + 1;
    }

    method OnJobCreated(j: JobValue) returns (kept: bool)
      requires Valid()
      modifies `jobs, `generation
      ensures Valid() && (old(Tracked()) ==> Tracked()) && kept == (|old(jobs)| != maxJobs)
      ensures jobs == Mirrored(old(jobs), j, Create, maxJobs)
      ensures generation == if kept then old(generation) + 1 else old(generation)
    {
      if |jobs| == maxJobs {
        return false;
      }
      jobs := jobs[j.id := j];
      NotifyChange();
      kept := true;
    }

    method OnJobDeleted(id: JobId)
      requires Valid()
      modifies `jobs, `generation
      ensures Valid() && Tracked() && jobs == old(jobs) - {id} && generation == old(generation) + 1
    {
      jobs := jobs - {id};
      NotifyChange();
    }

    method OnJobsDeleted()
      requires Valid()
      modifies `jobs, `generation
      ensures Valid() && Tracked() && jobs == map[] && generation == old(generation) + 1
    {
      jobs := map[];
      NotifyChange();
    }

    method OnJobUpdated(j: JobValue)
      requires Valid()
      modifies `jobs, `generation
      ensures Valid() && Tracked() && generation == old(generation) + 1
      ensures jobs == if j.id in old(jobs) then old(jobs)[j.id := j] else old(jobs)
    {
      if j.id in jobs {
        jobs := jobs[j.id := j];
      }
      NotifyChange();
    }

    /** NotifyJobEvent: a copy of the job as it is now, then the handler of the event. The retry
        event is never sent. */
    method NotifyJobEvent(j: JobValue, e: EventType)
      requires Valid() && e != Retry
      modifies `jobs, `generation
      ensures Valid() && (old(Tracked()) ==> Tracked())
      ensures jobs == if restoreFlag then old(jobs) else Mirrored(old(jobs), j, e, maxJobs)
    {
      if restoreFlag {
        return;
      }
      if e != Delete && e != Create && j.id in jobs {
        jobs := jobs[j.id := j];
      }
      if e == Create {
        var kept := OnJobCreated(j);
      } else if e == Delete {
        OnJobDeleted(j.id);
      } else {
        NotifyChange();
      }
    }

    /** saveLocked, when no change interrupts it; a failed write may have replaced the file. */
    method SaveLocked() returns (ok: bool)
      requires Valid()
      modifies `file, `savedGeneration
      ensures Valid() && (old(Tracked()) ==> Tracked())
      ensures if ok then file == jobs && savedGeneration == generation
              else (file == old(file) || file == jobs) && savedGeneration == old(savedGeneration)
    {
      var g := generation;
      var snapshot := jobs;
      var written: bool, replaced: bool := *, *;
      if !written {
        if replaced {
          file := snapshot;
        }
        return false;
      }
      file := snapshot;
      savedGeneration := g;
      ok := true;
    }

    /** sync saves when something changed since the last save. */
    method Sync() returns (ok: bool)
      requires Valid() && Tracked()
      modifies `file, `savedGeneration
      ensures Valid() && Tracked() && (ok ==> Reload(file) == Reload(jobs))
      ensures old(generation == savedGeneration) ==> ok && file == old(file)
    {
      if generation == savedGeneration {
        return true;
      }
      ok := SaveLocked();
    }
  }

  // ---------- the life of the loop ----------

  class Lifecycle {
    var started: bool
    var stopped: bool
    var stopping: bool         // the channel that asks the loop to stop is closed
    var done: bool             // the channel that says the loop has returned is closed

    ghost predicate Valid()
      reads this
    {
      (stopping ==> stopped) && (done ==> started)
    }

    constructor ()
      ensures Valid() && !started && !stopped && !stopping && !done
    {
      started, stopped, stopping, done := false, false, false, false;
    }

    method Begin() returns (ok: bool)
      requires Valid()
      modifies `started
      ensures Valid() && ok == (!old(started) && !stopped) && started == (old(started) || ok)
    {
      if started || stopped {
        return false;
      }
      started := true;
      ok := true;
    }

    /** Closing the channel a second time would panic: only a loop that began ends. */
    method End()
      requires Valid() && started && !done
      modifies `done
      ensures Valid() && done
    {
      done := true;
    }

    /** Stop up to its wait for the loop: afterwards no loop begins. */
    method AskToStop() returns (began: bool)
      requires Valid()
      modifies `stopped, `stopping
      ensures Valid() && stopped && stopping && began == started
    {
      stopped := true;
      began := started;
      if !stopping {
        stopping := true;
      }
    }
  }
}
