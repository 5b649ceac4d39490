/** From the scheduler through the provider's map and file to the next start of the service. */
module Backup {
  import opened Jobs
  import opened Scheduler
  import opened Invariants
  import opened Operations
  import opened Restart
  import opened Guarantees
  import Save = SaveProtocol

  type Image = map<JobId, JobValue>

  /** A service that starts from the file, be it after a crash, after a Stop or after failed writes, comes
      back as it was when the map was copied, at a moment between two operations. */
  lemma {:induction false} FileGivesBack(
    cfg: Config, ss: seq<Save.System<Image>>, ms: seq<Save.Move<Image>>, i: nat, s: State, before: int, now: int)
    requires Save.IsRun(ss, ms) && i < |ss| && Good(cfg, s, before) && before <= now
    requires Save.FileCopy(ms, i) < |ss| && ss[Save.FileCopy(ms, i)].history != []
    requires Save.Present(ss[Save.FileCopy(ms, i)]) == s.saved
    ensures ss[i].fileAt < |ss[i].history|
    ensures var s' := LoadJobs(Save.File(ss[i]), now); ComesBack(s, s', now) && Good(cfg, s', now)
  {
    Save.FileIsCopyOf(ss, ms, i);
    hide Save.IsRun, Good, ComesBack, LoadJobs;
    RestartRoundTrip(cfg, s, LoadJobs(Save.File(ss[i]), now), before, now);
  }

  /** The provider's map follows the scheduler: it holds the mirror of the k-th state of the run at the
      moment at[k]; between two such moments an operation may change it in several steps. */
  ghost predicate Follows(run: Run, ss: seq<Save.System<Image>>, at: seq<nat>) {
    && |at| == |run.states|
    && forall k :: 0 <= k < |at| ==>
         at[k] < |ss| && ss[at[k]].history != [] && Save.Present(ss[at[k]]) == run.states[k].saved
  }

  /** A run, its file and a start: when the file holds a copy made after the k-th event and before the map
      changed again, the service comes back in the k-th state, whatever happened since. */
  lemma {:induction false} RunComesBack(
    cfg: Config, run: Run, ss: seq<Save.System<Image>>, ms: seq<Save.Move<Image>>, at: seq<nat>, k: nat, i: nat,
    now: int)
    requires IsRun(cfg, run) && Save.IsRun(ss, ms) && Follows(run, ss, at) && k < |run.states| && i < |ss|
    requires TimeOf(run, k) <= now
    requires at[k] <= Save.FileCopy(ms, i) < |ss| && Save.NoChange(ms, at[k], Save.FileCopy(ms, i))
    ensures ss[i].fileAt < |ss[i].history|
    ensures var s' := LoadJobs(Save.File(ss[i]), now); ComesBack(run.states[k], s', now) && Good(cfg, s', now)
  {
    assert |ss| == |ms| + 1 && |run.states| == |run.times| + 1;
    hide Good, Holding, IsRun, Save.IsRun, ComesBack, LoadJobs;
    EveryStateIsGood(cfg, run, k);
    assert ss[at[k]].history != [] && Save.Present(ss[at[k]]) == run.states[k].saved;
    hide Follows;
    Save.PresentStays(ss, ms, at[k], Save.FileCopy(ms, i));
    hide Save.NoChange, Save.FileCopy;
    FileGivesBack(cfg, ss, ms, i, run.states[k], TimeOf(run, k), now);
  }

  /** Stop and start: when the last save of the loop succeeded and the map did not change since Stop was
      first called, the service comes back in its last state. */
  lemma {:induction false} StopAndStart(
    cfg: Config, ss: seq<Save.System<Image>>, ms: seq<Save.Move<Image>>, i: nat, s: State, before: int, now: int)
    requires Save.IsRun(ss, ms) && i < |ss|
    requires ss[i].loop == Save.Over(true) && ss[i].firstStop == |ss[i].history| - 1
    requires Good(cfg, s, before) && before <= now && Save.Present(ss[i]) == s.saved
    ensures ss[i].fileAt < |ss[i].history|
    ensures var s' := LoadJobs(Save.File(ss[i]), now); ComesBack(s, s', now) && Good(cfg, s', now)
  {
    Save.NothingIsMissing(ss, ms, i);
    hide Save.IsRun, Good, ComesBack, LoadJobs;
    RestartRoundTrip(cfg, s, LoadJobs(Save.File(ss[i]), now), before, now);
  }
}
