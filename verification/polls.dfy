/** Long polls: waiting for the channel that is closed when a job is queued (PullJobs). */
module Polls {
  import opened Jobs
  import opened PullOrder
  import opened Scheduler
  import opened Invariants
  import opened Operations
  import opened Runs
  import opened Exact
  import opened Restart

  type PollId = nat

  /** A poll that found nothing and waits. Channels are numbered: the scheduler's current one is
      `wake`, those before it are closed. */
  datatype Poll = Poll(topic: Topic, n: nat, channel: nat)

  datatype System = System(sched: State, polls: map<PollId, Poll>)

  datatype Move =
    | Operate(step: Step)
    /** The service stops, and starts again with the jobs the backend kept: the polls are gone. */
    | StartAgain
    /** One look at the queue, by a new poll or by one that was woken, timed out or stopped;
        the last look of a poll does not wait again. */
    | Look(p: PollId, topic: Topic, n: nat, timeout: nat, last: bool)

  ghost function After(cfg: Config, sys: System, move: Move, now: int): System {
    match move
    case Operate(step) => sys.(sched := Apply(cfg, sys.sched, step, now))
    case StartAgain => System(LoadJobs(sys.sched.saved, now), map[])
    case Look(p, topic, n, timeout, last) =>
      if Best(sys.sched, topic, n) == [] then
        System(sys.sched, if last then sys.polls - {p} else sys.polls[p := Poll(topic, n, sys.sched.wake)])
      else System(Apply(cfg, sys.sched, PullStep(topic, n, timeout), now), sys.polls - {p})
  }

  ghost predicate MayMove(sys: System, move: Move) {
    match move
    case Operate(step) => Possible(sys.sched, step)
    case StartAgain => true
    case Look(p, topic, n, _, _) => p in sys.polls ==> sys.polls[p].topic == topic && sys.polls[p].n == n
  }

  /** Some queued job would be given to the poll. */
  ghost predicate Matches(s: State, topic: Topic) {
    exists id :: id in s.queued && id in s.jobs && (topic.name == "*" || s.jobs[id].spec.topic == topic)
  }

  /** No lost wake-up: a poll waits on the current channel only while no queued job matches it, or when
      it asked for no job. */
  ghost predicate NoLostWakeUp(sys: System) {
    forall p :: p in sys.polls ==>
      && sys.polls[p].channel <= sys.sched.wake
      && (sys.polls[p].channel == sys.sched.wake && sys.polls[p].n > 0 ==> !Matches(sys.sched, sys.polls[p].topic))
  }

  lemma {:induction false} WokenKeepsPolls(sys: System, s': State)
    requires NoLostWakeUp(sys) && Woken(sys.sched, s')
    ensures NoLostWakeUp(sys.(sched := s'))
  {
    forall p | p in sys.polls && sys.polls[p].channel == s'.wake && sys.polls[p].n > 0
      ensures !Matches(s', sys.polls[p].topic)
    {
      assert NothingNewQueued(sys.sched, s');
      assert !Matches(sys.sched, sys.polls[p].topic);
    }
  }

  lemma {:induction false} MatchingIsEmpty(s: State, topic: Topic)
    ensures |Matching(TicketsOf(s.jobs, s.queued), topic)| == 0 <==> !Matches(s, topic)
  {
    var all := Matching(TicketsOf(s.jobs, s.queued), topic);
    if Matches(s, topic) {
      var id :| id in s.queued && id in s.jobs && (topic.name == "*" || s.jobs[id].spec.topic == topic);
      assert TicketOf(id, s.jobs[id]) in all;
    } else {
      assert all == {} by {
        assert forall t :: t in all ==> t.id in s.queued && t.id in s.jobs;
      }
    }
  }

  /** A look finds nothing exactly when nothing was asked for or nothing matches. */
  lemma {:induction false} NothingFound(s: State, topic: Topic, n: nat)
    ensures Best(s, topic, n) == [] <==> n == 0 || !Matches(s, topic)
  {
    hide Matches, FirstTickets, Matching;
    FirstAreFirst(TicketsOf(s.jobs, s.queued), topic, n);
    MatchingIsEmpty(s, topic);
  }

  /** Nothing was asked for, or no queued job has the topic. */
  ghost predicate NothingFor(jobs: map<JobId, JobValue>, topic: Topic, n: nat) {
    n == 0 || forall id :: id in jobs && jobs[id].state == IsQueued ==>
                topic.name != "*" && jobs[id].spec.topic != topic
  }

  lemma {:induction false} NothingForExactly(s: State, topic: Topic, n: nat)
    requires Coherent(s)
    ensures Best(s, topic, n) == [] <==> NothingFor(s.jobs, topic, n)
  {
    NothingFound(s, topic, n);
    assert forall id :: id in s.queued <==> id in InState(s.jobs, IsQueued);
    hide Best;
  }

  /** What one look does to the polls and, where it found nothing, to the scheduler. */
  lemma LookGoes(cfg: Config, sys: System, move: Move, sys': System, now: int)
    requires move.Look? && sys' == After(cfg, sys, move, now)
    ensures var nothing := Best(sys.sched, move.topic, move.n) == [];
            && (move.p in sys'.polls <==> nothing && !move.last)
            && (move.p in sys'.polls ==> sys'.polls[move.p] == Poll(move.topic, move.n, sys.sched.wake))
            && (nothing ==> sys'.sched == sys.sched)
            && (forall o :: o != move.p ==> (o in sys'.polls <==> o in sys.polls))
            && (forall o :: o in sys.polls && o != move.p ==> sys'.polls[o] == sys.polls[o])
  {
    hide Best, Apply;
  }

  /** A look that is not the last one of its poll waits for the next wake-up if and only if there is nothing for it; a
      last look never waits; and the polls of others are as they were. */
  lemma {:induction false} LookWaitsExactly(
    cfg: Config, sys: System, p: PollId, topic: Topic, n: nat, timeout: nat, last: bool, now: int)
    requires Coherent(sys.sched)
    ensures var sys' := After(cfg, sys, Look(p, topic, n, timeout, last), now);
            && (p in sys'.polls <==> NothingFor(sys.sched.jobs, topic, n) && !last)
            && (p in sys'.polls ==> sys'.polls[p] == Poll(topic, n, sys.sched.wake))
            && (NothingFor(sys.sched.jobs, topic, n) ==> sys'.sched == sys.sched)
            && (forall o :: o != p ==> (o in sys'.polls <==> o in sys.polls))
            && (forall o :: o in sys.polls && o != p ==> sys'.polls[o] == sys.polls[o])
  {
    hide Best, Apply, NothingFor, Coherent;
    NothingForExactly(sys.sched, topic, n);
    LookGoes(cfg, sys, Look(p, topic, n, timeout, last), After(cfg, sys, Look(p, topic, n, timeout, last), now), now);
  }

  /** Every interleaving of operations, periodic tasks and polls keeps the scheduler good and
      loses no wake-up. */
  lemma {:induction false} NoWakeUpIsLost(cfg: Config, sys: System, move: Move, now: int)
    requires Good(cfg, sys.sched, now) && NoLostWakeUp(sys) && MayMove(sys, move)
    ensures Good(cfg, After(cfg, sys, move, now).sched, now) && NoLostWakeUp(After(cfg, sys, move, now))
  {
    hide Good, Apply, Woken, Best, Matches;
    match move
    case Operate(step) =>
      var s' := Apply(cfg, sys.sched, step, now);
      StepIsGood(cfg, sys.sched, s', step, now);
      WokenKeepsPolls(sys, s');
    case StartAgain =>
      hide LoadJobs, SameItems, AllDueAt, Holding;
      RestartRoundTrip(cfg, sys.sched, LoadJobs(sys.sched.saved, now), now, now);
    case Look(p, topic, n, timeout, last) =>
      if Best(sys.sched, topic, n) == [] {
        NothingFound(sys.sched, topic, n);
      } else {
        var step := PullStep(topic, n, timeout);
        var s' := Apply(cfg, sys.sched, step, now);
        assert Possible(sys.sched, step);
        StepIsGood(cfg, sys.sched, s', step, now);
        WokenKeepsPolls(sys, s');
      }
  }

  // ---------- runs ----------

  /** The service loads the stored jobs, and then the moves follow. */
  datatype History = History(
    stored: map<JobId, JobValue>,
    loadedAt: int,
    systems: seq<System>,
    moves: seq<Move>,
    times: seq<int>)

  ghost predicate MoveAt(cfg: Config, h: History, i: nat)
    requires i < |h.moves| == |h.times| && |h.systems| == |h.moves| + 1
  {
    && MayMove(h.systems[i], h.moves[i])
    && h.systems[i + 1] == After(cfg, h.systems[i], h.moves[i], h.times[i])
    && MomentOf(h, i) <= h.times[i]
  }

  ghost predicate IsHistory(cfg: Config, h: History) {
    && |h.moves| == |h.times| && |h.systems| == |h.moves| + 1
    && Storable(cfg, h.stored, h.loadedAt) && NothingIdle(h.stored)
    && h.systems[0] == System(LoadJobs(h.stored, h.loadedAt), map[])
    && forall i :: 0 <= i < |h.moves| ==> MoveAt(cfg, h, i)
  }

  /** The time of the last move before a state. */
  function MomentOf(h: History, i: nat): int
    requires i <= |h.times|
  {
    if i == 0 then h.loadedAt else h.times[i - 1]
  }

  lemma NobodyWaits(s: State)
    ensures NoLostWakeUp(System(s, map[]))
  {
  }

  /** In no history does a poll sleep through a job it could have. */
  lemma {:induction false} NoPollSleepsThrough(cfg: Config, h: History, i: nat)
    requires IsHistory(cfg, h) && i < |h.systems|
    ensures NoLostWakeUp(h.systems[i])
    ensures Good(cfg, h.systems[i].sched, MomentOf(h, i))
  {
    hide Good, After, NoLostWakeUp, MayMove, LoadJobs, Storable, NothingIdle, Holding, Exclusive;
    if i == 0 {
      hide Rescheduled, SameOrAdmitted;
      LoadIsExact(cfg, h.stored, h.systems[0].sched, h.loadedAt);
      NobodyWaits(h.systems[0].sched);
    } else {
      NoPollSleepsThrough(cfg, h, i - 1);
      assert MoveAt(cfg, h, i - 1);
      LaterIsDue(cfg, h.systems[i - 1].sched, MomentOf(h, i - 1), h.times[i - 1]);
      NoWakeUpIsLost(cfg, h.systems[i - 1], h.moves[i - 1], h.times[i - 1]);
    }
  }
}
