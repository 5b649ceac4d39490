/** The order in which queued jobs are served (service/queue.go, compareQueueOrder). */
module PullOrder {
  import opened Jobs
  import opened Ordering
  import opened Integers

  /** The sort keys of a job, read once when it is queued, with its topic. */
  datatype Ticket = Ticket(priority: Priority, created: int, id: JobId, topic: Topic)

  function TicketOf(id: JobId, j: JobValue): Ticket {
    Ticket(j.spec.priority, j.Created(), id, j.spec.topic)
  }

  /** The tickets of the jobs whose ids are given. */
  ghost function TicketsOf(jobs: map<JobId, JobValue>, ids: set<JobId>): (ts: set<Ticket>)
    ensures OneTicketPerJob(ts)
    ensures forall t :: t in ts <==> t.id in ids && t.id in jobs && t == TicketOf(t.id, jobs[t.id])
  {
    set id | id in ids && id in jobs :: TicketOf(id, jobs[id])
  }

  /** Highest priority first, then the oldest, then the smallest id. */
  predicate Before(a: Ticket, b: Ticket) {
    if a.priority != b.priority then a.priority > b.priority
    else if a.created != b.created then a.created < b.created
    else a.id < b.id
  }

  /** The job has the higher priority; or the same one, and it was created earlier; or both at the same
      time, and its id is smaller. */
  ghost predicate Outranks(jobs: map<JobId, JobValue>, a: JobId, b: JobId) {
    && a in jobs && b in jobs && jobs[a].history != [] && jobs[b].history != []
    && (|| jobs[a].spec.priority > jobs[b].spec.priority
        || (&& jobs[a].spec.priority == jobs[b].spec.priority
            && (|| jobs[a].history[0].timestamp < jobs[b].history[0].timestamp
                || (jobs[a].history[0].timestamp == jobs[b].history[0].timestamp && a < b))))
  }

  lemma RankIsStrict(jobs: map<JobId, JobValue>, a: JobId, b: JobId)
    requires Outranks(jobs, a, b)
    ensures a != b
  {
  }

  lemma BeforeOutranks(jobs: map<JobId, JobValue>, a: JobId, b: JobId)
    requires a in jobs && b in jobs && jobs[a].history != [] && jobs[b].history != []
    ensures Before(TicketOf(a, jobs[a]), TicketOf(b, jobs[b])) <==> Outranks(jobs, a, b)
  {
  }

  predicate IdBefore(a: JobId, b: JobId) {
    a < b
  }

  /** Tickets of different jobs. */
  ghost predicate OneTicketPerJob(s: set<Ticket>) {
    forall a, b :: a in s && b in s && a.id == b.id ==> a == b
  }

  lemma BeforeIsStrictTotal(s: set<Ticket>)
    requires OneTicketPerJob(s)
    ensures StrictTotal(Before, s)
  {
  }

  lemma IdBeforeIsStrictTotal(s: set<JobId>)
    ensures StrictTotal(IdBefore, s)
  {
  }

  /** "*" stands for every topic. */
  const ALL_TOPICS := Topic("*")

  ghost function Matching(s: set<Ticket>, topic: Topic): set<Ticket> {
    set t | t in s && (topic == ALL_TOPICS || t.topic == topic)
  }

  /** The first `n` tickets of a topic in pull order: filter, sort, take. */
  ghost function FirstTickets(s: set<Ticket>, topic: Topic, n: nat): seq<Ticket>
    requires OneTicketPerJob(s)
  {
    BeforeIsStrictTotal(Matching(s, topic));
    var q := Arrange(Before, Matching(s, topic));
    q[..Min(n, |q|)]
  }

  /** A prefix of an ascending sequence is ahead of the rest. */
  lemma {:induction false} PrefixIsAhead(a: seq<Ticket>, m: nat, t: Ticket, u: Ticket)
    requires m <= |a| && Ascending(Before, a)
    requires t in a[..m] && u in a && u !in a[..m]
    ensures Before(t, u)
  {
    var i :| 0 <= i < m && a[i] == t;
    assert a == a[..m] + a[m..];
    var k :| 0 <= k < |a[m..]| && a[m..][k] == u;
    assert a[m + k] == u;
  }

  /** The tickets a pull returns: as many as asked for or as there are, in pull order, and
      ahead of every ticket left behind. */
  lemma {:induction false} FirstAreFirst(s: set<Ticket>, topic: Topic, n: nat)
    requires OneTicketPerJob(s)
    ensures var q := FirstTickets(s, topic, n);
            && |q| == Min(n, |Matching(s, topic)|)
            && Ascending(Before, q)
            && (forall t :: t in q ==> t in Matching(s, topic))
            && (forall t, u :: t in q && u in Matching(s, topic) && u !in q ==> Before(t, u))
  {
    var all := Matching(s, topic);
    BeforeIsStrictTotal(all);
    var a := Arrange(Before, all);
    var m := Min(n, |a|);
    hide Before, Min;
    forall t, u | t in a[..m] && u in all && u !in a[..m] ensures Before(t, u) {
      PrefixIsAhead(a, m, t, u);
    }
    assert forall t :: t in a[..m] ==> t in a;
  }

  // ---------- the same in terms of the jobs ----------

  /** The waiting jobs of a topic; "*" stands for every topic. */
  ghost function WaitingFor(jobs: map<JobId, JobValue>, queued: set<JobId>, topic: Topic): set<JobId> {
    set id | id in queued && id in jobs && (topic.name == "*" || jobs[id].spec.topic == topic)
  }

  /** The first `n` of the waiting jobs, the highest rank first; all of them if there are fewer. */
  ghost predicate FirstInLine(jobs: map<JobId, JobValue>, waiting: set<JobId>, n: nat, q: seq<JobId>) {
    && |q| <= n && (|q| < n ==> forall k :: k in waiting ==> k in q)
    && (forall k :: k in q ==> k in waiting)
    && (forall i, j :: 0 <= i < j < |q| ==> Outranks(jobs, q[i], q[j]))
    && (forall k, other :: k in q && other in waiting && other !in q ==> Outranks(jobs, k, other))
  }

  ghost function IdsIn(q: seq<Ticket>): (r: seq<JobId>)
    ensures |r| == |q| && forall i :: 0 <= i < |r| ==> r[i] == q[i].id
  {
    seq(|q|, i requires 0 <= i < |q| => q[i].id)
  }

  ghost predicate HaveHistories(jobs: map<JobId, JobValue>, ids: set<JobId>) {
    forall id :: id in ids ==> id in jobs && jobs[id].history != []
  }

  lemma MatchingAreWaiting(jobs: map<JobId, JobValue>, queued: set<JobId>, topic: Topic, id: JobId)
    requires HaveHistories(jobs, queued)
    ensures id in WaitingFor(jobs, queued, topic) <==>
              id in jobs && TicketOf(id, jobs[id]) in Matching(TicketsOf(jobs, queued), topic)
  {
    assert topic.name == "*" <==> topic == ALL_TOPICS;
  }

  lemma {:induction false} TicketsAreRanked(jobs: map<JobId, JobValue>, queued: set<JobId>, t: Ticket, u: Ticket)
    requires HaveHistories(jobs, queued) && t in TicketsOf(jobs, queued) && u in TicketsOf(jobs, queued) && Before(t, u)
    ensures Outranks(jobs, t.id, u.id)
  {
    BeforeOutranks(jobs, t.id, u.id);
  }

  lemma {:induction false} AllTaken(jobs: map<JobId, JobValue>, queued: set<JobId>, topic: Topic, q: seq<Ticket>)
    requires HaveHistories(jobs, queued) && Distinct(q)
    requires |q| == |Matching(TicketsOf(jobs, queued), topic)|
    requires forall t :: t in q ==> t in Matching(TicketsOf(jobs, queued), topic)
    ensures forall k :: k in WaitingFor(jobs, queued, topic) ==> k in IdsIn(q)
  {
    var all := Matching(TicketsOf(jobs, queued), topic);
    DistinctCount(q);
    SubsetOfSameSize(Elements(q), all);
    forall k | k in WaitingFor(jobs, queued, topic) ensures k in IdsIn(q) {
      MatchingAreWaiting(jobs, queued, topic, k);
      assert TicketOf(k, jobs[k]) in Elements(q);
      var i :| 0 <= i < |q| && q[i] == TicketOf(k, jobs[k]);
      assert IdsIn(q)[i] == k;
    }
  }

  lemma {:induction false} SubsetOfSameSize<T>(a: set<T>, b: set<T>)
    requires a <= b && |a| == |b|
    ensures a == b
  {
    if x :| x in b && x !in a {
      assert a <= b - {x} && |b - {x}| == |b| - 1;
      SubsetCount(a, b - {x});
    }
  }

  /** The tickets that are first in pull order are those of the jobs that are first in line. */
  lemma {:induction false} FirstTicketsAreFirstInLine(
    jobs: map<JobId, JobValue>, queued: set<JobId>, topic: Topic, n: nat, q: seq<Ticket>)
    requires HaveHistories(jobs, queued) && q == FirstTickets(TicketsOf(jobs, queued), topic, n)
    ensures FirstInLine(jobs, WaitingFor(jobs, queued, topic), n, IdsIn(q))
  {
    hide FirstTickets, Before, Outranks, HaveHistories, WaitingFor, Matching;
    FirstAreFirst(TicketsOf(jobs, queued), topic, n);
    RankedInLine(jobs, queued, topic, q);
    if |q| < n {
      PullOrderIsDistinct(q);
      hide Ascending, Distinct;
      AllTaken(jobs, queued, topic, q);
    }
  }

  lemma PullOrderIsDistinct(q: seq<Ticket>)
    requires Ascending(Before, q)
    ensures Distinct(q)
  {
    forall i, j | 0 <= i < j < |q| ensures q[i] != q[j] {
      assert Before(q[i], q[j]);
    }
  }

  lemma {:induction false} RankedInLine(jobs: map<JobId, JobValue>, queued: set<JobId>, topic: Topic, q: seq<Ticket>)
    requires HaveHistories(jobs, queued) && Ascending(Before, q)
    requires forall t :: t in q ==> t in Matching(TicketsOf(jobs, queued), topic)
    requires forall t, u :: t in q && u in Matching(TicketsOf(jobs, queued), topic) && u !in q ==> Before(t, u)
    ensures var waiting, ids := WaitingFor(jobs, queued, topic), IdsIn(q);
            && (forall k :: k in ids ==> k in waiting)
            && (forall i, j :: 0 <= i < j < |ids| ==> Outranks(jobs, ids[i], ids[j]))
            && (forall k, other :: k in ids && other in waiting && other !in ids ==> Outranks(jobs, k, other))
  {
    hide Before, Outranks;
    var waiting, ids := WaitingFor(jobs, queued, topic), IdsIn(q);
    forall k | k in ids ensures k in waiting {
      var i :| 0 <= i < |ids| && ids[i] == k;
      assert q[i] in q;
      MatchingAreWaiting(jobs, queued, topic, k);
    }
    forall i, j | 0 <= i < j < |ids| ensures Outranks(jobs, ids[i], ids[j]) {
      assert q[i] in q && q[j] in q;
      TicketsAreRanked(jobs, queued, q[i], q[j]);
    }
    forall k, other | k in ids && other in waiting && other !in ids ensures Outranks(jobs, k, other) {
      var i :| 0 <= i < |ids| && ids[i] == k;
      assert q[i] in q;
      MatchingAreWaiting(jobs, queued, topic, other);
      TicketNotTaken(jobs, q, other);
      TicketsAreRanked(jobs, queued, q[i], TicketOf(other, jobs[other]));
    }
  }

  lemma TicketNotTaken(jobs: map<JobId, JobValue>, q: seq<Ticket>, other: JobId)
    requires other in jobs && other !in IdsIn(q)
    ensures TicketOf(other, jobs[other]) !in q
  {
    forall t | t in q ensures t.id in IdsIn(q) {
      var i :| 0 <= i < |q| && q[i] == t;
      assert IdsIn(q)[i] == t.id;
    }
  }

  /** The ids of a set in increasing order (sortedJobIDs). */
  ghost function SortedIds(s: set<JobId>): (q: seq<JobId>)
    ensures forall id :: id in q <==> id in s
    ensures Distinct(q) && forall i, j :: 0 <= i < j < |q| ==> q[i] < q[j]
  {
    IdBeforeIsStrictTotal(s);
    var q := Arrange(IdBefore, s);
    assert Elements(q) == s;
    AscendingIsDistinct(IdBefore, q);
    q
  }
}
