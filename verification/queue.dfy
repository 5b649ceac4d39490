/** The index of the queued jobs: a heap of all topics and a heap for each topic (queuedJobs). */
module QueueIndex {
  import opened Jobs
  import opened Ordering
  import opened PullOrder
  import opened Heaps

  ghost function OfTopic(es: set<QueueEntry>, t: Topic): set<QueueEntry> {
    set e | e in es && e.ticket.topic == t
  }

  ghost function TicketSet(es: set<QueueEntry>): set<Ticket> {
    set e | e in es :: e.ticket
  }

  class QueuedJobs {
    var entries: map<JobId, QueueEntry>
    var all: JobHeap
    var byTopic: map<Topic, JobHeap>

    // ---------- the invariant ----------

    /** The heap of all topics holds the entries. */
    ghost predicate AllIndex(es: set<QueueEntry>)
      reads `all, all, es
    {
      all.which == 0 && all.Elems() == es && all.Valid()
    }

    /** The heap of a topic holds the entries of the topic. */
    ghost predicate TopicHeap(h: JobHeap, t: Topic, es: set<QueueEntry>)
      reads h, h.entries
    {
      h.which == 1 && h.Valid() && h.Elems() == OfTopic(es, t)
    }

    /** There is a heap for each topic of an entry. */
    ghost predicate HeapsFit(es: set<QueueEntry>)
      reads `all, `byTopic, byTopic.Values, es
    {
      && (forall t :: t in byTopic ==> byTopic[t] != all && byTopic[t].Elems() <= es)
      && (forall t :: t in byTopic ==> TopicHeap(byTopic[t], t, es))
      && (forall t, u :: t in byTopic && u in byTopic && t != u ==> byTopic[t] != byTopic[u])
      && (forall e :: e in es ==> e.ticket.topic in byTopic)
    }

    /** There is a heap for each topic of an entry, and no other. */
    ghost predicate TopicIndex(es: set<QueueEntry>)
      reads `all, `byTopic, byTopic.Values, es
    {
      HeapsFit(es) && forall t :: t in byTopic ==> |byTopic[t].entries| > 0
    }

    ghost predicate Valid()
      reads Footprint()
    {
      && this in Footprint()
      && (forall id :: id in entries ==> entries[id].ticket.id == id)
      && AllIndex(entries.Values)
      && TopicIndex(entries.Values)
    }

    ghost function Footprint(): set<object>
      reads this
    {
      {this, all} + (set h | h in byTopic.Values :: h as object) + (set e | e in entries.Values :: e as object)
    }

    lemma FootprintIsAllocated()
      ensures forall o :: o in Footprint() ==> allocated(o)
    {
    }

    lemma FootprintHasIndex()
      ensures forall o :: o in Footprint() ==> o is QueuedJobs || o is JobHeap || o is QueueEntry
    {
    }

    /** The tickets of the queued jobs. */
    ghost function Contents(): set<Ticket>
      reads this
    {
      TicketSet(entries.Values)
    }

    constructor ()
      ensures Valid() && Contents() == {} && fresh(Footprint()) && this in Footprint()
    {
      entries := map[];
      all := new JobHeap(0);
      byTopic := map[];
    }

    // ---------- one heap at a time ----------

    /** Position `w` of every entry stays. */
    twostate predicate PositionsKept(w: int, es: set<QueueEntry>)
      reads es
    {
      (w == 0 || w == 1) && forall e :: e in es ==> |old(e.pos)| == 2 && |e.pos| == 2 && e.pos[w] == old(e.pos[w])
    }

    /** The heaps of the topics are not disturbed by the other positions of the entries. */
    twostate lemma TopicsUndisturbed(es: set<QueueEntry>)
      requires old(HeapsFit(es)) && byTopic == old(byTopic) && all == old(all)
      requires forall h :: h in byTopic.Values ==> h.entries == old(h.entries)
      requires PositionsKept(1, es)
      ensures HeapsFit(es)
    {
      hide Heap, OfTopic;
    }

    method PushOnAll(x: QueueEntry, ghost es: set<QueueEntry>)
      requires AllIndex(es) && TopicIndex(es) && x !in es && |x.pos| == 2
      modifies all, es, x
      ensures AllIndex(es + {x}) && TopicIndex(es) && |x.pos| == 2
    {
      hide Heap, OfTopic;
      all.Push(x);
      TopicsUndisturbed(es);
    }

    method RemoveFromAll(x: QueueEntry, ghost es: set<QueueEntry>)
      requires AllIndex(es) && TopicIndex(es) && x in es
      modifies all, es
      ensures AllIndex(es - {x}) && TopicIndex(es)
    {
      hide Heap, OfTopic;
      var i := x.pos[0];
      assert exists k :: 0 <= k < |all.entries| && all.entries[k] == x;
      var e := all.RemoveAt(i);
      TopicsUndisturbed(es);
    }

    /** The heap of the topic c.0 changed from holding its entries among c.1 to holding those
        among c.2; the others did not change. */
    twostate lemma OneTopicChanged(c: (Topic, set<QueueEntry>, set<QueueEntry>))
      requires old(HeapsFit(c.1)) && byTopic == old(byTopic) && all == old(all) && c.0 in byTopic
      requires forall u :: u in byTopic ==>
                 if u == c.0 then TopicHeap(byTopic[u], u, c.2) else byTopic[u].entries == old(byTopic[u].entries)
      requires forall e :: e in c.1 && e.ticket.topic != c.0 ==> e.pos == old(e.pos) && e in c.2
      requires forall e :: e in c.2 && e.ticket.topic != c.0 ==> e in c.1
      ensures HeapsFit(c.2)
    {
      hide Heap;
      var (t, es, es') := c;
      assert forall u :: u != t ==> OfTopic(es', u) == OfTopic(es, u);
      assert forall u :: OfTopic(es', u) <= es';
      forall u | u in byTopic && u != t ensures TopicHeap(byTopic[u], u, es') {
        var h := byTopic[u];
        assert forall i :: 0 <= i < |h.entries| ==> h.entries[i] in OfTopic(es, u);
      }
    }

    method MakeTopic(t: Topic, ghost es: set<QueueEntry>)
      requires HeapsFit(es) && t !in byTopic
      modifies `byTopic
      ensures t in byTopic && fresh(byTopic[t]) && byTopic == old(byTopic)[t := byTopic[t]]
      ensures HeapsFit(es)
    {
      hide Heap;
      var made := new JobHeap(1);
      assert OfTopic(es, t) == {};
      byTopic := byTopic[t := made];
    }

    /** What pushing on, or removing from, the heap of a topic leaves as it was. */
    twostate predicate OtherTopicsSame(t: Topic)
      reads this, byTopic.Values
    {
      byTopic == old(byTopic) && forall u :: u in byTopic && u != t ==> byTopic[u].entries == old(byTopic[u].entries)
    }

    method PushOnTopic(t: Topic, x: QueueEntry, ghost es: set<QueueEntry>)
      requires AllIndex(es + {x}) && HeapsFit(es) && t in byTopic && x !in es && x.ticket.topic == t
      modifies byTopic[t], es, x
      ensures AllIndex(es + {x}) && HeapsFit(es + {x})
      ensures OtherTopicsSame(t) && |byTopic[t].entries| > 0
    {
      hide Heap;
      var h := byTopic[t];
      assert x !in h.Elems() && x in all.Elems();
      h.Push(x);
      assert OfTopic(es + {x}, t) == OfTopic(es, t) + {x};
      hide OfTopic, HeapsFit;
      OneTopicChanged((t, es, es + {x}));
    }

    method RemoveFromTopic(t: Topic, x: QueueEntry, ghost es: set<QueueEntry>)
      requires AllIndex(es - {x}) && HeapsFit(es) && x in es && x.ticket.topic == t
      modifies byTopic[t], es
      ensures AllIndex(es - {x}) && HeapsFit(es - {x})
      ensures OtherTopicsSame(t)
    {
      hide Heap;
      var h := byTopic[t];
      assert x in OfTopic(es, t);
      assert exists k :: 0 <= k < |h.entries| && h.entries[k] == x;
      var e := h.RemoveAt(x.pos[1]);
      assert OfTopic(es - {x}, t) == OfTopic(es, t) - {x};
      hide OfTopic, HeapsFit;
      OneTopicChanged((t, es, es - {x}));
    }

    method DropTopic(t: Topic, ghost es: set<QueueEntry>)
      requires AllIndex(es) && HeapsFit(es) && t in byTopic && byTopic[t].entries == []
      modifies `byTopic
      ensures AllIndex(es) && HeapsFit(es) && byTopic == old(byTopic) - {t}
    {
      hide Heap, AllIndex;
      assert TopicHeap(byTopic[t], t, es);
      assert byTopic[t].Elems() == {};
      assert forall e :: e in es && e.ticket.topic == t ==> e in OfTopic(es, t);
      hide OfTopic;
      byTopic := byTopic - {t};
    }

    // ---------- the operations ----------

    /** Puts a new entry in both heaps. */
    method Index(e: QueueEntry, ghost es: set<QueueEntry>)
      requires AllIndex(es) && TopicIndex(es) && e !in es && |e.pos| == 2
      modifies `byTopic, all, byTopic.Values, es, e
      ensures AllIndex(es + {e}) && TopicIndex(es + {e})
      ensures forall h :: h in byTopic.Values ==> h in old(byTopic.Values) || fresh(h)
    {
      hide AllIndex, HeapsFit;
      PushOnAll(e, es);
      var t := e.ticket.topic;
      if t !in byTopic {
        MakeTopic(t, es);
      }
      PushOnTopic(t, e, es);
    }

    method AddEntry(ticket: Ticket) returns (e: QueueEntry)
      requires Valid() && ticket.id !in entries
      modifies Footprint()
      ensures Valid() && fresh(Footprint() - old(Footprint()))
      ensures e.ticket == ticket && entries == old(entries)[ticket.id := e]
    {
      hide AllIndex, TopicIndex;
      e := new QueueEntry(ticket);
      ValuesWith(entries, ticket.id, e);
      ghost var es := entries.Values;
      entries := entries[ticket.id := e];
      Index(e, es);
    }

    /** Adds a job; one that is queued already stays. */
    method Add(ticket: Ticket)
      requires Valid() && forall t :: t in Contents() && t.id == ticket.id ==> t == ticket
      modifies Footprint()
      ensures Valid() && fresh(Footprint() - old(Footprint()))
      ensures Contents() == old(Contents()) + {ticket}
    {
      hide AllIndex, TopicIndex;
      if ticket.id in entries {
        assert entries[ticket.id] in entries.Values && entries[ticket.id].ticket in Contents();
        return;
      }
      hide Valid;
      var e := AddEntry(ticket);
      ValuesWith(old(entries), ticket.id, e);
    }

    /** Takes an entry out of both heaps; the heap of a topic goes with its last entry. */
    method Unindex(e: QueueEntry, ghost es: set<QueueEntry>)
      requires AllIndex(es) && TopicIndex(es) && e in es
      modifies `byTopic, all, byTopic.Values, es
      ensures AllIndex(es - {e}) && TopicIndex(es - {e})
      ensures byTopic.Values <= old(byTopic.Values)
    {
      var t := e.ticket.topic;
      assert t in byTopic;
      hide AllIndex, HeapsFit;
      RemoveFromAll(e, es);
      RemoveFromTopic(t, e, es);
      if |byTopic[t].entries| == 0 {
        DropTopic(t, es - {e});
      }
    }

    method RemoveEntry(id: JobId)
      requires Valid() && id in entries
      modifies Footprint()
      ensures Valid() && Footprint() <= old(Footprint()) && entries == old(entries) - {id}
    {
      hide AllIndex, TopicIndex;
      var e := entries[id];
      ValuesWithout(entries, id);
      ghost var es := entries.Values;
      entries := entries - {id};
      Unindex(e, es);
    }

    /** Removes a job; one that is not queued stays away. */
    method Remove(id: JobId)
      requires Valid()
      modifies Footprint()
      ensures Valid() && Footprint() <= old(Footprint())
      ensures Contents() == set t | t in old(Contents()) && t.id != id
    {
      hide AllIndex, TopicIndex;
      assert forall k :: k in entries ==> entries[k].ticket.id == k;
      hide Valid;
      if id !in entries {
        return;
      }
      RemoveEntry(id);
      ValuesWithout(old(entries), id);
    }

    // ---------- the first jobs of a topic ----------

    /** The entries `es` are one for each job, and the heaps hold them. */
    ghost predicate InSync(es: set<QueueEntry>)
      reads `all, `byTopic, all, byTopic.Values, es
    {
      AllIndex(es) && TopicIndex(es) && OneEntryPerJob(es)
    }

    method FirstOfAll(n: nat, ghost es: set<QueueEntry>) returns (taken: seq<QueueEntry>, ghost rest: set<QueueEntry>)
      requires InSync(es)
      modifies all, es
      ensures InSync(es) && TakesFirst(es, taken, rest, n)
    {
      hide Heap, OfTopic, TakenFrom, InPullOrder, AheadOf;
      taken, rest := all.First(n);
      TopicsUndisturbed(es);
    }

    method FirstOfTopic(t: Topic, n: nat, ghost es: set<QueueEntry>)
        returns (taken: seq<QueueEntry>, ghost rest: set<QueueEntry>)
      requires InSync(es) && t in byTopic
      modifies byTopic[t], es
      ensures InSync(es) && TakesFirst(OfTopic(es, t), taken, rest, n)
    {
      hide Heap, TakenFrom, InPullOrder, AheadOf;
      var h := byTopic[t];
      assert h.entries[0] in h.Elems();
      taken, rest := h.First(n);
      OneTopicChanged((t, es, es));
    }

    /** The entries of a topic. */
    ghost function Candidates(topic: Topic): set<QueueEntry>
      reads `entries
    {
      if topic == ALL_TOPICS then entries.Values else OfTopic(entries.Values, topic)
    }

    method FirstEntries(topic: Topic, n: nat) returns (taken: seq<QueueEntry>, ghost rest: set<QueueEntry>)
      requires InSync(entries.Values)
      modifies Footprint() - {this}
      ensures InSync(entries.Values) && TakesFirst(Candidates(topic), taken, rest, n)
    {
      hide TakesFirst;
      ghost var es := entries.Values;
      if topic == ALL_TOPICS {
        hide InSync;
        taken, rest := FirstOfAll(n, es);
      } else if topic in byTopic {
        assert byTopic[topic] in byTopic.Values;
        hide InSync;
        taken, rest := FirstOfTopic(topic, n, es);
      } else {
        assert OfTopic(es, topic) == {};
        taken, rest := [], {};
        NothingToTake(n);
      }
    }

    /** Up to `n` queued jobs of a topic in pull order; they stay queued. */
    method First(topic: Topic, n: nat) returns (jobs: seq<Ticket>)
      requires Valid()
      modifies Footprint() - {this}
      ensures Valid() && Contents() == old(Contents())
      ensures OneTicketPerJob(Contents())
      ensures jobs == FirstTickets(Contents(), topic, n)
    {
      hide AllIndex, TopicIndex, TakesFirst, FirstTickets, OneTicketPerJob;
      TicketsDiffer(entries.Values);
      var taken, rest := FirstEntries(topic, n);
      jobs := Tickets(taken);
      TakenAreFirst(entries.Values, Candidates(topic), taken, rest, topic, n);
    }
  }

  function Tickets(q: seq<QueueEntry>): (r: seq<Ticket>)
    ensures |r| == |q| && forall i :: 0 <= i < |q| ==> r[i] == q[i].ticket
  {
    seq(|q|, i requires 0 <= i < |q| => q[i].ticket)
  }

  lemma NothingToTake(n: nat)
    ensures TakesFirst({}, [], {}, n)
  {
  }

  lemma TicketsDiffer(es: set<QueueEntry>)
    requires OneEntryPerJob(es)
    ensures OneTicketPerJob(TicketSet(es))
  {
  }

  /** Of the matching entries, those taken are the first in pull order. */
  lemma TakenAreFirst(es: set<QueueEntry>, of: set<QueueEntry>, taken: seq<QueueEntry>, rest: set<QueueEntry>,
      topic: Topic, n: nat)
    requires OneTicketPerJob(TicketSet(es)) && TakesFirst(of, taken, rest, n)
    requires of == if topic == ALL_TOPICS then es else OfTopic(es, topic)
    ensures Tickets(taken) == FirstTickets(TicketSet(es), topic, n)
  {
    var all, q := Matching(TicketSet(es), topic), Tickets(taken);
    var others := TicketSet(rest);
    TakenTickets(es, of, taken, rest, topic, n);
    BeforeIsStrictTotal(all);
    PrefixOfArrangement(all, q, others);
  }

  lemma TakenTickets(es: set<QueueEntry>, of: set<QueueEntry>, taken: seq<QueueEntry>, rest: set<QueueEntry>,
      topic: Topic, n: nat)
    requires TakesFirst(of, taken, rest, n)
    requires of == if topic == ALL_TOPICS then es else OfTopic(es, topic)
    ensures Matching(TicketSet(es), topic) == Elements(Tickets(taken)) + TicketSet(rest)
    ensures Ascending(Before, Tickets(taken))
    ensures forall i, t :: 0 <= i < |taken| && t in TicketSet(rest) ==> Before(Tickets(taken)[i], t)
    ensures |taken| == n || (|taken| < n && TicketSet(rest) == {})
  {
    hide Before;
    var q := Tickets(taken);
    assert Matching(TicketSet(es), topic) == TicketSet(of);
    forall e | e in of ensures e.ticket in Elements(q) + TicketSet(rest) {
      if e in taken {
        var i :| 0 <= i < |taken| && taken[i] == e;
        assert q[i] == e.ticket;
      }
    }
    forall t | t in q ensures t in TicketSet(of) {
      var i :| 0 <= i < |q| && q[i] == t;
      assert taken[i] in of;
    }
  }

  /** An ascending list before all the other elements is the beginning of the arrangement. */
  lemma PrefixOfArrangement(s: set<Ticket>, q: seq<Ticket>, others: set<Ticket>)
    requires StrictTotal(Before, s) && s == Elements(q) + others && Ascending(Before, q)
    requires forall i, t :: 0 <= i < |q| && t in others ==> Before(q[i], t)
    ensures |q| <= |Arrange(Before, s)| && q == Arrange(Before, s)[..|q|]
    ensures others == {} ==> q == Arrange(Before, s)
  {
    hide Before;
    RestIsStrictTotal(s, others);
    hide StrictTotal;
    var r := Arrange(Before, others);
    JoinedIsArranged(s, q, others, r);
    hide Ascending, Elements;
    assert (q + r)[..|q|] == q;
    assert others == {} ==> r == [];
    assert r == [] ==> q + r == q;
  }

  lemma RestIsStrictTotal(s: set<Ticket>, others: set<Ticket>)
    requires StrictTotal(Before, s) && others <= s
    ensures StrictTotal(Before, others)
  {
    hide Before;
  }

  lemma JoinedIsArranged(s: set<Ticket>, q: seq<Ticket>, others: set<Ticket>, r: seq<Ticket>)
    requires StrictTotal(Before, s) && s == Elements(q) + others
    requires Ascending(Before, q) && Ascending(Before, r) && forall t :: t in r <==> t in others
    requires forall i, t :: 0 <= i < |q| && t in others ==> Before(q[i], t)
    ensures q + r == Arrange(Before, s)
  {
    hide Before, StrictTotal;
    assert forall i :: 0 <= i < |r| ==> r[i] in others;
    JoinedIsAscending(q, r);
    hide Ascending;
    assert forall t :: t in q + r <==> t in s;
    ArrangeUnique(Before, q + r, s);
  }

  lemma JoinedIsAscending(q: seq<Ticket>, r: seq<Ticket>)
    requires Ascending(Before, q) && Ascending(Before, r)
    requires forall i, j :: 0 <= i < |q| && 0 <= j < |r| ==> Before(q[i], r[j])
    ensures Ascending(Before, q + r)
  {
    hide Before;
  }

  lemma ValuesWith(m: map<JobId, QueueEntry>, id: JobId, e: QueueEntry)
    requires id !in m
    ensures m[id := e].Values == m.Values + {e}
  {
    var m' := m[id := e];
    assert m'[id] == e;
    forall x | x in m.Values ensures x in m'.Values {
      var k :| k in m && m[k] == x;
      assert m'[k] == x;
    }
  }

  lemma ValuesWithout(m: map<JobId, QueueEntry>, id: JobId)
    requires id in m && forall k :: k in m ==> m[k].ticket.id == k
    ensures (m - {id}).Values == m.Values - {m[id]}
  {
    var m' := m - {id};
    forall x | x in m.Values && x != m[id] ensures x in m'.Values {
      var k :| k in m && m[k] == x;
      assert m'[k] == x;
    }
  }
}
