/** Binary heaps of queue entries that keep their positions (jobHeap with container/heap). */
module Heaps {
  import opened PullOrder

  /** A queued job in the index: its sort keys and its position in the heap of all topics and in
      the heap of its topic. */
  class QueueEntry {
    const ticket: Ticket
    var pos: seq<int>

    constructor (ticket: Ticket)
      ensures this.ticket == ticket && |pos| == 2
    {
      this.ticket := ticket;
      pos := [0, 0];
    }
  }

  // ---------- heap order on sequences ----------

  function Parent(k: int): int
    requires k > 0
  {
    (k - 1) / 2
  }

  predicate Less(a: QueueEntry, b: QueueEntry) {
    Before(a.ticket, b.ticket)
  }

  /** An element does not come before its parent. */
  ghost predicate InOrder(s: seq<QueueEntry>, k: int) {
    0 < k < |s| ==> !Less(s[k], s[Parent(k)])
  }

  /** The first `n` elements are in heap order. */
  ghost predicate Heap(s: seq<QueueEntry>, n: int) {
    forall k :: 0 < k < n <= |s| ==> InOrder(s, k)
  }

  /** The children of `i` do not come before the parent of `i`. */
  ghost predicate Bridged(s: seq<QueueEntry>, n: int, i: int) {
    forall k :: 0 < k < n <= |s| && 0 < i < |s| && Parent(k) == i ==> !Less(s[k], s[Parent(i)])
  }

  /** Heap order, except that `j` may come before its parent. */
  ghost predicate UpHole(s: seq<QueueEntry>, n: int, j: int) {
    (forall k :: 0 < k < n <= |s| && k != j ==> InOrder(s, k)) && Bridged(s, n, j)
  }

  /** Heap order, except that `i` may come before its parent or after its children. */
  ghost predicate Hole(s: seq<QueueEntry>, n: int, i: int) {
    (forall k :: 0 < k < n <= |s| && k != i && Parent(k) != i ==> InOrder(s, k)) && Bridged(s, n, i)
  }

  ghost function Swapped(s: seq<QueueEntry>, a: int, b: int): seq<QueueEntry>
    requires 0 <= a < |s| && 0 <= b < |s|
  {
    s[a := s[b]][b := s[a]]
  }

  lemma {:induction false} UpStep(s: seq<QueueEntry>, s': seq<QueueEntry>, n: int, j: int)
    requires UpHole(s, n, j) && 0 < j < n <= |s| && Less(s[j], s[Parent(j)])
    requires s' == Swapped(s, Parent(j), j)
    ensures UpHole(s', n, Parent(j))
  {
    var p := Parent(j);
    forall k | 0 < k < n && k != p ensures InOrder(s', k) {
      assert k != j ==> InOrder(s, k);
    }
    forall k | 0 < k < n && 0 < p && Parent(k) == p ensures !Less(s'[k], s'[Parent(p)]) {
      assert InOrder(s, p);
      assert k != j ==> InOrder(s, k);
    }
  }

  /** Sinking: the smaller child goes up. */
  lemma {:induction false} DownStep(s: seq<QueueEntry>, s': seq<QueueEntry>, n: int, i: int, j: int)
    requires Hole(s, n, i) && SmallerChild(s, n, i, j) && Less(s[j], s[i])
    requires s' == Swapped(s, i, j)
    ensures Hole(s', n, j) && InOrder(s', j)
    ensures i > 0 ==> InOrder(s', i)
  {
    forall k | 0 < k < n && k != j && Parent(k) != j ensures InOrder(s', k) {
      assert k != i && Parent(k) != i ==> InOrder(s, k);
      if k == i {
        assert Bridged(s, n, i);
      }
    }
    forall k | 0 < k < n && Parent(k) == j ensures !Less(s'[k], s'[Parent(j)]) {
      assert InOrder(s, k);
    }
  }

  /** The child of `i` that the other child does not come before. */
  ghost predicate SmallerChild(s: seq<QueueEntry>, n: int, i: int, j: int) {
    && 0 <= i < j < n <= |s| && Parent(j) == i
    && forall k :: 0 < k < n && Parent(k) == i ==> !Less(s[k], s[j])
  }

  lemma ChooseChild(s: seq<QueueEntry>, n: int, i: int)
    requires 0 <= i && 2 * i + 1 < n <= |s|
    ensures SmallerChild(s, n, i, if 2 * i + 2 < n && Less(s[2 * i + 2], s[2 * i + 1]) then 2 * i + 2 else 2 * i + 1)
  {
    assert forall k :: 0 < k && Parent(k) == i ==> k == 2 * i + 1 || k == 2 * i + 2;
  }

  /** Sinking ends when no child comes before the element. */
  lemma {:induction false} DownEnds(s: seq<QueueEntry>, n: int, i: int, start: int)
    requires Hole(s, n, i) && 0 <= start <= i < n <= |s| && (i > start ==> InOrder(s, i))
    requires 2 * i + 1 >= n || exists j :: SmallerChild(s, n, i, j) && !Less(s[j], s[i])
    ensures if i > start then Heap(s, n) else UpHole(s, n, start)
  {
    forall k | 0 < k < n && Parent(k) == i ensures InOrder(s, k) {
      var j :| SmallerChild(s, n, i, j) && !Less(s[j], s[i]);
    }
  }

  /** The root has no parent. */
  lemma UpHoleAtRoot(s: seq<QueueEntry>, n: int, moved: bool)
    requires if moved then Heap(s, n) else UpHole(s, n, 0)
    ensures Heap(s, n)
  {
  }

  /** The root comes first. */
  lemma {:induction false} RootIsFirst(s: seq<QueueEntry>, k: int)
    requires Heap(s, |s|) && 0 <= k < |s|
    ensures !Less(s[k], s[0])
    decreases k
  {
    if k > 0 {
      assert InOrder(s, k);
      RootIsFirst(s, Parent(k));
    }
  }

  /** The same elements, whatever their order. */
  ghost predicate SameElements(a: seq<QueueEntry>, b: seq<QueueEntry>) {
    |a| == |b| && (forall e :: e in a ==> e in b) && (forall e :: e in b ==> e in a)
  }

  lemma SameElems(a: seq<QueueEntry>, b: seq<QueueEntry>)
    requires |a| == |b| && (set e | e in a) == (set e | e in b)
    ensures SameElements(b, a)
  {
    var p, q := set e | e in a, set e | e in b;
    forall e | e in a ensures e in b {
      assert e in p && e in q;
    }
    forall e | e in b ensures e in a {
      assert e in q && e in p;
    }
  }

  lemma SwappedSame(s: seq<QueueEntry>, a: int, b: int)
    requires 0 <= a < |s| && 0 <= b < |s|
    ensures SameElements(Swapped(s, a, b), s)
    ensures forall n :: a < n <= |s| && b < n ==> Swapped(s, a, b)[n..] == s[n..]
  {
    var t := Swapped(s, a, b);
    forall e | e in s ensures e in t {
      var i :| 0 <= i < |s| && s[i] == e;
      assert t[if i == a then b else if i == b then a else i] == e;
    }
  }

  /** An element more at the end may come before its parent. */
  lemma AppendedHole(s: seq<QueueEntry>, x: QueueEntry)
    requires Heap(s, |s|)
    ensures UpHole(s + [x], |s| + 1, |s|)
  {
    forall k | 0 < k < |s| ensures InOrder(s + [x], k) {
      assert InOrder(s, k);
    }
  }

  /** The last element took the place of another. */
  lemma SwappedHole(s: seq<QueueEntry>, i: int)
    requires Heap(s, |s|) && 0 <= i < |s|
    ensures i < |s| - 1 ==> Hole(Swapped(s, i, |s| - 1), |s| - 1, i)
    ensures i == |s| - 1 ==> Heap(s, |s| - 1)
  {
    var n := |s| - 1;
    if i < n {
      var t := Swapped(s, i, n);
      forall k | 0 < k < n && k != i && Parent(k) != i ensures InOrder(t, k) {
        assert InOrder(s, k);
      }
      forall k | 0 < k < n && 0 < i && Parent(k) == i ensures !Less(t[k], t[Parent(i)]) {
        assert InOrder(s, k) && InOrder(s, i);
      }
    }
  }

  lemma HeapPrefix(s: seq<QueueEntry>, n: int)
    requires Heap(s, n) && 0 <= n <= |s|
    ensures Heap(s[..n], n)
  {
    forall k | 0 < k < n ensures InOrder(s[..n], k) {
      assert InOrder(s, k);
    }
  }

  // ---------- the heap ----------

  class JobHeap {
    var entries: seq<QueueEntry>
    /** Which of the two positions of an entry this heap keeps. */
    const which: int

    constructor (which: int)
      requires which == 0 || which == 1
      ensures this.which == which && entries == [] && Valid()
    {
      this.which := which;
      entries := [];
    }

    ghost function Elems(): set<QueueEntry>
      reads this
    {
      set e | e in entries
    }

    /** Every entry knows where it is. */
    ghost predicate Indexed()
      reads this, entries
    {
      && (which == 0 || which == 1)
      && forall i :: 0 <= i < |entries| ==> |entries[i].pos| == 2 && entries[i].pos[which] == i
    }

    ghost predicate Valid()
      reads this, entries
    {
      Indexed() && Heap(entries, |entries|)
    }

    /** The other heap's position of the entries of a set stays. */
    twostate predicate OthersKept(es: set<QueueEntry>)
      reads es
    {
      forall e :: e in es ==> |old(e.pos)| == 2 && |e.pos| == 2 && (which == 0 || which == 1)
                              && e.pos[1 - which] == old(e.pos[1 - which])
    }

    method Swap(a: int, b: int)
      requires Indexed() && 0 <= a < |entries| && 0 <= b < |entries|
      modifies this, entries[a], entries[b]
      ensures Indexed() && entries == Swapped(old(entries), a, b)
      ensures OthersKept(old(Elems()))
    {
      entries := entries[a := entries[b]][b := entries[a]];
      var x, y := entries[a], entries[b];
      x.pos := x.pos[which := a];
      y.pos := y.pos[which := b];
    }

    /** A swap among the first `n` entries. */
    method SwapWithin(a: int, b: int, ghost n: int)
      requires Indexed() && 0 <= a < n <= |entries| && 0 <= b < n
      modifies this, Elems()
      ensures Indexed() && entries == Swapped(old(entries), a, b)
      ensures SameElements(entries, old(entries)) && Elems() == old(Elems()) && entries[n..] == old(entries[n..])
      ensures OthersKept(old(Elems()))
    {
      SwappedSame(entries, a, b);
      assert entries[a] in Elems() && entries[b] in Elems();
      Swap(a, b);
    }

    /** container/heap up: the element at `start` rises while it comes before its parent. */
    method Up(start: int, ghost n: int)
      requires Indexed() && 0 <= start < n <= |entries| && UpHole(entries, n, start)
      modifies this, Elems()
      ensures Indexed() && SameElements(entries, old(entries)) && Elems() == old(Elems()) && Heap(entries, n)
      ensures entries[n..] == old(entries[n..])
      ensures OthersKept(old(Elems()))
    {
      var j := start;
      while true
        invariant Indexed() && 0 <= j < n <= |entries| && UpHole(entries, n, j)
        invariant |entries| == |old(entries)| && Elems() == old(Elems()) && entries[n..] == old(entries[n..])
        invariant OthersKept(old(Elems()))
        decreases j
      {
        var i := if j == 0 then 0 else Parent(j);
        if i == j || !Less(entries[j], entries[i]) {
          break;
        }
        UpStep(entries, Swapped(entries, i, j), n, j);
        SwapWithin(i, j, n);
        j := i;
      }
      SameElems(old(entries), entries);
    }

    /** The child that the other child does not come before. */
    method ChooseSmaller(i: int, n: int) returns (j: int)
      requires 0 <= i && 2 * i + 1 < n <= |entries|
      ensures SmallerChild(entries, n, i, j)
    {
      j := 2 * i + 1;
      ChooseChild(entries, n, i);
      if j + 1 < n && Less(entries[j + 1], entries[j]) {
        j := j + 1;
      }
    }

    /** container/heap down: the element at `start` sinks below the children that come before it. */
    method Down(start: int, n: int) returns (moved: bool)
      requires Indexed() && 0 <= start < n <= |entries| && Hole(entries, n, start)
      modifies this, Elems()
      ensures Indexed() && SameElements(entries, old(entries)) && Elems() == old(Elems())
      ensures if moved then Heap(entries, n) else UpHole(entries, n, start)
      ensures entries[n..] == old(entries[n..])
      ensures OthersKept(old(Elems()))
    {
      hide Hole, Heap, UpHole, InOrder, Less, Swapped;
      var i := start;
      while true
        invariant Indexed() && start <= i < n <= |entries| && Hole(entries, n, i)
        invariant i > start ==> InOrder(entries, i)
        invariant |entries| == |old(entries)| && Elems() == old(Elems()) && entries[n..] == old(entries[n..])
        invariant OthersKept(old(Elems()))
        decreases n - i
      {
        var j1 := 2 * i + 1;
        if j1 >= n {
          DownEnds(entries, n, i, start);
          break;
        }
        var j := ChooseSmaller(i, n);
        if !Less(entries[j], entries[i]) {
          DownEnds(entries, n, i, start);
          break;
        }
        DownStep(entries, Swapped(entries, i, j), n, i, j);
        SwapWithin(i, j, n);
        i := j;
      }
      moved := i > start;
      SameElems(old(entries), entries);
    }

    /** Drops the last entry, which is outside the heap order already. */
    method DropLast() returns (e: QueueEntry)
      requires Indexed() && |entries| > 0 && Heap(entries, |entries| - 1)
      modifies this
      ensures Valid() && e == old(entries[|entries| - 1]) && |entries| == |old(entries)| - 1
      ensures e in old(Elems()) && Elems() == old(Elems()) - {e}
    {
      var last := |entries| - 1;
      HeapPrefix(entries, last);
      hide Heap;
      e := entries[last];
      assert forall k :: 0 <= k < last ==> entries[k] != e;
      assert entries == entries[..last] + [e];
      entries := entries[..last];
    }

    /** heap.Push. */
    method Push(x: QueueEntry)
      requires Valid() && x !in entries && |x.pos| == 2
      modifies this, Elems(), x
      ensures Valid() && |entries| == |old(entries)| + 1 && Elems() == old(Elems()) + {x}
      ensures OthersKept(old(Elems()) + {x})
    {
      AppendedHole(entries, x);
      hide Heap, UpHole;
      x.pos := x.pos[which := |entries|];
      entries := entries + [x];
      Up(|entries| - 1, |entries|);
    }

    /** Down, then up if it did not move. */
    method Settle(i: int, n: int)
      requires Indexed() && 0 <= i < n <= |entries| && Hole(entries, n, i)
      modifies this, Elems()
      ensures Indexed() && SameElements(entries, old(entries)) && Elems() == old(Elems()) && Heap(entries, n)
      ensures entries[n..] == old(entries[n..])
      ensures OthersKept(old(Elems()))
    {
      hide Heap, Hole, UpHole;
      var moved := Down(i, n);
      if !moved {
        Up(i, n);
      }
    }

    /** heap.Remove: any entry, found by the position it keeps. */
    method RemoveAt(i: int) returns (e: QueueEntry)
      requires Valid() && 0 <= i < |entries|
      modifies this, Elems()
      ensures Valid() && e == old(entries[i]) && |entries| == |old(entries)| - 1
      ensures e in old(Elems()) && Elems() == old(Elems()) - {e}
      ensures OthersKept(old(Elems()))
    {
      var n := |entries| - 1;
      SwappedHole(entries, i);
      SwappedSame(entries, i, n);
      hide Heap, Hole, UpHole;
      if n != i {
        Swap(i, n);
        Settle(i, n);
      }
      e := DropLast();
    }

    /** heap.Pop: the first entry in pull order. */
    method Pop() returns (e: QueueEntry)
      requires Valid() && |entries| > 0
      modifies this, Elems()
      ensures Valid() && |entries| == |old(entries)| - 1
      ensures e in old(Elems()) && Elems() == old(Elems()) - {e}
      ensures forall x :: x in Elems() ==> !Less(x, e)
      ensures OthersKept(old(Elems()))
    {
      var n := |entries| - 1;
      ghost var es := entries;
      SwappedHole(entries, 0);
      SwappedSame(entries, 0, n);
      forall x | x in Elems() ensures !Less(x, es[0]) {
        var k :| 0 <= k < |es| && es[k] == x;
        RootIsFirst(es, k);
      }
      hide Heap, Hole, UpHole, Less;
      Swap(0, n);
      if n > 0 {
        var moved := Down(0, n);
        UpHoleAtRoot(entries, n, moved);
      }
      e := DropLast();
    }

    /** The popping loop of first: at most `n` entries, in pull order. */
    method PopFirst(n: nat) returns (taken: seq<QueueEntry>)
      requires Valid() && OneEntryPerJob(Elems())
      modifies this, Elems()
      ensures Valid() && OthersKept(old(Elems()))
      ensures TakenFrom(old(Elems()), Elems(), taken) && InPullOrder(taken) && AheadOf(taken, Elems())
      ensures |taken| == n || (|taken| < n && Elems() == {})
    {
      hide Heap, Less;
      ghost var es := Elems();
      taken := [];
      while |taken| < n && |entries| > 0
        invariant Valid() && OthersKept(es)
        invariant TakenFrom(es, Elems(), taken) && InPullOrder(taken) && AheadOf(taken, Elems())
        invariant |taken| <= n
        decreases n - |taken|
      {
        ghost var left := Elems();
        var e := Pop();
        OneMoreTaken(es, left, taken, e);
        taken := taken + [e];
      }
      assert |entries| == 0 ==> Elems() == {};
    }

    /** The loop of first that puts the entries back. */
    method PushBack(taken: seq<QueueEntry>, ghost es: set<QueueEntry>)
      requires Valid() && TakenFrom(es, Elems(), taken) && forall e :: e in taken ==> |e.pos| == 2
      modifies this, es
      ensures Valid() && Elems() == es && OthersKept(es)
    {
      hide Heap;
      assert forall e :: e in Elems() ==> |e.pos| == 2;
      for i := 0 to |taken|
        invariant Valid() && TakenFrom(es, Elems(), taken[i..])
        invariant OthersKept(es)
      {
        OneLessTaken(es, Elems(), taken[i..]);
        assert taken[i..][1..] == taken[i + 1..];
        Push(taken[i]);
      }
    }

    /** first: the entries stay in the heap. */
    method First(n: nat) returns (taken: seq<QueueEntry>, ghost rest: set<QueueEntry>)
      requires Valid() && OneEntryPerJob(Elems())
      modifies this, Elems()
      ensures Valid() && Elems() == old(Elems()) && OthersKept(old(Elems()))
      ensures TakesFirst(Elems(), taken, rest, n)
    {
      taken := PopFirst(n);
      rest := Elems();
      hide Heap, InPullOrder, AheadOf;
      PushBack(taken, old(Elems()));
    }
  }

  // ---------- taking the first entries ----------

  ghost predicate OneEntryPerJob(es: set<QueueEntry>) {
    forall a, b :: a in es && b in es && a.ticket.id == b.ticket.id ==> a == b
  }

  /** The entries `es` are those left and those taken, each once. */
  ghost predicate TakenFrom(es: set<QueueEntry>, left: set<QueueEntry>, taken: seq<QueueEntry>) {
    && es == left + (set e | e in taken)
    && (forall e :: e in taken ==> e !in left)
    && (forall i, j :: 0 <= i < j < |taken| ==> taken[i] != taken[j])
  }

  ghost predicate InPullOrder(q: seq<QueueEntry>) {
    forall i, j :: 0 <= i < j < |q| ==> Less(q[i], q[j])
  }

  ghost predicate AheadOf(q: seq<QueueEntry>, rest: set<QueueEntry>) {
    forall i, e :: 0 <= i < |q| && e in rest ==> Less(q[i], e)
  }

  /** The first `n` of the entries, and the rest of them. */
  ghost predicate TakesFirst(es: set<QueueEntry>, taken: seq<QueueEntry>, rest: set<QueueEntry>, n: nat) {
    && TakenFrom(es, rest, taken) && InPullOrder(taken) && AheadOf(taken, rest)
    && (|taken| == n || (|taken| < n && rest == {}))
  }

  lemma {:induction false} OneMoreTaken(es: set<QueueEntry>, left: set<QueueEntry>, taken: seq<QueueEntry>, e: QueueEntry)
    requires OneEntryPerJob(es) && TakenFrom(es, left, taken) && InPullOrder(taken) && AheadOf(taken, left)
    requires e in left && forall x :: x in left - {e} ==> !Less(x, e)
    ensures TakenFrom(es, left - {e}, taken + [e])
    ensures InPullOrder(taken + [e]) && AheadOf(taken + [e], left - {e})
  {
    forall x | x in left - {e} ensures Less(e, x) {
      assert e in es && x in es && e.ticket.id != x.ticket.id;
    }
  }

  lemma OneLessTaken(es: set<QueueEntry>, left: set<QueueEntry>, taken: seq<QueueEntry>)
    requires TakenFrom(es, left, taken) && taken != []
    ensures TakenFrom(es, left + {taken[0]}, taken[1..])
  {
    assert taken == [taken[0]] + taken[1..];
  }
}
