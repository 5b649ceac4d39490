/** The retry and delayed queues: a singly linked list kept in descending priority (pq/pq.go). */
module PriorityQueues {

  datatype Item<T> = Item(value: T, priority: int)

  // ---------- the queue as a sequence ----------

  ghost predicate Descending<T>(q: seq<Item<T>>) {
    q == [] || (Descending(q[1..]) && forall y :: y in q[1..] ==> q[0].priority >= y.priority)
  }

  ghost function ValuesOf<T>(q: seq<Item<T>>): set<T> {
    if q == [] then {} else {q[0].value} + ValuesOf(q[1..])
  }

  ghost predicate OncePerValue<T>(q: seq<Item<T>>) {
    q == [] || (q[0].value !in ValuesOf(q[1..]) && OncePerValue(q[1..]))
  }

  lemma {:induction false} ValuesAreHeld<T>(q: seq<Item<T>>)
    ensures forall y :: y in q ==> y.value in ValuesOf(q)
    ensures forall v :: v in ValuesOf(q) ==> exists y :: y in q && y.value == v
  {
    if q != [] {
      assert q == [q[0]] + q[1..];
      ValuesAreHeld(q[1..]);
      assert q[0] in q;
    }
  }

  /** A new item goes behind every item of the same or a higher priority. */
  function Inserted<T>(q: seq<Item<T>>, x: Item<T>): seq<Item<T>> {
    if q == [] || q[0].priority < x.priority then [x] + q
    else [q[0]] + Inserted(q[1..], x)
  }

  /** The queue without the first item holding the value. */
  function Removed<T(==)>(q: seq<Item<T>>, v: T): seq<Item<T>> {
    if q == [] then q
    else if q[0].value == v then q[1..]
    else [q[0]] + Removed(q[1..], v)
  }

  /** Insertion splits the queue: the leading items at least as urgent stay ahead, the rest behind. */
  lemma {:induction false} InsertedSplits<T>(q: seq<Item<T>>, x: Item<T>, k: nat)
    requires k <= |q|
    requires forall i :: 0 <= i < k ==> q[i].priority >= x.priority
    requires k < |q| ==> q[k].priority < x.priority
    ensures Inserted(q, x) == q[..k] + [x] + q[k..]
  {
    if k > 0 {
      InsertedSplits(q[1..], x, k - 1);
      assert q[..k] == [q[0]] + q[1..][..k - 1];
    }
  }

  lemma {:induction false} InsertedKeeps<T>(q: seq<Item<T>>, x: Item<T>)
    ensures |Inserted(q, x)| == |q| + 1
    ensures forall y :: y in Inserted(q, x) <==> y in q || y == x
    ensures ValuesOf(Inserted(q, x)) == ValuesOf(q) + {x.value}
    ensures Descending(q) ==> Descending(Inserted(q, x))
    ensures OncePerValue(q) && x.value !in ValuesOf(q) ==> OncePerValue(Inserted(q, x))
  {
    var r := Inserted(q, x);
    if q == [] || q[0].priority < x.priority {
      assert r[1..] == q;
      assert q != [] ==> q == [q[0]] + q[1..];
    } else {
      InsertedKeeps(q[1..], x);
      assert q == [q[0]] + q[1..];
      assert r[1..] == Inserted(q[1..], x);
    }
  }

  lemma {:induction false} RemovedSplits<T>(q: seq<Item<T>>, v: T) returns (k: nat)
    ensures k <= |q|
    ensures forall i :: 0 <= i < k ==> q[i].value != v
    ensures k < |q| ==> q[k].value == v && Removed(q, v) == q[..k] + q[k + 1..]
    ensures k == |q| ==> Removed(q, v) == q
    ensures k < |q| <==> v in ValuesOf(q)
  {
    if q == [] || q[0].value == v {
      k := 0;
    } else {
      var n := RemovedSplits(q[1..], v);
      k := n + 1;
      assert q == [q[0]] + q[1..];
      assert q[..k] == [q[0]] + q[1..][..n];
    }
  }

  lemma {:induction false} RemovedKeeps<T>(q: seq<Item<T>>, v: T)
    requires OncePerValue(q)
    ensures ValuesOf(Removed(q, v)) == ValuesOf(q) - {v}
    ensures forall y :: y in Removed(q, v) <==> y in q && y.value != v
    ensures OncePerValue(Removed(q, v))
    ensures Descending(q) ==> Descending(Removed(q, v))
  {
    if q != [] {
      assert q == [q[0]] + q[1..];
      ValuesAreHeld(q[1..]);
      if q[0].value != v {
        RemovedKeeps(q[1..], v);
        assert Removed(q, v)[1..] == Removed(q[1..], v);
      }
    }
  }

  /** Taking out a value that was just inserted, in a queue that did not hold it. */
  lemma {:induction false} RemoveUndoesInsert<T>(q: seq<Item<T>>, x: Item<T>)
    requires x.value !in ValuesOf(q)
    ensures Removed(Inserted(q, x), x.value) == q
  {
    if q == [] || q[0].priority < x.priority {
      assert Inserted(q, x)[1..] == q;
    } else {
      RemoveUndoesInsert(q[1..], x);
      assert q == [q[0]] + q[1..];
      assert Inserted(q, x)[1..] == Inserted(q[1..], x);
    }
  }

  // ---------- the linked list ----------

  class Node<T> {
    const value: T
    const priority: int
    var next: Node?<T>

    constructor (value: T, priority: int)
      ensures this.value == value && this.priority == priority && next == null
    {
      this.value, this.priority, next := value, priority, null;
    }
  }

  ghost function Item0<T>(n: Node<T>): Item<T> { Item(n.value, n.priority) }

  ghost function ItemsOf<T>(spine: seq<Node<T>>): seq<Item<T>> {
    seq(|spine|, i requires 0 <= i < |spine| => Item0(spine[i]))
  }

  lemma ItemsCut<T>(s: seq<Node<T>>, v: T, k: nat)
    requires k < |s| && s[k].value == v
    requires forall i :: 0 <= i < k ==> s[i].value != v
    ensures ItemsOf(s[..k] + s[k + 1..]) == Removed(ItemsOf(s), v)
    ensures v in ValuesOf(ItemsOf(s))
  {
    var n := RemovedSplits(ItemsOf(s), v);
    assert ItemsOf(s)[k].value == v && forall i :: 0 <= i < k ==> ItemsOf(s)[i].value == s[i].value;
    assert n == k;
    assert ItemsOf(s[..k] + s[k + 1..]) == ItemsOf(s)[..k] + ItemsOf(s)[k + 1..];
  }

  lemma ItemsSpliced<T>(s: seq<Node<T>>, n: Node<T>, k: nat, x: Item<T>)
    requires k <= |s| && x == Item0(n)
    requires forall i :: 0 <= i < k ==> s[i].priority >= x.priority
    requires k < |s| ==> s[k].priority < x.priority
    ensures ItemsOf(s[..k] + [n] + s[k..]) == Inserted(ItemsOf(s), x)
  {
    InsertedSplits(ItemsOf(s), x, k);
    assert ItemsOf(s[..k] + [n] + s[k..]) == ItemsOf(s)[..k] + [x] + ItemsOf(s)[k..];
  }

  ghost predicate NoRepeat<T>(s: seq<Node<T>>) {
    forall i, j :: 0 <= i < j < |s| ==> s[i] != s[j]
  }

  /** Where the nodes are after one was put behind a position. */
  lemma SplicedNodes<T>(s: seq<Node<T>>, s': seq<Node<T>>, n: Node<T>, at: nat)
    requires at < |s| && n !in s && NoRepeat(s) && s' == s[..at + 1] + [n] + s[at + 1..]
    ensures NoRepeat(s') && |s'| == |s| + 1
    ensures forall i :: 0 <= i < |s'| ==> s'[i] == if i <= at then s[i] else if i == at + 1 then n else s[i - 1]
  {
  }

  ghost function NodeAt<T>(spine: seq<Node<T>>, i: nat): Node?<T> {
    if i < |spine| then spine[i] else null
  }

  class PriorityQueue<T(==)> {
    var head: Node?<T>
    var length: nat
    ghost var spine: seq<Node<T>>

    ghost function Footprint(): set<object>
      reads this
    {
      var nodes: set<object> := set n: Node<T> | n in spine;
      nodes + {this}
    }

    lemma FootprintIsAllocated()
      ensures forall o :: o in Footprint() ==> allocated(o)
    {
    }

    lemma FootprintHasNodes()
      ensures forall o :: o in Footprint() ==> o is PriorityQueue<T> || o is Node<T>
    {
    }

    /** The nodes form the list. */
    ghost predicate Linked()
      reads this, spine
    {
      && length == |spine|
      && NoRepeat(spine)
      && head == NodeAt(spine, 0)
      && (forall i :: 0 <= i < |spine| ==> spine[i].next == NodeAt(spine, i + 1))
    }

    ghost predicate Valid()
      reads Footprint()
    {
      this in Footprint() && Linked()
    }

    ghost function Contents(): seq<Item<T>>
      reads this
    {
      ItemsOf(spine)
    }

    constructor ()
      ensures Valid() && Contents() == [] && fresh(Footprint())
    {
      head, length, spine := null, 0, [];
    }

    method LinkFirst(node: Node<T>)
      requires Linked() && node !in spine
      modifies this, node
      ensures Linked() && spine == [node] + old(spine)
    {
      node.next := head;
      head := node;
      length := length + 1;
      spine := [node] + spine;
    }

    /** Links a new node behind the node at a position of the list. */
    method LinkAfter(current: Node<T>, node: Node<T>, ghost at: nat)
      requires Linked() && at < |spine| && current == spine[at] && node !in spine
      modifies this, current, node
      ensures Linked() && spine == old(spine)[..at + 1] + [node] + old(spine)[at + 1..]
    {
      ghost var was := spine;
      node.next := current.next;
      current.next := node;
      length := length + 1;
      spine := spine[..at + 1] + [node] + spine[at + 1..];
      SplicedNodes(was, spine, node, at);
    }

    /** Unlinks the node behind the node at a position of the list. */
    method UnlinkFirst()
      requires Linked() && spine != []
      modifies this
      ensures Linked() && spine == old(spine)[1..]
    {
      head := head.next;
      length := length - 1;
      spine := spine[1..];
    }

    method UnlinkAfter(current: Node<T>, ghost at: nat)
      requires Linked() && at + 1 < |spine| && current == spine[at]
      modifies this, current
      ensures Linked() && spine == old(spine)[..at + 1] + old(spine)[at + 2..]
    {
      current.next := current.next.next;
      length := length - 1;
      spine := spine[..at + 1] + spine[at + 2..];
    }

    /** The last node of the list's leading part whose priority is at least the given one. */
    method LastAtLeast(priority: int) returns (current: Node<T>, ghost at: nat)
      requires Linked() && head != null && head.priority >= priority
      ensures at < |spine| && current == spine[at]
      ensures forall i :: 0 <= i <= at ==> spine[i].priority >= priority
      ensures at + 1 < |spine| ==> spine[at + 1].priority < priority
    {
      current, at := head, 0;
      while current.next != null && current.next.priority >= priority
        invariant at < |spine| && current == spine[at]
        invariant forall i :: 0 <= i <= at ==> spine[i].priority >= priority
        decreases |spine| - at
      {
        current, at := current.next, at + 1;
      }
    }

    method LinkItem(value: T, priority: int)
      requires Linked()
      modifies this, spine
      ensures Linked() && (forall n :: n in spine ==> n in old(spine) || fresh(n))
      ensures Contents() == Inserted(old(Contents()), Item(value, priority))
    {
      var node := new Node(value, priority);
      if head == null || head.priority < priority {
        ItemsSpliced(spine, node, 0, Item(value, priority));
        assert spine[..0] + [node] + spine[0..] == [node] + spine;
        LinkFirst(node);
      } else {
        var current, at := LastAtLeast(priority);
        ItemsSpliced(spine, node, at + 1, Item(value, priority));
        LinkAfter(current, node, at);
      }
    }

    /** Unlinks the first node that holds the value. */
    method UnlinkItem(value: T) returns (found: bool)
      requires Linked()
      modifies this, spine
      ensures Linked() && (forall n :: n in spine ==> n in old(spine))
      ensures Contents() == Removed(old(Contents()), value)
      ensures found <==> value in ValuesOf(old(Contents()))
    {
      ghost var k := RemovedSplits(Contents(), value);
      if head == null {
        return false;
      }
      if head.value == value {
        ItemsCut(spine, value, 0);
        assert spine[..0] + spine[1..] == spine[1..];
        UnlinkFirst();
        return true;
      }
      var current := head;
      ghost var at := 0;
      while current.next != null
        invariant at < |spine| && current == spine[at]
        invariant forall i :: 0 <= i <= at ==> spine[i].value != value
        decreases |spine| - at
      {
        if current.next.value == value {
          ItemsCut(spine, value, at + 1);
          UnlinkAfter(current, at);
          return true;
        }
        current, at := current.next, at + 1;
      }
      return false;
    }

    method Enqueue(value: T, priority: int)
      requires Valid()
      modifies Footprint()
      ensures Valid() && forall o :: o in Footprint() ==> o in old(Footprint()) || fresh(o)
      ensures Contents() == Inserted(old(Contents()), Item(value, priority))
    {
      hide Linked;
      LinkItem(value, priority);
    }

    method DequeueWithPriority(minPriority: int) returns (r: Dequeued<T>)
      requires Valid()
      modifies Footprint()
      ensures Valid() && Footprint() <= old(Footprint())
      ensures var q := old(Contents());
              if q == [] || q[0].priority < minPriority
              then r == Nothing && Contents() == q
              else r == Got(q[0]) && Contents() == q[1..]
    {
      if head == null || head.priority < minPriority {
        return Nothing;
      }
      r := Got(Item(head.value, head.priority));
      UnlinkFirst();
    }

    /** Removes the first node that holds the value and reports whether there was one. */
    method Remove(value: T) returns (found: bool)
      requires Valid()
      modifies Footprint()
      ensures Valid() && Footprint() <= old(Footprint())
      ensures Contents() == Removed(old(Contents()), value)
      ensures found <==> value in ValuesOf(old(Contents()))
    {
      hide Linked;
      found := UnlinkItem(value);
    }

    method Clear()
      requires Valid()
      modifies Footprint()
      ensures Valid() && Footprint() <= old(Footprint()) && Contents() == []
    {
      head, length, spine := null, 0, [];
    }
  }

  datatype Dequeued<T> = Nothing | Got(item: Item<T>)
}
