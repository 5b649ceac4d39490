/** Strict total orders and the one ascending arrangement of a finite set. */
module Ordering {

  ghost predicate StrictTotal<T(!new)>(less: (T, T) -> bool, s: set<T>) {
    && (forall x :: x in s ==> !less(x, x))
    && (forall x, y, z :: x in s && y in s && z in s && less(x, y) && less(y, z) ==> less(x, z))
    && (forall x, y :: x in s && y in s && x != y ==> less(x, y) || less(y, x))
  }

  ghost predicate Ascending<T(!new)>(less: (T, T) -> bool, q: seq<T>) {
    forall i, j :: 0 <= i < j < |q| ==> less(q[i], q[j])
  }

  ghost predicate Distinct<T(!new)>(q: seq<T>) {
    forall i, j :: 0 <= i < j < |q| ==> q[i] != q[j]
  }

  ghost function Elements<T>(q: seq<T>): set<T> {
    set x | x in q
  }

  ghost predicate IsLeast<T(!new)>(less: (T, T) -> bool, s: set<T>, m: T) {
    m in s && forall x :: x in s && x != m ==> less(m, x)
  }

  lemma {:induction false} LeastExists<T(!new)>(less: (T, T) -> bool, s: set<T>)
    requires StrictTotal(less, s) && s != {}
    ensures exists m :: IsLeast(less, s, m)
    decreases |s|
  {
    var x :| x in s;
    var rest := s - {x};
    if rest == {} {
      assert s == {x};
      assert IsLeast(less, s, x);
    } else {
      LeastExists(less, rest);
      var m :| IsLeast(less, rest, m);
      if less(x, m) {
        assert IsLeast(less, s, x);
      } else {
        assert IsLeast(less, s, m);
      }
    }
  }

  /** The elements of `s`, each once, in ascending order. */
  ghost function Arrange<T(!new)>(less: (T, T) -> bool, s: set<T>): (q: seq<T>)
    requires StrictTotal(less, s)
    ensures forall x :: x in q <==> x in s
    ensures Ascending(less, q)
    ensures |q| == |s|
    decreases |s|
  {
    if s == {} then [] else
      LeastExists(less, s);
      var m :| IsLeast(less, s, m);
      var tail := Arrange(less, s - {m});
      assert |s| == |s - {m}| + 1;
      [m] + tail
  }

  lemma {:induction false} AscendingIsDistinct<T(!new)>(less: (T, T) -> bool, q: seq<T>)
    requires StrictTotal(less, Elements(q)) && Ascending(less, q)
    ensures Distinct(q)
  {
    forall i, j | 0 <= i < j < |q| ensures q[i] != q[j] {
      assert q[i] in Elements(q) && less(q[i], q[j]);
    }
  }

  /** Two ascending sequences with the same elements are equal. */
  lemma {:induction false} AscendingUnique<T(!new)>(less: (T, T) -> bool, a: seq<T>, b: seq<T>)
    requires StrictTotal(less, Elements(a))
    requires Ascending(less, a) && Ascending(less, b)
    requires forall x :: x in a <==> x in b
    ensures a == b
  {
    var s := Elements(a);
    assert s == Elements(b);
    AscendingIsDistinct(less, a);
    AscendingIsDistinct(less, b);
    DistinctCount(a);
    DistinctCount(b);
    if a != [] {
      assert a[0] in s && b[0] in s;
      var i :| 0 <= i < |b| && b[i] == a[0];
      var j :| 0 <= j < |a| && a[j] == b[0];
      assert a[0] == b[0];
      forall x ensures x in a[1..] <==> x in b[1..] {
        if x in a[1..] {
          var i :| 0 <= i < |a[1..]| && a[1..][i] == x;
          assert x == a[i + 1] && x != a[0];
          assert x in b;
          var k :| 0 <= k < |b| && b[k] == x;
          assert b[1..][k - 1] == x;
        }
        if x in b[1..] {
          var i :| 0 <= i < |b[1..]| && b[1..][i] == x;
          assert x == b[i + 1] && x != b[0];
          assert x in a;
          var k :| 0 <= k < |a| && a[k] == x;
          assert a[1..][k - 1] == x;
        }
      }
      assert Elements(a[1..]) <= s;
      AscendingUnique(less, a[1..], b[1..]);
      assert a == [a[0]] + a[1..] && b == [b[0]] + b[1..];
    }
  }

  /** An ascending sequence is the arrangement of its elements. */
  lemma ArrangeUnique<T(!new)>(less: (T, T) -> bool, q: seq<T>, s: set<T>)
    requires StrictTotal(less, s)
    requires Ascending(less, q)
    requires forall x :: x in q <==> x in s
    ensures q == Arrange(less, s)
  {
    assert Elements(q) == s;
    AscendingUnique(less, q, Arrange(less, s));
  }

  /** A set has as many elements as a repetition-free enumeration of it. */
  lemma {:induction false} SubsetCount<T>(a: set<T>, b: set<T>)
    requires a <= b
    ensures |a| <= |b|
    decreases |a|
  {
    if a != {} {
      var x :| x in a;
      SubsetCount(a - {x}, b - {x});
    }
  }

  lemma {:induction false} DistinctCount<T(!new)>(q: seq<T>)
    requires Distinct(q)
    ensures |Elements(q)| == |q|
  {
    if q == [] {
      assert Elements(q) == {};
    } else {
      DistinctCount(q[1..]);
      assert q == [q[0]] + q[1..];
      assert Elements(q) == {q[0]} + Elements(q[1..]);
      assert q[0] !in q[1..];
    }
  }

  // ---------- the library sort ----------

  method Place<T(!new)>(less: (T, T) -> bool, q: seq<T>, x: T) returns (r: seq<T>)
    requires StrictTotal(less, Elements(q) + {x}) && Ascending(less, q) && x !in q
    ensures Ascending(less, r) && forall y :: y in r <==> y in q || y == x
  {
    var i := 0;
    while i < |q| && less(q[i], x)
      invariant 0 <= i <= |q| && forall k :: 0 <= k < i ==> less(q[k], x)
    {
      i := i + 1;
    }
    forall k | i <= k < |q| ensures less(x, q[k]) {
      assert q[i] in Elements(q) + {x} && q[k] in Elements(q) + {x};
    }
    r := q[..i] + [x] + q[i..];
  }

  /** Sorts the elements of a list without repetitions. */
  method Sort<T(!new)>(less: (T, T) -> bool, items: seq<T>) returns (sorted: seq<T>)
    requires StrictTotal(less, Elements(items)) && Distinct(items)
    ensures sorted == Arrange(less, Elements(items))
  {
    sorted := [];
    for i := 0 to |items|
      invariant Ascending(less, sorted) && forall x :: x in sorted <==> x in items[..i]
    {
      assert items[..i + 1] == items[..i] + [items[i]];
      assert Elements(sorted) + {items[i]} <= Elements(items);
      sorted := Place(less, sorted, items[i]);
    }
    assert items[..|items|] == items;
    ArrangeUnique(less, sorted, Elements(items));
  }
}
