/** What the queued writes mean, and the coalescing of those to retry
    (jobbackendprovider/redisprovider/writer.go). */
module WriteLog {

  datatype Key = Key(name: string)

  /** One change to save: a key to set or delete, or every job key to delete. */
  datatype WriteOp = WriteOp(key: Key, value: string, ttl: nat, del: bool, delAll: bool)

  datatype Entry = Missing | Stored(value: string, ttl: nat)

  type Store = map<Key, Entry>

  /** The keys of the jobs; the other keys of the database are not touched. */
  predicate JobKey(k: Key) {
    "job:" <= k.name
  }

  /** The writer is only given job keys. */
  ghost predicate JobOps(ops: seq<WriteOp>) {
    forall i :: 0 <= i < |ops| ==> ops[i].delAll || JobKey(ops[i].key)
  }

  // ---------- meaning ----------

  function ApplyOp(op: WriteOp, s: Store): Store {
    if op.delAll then map k | k in s && !JobKey(k) :: s[k]
    else if op.del then s - {op.key}
    else s[op.key := Stored(op.value, op.ttl)]
  }

  ghost function Apply(ops: seq<WriteOp>, s: Store): Store {
    if ops == [] then s else ApplyOp(ops[|ops| - 1], Apply(ops[..|ops| - 1], s))
  }

  function Lookup(s: Store, k: Key): Entry {
    if k in s then s[k] else Missing
  }

  predicate Touches(op: WriteOp, k: Key) {
    if op.delAll then JobKey(k) else op.key == k
  }

  /** What the operation leaves under a key it touches. */
  function Left(op: WriteOp): Entry {
    if op.delAll || op.del then Missing else Stored(op.value, op.ttl)
  }

  /** Stores without entries that mean nothing. */
  ghost predicate Proper(s: Store) {
    forall k :: k in s ==> s[k] != Missing
  }

  /** What becomes of a key: the last operation that touches it decides. */
  ghost function Outcome(ops: seq<WriteOp>, k: Key, before: Entry): Entry {
    if ops == [] then before
    else if Touches(ops[|ops| - 1], k) then Left(ops[|ops| - 1])
    else Outcome(ops[..|ops| - 1], k, before)
  }

  lemma {:induction false} ApplyOutcome(ops: seq<WriteOp>, s: Store, k: Key)
    ensures Lookup(Apply(ops, s), k) == Outcome(ops, k, Lookup(s, k))
  {
    if ops != [] {
      ApplyOutcome(ops[..|ops| - 1], s, k);
    }
  }

  /** What a list of operations leaves under a key, in their fields: the last operation on the key, or on all job
      keys, decides; it left the value it set, with its time to live, or nothing. */
  lemma {:induction false} LastOperationDecides(ops: seq<WriteOp>, s: Store, k: Key, i: nat)
    requires i < |ops| && (if ops[i].delAll then "job:" <= k.name else ops[i].key == k)
    requires forall m :: i < m < |ops| ==> !(if ops[m].delAll then "job:" <= k.name else ops[m].key == k)
    ensures if ops[i].delAll || ops[i].del then k !in Apply(ops, s)
            else k in Apply(ops, s) && Apply(ops, s)[k] == Stored(ops[i].value, ops[i].ttl)
    decreases |ops|
  {
    if i < |ops| - 1 {
      LastOperationDecides(ops[..|ops| - 1], s, k, i);
      assert !(if ops[|ops| - 1].delAll then "job:" <= k.name else ops[|ops| - 1].key == k);
    }
  }

  /** A key that no operation is about keeps its entry. */
  lemma {:induction false} NoOperationNoChange(ops: seq<WriteOp>, s: Store, k: Key)
    requires forall m :: 0 <= m < |ops| ==> !(if ops[m].delAll then "job:" <= k.name else ops[m].key == k)
    ensures k in Apply(ops, s) <==> k in s
    ensures k in s ==> Apply(ops, s)[k] == s[k]
    decreases |ops|
  {
    if ops != [] {
      NoOperationNoChange(ops[..|ops| - 1], s, k);
      assert !(if ops[|ops| - 1].delAll then "job:" <= k.name else ops[|ops| - 1].key == k);
    }
  }

  lemma {:induction false} ApplyIsProper(ops: seq<WriteOp>, s: Store)
    requires Proper(s)
    ensures Proper(Apply(ops, s))
  {
    if ops != [] {
      ApplyIsProper(ops[..|ops| - 1], s);
    }
  }

  lemma SameStore(a: Store, b: Store)
    requires Proper(a) && Proper(b) && forall k :: Lookup(a, k) == Lookup(b, k)
    ensures a == b
  {
    assert forall k :: k in a <==> Lookup(a, k) != Missing;
    assert forall k :: k in b <==> Lookup(b, k) != Missing;
    assert forall k :: k in a ==> a[k] == Lookup(a, k) == b[k];
  }

  /** One list after another. */
  lemma {:induction false} ApplyJoined(a: seq<WriteOp>, b: seq<WriteOp>, s: Store)
    ensures Apply(a + b, s) == Apply(b, Apply(a, s))
  {
    if b == [] {
      assert a + b == a;
    } else {
      var n := |a + b| - 1;
      assert (a + b)[n] == b[|b| - 1] && (a + b)[..n] == a + b[..|b| - 1];
      ApplyJoined(a, b[..|b| - 1], s);
    }
  }

  // ---------- partial application ----------

  ghost predicate LeftBySome(ops: seq<WriteOp>, k: Key, e: Entry) {
    exists i :: 0 <= i < |ops| && Touches(ops[i], k) && Left(ops[i]) == e
  }

  /** A failed attempt: each key is as before, or as some operation left it. */
  ghost predicate PartlyApplied(ops: seq<WriteOp>, s: Store, s': Store) {
    && Proper(s')
    && forall k :: Lookup(s', k) == Lookup(s, k) || LeftBySome(ops, k, Lookup(s', k))
  }

  lemma {:induction false} OutcomeSettled(ops: seq<WriteOp>, k: Key, a: Entry, b: Entry)
    requires a == b || exists i :: 0 <= i < |ops| && Touches(ops[i], k)
    ensures Outcome(ops, k, a) == Outcome(ops, k, b)
  {
    if a != b {
      var n := |ops| - 1;
      if !Touches(ops[n], k) {
        var i :| 0 <= i < |ops| && Touches(ops[i], k);
        assert ops[..n][i] == ops[i];
        OutcomeSettled(ops[..n], k, a, b);
      }
    }
  }

  /** Doing everything again after a partial attempt gives what one complete attempt gives. */
  lemma RetryIsSafe(ops: seq<WriteOp>, s: Store, s': Store)
    requires Proper(s) && PartlyApplied(ops, s, s')
    ensures Apply(ops, s') == Apply(ops, s)
  {
    ApplyIsProper(ops, s);
    ApplyIsProper(ops, s');
    forall k ensures Lookup(Apply(ops, s'), k) == Lookup(Apply(ops, s), k) {
      ApplyOutcome(ops, s, k);
      ApplyOutcome(ops, s', k);
      OutcomeSettled(ops, k, Lookup(s, k), Lookup(s', k));
    }
    SameStore(Apply(ops, s'), Apply(ops, s));
  }

  /** A partial attempt that goes on is a partial attempt. */
  lemma PartlyThenPartly(ops: seq<WriteOp>, s: Store, s1: Store, s2: Store)
    requires PartlyApplied(ops, s, s1) && PartlyApplied(ops, s1, s2)
    ensures PartlyApplied(ops, s, s2)
  {
  }

  /** A complete attempt is a partial one. */
  lemma {:induction false} WholeIsPart(ops: seq<WriteOp>, s: Store)
    requires Proper(s)
    ensures PartlyApplied(ops, s, Apply(ops, s))
  {
    ApplyIsProper(ops, s);
    forall k ensures var e := Lookup(Apply(ops, s), k); e == Lookup(s, k) || LeftBySome(ops, k, e) {
      ApplyOutcome(ops, s, k);
      OutcomeIsSomeones(ops, k, Lookup(s, k));
    }
  }

  lemma {:induction false} OutcomeIsSomeones(ops: seq<WriteOp>, k: Key, e: Entry)
    ensures Outcome(ops, k, e) == e || LeftBySome(ops, k, Outcome(ops, k, e))
  {
    if ops != [] {
      var n := |ops| - 1;
      if !Touches(ops[n], k) {
        OutcomeIsSomeones(ops[..n], k, e);
        if LeftBySome(ops[..n], k, Outcome(ops, k, e)) {
          var i :| 0 <= i < n && Touches(ops[..n][i], k) && Left(ops[..n][i]) == Outcome(ops, k, e);
          assert ops[i] == ops[..n][i];
        }
      }
    }
  }

  // ---------- coalescing ----------

  predicate KeptBeside(o: WriteOp, op: WriteOp) {
    o.delAll || o.key != op.key
  }

  /** The operations that `op` does not replace, if it concerns one key. */
  ghost function Without(out: seq<WriteOp>, op: WriteOp): seq<WriteOp> {
    if out == [] then [] else
    var rest := Without(out[..|out| - 1], op);
    if KeptBeside(out[|out| - 1], op) then rest + [out[|out| - 1]] else rest
  }

  ghost function Added(out: seq<WriteOp>, op: WriteOp): seq<WriteOp> {
    if op.delAll then [op] else Without(out, op) + [op]
  }

  ghost function Coalesced(ops: seq<WriteOp>): seq<WriteOp> {
    if ops == [] then [] else Added(Coalesced(ops[..|ops| - 1]), ops[|ops| - 1])
  }

  lemma {:induction false} WithoutOutcome(out: seq<WriteOp>, op: WriteOp, k: Key, e: Entry)
    requires k != op.key
    ensures Outcome(Without(out, op), k, e) == Outcome(out, k, e)
  {
    if out != [] {
      var n := |out| - 1;
      WithoutOutcome(out[..n], op, k, e);
      var rest := Without(out[..n], op);
      assert (rest + [out[n]])[..|rest|] == rest;
    }
  }

  lemma {:induction false} UntouchedOutcome(ops: seq<WriteOp>, k: Key, e: Entry)
    requires JobOps(ops) && !JobKey(k)
    ensures Outcome(ops, k, e) == e
  {
    if ops != [] {
      UntouchedOutcome(ops[..|ops| - 1], k, e);
    }
  }

  lemma {:induction false} WithoutIsPart(out: seq<WriteOp>, op: WriteOp)
    ensures forall i :: 0 <= i < |Without(out, op)| ==> Without(out, op)[i] in out && KeptBeside(Without(out, op)[i], op)
    ensures |Without(out, op)| <= |out|
    ensures |out| > 0 && out[0].delAll ==> |Without(out, op)| > 0 && Without(out, op)[0] == out[0]
  {
    if out != [] {
      WithoutIsPart(out[..|out| - 1], op);
    }
  }

  lemma AddedOutcome(out: seq<WriteOp>, op: WriteOp, k: Key, e: Entry)
    requires JobOps(out)
    ensures Outcome(Added(out, op), k, e) == Outcome(out + [op], k, e)
  {
    assert (out + [op])[..|out|] == out;
    var w := Without(out, op);
    assert (w + [op])[..|w|] == w;
    if !Touches(op, k) {
      if op.delAll {
        UntouchedOutcome(out, k, e);
        assert [op][..0] == [];
      } else {
        WithoutOutcome(out, op, k, e);
      }
    }
  }

  lemma {:induction false} CoalescedAreSome(ops: seq<WriteOp>)
    ensures forall i :: 0 <= i < |Coalesced(ops)| ==> Coalesced(ops)[i] in ops
    ensures |Coalesced(ops)| <= |ops|
    ensures ops != [] ==> Coalesced(ops) != []
  {
    if ops != [] {
      var n := |ops| - 1;
      CoalescedAreSome(ops[..n]);
      WithoutIsPart(Coalesced(ops[..n]), ops[n]);
    }
  }

  lemma CoalescedAreJobOps(ops: seq<WriteOp>)
    requires JobOps(ops)
    ensures JobOps(Coalesced(ops))
  {
    CoalescedAreSome(ops);
    hide Coalesced;
  }

  lemma LastDecides(q: seq<WriteOp>, op: WriteOp, k: Key, e: Entry)
    ensures Outcome(q + [op], k, e) == if Touches(op, k) then Left(op) else Outcome(q, k, e)
  {
    assert (q + [op])[..|q|] == q;
  }

  lemma {:induction false} CoalescedOutcome(ops: seq<WriteOp>, k: Key, e: Entry)
    requires JobOps(ops)
    ensures Outcome(Coalesced(ops), k, e) == Outcome(ops, k, e)
  {
    if ops != [] {
      var n := |ops| - 1;
      var c := Coalesced(ops[..n]);
      CoalescedOutcome(ops[..n], k, e);
      CoalescedAreJobOps(ops[..n]);
      AddedOutcome(c, ops[n], k, e);
      hide Added, Coalesced, JobOps;
      LastDecides(c, ops[n], k, e);
    }
  }

  /** Coalescing preserves the meaning, also on a store the operations have changed in part. */
  lemma CoalescingIsSafe(ops: seq<WriteOp>, s: Store, s': Store)
    requires JobOps(ops) && Proper(s) && PartlyApplied(ops, s, s')
    ensures Apply(Coalesced(ops), s') == Apply(ops, s)
  {
    RetryIsSafe(ops, s, s');
    ApplyIsProper(ops, s');
    ApplyIsProper(Coalesced(ops), s');
    forall k ensures Lookup(Apply(Coalesced(ops), s'), k) == Lookup(Apply(ops, s'), k) {
      ApplyOutcome(ops, s', k);
      ApplyOutcome(Coalesced(ops), s', k);
      CoalescedOutcome(ops, k, Lookup(s', k));
    }
    SameStore(Apply(Coalesced(ops), s'), Apply(ops, s'));
  }

  /** At most one operation for each key, and a deletion of everything only at the beginning. */
  ghost predicate Minimal(q: seq<WriteOp>) {
    && (forall i :: 0 < i < |q| ==> !q[i].delAll)
    && (forall i, j :: 0 <= i < j < |q| && !q[i].delAll && !q[j].delAll ==> q[i].key != q[j].key)
  }

  lemma {:induction false} WithoutIsMinimal(out: seq<WriteOp>, op: WriteOp)
    requires Minimal(out)
    ensures Minimal(Without(out, op))
    ensures |Without(out, op)| > 0 && Without(out, op)[0].delAll ==> out[0].delAll
  {
    if out != [] {
      var n := |out| - 1;
      WithoutIsMinimal(out[..n], op);
      WithoutIsPart(out[..n], op);
    }
  }

  lemma {:induction false} CoalescedIsMinimal(ops: seq<WriteOp>)
    ensures Minimal(Coalesced(ops))
  {
    if ops != [] {
      var n := |ops| - 1;
      CoalescedIsMinimal(ops[..n]);
      WithoutIsMinimal(Coalesced(ops[..n]), ops[n]);
      WithoutIsPart(Coalesced(ops[..n]), ops[n]);
    }
  }

  // ---------- the independent description: what no later operation replaces ----------

  predicate Replaces(later: WriteOp, o: WriteOp) {
    later.delAll || (!o.delAll && o.key == later.key)
  }

  /** The operations that no later one replaces, in order. */
  ghost function Survivors(ops: seq<WriteOp>, later: seq<WriteOp>): seq<WriteOp> {
    if ops == [] then [] else
    var n := |ops| - 1;
    var rest := Survivors(ops[..n], [ops[n]] + later);
    if exists i :: 0 <= i < |later| && Replaces(later[i], ops[n]) then rest else rest + [ops[n]]
  }

  /** One more later operation. */
  lemma {:induction false} SurvivorsThen(ops: seq<WriteOp>, later: seq<WriteOp>, op: WriteOp)
    requires !op.delAll
    ensures Survivors(ops, later + [op]) == Without(Survivors(ops, later), op)
    decreases |ops|
  {
    if ops != [] {
      var n := |ops| - 1;
      SurvivorsThen(ops[..n], [ops[n]] + later, op);
      assert [ops[n]] + (later + [op]) == [ops[n]] + later + [op];
      var rest := Survivors(ops[..n], [ops[n]] + later);
      assert (rest + [ops[n]])[..|rest|] == rest;
      ReplacedByOneMore(later, op, ops[n]);
    }
  }

  lemma ReplacedByOneMore(later: seq<WriteOp>, op: WriteOp, o: WriteOp)
    ensures (exists i :: 0 <= i < |later + [op]| && Replaces((later + [op])[i], o))
       <==> ((exists i :: 0 <= i < |later| && Replaces(later[i], o)) || Replaces(op, o))
  {
    assert (later + [op])[|later|] == op;
    assert forall i :: 0 <= i < |later| ==> (later + [op])[i] == later[i];
  }

  lemma {:induction false} NoneSurvives(ops: seq<WriteOp>, later: seq<WriteOp>)
    requires exists i :: 0 <= i < |later| && later[i].delAll
    ensures Survivors(ops, later) == []
    decreases |ops|
  {
    if ops != [] {
      var n := |ops| - 1;
      var i :| 0 <= i < |later| && later[i].delAll;
      assert ([ops[n]] + later)[i + 1].delAll;
      NoneSurvives(ops[..n], [ops[n]] + later);
      assert Replaces(later[i], ops[n]);
    }
  }

  /** Coalescing keeps exactly what no later operation replaces. */
  lemma {:induction false} CoalescedAreSurvivors(ops: seq<WriteOp>)
    ensures Coalesced(ops) == Survivors(ops, [])
  {
    if ops != [] {
      var n := |ops| - 1;
      CoalescedAreSurvivors(ops[..n]);
      assert [ops[n]] + [] == [] + [ops[n]];
      if ops[n].delAll {
        assert ([ops[n]] + [])[0].delAll;
        NoneSurvives(ops[..n], [ops[n]] + []);
      } else {
        SurvivorsThen(ops[..n], [], ops[n]);
      }
    }
  }

  /** coalesce: the kept operations are moved to the front of the same array. */
  method Coalesce(ops: seq<WriteOp>) returns (r: seq<WriteOp>)
    ensures r == Coalesced(ops)
  {
    if |ops| == 0 {
      return [];
    }
    var out := new WriteOp[|ops|](i requires 0 <= i < |ops| => ops[i]);
    var len := 0;
    for i := 0 to |ops|
      invariant 0 <= len <= i && out[..len] == Coalesced(ops[..i])
    {
      var op := ops[i];
      assert ops[..i + 1][..i] == ops[..i];
      hide Without, KeptBeside;
      if op.delAll {
        len := 0;
      } else {
        len := Filter(out, len, op);
      }
      out[len] := op;
      len := len + 1;
    }
    r := out[..len];
    assert ops[..|ops|] == ops;
  }

  /** The filtering loop of coalesce. */
  method Filter(out: array<WriteOp>, len: nat, op: WriteOp) returns (kept: nat)
    requires len <= out.Length
    modifies out
    ensures kept <= len && out[..kept] == Without(old(out[..len]), op)
  {
    kept := 0;
    ghost var was := out[..len];
    for i := 0 to len
      invariant kept <= i && out[i..len] == was[i..] && out[..kept] == Without(was[..i], op)
    {
      var o := out[i];
      assert o == was[i] by {
        assert out[i..len][0] == was[i..][0];
      }
      assert was[..i + 1][..i] == was[..i];
      if KeptBeside(o, op) {
        out[kept] := o;
        kept := kept + 1;
      }
    }
    assert was[..len] == was;
  }
}
