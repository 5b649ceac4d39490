/** The Redis client as the writer sees it: a pipeline or a deletion that fails may have been
    applied in part (writer.go, execute and deleteAllJobs). */
module RedisClient {
  import opened WriteLog

  lemma PartlyApplyMore(a: seq<WriteOp>, b: seq<WriteOp>, s: Store, s': Store)
    requires PartlyApplied(a, s, s') && forall op :: op in a ==> op in b
    ensures PartlyApplied(b, s, s')
  {
    forall k | LeftBySome(a, k, Lookup(s', k)) ensures LeftBySome(b, k, Lookup(s', k)) {
      var i :| 0 <= i < |a| && Touches(a[i], k) && Left(a[i]) == Lookup(s', k);
      assert a[i] in b;
      var j :| 0 <= j < |b| && b[j] == a[i];
    }
  }

  /** One operation more was applied, or not. */
  lemma PartlyApplyOne(ops: seq<WriteOp>, op: WriteOp, s: Store, s': Store)
    requires Proper(s) && op in ops && PartlyApplied(ops, s, s')
    ensures PartlyApplied(ops, s, ApplyOp(op, s'))
  {
    var t := ApplyOp(op, s');
    var i :| 0 <= i < |ops| && ops[i] == op;
    forall k ensures Lookup(t, k) == Lookup(s, k) || LeftBySome(ops, k, Lookup(t, k)) {
      if !Touches(op, k) {
        assert Lookup(t, k) == Lookup(s', k);
      } else {
        assert Lookup(t, k) == Left(ops[i]);
      }
    }
  }

  const DELETE_ALL := WriteOp(Key(""), "", 0, false, true)

  class Redis {
    var store: Store

    constructor (store: Store)
      ensures this.store == store
    {
      this.store := store;
    }

    /** Sends a pipeline; when it fails, any of its commands may have been executed. */
    method Exec(pipe: seq<WriteOp>) returns (ok: bool)
      requires Proper(store)
      modifies this
      ensures Proper(store)
      ensures if ok then store == Apply(pipe, old(store)) else PartlyApplied(pipe, old(store), store)
    {
      ok := true;
      for i := 0 to |pipe|
        invariant PartlyApplied(pipe, old(store), store)
        invariant ok ==> store == Apply(pipe[..i], old(store))
      {
        assert pipe[..i + 1][..i] == pipe[..i];
        var executed: bool := *;
        if executed {
          PartlyApplyOne(pipe, pipe[i], old(store), store);
          store := ApplyOp(pipe[i], store);
        } else {
          ok := false;
        }
      }
      assert pipe[..|pipe|] == pipe;
    }

    /** Deletes the keys of the jobs, one batch of a scan after the other; a batch that fails
        may be deleted in part. */
    method DeleteAllJobs() returns (ok: bool)
      requires Proper(store)
      modifies this
      ensures Proper(store)
      ensures ok ==> store == map k | k in old(store) && !("job:" <= k.name) :: old(store)[k]
      ensures if ok then store == ApplyOp(DELETE_ALL, old(store)) else PartlyApplied([DELETE_ALL], old(store), store)
    {
      ghost var was := store;
      var left := set k | k in store && JobKey(k);
      while left != {}
        invariant forall k :: k in left ==> JobKey(k) && k in was
        invariant store.Keys <= was.Keys && forall k :: k in store ==> store[k] == was[k]
        invariant forall k :: k in was && (k in left || !JobKey(k)) ==> k in store
        invariant forall k :: k in store && JobKey(k) ==> k in left
        decreases |left|
      {
        var keys :| keys <= left && keys != {};
        var fails: bool := *;
        if fails {
          var gone :| gone <= keys;
          store := store - gone;
          DeletedInPart(was, store);
          return false;
        }
        store := store - keys;
        left := left - keys;
      }
      ok := true;
    }

    /** execute: SET and DEL in pipelines, the deletions of everything between them. */
    method Execute(ops: seq<WriteOp>) returns (ok: bool)
      requires Proper(store)
      modifies this
      ensures Proper(store)
      ensures if ok then store == Apply(ops, old(store)) else PartlyApplied(ops, old(store), store)
    {
      var pipe: seq<WriteOp> := [];
      ghost var sent := 0;
      ghost var was := store;
      for i := 0 to |ops|
        invariant 0 <= sent <= i && pipe == ops[sent..i]
        invariant Proper(store) && store == Apply(ops[..sent], was)
      {
        if ops[i].delAll {
          ok := Flush(pipe, ops, was, sent, i);
          if !ok {
            return;
          }
          SentOne(ops, was, i, store);
          ghost var before := store;
          ok := DeleteAllJobs();
          if !ok {
            DeletedSome(ops, i, was, before, store);
            return;
          }
          sent, pipe := i + 1, [];
        } else {
          assert ops[sent..i + 1] == ops[sent..i] + [ops[i]];
          pipe := pipe + [ops[i]];
        }
      }
      ok := Flush(pipe, ops, was, sent, |ops|);
      assert ops[..|ops|] == ops;
    }

    /** Sends the commands gathered so far. */
    method Flush(pipe: seq<WriteOp>, ghost ops: seq<WriteOp>, ghost was: Store, ghost sent: nat, ghost upTo: nat)
        returns (ok: bool)
      requires sent <= upTo <= |ops| && pipe == ops[sent..upTo]
      requires Proper(was) && Proper(store) && store == Apply(ops[..sent], was)
      modifies this
      ensures Proper(store)
      ensures if ok then store == Apply(ops[..upTo], was) else PartlyApplied(ops, was, store)
    {
      ghost var before := store;
      assert ops[..upTo] == ops[..sent] + pipe;
      ApplyJoined(ops[..sent], pipe, was);
      if |pipe| == 0 {
        return true;
      }
      ok := Exec(pipe);
      if !ok {
        WholeIsPart(ops[..sent], was);
        PartlyApplyMore(ops[..sent], ops, was, before);
        PartlyApplyMore(pipe, ops, before, store);
        PartlyThenPartly(ops, was, before, store);
      }
    }
  }

  lemma DeletedInPart(was: Store, s: Store)
    requires Proper(was) && s.Keys <= was.Keys
    requires forall k :: k in s ==> s[k] == was[k]
    requires forall k :: k in was && !JobKey(k) ==> k in s
    ensures PartlyApplied([DELETE_ALL], was, s)
  {
    forall k ensures Lookup(s, k) == Lookup(was, k) || LeftBySome([DELETE_ALL], k, Lookup(s, k)) {
      if k in was && k !in s {
        assert Touches([DELETE_ALL][0], k) && Left([DELETE_ALL][0]) == Missing;
      }
    }
  }

  lemma SentOne(ops: seq<WriteOp>, was: Store, i: nat, s: Store)
    requires i < |ops| && s == Apply(ops[..i], was)
    ensures Apply(ops[..i + 1], was) == ApplyOp(ops[i], s)
  {
    assert ops[..i + 1][..i] == ops[..i];
  }

  lemma DeletedSome(ops: seq<WriteOp>, i: nat, was: Store, before: Store, s: Store)
    requires i < |ops| && ops[i].delAll && Proper(was) && before == Apply(ops[..i], was)
    requires PartlyApplied([DELETE_ALL], before, s)
    ensures PartlyApplied(ops, was, s)
  {
    WholeIsPart(ops[..i], was);
    PartlyApplyMore(ops[..i], ops, was, before);
    forall k | LeftBySome([DELETE_ALL], k, Lookup(s, k)) ensures LeftBySome(ops, k, Lookup(s, k)) {
      assert Touches(ops[i], k) && Left(ops[i]) == Lookup(s, k);
    }
    PartlyThenPartly(ops, was, before, s);
  }
}
