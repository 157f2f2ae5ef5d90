/** The table of next-to-read offsets and the in-memory store that holds it. */
module OffsetTable {
  import opened Common

  datatype Key = Key(topic: string, partition: i32)

  type Table = map<Key, i64>

  function Lookup(m: Table, key: Key): Option<i64> {
    if key in m then Some(m[key]) else None
  }

  lemma SameLookups(a: Table, b: Table)
    requires forall k :: Lookup(a, k) == Lookup(b, k)
    ensures a == b
  {
    forall k ensures k in a <==> k in b
             ensures k in a ==> a[k] == b[k]
    {
      assert Lookup(a, k) == Lookup(b, k);
    }
  }

  /** A call that may move a stored value. */
  datatype Call =
    | CommitCall(key: Key, offset: i64)
    | PutNextCall(key: Key, next: i64)

  /** next-to-read is one past the handled offset; negative and overflowing offsets fail. */
  function NextOffsetOf(offset: i64): (r: Result<i64>)
    ensures r.Ok? <==> 0 <= offset < I64_MAX
    ensures r.Ok? ==> r.value == offset + 1
  {
    if offset < 0 then Err(Config(NegativeOffset))
    else if offset == I64_MAX then Err(Config(OffsetOverflow))
    else Ok(offset + 1)
  }

  /** The value a call asks for, if the store accepts it. */
  function Requested(call: Call): (r: Result<i64>)
    ensures call.CommitCall? ==> (r.Ok? <==> 0 <= call.offset < I64_MAX) && (r.Ok? ==> r.value == call.offset + 1)
    ensures call.PutNextCall? ==> (r.Ok? <==> call.next >= 0) && (r.Ok? ==> r.value == call.next)
  {
    match call
    case CommitCall(_, offset) => NextOffsetOf(offset)
    case PutNextCall(_, next) => if next < 0 then Err(Config(NegativeOffset)) else Ok(next)
  }

  /** `entry(key).or_insert(next)` followed by taking the maximum. */
  function Raise(m: Table, key: Key, next: i64): Table {
    m[key := if key in m && m[key] > next then m[key] else next]
  }

  function Apply(m: Table, call: Call): Table {
    match Requested(call)
    case Ok(next) => Raise(m, call.key, next)
    case Err(_) => m
  }

  function ApplyAll(m: Table, calls: seq<Call>): Table {
    if calls == [] then m else Apply(ApplyAll(m, calls[..|calls| - 1]), calls[|calls| - 1])
  }

  /** `b` holds at `k` at least what `a` holds there. */
  predicate AtMostAt(a: Table, b: Table, k: Key) {
    k in a ==> k in b && a[k] <= b[k]
  }

  /** `b` holds everything `a` holds, at the same value or a later one. */
  ghost predicate AtMost(a: Table, b: Table) {
    forall k :: k in a ==> k in b && a[k] <= b[k]
  }

  /** `v` was stored for `k` at the start, or an accepted call asked for it. */
  ghost predicate Attained(m: Table, calls: seq<Call>, k: Key, v: i64) {
    (k in m && m[k] == v) || exists c :: c in calls && c.key == k && Requested(c) == Ok(v)
  }

  /** The stored value is the maximum of the initial value and of everything accepted for that
      key; a key is present exactly when there was something to store; no value goes back. */
  lemma {:induction false} StoredIsMaximum(m: Table, calls: seq<Call>)
    ensures var r := ApplyAll(m, calls);
      && AtMost(m, r)
      && (forall k :: k in r ==> Attained(m, calls, k, r[k]))
      && (forall k, v :: Attained(m, calls, k, v) ==> k in r && v <= r[k])
  {
    if calls != [] {
      var before, last := calls[..|calls| - 1], calls[|calls| - 1];
      StoredIsMaximum(m, before);
      assert forall c :: c in calls <==> c in before || c == last by {
        assert calls == before + [last];
      }
      var p, r := ApplyAll(m, before), ApplyAll(m, calls);
      forall k | k in r ensures Attained(m, calls, k, r[k]) {
        if k in p && r[k] == p[k] {
          assert Attained(m, before, k, r[k]);
        }
      }
      forall k, v | Attained(m, calls, k, v) ensures k in r && v <= r[k] {
        if !(last.key == k && Requested(last) == Ok(v)) {
          assert Attained(m, before, k, v);
        }
      }
    }
  }

  /** The order of the calls does not matter, and neither does repeating one. */
  lemma {:induction false} OrderIndependent(m: Table, a: seq<Call>, b: seq<Call>)
    requires forall c :: c in a <==> c in b
    ensures ApplyAll(m, a) == ApplyAll(m, b)
  {
    StoredIsMaximum(m, a);
    StoredIsMaximum(m, b);
    var x, y := ApplyAll(m, a), ApplyAll(m, b);
    assert forall k, v :: Attained(m, a, k, v) <==> Attained(m, b, k, v);
    assert forall k :: k in x <==> k in y by {
      forall k | k in x ensures k in y { assert Attained(m, a, k, x[k]); }
      forall k | k in y ensures k in x { assert Attained(m, b, k, y[k]); }
    }
    forall k | k in x ensures x[k] == y[k] {
      assert Attained(m, a, k, x[k]) && Attained(m, b, k, y[k]);
    }
  }

  /** `MemoryOffsetStore`: the table behind an async mutex; every method runs under the lock. */
  class MemoryOffsetStore {
    var inner: Table

    constructor ()
      ensures inner == map[]
    {
      inner := map[];
    }

    method PutNext(topic: string, partition: i32, next: i64) returns (r: Result<()>)
      modifies this
      ensures inner == Apply(old(inner), PutNextCall(Key(topic, partition), next))
      ensures var key, was := Key(topic, partition), old(inner);
        inner == if next < 0 then was else was[key := if key in was && was[key] > next then was[key] else next]
      ensures r == if next < 0 then Err(Config(NegativeOffset)) else Ok(())
    {
      if next < 0 {
        return Err(Config(NegativeOffset));
      }
      var key := Key(topic, partition);
      if key !in inner {
        inner := inner[key := next];
      }
      if inner[key] < next {
        inner := inner[key := next];
      }
      return Ok(());
    }

    method Committed(topic: string, partition: i32) returns (r: Option<i64>)
      ensures r.Some? <==> Key(topic, partition) in inner
      ensures r.Some? ==> r.value == inner[Key(topic, partition)]
    {
      var key := Key(topic, partition);
      r := if key in inner then Some(inner[key]) else None;
    }

    method Commit(topic: string, partition: i32, offset: i64) returns (r: Result<()>)
      modifies this
      ensures inner == Apply(old(inner), CommitCall(Key(topic, partition), offset))
      ensures var key, was := Key(topic, partition), old(inner);
        inner == if offset < 0 || offset == I64_MAX then was
                 else was[key := if key in was && was[key] > offset + 1 then was[key] else offset + 1]
      ensures r.Ok? <==> 0 <= offset < I64_MAX
      ensures r.Err? ==> r.error == Config(if offset < 0 then NegativeOffset else OffsetOverflow)
    {
      var next := NextOffsetOf(offset);
      if next.Err? {
        return Err(next.error);
      }
      var key := Key(topic, partition);
      if key !in inner {
        inner := inner[key := next.value];
      }
      if inner[key] < next.value {
        inner := inner[key := next.value];
      }
      return Ok(());
    }
  }
}
