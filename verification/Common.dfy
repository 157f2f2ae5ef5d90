/** Values shared by every module: options, results, the crate's error kinds, machine
    integers, and sums over thread tables. */
module Common {

  datatype Option<+T> = None | Some(value: T)

  datatype Result<+T> = Ok(value: T) | Err(error: KafkaError)

  /** What a configuration error complains about; the original carries a message instead. */
  datatype ConfigFault =
    | MissingField(line: nat, field: Field)
    | MalformedField(line: nat, field: Field)
    | NegativeOffset
    | OffsetOverflow
    | NothingPending
    | BlankTopic
    | NegativePartition

  datatype Field = PartitionField | NextOffsetField

  /** The error kinds of `KafkaError`, without their texts. */
  datatype KafkaError =
    | Config(fault: ConfigFault)
    | Connection
    | Backend
    | Transient
    | Serialization
    | Io
    | Timeout
    | Unsupported
    | Closed

  const I32_MIN := -0x8000_0000
  const I32_MAX := 0x7fff_ffff
  const I64_MIN := -0x8000_0000_0000_0000
  const I64_MAX := 0x7fff_ffff_ffff_ffff

  type i32 = x: int | I32_MIN <= x <= I32_MAX
  type i64 = x: int | I64_MIN <= x <= I64_MAX

  /** A watch channel: its value and the version every `send` raises. A receiver remembers the
      version it has seen; `changed` completes exactly when the two differ. */
  datatype Watch = Watch(value: bool, version: nat)

  /** The total of `weight` over a table of threads. */
  function Sum<T>(s: seq<T>, weight: T -> nat): nat {
    if s == [] then 0 else weight(s[0]) + Sum(s[1..], weight)
  }

  lemma {:induction false} SumUpdate<T>(s: seq<T>, i: nat, x: T, weight: T -> nat)
    requires i < |s|
    ensures Sum(s[i := x], weight) + weight(s[i]) == Sum(s, weight) + weight(x)
  {
    if i == 0 {
      assert s[0 := x][1..] == s[1..];
    } else {
      assert s[i := x][1..] == s[1..][i - 1 := x];
      SumUpdate(s[1..], i - 1, x, weight);
    }
  }

  lemma {:induction false} SumAppend<T>(s: seq<T>, x: T, weight: T -> nat)
    ensures Sum(s + [x], weight) == Sum(s, weight) + weight(x)
  {
    if s == [] {
      assert s + [x] == [x];
    } else {
      assert (s + [x])[1..] == s[1..] + [x];
      SumAppend(s[1..], x, weight);
    }
  }

  lemma {:induction false} SumAtLeast<T>(s: seq<T>, i: nat, weight: T -> nat)
    requires i < |s|
    ensures weight(s[i]) <= Sum(s, weight)
  {
    if i > 0 {
      SumAtLeast(s[1..], i - 1, weight);
    }
  }

  lemma {:induction false} SumPositive<T>(s: seq<T>, weight: T -> nat) returns (i: nat)
    requires Sum(s, weight) > 0
    ensures i < |s| && weight(s[i]) > 0
  {
    if weight(s[0]) > 0 {
      i := 0;
    } else {
      var j := SumPositive(s[1..], weight);
      i := j + 1;
    }
  }

  /** Two weights that agree on every thread have the same total. */
  lemma {:induction false} SumAgree<T>(s: seq<T>, v: T -> nat, w: T -> nat)
    requires forall i :: 0 <= i < |s| ==> v(s[i]) == w(s[i])
    ensures Sum(s, v) == Sum(s, w)
  {
    if s != [] {
      assert v(s[0]) == w(s[0]);
      forall i | 0 <= i < |s[1..]| ensures v(s[1..][i]) == w(s[1..][i]) {
        assert s[1..][i] == s[i + 1];
      }
      SumAgree(s[1..], v, w);
    }
  }

  function Map<A, B>(f: A -> B, s: seq<A>): (r: seq<B>)
    ensures |r| == |s| && forall i :: 0 <= i < |s| ==> r[i] == f(s[i])
  {
    if s == [] then [] else [f(s[0])] + Map(f, s[1..])
  }

  function RemoveAt<T>(s: seq<T>, j: nat): seq<T>
    requires j < |s|
  {
    s[..j] + s[j + 1..]
  }

  lemma {:induction false} MapWithout<A, B>(f: A -> B, s: seq<A>, j: nat)
    requires j < |s|
    ensures multiset(Map(f, s)) == multiset(Map(f, RemoveAt(s, j))) + multiset{f(s[j])}
  {
    var r := RemoveAt(s, j);
    if j == 0 {
      assert r == s[1..];
    } else {
      assert r == [s[0]] + RemoveAt(s[1..], j - 1);
      assert r[1..] == RemoveAt(s[1..], j - 1);
      MapWithout(f, s[1..], j - 1);
    }
  }

  lemma MapAppend<A, B>(f: A -> B, s: seq<A>, x: A)
    ensures Map(f, s + [x]) == Map(f, s) + [f(x)]
  {
    assert Map(f, s + [x]) == Map(f, s) + [f(x)];
  }
}
