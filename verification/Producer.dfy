/** Publishing through a pool that may be closed at any time, and the counters that record how each
    call ended. Counter updates, flag reads and guard releases of all calls interleave freely. */
module Producer {
  import opened Common
  import opened ErrorMap
  import L = Lifecycle

  datatype Delivery = Delivery(partition: i32, offset: i64)

  /** How the bounded wait for `produce` ended. */
  datatype ProduceOutcome =
    | Cancelled
    | TimedOut
    | Acknowledged(offsets: seq<i64>)
    | Failed(error: DriverError)

  /** How a call of `publish` ends. */
  datatype Verdict =
    | Sent(delivery: Delivery)
    | WasClosed                          // the pool was closed, at whatever stage
    | ProduceTimedOut
    | ProduceFailed(error: KafkaError)   // the broker was asked and did not deliver
    | NotAttempted(error: KafkaError)    // failed before that, and not because of closing

  function ResultOf(v: Verdict): Result<Delivery> {
    match v
    case Sent(delivery) => Ok(delivery)
    case WasClosed => Err(Closed)
    case ProduceTimedOut => Err(Timeout)
    case ProduceFailed(error) => Err(error)
    case NotAttempted(error) => Err(error)
  }

  /** Exactly one offset must come back for the one record sent. */
  function Judge(partition: i32, outcome: ProduceOutcome): (v: Verdict)
    ensures v.Sent? <==> outcome.Acknowledged? && |outcome.offsets| == 1
    ensures v.Sent? ==> v.delivery == Delivery(partition, outcome.offsets[0])
    ensures v.WasClosed? <==> outcome.Cancelled?
    ensures v.ProduceTimedOut? <==> outcome.TimedOut?
    ensures v.ProduceFailed? ==>
      v.error == if outcome.Failed? then MapDriverError(outcome.error) else Backend
  {
    match outcome
    case Cancelled => WasClosed
    case TimedOut => ProduceTimedOut
    case Acknowledged(offsets) =>
      if |offsets| == 1 then Sent(Delivery(partition, offsets[0])) else ProduceFailed(Backend)
    case Failed(error) => ProduceFailed(MapDriverError(error))
  }

  function IsSent(v: Verdict): nat { if v.Sent? then 1 else 0 }
  function IsClosed(v: Verdict): nat { if v.WasClosed? then 1 else 0 }
  function IsTimedOut(v: Verdict): nat { if v.ProduceTimedOut? then 1 else 0 }
  function IsFailed(v: Verdict): nat {
    if v.WasClosed? || v.ProduceTimedOut? || v.ProduceFailed? then 1 else 0
  }

  class PoolCounters {
    var published: nat
    var publishFailed: nat
    var publishTimeouts: nat
    var publishCancelled: nat

    constructor ()
      ensures published == publishFailed == publishTimeouts == publishCancelled == 0
    {
      published, publishFailed, publishTimeouts, publishCancelled := 0, 0, 0, 0;
    }

    method RecordPublishOk()
      modifies `published
      ensures published == old(published) + 1
    {
      published := published + 1;
    }

    method RecordPublishErr()
      modifies `publishFailed
      ensures publishFailed == old(publishFailed) + 1
    {
      publishFailed := publishFailed + 1;
    }

    method RecordPublishTimeout()
      modifies `publishTimeouts, `publishFailed
      ensures publishTimeouts == old(publishTimeouts) + 1 && publishFailed == old(publishFailed) + 1
    {
      publishTimeouts := publishTimeouts + 1;
      publishFailed := publishFailed + 1;
    }

    method RecordPublishCancelled()
      modifies `publishCancelled, `publishFailed
      ensures publishCancelled == old(publishCancelled) + 1 && publishFailed == old(publishFailed) + 1
    {
      publishCancelled := publishCancelled + 1;
      publishFailed := publishFailed + 1;
    }

    method RecordIfClosed(error: KafkaError) returns (r: KafkaError)
      modifies `publishCancelled, `publishFailed
      ensures r == error
      ensures var n := if error == Closed then 1 else 0;
        publishCancelled == old(publishCancelled) + n && publishFailed == old(publishFailed) + n
    {
      if error == Closed {
        RecordPublishCancelled();
      }
      r := error;
    }

    /** The caller's result and the counters tell the same story: success is exactly one offset, passed
        on as it is with the record's partition, and each other ending has its error and its counters. */
    method ApplyLimitedProduceOutcome(partition: i32, outcome: ProduceOutcome) returns (r: Result<Delivery>)
      modifies this
      ensures r.Ok? <==> outcome.Acknowledged? && |outcome.offsets| == 1
      ensures r.Ok? ==> r.value.partition == partition && r.value.offset == outcome.offsets[0]
      ensures outcome.Cancelled? ==> r == Err(Closed)
      ensures outcome.TimedOut? ==> r == Err(Timeout)
      ensures outcome.Acknowledged? && |outcome.offsets| != 1 ==> r == Err(Backend)
      ensures outcome.Failed? ==> r == Err(MapDriverError(outcome.error)) && r.error != Closed
      ensures published == old(published) + if r.Ok? then 1 else 0
      ensures publishFailed == old(publishFailed) + if r.Ok? then 0 else 1
      ensures publishCancelled == old(publishCancelled) + if outcome.Cancelled? then 1 else 0
      ensures publishTimeouts == old(publishTimeouts) + if outcome.TimedOut? then 1 else 0
      ensures r == ResultOf(Judge(partition, outcome))
    {
      match outcome {
        case Cancelled =>
          RecordPublishCancelled();
          return Err(Closed);
        case TimedOut =>
          RecordPublishTimeout();
          return Err(Timeout);
        case Acknowledged(offsets) =>
          if |offsets| == 1 {
            RecordPublishOk();
            return Ok(Delivery(partition, offsets[0]));
          }
          RecordPublishErr();
          return Err(Backend);
        case Failed(error) =>
          RecordPublishErr();
          return Err(MapDriverError(error));
      }
    }
  }

  // ---------------------------------------------------------------- concurrent calls

  /** Where one call of `publish` stands. `op` is the operation it registered with the lifecycle:
      first one for obtaining the partition client, then one held until it returns. */
  datatype Phase =
    | Entering
    | Validating
    | ClientStarting(op: nat)
    | ClientRunning(op: nat)
    | ClientLeaving(op: nat, failure: Option<KafkaError>)
    | ProduceStarting(op: nat)
    | Producing(op: nat)
    | Counting(held: Option<nat>, verdict: Verdict)        // before the first counter update
    | CountingFailed(held: Option<nat>, verdict: Verdict)  // the second update of two is to come
    | Returning(held: Option<nat>, verdict: Verdict)       // counted; the guard is being dropped
    | Returned(verdict: Verdict)
    | Abandoned                                            // the future was dropped while waiting

  datatype Call = Call(topicBlank: bool, partition: i32, phase: Phase)

  datatype Pool = Pool(
    life: L.State,
    calls: seq<Call>,
    published: nat,
    failed: nat,
    timeouts: nat,
    cancelled: nat)

  /** The operation whose guard the call keeps alive. */
  function Held(p: Phase): Option<nat> {
    match p
    case ClientStarting(op) => Some(op)
    case ClientRunning(op) => Some(op)
    case ProduceStarting(op) => Some(op)
    case Producing(op) => Some(op)
    case Counting(held, _) => held
    case CountingFailed(held, _) => held
    case _ => None
  }

  datatype Action =
    | LifeStep(a: L.Action)
    | NewCall(topicBlank: bool, partition: i32)
    | CallStep(c: nat)
    | Abandon(c: nat)

  function At(s: Pool, c: nat, phase: Phase): Pool
    requires c < |s.calls|
  {
    s.(calls := s.calls[c := s.calls[c].(phase := phase)])
  }

  function Register(s: Pool): Pool {
    s.(life := L.After(s.life, L.NewOp))
  }

  predicate Dropped(s: Pool, op: nat) {
    op < |s.life.ops| && s.life.ops[op].Released?
  }

  /** What obtaining the client may come to. */
  ghost predicate ClientEnds(s: Pool, failure: Option<KafkaError>) {
    || failure.None?
    || failure == Some(Connection)
    || failure == Some(Timeout)
    || (failure == Some(Closed) && s.life.shutdown.value)
    || exists e :: failure == Some(MapDriverError(e))
  }

  ghost predicate CallNext(s: Pool, c: nat, s': Pool)
    requires c < |s.calls|
  {
    var call := s.calls[c];
    match call.phase
    case Entering =>
      s' == At(s, c, if s.life.closed then Counting(None, WasClosed) else Validating)
    case Validating =>
      if call.topicBlank then s' == At(s, c, Returned(NotAttempted(Config(BlankTopic))))
      else if call.partition < 0 then s' == At(s, c, Returned(NotAttempted(Config(NegativePartition))))
      else s' == At(Register(s), c, ClientStarting(|s.life.ops|))
    case ClientStarting(op) =>
      op < |s.life.ops| &&
      (match s.life.ops[op]
       case Live => s' == At(s, c, ClientRunning(op))
       case Rejected => s' == At(s, c, Counting(None, WasClosed))
       case _ => false)
    case ClientRunning(op) =>
      exists failure :: ClientEnds(s, failure) && s' == At(s, c, ClientLeaving(op, failure))
    case ClientLeaving(op, failure) =>
      Dropped(s, op) &&
      (match failure
       case None => s' == At(Register(s), c, ProduceStarting(|s.life.ops|))
       case Some(Closed) => s' == At(s, c, Counting(None, WasClosed))
       case Some(error) => s' == At(s, c, Returned(NotAttempted(error))))
    case ProduceStarting(op) =>
      op < |s.life.ops| &&
      (match s.life.ops[op]
       case Live => s' == At(s, c, Producing(op))
       case Rejected => s' == At(s, c, Counting(None, WasClosed))
       case _ => false)
    case Producing(op) =>
      exists o :: (o == Cancelled ==> s.life.shutdown.value) &&
        s' == At(s, c, Counting(Some(op), Judge(call.partition, o)))
    case Counting(held, v) =>
      (match v
       case Sent(_) => s' == At(s, c, Returning(held, v)).(published := s.published + 1)
       case WasClosed => s' == At(s, c, CountingFailed(held, v)).(cancelled := s.cancelled + 1)
       case ProduceTimedOut => s' == At(s, c, CountingFailed(held, v)).(timeouts := s.timeouts + 1)
       case ProduceFailed(_) => s' == At(s, c, Returning(held, v)).(failed := s.failed + 1)
       case NotAttempted(_) => false)
    case CountingFailed(held, v) => s' == At(s, c, Returning(held, v)).(failed := s.failed + 1)
    case Returning(held, v) =>
      (held.Some? ==> Dropped(s, held.value)) && s' == At(s, c, Returned(v))
    case Returned(_) => false
    case Abandoned => false
  }

  ghost predicate Next(s: Pool, a: Action, s': Pool) {
    match a
    case LifeStep(b) =>
      && L.Enabled(s.life, b)
      && (b.DropGuard? ==> forall c :: 0 <= c < |s.calls| ==> Held(s.calls[c].phase) != Some(b.i))
      && s' == s.(life := L.After(s.life, b))
    case NewCall(topicBlank, partition) =>
      s' == s.(calls := s.calls + [Call(topicBlank, partition, Entering)])
    case CallStep(c) => c < |s.calls| && CallNext(s, c, s')
    case Abandon(c) =>
      && c < |s.calls|
      && (s.calls[c].phase.ClientRunning? || s.calls[c].phase.Producing?)
      && s' == At(s, c, Abandoned)
  }

  const NEW := Pool(L.NEW, [], 0, 0, 0, 0)

  // ---------------------------------------------------------------- the invariant

  /** What one call has contributed to each counter so far. */
  function CountsPublished(call: Call): nat {
    match call.phase
    case Returning(_, v) => IsSent(v)
    case Returned(v) => IsSent(v)
    case _ => 0
  }

  function CountsCancelled(call: Call): nat {
    match call.phase
    case CountingFailed(_, v) => IsClosed(v)
    case Returning(_, v) => IsClosed(v)
    case Returned(v) => IsClosed(v)
    case _ => 0
  }

  function CountsTimeout(call: Call): nat {
    match call.phase
    case CountingFailed(_, v) => IsTimedOut(v)
    case Returning(_, v) => IsTimedOut(v)
    case Returned(v) => IsTimedOut(v)
    case _ => 0
  }

  function CountsFailed(call: Call): nat {
    match call.phase
    case Returning(_, v) => IsFailed(v)
    case Returned(v) => IsFailed(v)
    case _ => 0
  }

  /** A call past registration has a live guard; only closing is reported as closed. */
  ghost predicate CallOk(s: Pool, call: Call) {
    match call.phase
    case ClientStarting(op) => op < |s.life.ops| && Unreturned(s.life.ops[op])
    case ProduceStarting(op) => op < |s.life.ops| && Unreturned(s.life.ops[op])
    case ClientRunning(op) => op < |s.life.ops| && s.life.ops[op].Live?
    case Producing(op) => op < |s.life.ops| && s.life.ops[op].Live?
    case Counting(held, v) => GuardOk(s, held, v) && VerdictOk(v) && !v.NotAttempted?
    case CountingFailed(held, v) => GuardOk(s, held, v) && (v.WasClosed? || v.ProduceTimedOut?)
    case ClientLeaving(op, _) => op < |s.life.ops| && Granted(s.life.ops[op])
    case Returning(held, v) =>
      VerdictOk(v) && (held.Some? ==> held.value < |s.life.ops| && Granted(s.life.ops[held.value]))
    case Returned(v) => VerdictOk(v)
    case _ => true
  }

  /** On its way to a guard, holding it, or refused; no guard has been given back. */
  predicate Unreturned(op: L.Op) {
    !op.Released? && op != L.Releasing(true)
  }

  /** The guard has been handed out and may be on its way back. */
  predicate Granted(op: L.Op) {
    op.Live? || op.Released? || op == L.Releasing(true)
  }

  ghost predicate GuardOk(s: Pool, held: Option<nat>, v: Verdict) {
    && (held.Some? ==> held.value < |s.life.ops| && s.life.ops[held.value].Live?)
    && (held.None? ==> v.WasClosed?)
  }

  predicate VerdictOk(v: Verdict) {
    (v.ProduceFailed? || v.NotAttempted?) ==> v.error != Closed
  }

  ghost predicate Inv(s: Pool) {
    && L.Inv(s.life)
    && s.published == Sum(s.calls, CountsPublished)
    && s.cancelled == Sum(s.calls, CountsCancelled)
    && s.timeouts == Sum(s.calls, CountsTimeout)
    && s.failed == Sum(s.calls, CountsFailed)
    && forall c :: 0 <= c < |s.calls| ==> CallOk(s, s.calls[c])
  }

  lemma TallyUpdate(calls: seq<Call>, c: nat, call: Call)
    requires c < |calls|
    ensures Sum(calls[c := call], CountsPublished) + CountsPublished(calls[c]) ==
            Sum(calls, CountsPublished) + CountsPublished(call)
    ensures Sum(calls[c := call], CountsCancelled) + CountsCancelled(calls[c]) ==
            Sum(calls, CountsCancelled) + CountsCancelled(call)
    ensures Sum(calls[c := call], CountsTimeout) + CountsTimeout(calls[c]) ==
            Sum(calls, CountsTimeout) + CountsTimeout(call)
    ensures Sum(calls[c := call], CountsFailed) + CountsFailed(calls[c]) ==
            Sum(calls, CountsFailed) + CountsFailed(call)
  {
    SumUpdate(calls, c, call, CountsPublished);
    SumUpdate(calls, c, call, CountsCancelled);
    SumUpdate(calls, c, call, CountsTimeout);
    SumUpdate(calls, c, call, CountsFailed);
  }

  /** Registering an operation leaves every existing guard alone. */
  lemma RegisterKeeps(s: Pool)
    requires Inv(s)
    ensures Inv(Register(s))
  {
    L.StepKeepsInv(s.life, L.NewOp);
    forall c | 0 <= c < |s.calls| ensures CallOk(Register(s), s.calls[c]) {
      assert CallOk(s, s.calls[c]);
    }
  }

  lemma OpMoves(life: L.State, b: L.Action, i: nat)
    requires L.Enabled(life, b) && i < |life.ops|
    ensures i < |L.After(life, b).ops|
    ensures var op, op' := life.ops[i], L.After(life, b).ops[i];
      && (Granted(op) ==> Granted(op'))
      && (b != L.DropGuard(i) ==> (op.Live? ==> op'.Live?) && (Unreturned(op) ==> Unreturned(op')))
  {
  }

  lemma LifeStepKeepsCall(s: Pool, b: L.Action, call: Call)
    requires CallOk(s, call) && L.Enabled(s.life, b)
    requires b.DropGuard? ==> Held(call.phase) != Some(b.i)
    ensures CallOk(s.(life := L.After(s.life, b)), call)
  {
    match call.phase
    case ClientStarting(op) => OpMoves(s.life, b, op);
    case ClientRunning(op) => OpMoves(s.life, b, op);
    case ClientLeaving(op, _) => OpMoves(s.life, b, op);
    case ProduceStarting(op) => OpMoves(s.life, b, op);
    case Producing(op) => OpMoves(s.life, b, op);
    case Counting(held, _) => if held.Some? { OpMoves(s.life, b, held.value); }
    case CountingFailed(held, _) => if held.Some? { OpMoves(s.life, b, held.value); }
    case Returning(held, _) => if held.Some? { OpMoves(s.life, b, held.value); }
    case _ =>
  }

  lemma LifeStepKeeps(s: Pool, b: L.Action, s': Pool)
    requires Inv(s) && Next(s, LifeStep(b), s')
    ensures Inv(s')
  {
    L.StepKeepsInv(s.life, b);
    forall c | 0 <= c < |s.calls| ensures CallOk(s', s'.calls[c]) {
      assert CallOk(s, s.calls[c]);
      LifeStepKeepsCall(s, b, s.calls[c]);
    }
  }

  /** Replacing one call by one that fits keeps the rest. */
  lemma ReplaceKeeps(s: Pool, c: nat, s': Pool)
    requires Inv(s) && c < |s.calls| && |s'.calls| == |s.calls|
    requires s'.life == s.life && s'.calls == s.calls[c := s'.calls[c]] && CallOk(s', s'.calls[c])
    requires s'.published + CountsPublished(s.calls[c]) == s.published + CountsPublished(s'.calls[c])
    requires s'.cancelled + CountsCancelled(s.calls[c]) == s.cancelled + CountsCancelled(s'.calls[c])
    requires s'.timeouts + CountsTimeout(s.calls[c]) == s.timeouts + CountsTimeout(s'.calls[c])
    requires s'.failed + CountsFailed(s.calls[c]) == s.failed + CountsFailed(s'.calls[c])
    ensures Inv(s')
  {
    TallyUpdate(s.calls, c, s'.calls[c]);
    forall d | 0 <= d < |s'.calls| ensures CallOk(s', s'.calls[d]) {
      assert CallOk(s, s.calls[d]);
    }
  }

  lemma CallStepCounts(s: Pool, c: nat, s': Pool)
    requires c < |s.calls| && CallNext(s, c, s')
    requires CallOk(s, s.calls[c])
    ensures |s'.calls| == |s.calls| && s'.calls == s.calls[c := s'.calls[c]]
    ensures s'.life == s.life || s'.life == Register(s).life
    ensures s'.published + CountsPublished(s.calls[c]) == s.published + CountsPublished(s'.calls[c])
    ensures s'.cancelled + CountsCancelled(s.calls[c]) == s.cancelled + CountsCancelled(s'.calls[c])
    ensures s'.timeouts + CountsTimeout(s.calls[c]) == s.timeouts + CountsTimeout(s'.calls[c])
    ensures s'.failed + CountsFailed(s.calls[c]) == s.failed + CountsFailed(s'.calls[c])
  {
  }

  lemma CallStepOk(s: Pool, c: nat, s': Pool)
    requires c < |s.calls| && CallNext(s, c, s') && CallOk(s, s.calls[c])
    ensures c < |s'.calls| && CallOk(s', s'.calls[c])
  {
  }

  lemma CallStepKeeps(s: Pool, c: nat, s': Pool)
    requires Inv(s) && c < |s.calls| && CallNext(s, c, s')
    ensures Inv(s')
  {
    assert CallOk(s, s.calls[c]);
    CallStepCounts(s, c, s');
    CallStepOk(s, c, s');
    RegisterKeeps(s);
    ReplaceKeeps(if s'.life == s.life then s else Register(s), c, s');
  }

  lemma NextKeepsInv(s: Pool, a: Action, s': Pool)
    requires Inv(s) && Next(s, a, s')
    ensures Inv(s')
  {
    match a
    case LifeStep(b) => LifeStepKeeps(s, b, s');
    case NewCall(topicBlank, partition) =>
      var call := Call(topicBlank, partition, Entering);
      SumAppend(s.calls, call, CountsPublished);
      SumAppend(s.calls, call, CountsCancelled);
      SumAppend(s.calls, call, CountsTimeout);
      SumAppend(s.calls, call, CountsFailed);
      forall c | 0 <= c < |s'.calls| ensures CallOk(s', s'.calls[c]) {
        assert c < |s.calls| ==> CallOk(s, s.calls[c]);
      }
    case CallStep(c) => CallStepKeeps(s, c, s');
    case Abandon(c) => ReplaceKeeps(s, c, s');
  }

  /** The wait for the broker can end in every way, by closing only once the signal has been sent; the
      wait for a client likewise; and either can be abandoned. */
  lemma WaitsAreOpen(s: Pool, c: nat, o: ProduceOutcome, failure: Option<KafkaError>)
    requires c < |s.calls|
    ensures s.calls[c].phase.Producing? && (o == Cancelled ==> s.life.shutdown.value) ==>
      Next(s, CallStep(c), At(s, c, Counting(Some(s.calls[c].phase.op), Judge(s.calls[c].partition, o))))
    ensures s.calls[c].phase.ClientRunning? && ClientEnds(s, failure) ==>
      Next(s, CallStep(c), At(s, c, ClientLeaving(s.calls[c].phase.op, failure)))
    ensures s.calls[c].phase.Producing? || s.calls[c].phase.ClientRunning? ==>
      Next(s, Abandon(c), At(s, c, Abandoned))
  {
  }

  // ---------------------------------------------------------------- whole runs

  ghost predicate Linked(ss: seq<Pool>, acts: seq<Action>, i: int)
    requires 0 <= i < |acts| < |ss|
  {
    Next(ss[i], acts[i], ss[i + 1])
  }

  ghost predicate Run(ss: seq<Pool>, acts: seq<Action>) {
    && |ss| == |acts| + 1
    && ss[0] == NEW
    && forall i :: 0 <= i < |acts| ==> Linked(ss, acts, i)
  }

  lemma {:induction false} RunKeepsInv(ss: seq<Pool>, acts: seq<Action>, n: nat)
    requires Run(ss, acts) && n <= |acts|
    ensures Inv(ss[n])
  {
    if n > 0 {
      RunKeepsInv(ss, acts, n - 1);
      assert Linked(ss, acts, n - 1);
      NextKeepsInv(ss[n - 1], acts[n - 1], ss[n]);
    }
  }

  predicate Quiet(s: Pool) {
    forall c :: 0 <= c < |s.calls| ==> s.calls[c].phase.Returned? || s.calls[c].phase.Abandoned?
  }

  function ReturnedOk(call: Call): nat {
    if call.phase.Returned? && ResultOf(call.phase.verdict).Ok? then 1 else 0
  }

  function ReturnedClosed(call: Call): nat {
    if call.phase.Returned? && ResultOf(call.phase.verdict) == Err(Closed) then 1 else 0
  }

  /** The wait for the broker ended by its deadline. */
  function ReturnedTimedOut(call: Call): nat {
    if call.phase.Returned? && call.phase.verdict.ProduceTimedOut? then 1 else 0
  }

  /** The broker was asked, and neither delivered, nor was the wait cancelled or timed out. */
  function ReturnedProduceError(call: Call): nat {
    if call.phase.Returned? && call.phase.verdict.ProduceFailed? then 1 else 0
  }

  function ReturnedErr(call: Call): nat {
    if call.phase.Returned? && ResultOf(call.phase.verdict).Err? then 1 else 0
  }

  /** The call failed before the broker was asked, and not because of closing: its record was
      malformed, or there was no partition client to be had. */
  function ReturnedUnattempted(call: Call): nat {
    if call.phase.Returned? && call.phase.verdict.NotAttempted? then 1 else 0
  }

  lemma {:induction false} SumOfThree(calls: seq<Call>)
    requires forall c :: 0 <= c < |calls| ==> calls[c].phase.Returned? || calls[c].phase.Abandoned?
    ensures Sum(calls, CountsFailed) ==
            Sum(calls, CountsCancelled) + Sum(calls, CountsTimeout) + Sum(calls, ReturnedProduceError)
    ensures Sum(calls, CountsFailed) + Sum(calls, ReturnedUnattempted) == Sum(calls, ReturnedErr)
  {
    if calls != [] {
      assert calls[0].phase.Returned? || calls[0].phase.Abandoned?;
      SumOfThree(calls[1..]);
    }
  }

  /** When no call is running, the counters say exactly how the calls returned: `published` counts
      the successes, `cancelled` those that returned `Closed`, `timeouts` those whose wait for the
      broker timed out, and `failed` these two and the ones the broker refused, each call once. That
      makes `failed` the number of calls that returned an error exactly when no call failed before
      the broker was asked for a reason other than closing. */
  lemma CountersAgree(ss: seq<Pool>, acts: seq<Action>, n: nat)
    requires Run(ss, acts) && n <= |acts| && Quiet(ss[n])
    ensures var s := ss[n];
      && s.published == Sum(s.calls, ReturnedOk)
      && s.cancelled == Sum(s.calls, ReturnedClosed)
      && s.timeouts == Sum(s.calls, ReturnedTimedOut)
      && s.failed == s.cancelled + s.timeouts + Sum(s.calls, ReturnedProduceError)
      && s.failed == Sum(s.calls, ReturnedErr) - Sum(s.calls, ReturnedUnattempted)
      && (s.failed == Sum(s.calls, ReturnedErr) <==> Sum(s.calls, ReturnedUnattempted) == 0)
  {
    RunKeepsInv(ss, acts, n);
    var s := ss[n];
    forall c | 0 <= c < |s.calls|
      ensures CountsPublished(s.calls[c]) == ReturnedOk(s.calls[c])
      ensures CountsCancelled(s.calls[c]) == ReturnedClosed(s.calls[c])
      ensures CountsTimeout(s.calls[c]) == ReturnedTimedOut(s.calls[c])
    {
      assert CallOk(s, s.calls[c]);
    }
    SumAgree(s.calls, CountsPublished, ReturnedOk);
    SumAgree(s.calls, CountsCancelled, ReturnedClosed);
    SumAgree(s.calls, CountsTimeout, ReturnedTimedOut);
    SumOfThree(s.calls);
  }

  lemma Extend(ss: seq<Pool>, acts: seq<Action>, a: Action, s: Pool) returns (ss': seq<Pool>, acts': seq<Action>)
    requires Run(ss, acts) && Next(ss[|acts|], a, s)
    ensures Run(ss', acts') && ss'[|acts'|] == s
  {
    ss', acts' := ss + [s], acts + [a];
    forall i | 0 <= i < |acts'| ensures Linked(ss', acts', i) {
      if i < |acts| {
        assert Linked(ss, acts, i);
      }
    }
  }

  /** One call, which has got as far as `phase`; its operation is at `op`. */
  function OneCall(op: L.Op, active: nat, activity: nat, phase: Phase): Pool {
    NEW.(life := L.NEW.(ops := [op], active := active, activity := activity), calls := [Call(false, 0, phase)])
  }

  lemma ReachStart() returns (ss: seq<Pool>, acts: seq<Action>)
    ensures Run(ss, acts) && ss[|acts|] == OneCall(L.Starting, 0, 0, ClientStarting(0))
  {
    ss, acts := [NEW], [];
    ss, acts := Extend(ss, acts, NewCall(false, 0), NEW.(calls := [Call(false, 0, Entering)]));
    ss, acts := Extend(ss, acts, CallStep(0), NEW.(calls := [Call(false, 0, Validating)]));
    ss, acts := Extend(ss, acts, CallStep(0), OneCall(L.Starting, 0, 0, ClientStarting(0)));
  }

  lemma ReachClient() returns (ss: seq<Pool>, acts: seq<Action>)
    ensures Run(ss, acts) && ss[|acts|] == OneCall(L.Live, 1, 0, ClientRunning(0))
  {
    ss, acts := ReachStart();
    ss, acts := Extend(ss, acts, LifeStep(L.OpStep(0)), OneCall(L.Checked, 0, 0, ClientStarting(0)));
    ss, acts := Extend(ss, acts, LifeStep(L.OpStep(0)), OneCall(L.Counted, 1, 0, ClientStarting(0)));
    ss, acts := Extend(ss, acts, LifeStep(L.OpStep(0)), OneCall(L.Live, 1, 0, ClientStarting(0)));
    ss, acts := Extend(ss, acts, CallStep(0), OneCall(L.Live, 1, 0, ClientRunning(0)));
  }

  /** A publish whose wait for the partition client times out returns an error and is counted
      nowhere. */
  lemma ClientTimeoutUncounted() returns (ss: seq<Pool>, acts: seq<Action>)
    ensures Run(ss, acts) && Quiet(ss[|acts|])
    ensures var s := ss[|acts|];
      && |s.calls| == 1 && s.calls[0].phase == Returned(NotAttempted(Timeout))
      && s.published == s.failed == s.timeouts == s.cancelled == 0
  {
    ss, acts := ReachClient();
    assert ClientEnds(ss[|acts|], Some(Timeout));
    ss, acts := Extend(ss, acts, CallStep(0), OneCall(L.Live, 1, 0, ClientLeaving(0, Some(Timeout))));
    ss, acts := Extend(ss, acts, LifeStep(L.DropGuard(0)),
                       OneCall(L.Releasing(true), 0, 0, ClientLeaving(0, Some(Timeout))));
    ss, acts := Extend(ss, acts, LifeStep(L.OpStep(0)), OneCall(L.Released, 0, 1, ClientLeaving(0, Some(Timeout))));
    ss, acts := Extend(ss, acts, CallStep(0), OneCall(L.Released, 0, 1, Returned(NotAttempted(Timeout))));
  }

  /** At every moment `failed` lags behind the counters it sums up by at most the calls that are
      between their two updates. */
  lemma FailedCatchesUp(ss: seq<Pool>, acts: seq<Action>, n: nat)
    requires Run(ss, acts) && n <= |acts|
    ensures var s := ss[n];
      s.cancelled + s.timeouts <= s.failed + Sum(s.calls, BetweenUpdates)
  {
    RunKeepsInv(ss, acts, n);
    SumLags(ss[n].calls);
  }

  function BetweenUpdates(call: Call): nat {
    if call.phase.CountingFailed? then 1 else 0
  }

  lemma {:induction false} SumLags(calls: seq<Call>)
    ensures Sum(calls, CountsCancelled) + Sum(calls, CountsTimeout) <=
            Sum(calls, CountsFailed) + Sum(calls, BetweenUpdates)
  {
    if calls != [] {
      SumLags(calls[1..]);
    }
  }

  /** Some `close` has returned success. */
  predicate Shut(s: Pool) {
    exists j :: 0 <= j < |s.life.closers| && s.life.closers[j].ClosedOk?
  }

  lemma ShutStep(s: Pool, a: Action, s': Pool)
    requires Inv(s) && Next(s, a, s') && Shut(s)
    ensures Shut(s') && s'.published == s.published && s'.timeouts == s.timeouts
  {
    var j :| 0 <= j < |s.life.closers| && s.life.closers[j].ClosedOk?;
    assert L.CloserOk(s.life, s.life.closers[j]);
    assert j < |s'.life.closers| && s'.life.closers[j].ClosedOk?;
    if a.CallStep? {
      assert CallOk(s, s.calls[a.c]);
    }
  }

  lemma ShutInRun(ss: seq<Pool>, acts: seq<Action>, n: nat)
    requires Run(ss, acts) && n < |acts| && Shut(ss[n])
    ensures Shut(ss[n + 1]) && ss[n + 1].published == ss[n].published && ss[n + 1].timeouts == ss[n].timeouts
  {
    RunKeepsInv(ss, acts, n);
    assert Linked(ss, acts, n);
    ShutStep(ss[n], acts[n], ss[n + 1]);
  }

  /** Once `close` has returned success no publish succeeds or times out any more. */
  lemma {:induction false} FrozenAfterClose(ss: seq<Pool>, acts: seq<Action>, n: nat, m: nat)
    requires Run(ss, acts) && n <= m <= |acts| && Shut(ss[n])
    ensures Shut(ss[m]) && ss[m].published == ss[n].published && ss[m].timeouts == ss[n].timeouts
  {
    if n < m {
      FrozenAfterClose(ss, acts, n, m - 1);
      ShutInRun(ss, acts, m - 1);
    }
  }

  // ---------------------------------------------------------------- who is refused

  /** Where a call can be that found the pool closed. */
  predicate Refused(p: Phase) {
    p in {Counting(None, WasClosed), CountingFailed(None, WasClosed), Returning(None, WasClosed), Returned(WasClosed)}
  }

  lemma OtherCallsStay(s: Pool, a: Action, s': Pool, c: nat)
    requires Next(s, a, s') && c < |s'.calls| && a != CallStep(c) && a != Abandon(c)
    ensures if c < |s.calls| then s'.calls[c] == s.calls[c] else s'.calls[c].phase.Entering?
  {
  }

  lemma OwnRefusedStep(s: Pool, c: nat, s': Pool)
    requires c < |s.calls| && CallNext(s, c, s') && s.life.closed
    requires s.calls[c].phase.Entering? || Refused(s.calls[c].phase)
    ensures c < |s'.calls| && Refused(s'.calls[c].phase)
  {
  }

  lemma ClosedStays(s: Pool, a: Action, s': Pool)
    requires Next(s, a, s') && s.life.closed
    ensures s'.life.closed && |s.calls| <= |s'.calls|
  {
  }

  lemma RefusedStep(s: Pool, a: Action, s': Pool, c: nat)
    requires Next(s, a, s') && s.life.closed && c < |s.calls|
    requires s.calls[c].phase.Entering? || Refused(s.calls[c].phase)
    ensures s'.life.closed && c < |s'.calls|
    ensures s'.calls[c].phase.Entering? || Refused(s'.calls[c].phase)
  {
    ClosedStays(s, a, s');
    if a == CallStep(c) {
      OwnRefusedStep(s, c, s');
    } else if a != Abandon(c) {
      OtherCallsStay(s, a, s', c);
    }
  }

  /** A publish that begins when the pool is closed can only return `Closed`. */
  lemma {:induction false} ClosedPoolRefuses(ss: seq<Pool>, acts: seq<Action>, n: nat, m: nat, c: nat)
    requires Run(ss, acts) && n <= m <= |acts|
    requires ss[n].life.closed && c < |ss[n].calls| && ss[n].calls[c].phase.Entering?
    ensures ss[m].life.closed && c < |ss[m].calls|
    ensures ss[m].calls[c].phase.Entering? || Refused(ss[m].calls[c].phase)
    ensures ss[m].calls[c].phase.Returned? ==> ResultOf(ss[m].calls[c].phase.verdict) == Err(Closed)
  {
    if n < m {
      ClosedPoolRefuses(ss, acts, n, m - 1, c);
      assert Linked(ss, acts, m - 1);
      RefusedStep(ss[m - 1], acts[m - 1], ss[m], c);
    }
  }

  function VerdictOf(p: Phase): Option<Verdict> {
    match p
    case Counting(_, v) => Some(v)
    case CountingFailed(_, v) => Some(v)
    case Returning(_, v) => Some(v)
    case Returned(v) => Some(v)
    case _ => None
  }

  /** A malformed record is refused before anything is asked of the broker, and a delivery names the
      record's partition. */
  predicate ShapeOk(call: Call) {
    var v := VerdictOf(call.phase);
    && (v.Some? && v.value.Sent? ==> v.value.delivery.partition == call.partition)
    && (call.topicBlank || call.partition < 0 ==>
         || call.phase.Entering? || call.phase.Validating? || Refused(call.phase)
         || call.phase ==
            Returned(NotAttempted(Config(if call.topicBlank then BlankTopic else NegativePartition))))
  }

  lemma OwnShapeStep(s: Pool, c: nat, s': Pool)
    requires c < |s.calls| && CallNext(s, c, s') && ShapeOk(s.calls[c])
    ensures c < |s'.calls| && ShapeOk(s'.calls[c])
  {
  }

  lemma ShapeStep(s: Pool, a: Action, s': Pool, c: nat)
    requires Next(s, a, s') && c < |s'.calls|
    requires c < |s.calls| ==> ShapeOk(s.calls[c])
    ensures ShapeOk(s'.calls[c])
  {
    if a == CallStep(c) {
      OwnShapeStep(s, c, s');
    } else if a != Abandon(c) {
      OtherCallsStay(s, a, s', c);
    }
  }

  lemma {:induction false} ShapeChecked(ss: seq<Pool>, acts: seq<Action>, n: nat, c: nat)
    requires Run(ss, acts) && n <= |acts| && c < |ss[n].calls|
    ensures ShapeOk(ss[n].calls[c])
  {
    if n > 0 {
      if c < |ss[n - 1].calls| {
        ShapeChecked(ss, acts, n - 1, c);
      }
      assert Linked(ss, acts, n - 1);
      ShapeStep(ss[n - 1], acts[n - 1], ss[n], c);
    }
  }

  // ---------------------------------------------------------------- a publish that succeeds

  /** One call whose first operation is over and whose second is `op`. */
  function SecondOp(op: L.Op, active: nat, activity: nat, phase: Phase): Pool {
    NEW.(life := L.NEW.(ops := [L.Released, op], active := active, activity := activity),
         calls := [Call(false, 0, phase)])
  }

  lemma ReachProduce() returns (ss: seq<Pool>, acts: seq<Action>)
    ensures Run(ss, acts) && ss[|acts|] == SecondOp(L.Starting, 0, 1, ProduceStarting(1))
  {
    ss, acts := ReachClient();
    assert ClientEnds(ss[|acts|], None);
    ss, acts := Extend(ss, acts, CallStep(0), OneCall(L.Live, 1, 0, ClientLeaving(0, None)));
    ss, acts := Extend(ss, acts, LifeStep(L.DropGuard(0)), OneCall(L.Releasing(true), 0, 0, ClientLeaving(0, None)));
    ss, acts := Extend(ss, acts, LifeStep(L.OpStep(0)), OneCall(L.Released, 0, 1, ClientLeaving(0, None)));
    ss, acts := Extend(ss, acts, CallStep(0), SecondOp(L.Starting, 0, 1, ProduceStarting(1)));
  }

  lemma ReachProducing() returns (ss: seq<Pool>, acts: seq<Action>)
    ensures Run(ss, acts) && ss[|acts|] == SecondOp(L.Live, 1, 1, Producing(1))
  {
    ss, acts := ReachProduce();
    ss, acts := Extend(ss, acts, LifeStep(L.OpStep(1)), SecondOp(L.Checked, 0, 1, ProduceStarting(1)));
    ss, acts := Extend(ss, acts, LifeStep(L.OpStep(1)), SecondOp(L.Counted, 1, 1, ProduceStarting(1)));
    ss, acts := Extend(ss, acts, LifeStep(L.OpStep(1)), SecondOp(L.Live, 1, 1, ProduceStarting(1)));
    ss, acts := Extend(ss, acts, CallStep(0), SecondOp(L.Live, 1, 1, Producing(1)));
  }

  lemma ReachReturning(v: Verdict) returns (ss: seq<Pool>, acts: seq<Action>)
    requires v.Sent? && exists offset :: v == Judge(0, Acknowledged([offset]))
    ensures Run(ss, acts) && ss[|acts|] == SecondOp(L.Live, 1, 1, Returning(Some(1), v)).(published := 1)
  {
    var offset :| v == Judge(0, Acknowledged([offset]));
    ss, acts := ReachProducing();
    ss, acts := Extend(ss, acts, CallStep(0), SecondOp(L.Live, 1, 1, Counting(Some(1), v)));
    ss, acts := Extend(ss, acts, CallStep(0), SecondOp(L.Live, 1, 1, Returning(Some(1), v)).(published := 1));
  }

  /** A publish can succeed, with the offset the broker gave, and is counted once. */
  lemma PublishSucceeds(offset: i64) returns (ss: seq<Pool>, acts: seq<Action>)
    ensures Run(ss, acts) && Quiet(ss[|acts|])
    ensures var s := ss[|acts|];
      && |s.calls| == 1 && s.calls[0].phase == Returned(Sent(Delivery(0, offset)))
      && s.published == 1 && s.failed == s.timeouts == s.cancelled == 0 && s.life.active == 0
  {
    var v := Judge(0, Acknowledged([offset]));
    ss, acts := ReachReturning(v);
    ss, acts := Extend(ss, acts, LifeStep(L.DropGuard(1)),
                       SecondOp(L.Releasing(true), 0, 1, Returning(Some(1), v)).(published := 1));
    ss, acts := Extend(ss, acts, LifeStep(L.OpStep(1)),
                       SecondOp(L.Released, 0, 2, Returning(Some(1), v)).(published := 1));
    ss, acts := Extend(ss, acts, CallStep(0), SecondOp(L.Released, 0, 2, Returned(v)).(published := 1));
  }
}
