/** A pool being closed while publishes are in flight and consumers' background tasks are running:
    the lifecycle, the publishes and the tasks in one system. */
module Closing {
  import opened Common
  import L = Lifecycle
  import P = Producer
  import F = Pipeline

  /** A background task and the operation whose guard it holds until it ends. */
  datatype Fetcher = Fetcher(op: nat, log: seq<F.Record>, pipe: F.Pipe)

  datatype System = System(pool: P.Pool, fetchers: seq<Fetcher>)

  datatype Action =
    | PoolStep(move: P.Action)
    | Spawn(op: nat, log: seq<F.Record>, start: F.StartOffset)
    | FetcherStep(f: nat, step: F.Action)

  function LineOf(s: System, f: Fetcher): F.Line {
    F.Line(f.log, s.pool.life.shutdown, f.pipe)
  }

  predicate Guards(f: Fetcher, op: nat) {
    f.op == op && !f.pipe.task.Ended?
  }

  /** A task's guard is dropped only after the task has ended; the shutdown signal it sees is the
      lifecycle's. */
  ghost predicate Next(s: System, a: Action, s': System) {
    match a
    case PoolStep(b) =>
      && P.Next(s.pool, b, s'.pool)
      && (b.LifeStep? && b.a.DropGuard? ==> forall f :: 0 <= f < |s.fetchers| ==> !Guards(s.fetchers[f], b.a.i))
      && s' == s.(pool := s'.pool)
    case Spawn(op, log, start) =>
      && op < |s.pool.life.ops| && s.pool.life.ops[op].Live? && F.LogOk(log)
      && s' == s.(fetchers := s.fetchers + [Fetcher(op, log, F.NewPipe(start, s.pool.life.shutdown))])
    case FetcherStep(f, b) =>
      && f < |s.fetchers| && !b.Broadcast? && |s'.fetchers| == |s.fetchers|
      && F.LineNext(LineOf(s, s.fetchers[f]), b, LineOf(s, s'.fetchers[f]))
      && s'.fetchers[f].op == s.fetchers[f].op
      && s' == s.(fetchers := s.fetchers[f := s'.fetchers[f]])
  }

  // ---------------------------------------------------------------- the invariant

  ghost predicate FetcherOk(s: System, f: Fetcher) {
    && F.LineInv(LineOf(s, f))
    && f.op < |s.pool.life.ops|
    && (!f.pipe.task.Ended? ==> s.pool.life.ops[f.op].Live?)
  }

  ghost predicate Inv(s: System) {
    && P.Inv(s.pool)
    && forall f :: 0 <= f < |s.fetchers| ==> FetcherOk(s, s.fetchers[f])
  }

  /** What a step of the pool means for its lifecycle. */
  lemma PoolStepLife(p: P.Pool, b: P.Action, p': P.Pool)
    requires P.Next(p, b, p')
    ensures b.LifeStep? ==> L.Enabled(p.life, b.a) && p'.life == L.After(p.life, b.a)
    ensures !b.LifeStep? ==> p'.life == p.life || p'.life == L.After(p.life, L.NewOp)
  {
  }

  lemma SignalMoves(life: L.State, b: L.Action)
    requires L.Enabled(life, b)
    ensures var sd, sd' := life.shutdown, L.After(life, b).shutdown;
      sd' == sd || sd' == Watch(true, sd.version + 1)
  {
  }

  lemma LifeKeepsFetcher(s: System, b: L.Action, s': System, f: Fetcher)
    requires FetcherOk(s, f) && L.Enabled(s.pool.life, b)
    requires s'.pool.life == L.After(s.pool.life, b)
    requires b.DropGuard? ==> !Guards(f, b.i)
    ensures FetcherOk(s', f)
  {
    P.OpMoves(s.pool.life, b, f.op);
    SignalMoves(s.pool.life, b);
    F.BroadcastKeeps(f.log, s.pool.life.shutdown, f.pipe);
  }

  lemma SameLifeKeepsFetcher(s: System, s': System, f: Fetcher)
    requires FetcherOk(s, f) && s'.pool.life == s.pool.life
    ensures FetcherOk(s', f)
  {
  }

  lemma PoolStepKeeps(s: System, b: P.Action, s': System)
    requires Inv(s) && Next(s, PoolStep(b), s')
    ensures Inv(s')
  {
    P.NextKeepsInv(s.pool, b, s'.pool);
    PoolStepLife(s.pool, b, s'.pool);
    forall f | 0 <= f < |s'.fetchers| ensures FetcherOk(s', s'.fetchers[f]) {
      assert FetcherOk(s, s.fetchers[f]);
      if b.LifeStep? {
        LifeKeepsFetcher(s, b.a, s', s.fetchers[f]);
      } else if s'.pool.life == s.pool.life {
        SameLifeKeepsFetcher(s, s', s.fetchers[f]);
      } else {
        LifeKeepsFetcher(s, L.NewOp, s', s.fetchers[f]);
      }
    }
  }

  lemma SpawnKeeps(s: System, op: nat, log: seq<F.Record>, start: F.StartOffset, s': System)
    requires Inv(s) && Next(s, Spawn(op, log, start), s')
    ensures Inv(s')
  {
    F.NewPipeOk(log, start, s.pool.life.shutdown);
    forall f | 0 <= f < |s'.fetchers| ensures FetcherOk(s', s'.fetchers[f]) {
      if f < |s.fetchers| {
        assert FetcherOk(s, s.fetchers[f]);
        SameLifeKeepsFetcher(s, s', s.fetchers[f]);
      }
    }
  }

  lemma EndedStays(l: F.Line, a: F.Action, l': F.Line)
    requires F.LineNext(l, a, l') && l.pipe.task.Ended?
    ensures l'.pipe.task.Ended?
  {
  }

  lemma FetcherStepKeeps(s: System, f: nat, b: F.Action, s': System)
    requires Inv(s) && Next(s, FetcherStep(f, b), s')
    ensures Inv(s')
  {
    forall g | 0 <= g < |s'.fetchers| ensures FetcherOk(s', s'.fetchers[g]) {
      assert FetcherOk(s, s.fetchers[g]);
      if g == f {
        F.LineNextKeepsInv(LineOf(s, s.fetchers[f]), b, LineOf(s, s'.fetchers[f]));
        if s.fetchers[f].pipe.task.Ended? {
          EndedStays(LineOf(s, s.fetchers[f]), b, LineOf(s, s'.fetchers[f]));
        }
      } else {
        SameLifeKeepsFetcher(s, s', s.fetchers[g]);
      }
    }
  }

  lemma NextKeepsInv(s: System, a: Action, s': System)
    requires Inv(s) && Next(s, a, s')
    ensures Inv(s')
  {
    match a
    case PoolStep(b) => PoolStepKeeps(s, b, s');
    case Spawn(op, log, start) => SpawnKeeps(s, op, log, start, s');
    case FetcherStep(f, b) => FetcherStepKeeps(s, f, b, s');
  }

  // ---------------------------------------------------------------- how much is left to do

  /** Something new turns up: an operation, a closer, a call or a consumer. */
  predicate Arrives(a: Action) {
    a.Spawn? || (a.PoolStep? && (a.move.NewCall? || (a.move.LifeStep? && L.Arrival(a.move.a))))
  }

  /** The broker's log grows, or a consumer takes an item or goes away. */
  predicate Outside(a: Action) {
    a.FetcherStep? && !a.step.TaskStep? && !a.step.Abort?
  }

  /** A step of a thread, call or task that is already there. */
  predicate Own(a: Action) {
    !Arrives(a) && !Outside(a)
  }

  /** Steps a call of `publish` still takes. */
  function CallWork(call: P.Call): nat {
    match call.phase
    case Entering => 10
    case Validating => 9
    case ClientStarting(_) => 8
    case ClientRunning(_) => 7
    case ClientLeaving(_, _) => 6
    case ProduceStarting(_) => 5
    case Producing(_) => 4
    case Counting(_, _) => 3
    case CountingFailed(_, _) => 2
    case Returning(_, _) => 1
    case Returned(_) => 0
    case Abandoned => 0
  }

  function FetcherWork(f: Fetcher): nat {
    F.StepsLeft(f.pipe)
  }

  /** Calls count double, because a step of a call may register an operation. */
  function Work(s: System): nat {
    L.Measure(s.pool.life) + 2 * Sum(s.pool.calls, CallWork) + Sum(s.fetchers, FetcherWork)
  }

  lemma CallWorkFalls(p: P.Pool, c: nat, p': P.Pool)
    requires c < |p.calls| && P.CallNext(p, c, p')
    ensures p'.calls == p.calls[c := p'.calls[c]] && |p'.calls| == |p.calls|
    ensures CallWork(p'.calls[c]) < CallWork(p.calls[c])
    ensures p'.life == p.life || p'.life == L.After(p.life, L.NewOp)
  {
  }

  /** An operation that arrives after closing adds one step: it looks at the flag and is refused. */
  lemma LateArrivalWork(life: L.State)
    requires life.closed
    ensures L.Measure(L.After(life, L.NewOp)) == L.Measure(life) + 1
  {
    SumAppend(life.ops, L.Starting, L.OpWork);
    SumAppend(life.ops, L.Starting, L.Owes);
  }

  lemma CallStepFalls(s: System, c: nat, s': System)
    requires Inv(s) && s.pool.life.closed && Next(s, PoolStep(P.CallStep(c)), s')
    ensures Work(s') < Work(s)
  {
    CallWorkFalls(s.pool, c, s'.pool);
    SumUpdate(s.pool.calls, c, s'.pool.calls[c], CallWork);
    LateArrivalWork(s.pool.life);
  }

  lemma AbandonFalls(s: System, c: nat, s': System)
    requires Next(s, PoolStep(P.Abandon(c)), s')
    ensures Work(s') < Work(s)
  {
    SumUpdate(s.pool.calls, c, s'.pool.calls[c], CallWork);
  }

  lemma FetcherStepFalls(s: System, f: nat, b: F.Action, s': System)
    requires Inv(s) && s.pool.life.shutdown.value && Next(s, FetcherStep(f, b), s')
    ensures Outside(FetcherStep(f, b)) ==> Work(s') == Work(s)
    ensures !Outside(FetcherStep(f, b)) ==> Work(s') < Work(s)
  {
    assert FetcherOk(s, s.fetchers[f]);
    F.TaskStepsFall(LineOf(s, s.fetchers[f]), b, LineOf(s, s'.fetchers[f]));
    SumUpdate(s.fetchers, f, s'.fetchers[f], FetcherWork);
  }

  lemma SignalStays(p: P.Pool, b: P.Action, p': P.Pool)
    requires P.Next(p, b, p') && p.life.shutdown.value
    ensures p'.life.shutdown.value
  {
    PoolStepLife(p, b, p');
    if b.LifeStep? {
      SignalMoves(p.life, b.a);
    }
  }

  /** Once the shutdown signal has been sent, every step of something that is there brings the end
      nearer, and nothing outside moves it away. */
  lemma WorkFalls(s: System, a: Action, s': System)
    requires Inv(s) && s.pool.life.shutdown.value && Next(s, a, s') && !Arrives(a)
    ensures s'.pool.life.shutdown.value
    ensures Work(s') + (if Own(a) then 1 else 0) <= Work(s)
  {
    match a
    case FetcherStep(f, b) => FetcherStepFalls(s, f, b, s');
    case PoolStep(b) =>
      SignalStays(s.pool, b, s'.pool);
      match b {
        case LifeStep(l) => L.MeasureFalls(s.pool.life, l);
        case CallStep(c) => CallStepFalls(s, c, s');
        case Abandon(c) => AbandonFalls(s, c, s');
      }
  }

  // ---------------------------------------------------------------- nothing gets stuck

  lemma StepOfCall(s: System, c: nat, p': P.Pool) returns (a: Action, s': System)
    requires P.Next(s.pool, P.CallStep(c), p')
    ensures Next(s, a, s') && Own(a)
  {
    a, s' := PoolStep(P.CallStep(c)), s.(pool := p');
  }

  lemma StepOfLife(s: System, l: L.Action) returns (a: Action, s': System)
    requires L.Enabled(s.pool.life, l) && !L.Arrival(l) && !l.DropGuard?
    ensures Next(s, a, s') && Own(a)
  {
    a, s' := PoolStep(P.LifeStep(l)), s.(pool := s.pool.(life := L.After(s.pool.life, l)));
  }

  lemma StepOfFetcher(s: System, f: nat) returns (a: Action, s': System)
    requires Inv(s) && s.pool.life.shutdown.value && f < |s.fetchers| && !s.fetchers[f].pipe.task.Ended?
    ensures Next(s, a, s') && Own(a)
  {
    assert FetcherOk(s, s.fetchers[f]);
    var l := LineOf(s, s.fetchers[f]);
    var l' := F.TaskCanMove(l);
    var g := s.fetchers[f].(pipe := l'.pipe);
    a, s' := FetcherStep(f, F.TaskStep), s.(fetchers := s.fetchers[f := g]);
    assert LineOf(s, s'.fetchers[f]) == l';
  }

  /** A call holding a live guard can always take its next step: the waits it may be in end with the
      shutdown signal. */
  lemma HolderMoves(s: System, c: nat) returns (a: Action, s': System)
    requires Inv(s) && s.pool.life.shutdown.value && c < |s.pool.calls|
    requires var held := P.Held(s.pool.calls[c].phase);
      held.Some? && held.value < |s.pool.life.ops| && s.pool.life.ops[held.value].Live?
    ensures Next(s, a, s') && Own(a)
  {
    var p, call := s.pool, s.pool.calls[c];
    assert P.CallOk(p, call);
    match call.phase
    case ClientStarting(op) => a, s' := StepOfCall(s, c, P.At(p, c, P.ClientRunning(op)));
    case ClientRunning(op) =>
      assert P.ClientEnds(p, Some(Closed));
      a, s' := StepOfCall(s, c, P.At(p, c, P.ClientLeaving(op, Some(Closed))));
    case ProduceStarting(op) => a, s' := StepOfCall(s, c, P.At(p, c, P.Producing(op)));
    case Producing(op) =>
      assert P.Judge(call.partition, P.Cancelled) == P.WasClosed;
      a, s' := StepOfCall(s, c, P.At(p, c, P.Counting(Some(op), P.Judge(call.partition, P.Cancelled))));
    case Counting(_, _) => a, s' := CountingMoves(s, c);
    case CountingFailed(_, _) => a, s' := CountingMoves(s, c);
  }

  lemma CountingMoves(s: System, c: nat) returns (a: Action, s': System)
    requires Inv(s) && c < |s.pool.calls|
    requires s.pool.calls[c].phase.Counting? || s.pool.calls[c].phase.CountingFailed?
    ensures Next(s, a, s') && Own(a)
  {
    var p := s.pool;
    assert P.CallOk(p, p.calls[c]);
    match p.calls[c].phase
    case CountingFailed(held, v) =>
      a, s' := StepOfCall(s, c, P.At(p, c, P.Returning(held, v)).(failed := p.failed + 1));
    case Counting(held, v) =>
      match v {
        case Sent(_) => a, s' := StepOfCall(s, c, P.At(p, c, P.Returning(held, v)).(published := p.published + 1));
        case WasClosed =>
          a, s' := StepOfCall(s, c, P.At(p, c, P.CountingFailed(held, v)).(cancelled := p.cancelled + 1));
        case ProduceTimedOut =>
          a, s' := StepOfCall(s, c, P.At(p, c, P.CountingFailed(held, v)).(timeouts := p.timeouts + 1));
        case ProduceFailed(_) => a, s' := StepOfCall(s, c, P.At(p, c, P.Returning(held, v)).(failed := p.failed + 1));
      }
  }

  /** A live guard can be dropped, or whoever holds it can move. */
  lemma GuardMoves(s: System, op: nat) returns (a: Action, s': System)
    requires Inv(s) && s.pool.life.shutdown.value && op < |s.pool.life.ops| && s.pool.life.ops[op].Live?
    ensures Next(s, a, s') && Own(a)
  {
    if f :| 0 <= f < |s.fetchers| && Guards(s.fetchers[f], op) {
      a, s' := StepOfFetcher(s, f);
    } else if c :| 0 <= c < |s.pool.calls| && P.Held(s.pool.calls[c].phase) == Some(op) {
      a, s' := HolderMoves(s, c);
    } else {
      var l := L.DropGuard(op);
      a, s' := PoolStep(P.LifeStep(l)), s.(pool := s.pool.(life := L.After(s.pool.life, l)));
    }
  }

  /** An operation that is not over can move, or whoever holds its guard can. */
  lemma OpMoves(s: System, op: nat) returns (a: Action, s': System)
    requires Inv(s) && s.pool.life.shutdown.value && op < |s.pool.life.ops|
    requires !s.pool.life.ops[op].Rejected? && !s.pool.life.ops[op].Released?
    ensures Next(s, a, s') && Own(a)
  {
    if s.pool.life.ops[op].Live? {
      a, s' := GuardMoves(s, op);
    } else {
      a, s' := StepOfLife(s, L.OpStep(op));
    }
  }

  predicate Done(call: P.Call) {
    call.phase.Returned? || call.phase.Abandoned?
  }

  /** A call that has not registered, or has nothing left to wait for. */
  lemma FreeCallMoves(s: System, c: nat) returns (a: Action, s': System)
    requires Inv(s) && c < |s.pool.calls| && (s.pool.calls[c].phase.Entering? || s.pool.calls[c].phase.Validating?)
    ensures Next(s, a, s') && Own(a)
  {
    var p, call := s.pool, s.pool.calls[c];
    if call.phase.Entering? {
      a, s' := StepOfCall(s, c, P.At(p, c, if p.life.closed then P.Counting(None, P.WasClosed) else P.Validating));
    } else if call.topicBlank {
      a, s' := StepOfCall(s, c, P.At(p, c, P.Returned(P.NotAttempted(Config(BlankTopic)))));
    } else if call.partition < 0 {
      a, s' := StepOfCall(s, c, P.At(p, c, P.Returned(P.NotAttempted(Config(NegativePartition)))));
    } else {
      a, s' := StepOfCall(s, c, P.At(P.Register(p), c, P.ClientStarting(|p.life.ops|)));
    }
  }

  /** A call waiting for its operation to be admitted or given back. */
  lemma WaitingCallMoves(s: System, c: nat) returns (a: Action, s': System)
    requires Inv(s) && s.pool.life.shutdown.value && c < |s.pool.calls|
    requires var ph := s.pool.calls[c].phase;
      ph.ClientStarting? || ph.ClientLeaving? || ph.ProduceStarting? || ph.Returning?
    ensures Next(s, a, s') && Own(a)
  {
    var p, call := s.pool, s.pool.calls[c];
    assert P.CallOk(p, call);
    match call.phase
    case ClientStarting(op) =>
      if p.life.ops[op].Rejected? {
        a, s' := StepOfCall(s, c, P.At(p, c, P.Counting(None, P.WasClosed)));
      } else {
        a, s' := OpMoves(s, op);
      }
    case ProduceStarting(op) =>
      if p.life.ops[op].Rejected? {
        a, s' := StepOfCall(s, c, P.At(p, c, P.Counting(None, P.WasClosed)));
      } else {
        a, s' := OpMoves(s, op);
      }
    case ClientLeaving(op, failure) =>
      if !p.life.ops[op].Released? {
        a, s' := OpMoves(s, op);
      } else if failure.None? {
        a, s' := StepOfCall(s, c, P.At(P.Register(p), c, P.ProduceStarting(|p.life.ops|)));
      } else if failure.value == Closed {
        a, s' := StepOfCall(s, c, P.At(p, c, P.Counting(None, P.WasClosed)));
      } else {
        a, s' := StepOfCall(s, c, P.At(p, c, P.Returned(P.NotAttempted(failure.value))));
      }
    case Returning(held, v) =>
      if held.None? || p.life.ops[held.value].Released? {
        a, s' := StepOfCall(s, c, P.At(p, c, P.Returned(v)));
      } else {
        a, s' := OpMoves(s, held.value);
      }
  }

  lemma CallMoves(s: System, c: nat) returns (a: Action, s': System)
    requires Inv(s) && s.pool.life.shutdown.value && c < |s.pool.calls| && !Done(s.pool.calls[c])
    ensures Next(s, a, s') && Own(a)
  {
    assert P.CallOk(s.pool, s.pool.calls[c]);
    match s.pool.calls[c].phase
    case Entering => a, s' := FreeCallMoves(s, c);
    case Validating => a, s' := FreeCallMoves(s, c);
    case ClientRunning(_) => a, s' := HolderMoves(s, c);
    case Producing(_) => a, s' := HolderMoves(s, c);
    case Counting(_, _) => a, s' := CountingMoves(s, c);
    case CountingFailed(_, _) => a, s' := CountingMoves(s, c);
    case _ => a, s' := WaitingCallMoves(s, c);
  }

  lemma CloserMoves(s: System, j: nat) returns (a: Action, s': System)
    requires Inv(s) && s.pool.life.shutdown.value && j < |s.pool.life.closers|
    requires !s.pool.life.closers[j].ClosedOk? && !s.pool.life.closers[j].GaveUp?
    ensures Next(s, a, s') && Own(a)
  {
    var l := L.CloserNotStuck(s.pool.life, j);
    if l.DropGuard? {
      a, s' := GuardMoves(s, l.i);
    } else {
      a, s' := StepOfLife(s, l);
    }
  }

  /** Every call has returned or been dropped, every task has ended, every operation is over, and
      every closer has succeeded or run into its own deadline. */
  predicate AllOver(s: System) {
    && s.pool.life.active == 0
    && (forall c :: 0 <= c < |s.pool.calls| ==> Done(s.pool.calls[c]))
    && (forall f :: 0 <= f < |s.fetchers| ==> s.fetchers[f].pipe.task.Ended?)
    && (forall i :: 0 <= i < |s.pool.life.ops| ==> s.pool.life.ops[i].Rejected? || s.pool.life.ops[i].Released?)
    && (forall j :: 0 <= j < |s.pool.life.closers| ==>
          s.pool.life.closers[j].ClosedOk? || s.pool.life.closers[j].GaveUp?)
  }

  lemma OverMeansInactive(life: L.State)
    requires L.Inv(life)
    requires forall i :: 0 <= i < |life.ops| ==> life.ops[i].Rejected? || life.ops[i].Released?
    ensures life.active == 0
  {
    if life.active > 0 {
      var i := SumPositive(life.ops, L.Holds);
    }
  }

  /** Until everything is over, something that is there can move. */
  lemma NothingStuck(s: System) returns (a: Action, s': System)
    requires Inv(s) && s.pool.life.shutdown.value && !AllOver(s)
    ensures Next(s, a, s') && Own(a)
  {
    if c :| 0 <= c < |s.pool.calls| && !Done(s.pool.calls[c]) {
      a, s' := CallMoves(s, c);
    } else if f :| 0 <= f < |s.fetchers| && !s.fetchers[f].pipe.task.Ended? {
      a, s' := StepOfFetcher(s, f);
    } else if i :| 0 <= i < |s.pool.life.ops| && !s.pool.life.ops[i].Rejected? && !s.pool.life.ops[i].Released? {
      a, s' := OpMoves(s, i);
    } else if j :| 0 <= j < |s.pool.life.closers| &&
                   !s.pool.life.closers[j].ClosedOk? && !s.pool.life.closers[j].GaveUp? {
      a, s' := CloserMoves(s, j);
    } else {
      OverMeansInactive(s.pool.life);
    }
  }

  // ---------------------------------------------------------------- whole runs

  ghost predicate Run(ss: seq<System>, acts: seq<Action>) {
    && |ss| == |acts| + 1
    && forall i :: 0 <= i < |acts| ==> Next(ss[i], acts[i], ss[i + 1])
  }

  const NEW := System(P.NEW, [])

  lemma {:induction false} RunKeepsInv(ss: seq<System>, acts: seq<Action>, n: nat)
    requires Run(ss, acts) && Inv(ss[0]) && n <= |acts|
    ensures Inv(ss[n])
  {
    if n > 0 {
      RunKeepsInv(ss, acts, n - 1);
      NextKeepsInv(ss[n - 1], acts[n - 1], ss[n]);
    }
  }

  lemma ReachableInv(ss: seq<System>, acts: seq<Action>, n: nat)
    requires Run(ss, acts) && ss[0] == NEW && n <= |acts|
    ensures Inv(ss[n])
  {
    RunKeepsInv(ss, acts, n);
  }

  lemma WorkFallsInRun(ss: seq<System>, acts: seq<Action>, n: nat)
    requires Run(ss, acts) && ss[0] == NEW && n < |acts|
    requires ss[n].pool.life.shutdown.value && !Arrives(acts[n])
    ensures ss[n + 1].pool.life.shutdown.value
    ensures Work(ss[n + 1]) + (if Own(acts[n]) then 1 else 0) <= Work(ss[n])
  {
    ReachableInv(ss, acts, n);
    WorkFalls(ss[n], acts[n], ss[n + 1]);
  }

  function OwnSteps(acts: seq<Action>, from: nat, to: nat): nat
    requires from <= to <= |acts|
  {
    if from == to then 0 else OwnSteps(acts, from, to - 1) + if Own(acts[to - 1]) then 1 else 0
  }

  lemma {:induction false} OwnStepsBounded(ss: seq<System>, acts: seq<Action>, n: nat, m: nat)
    requires Run(ss, acts) && ss[0] == NEW && n <= m <= |acts| && ss[n].pool.life.shutdown.value
    requires forall i :: n <= i < m ==> !Arrives(acts[i])
    ensures ss[m].pool.life.shutdown.value && OwnSteps(acts, n, m) + Work(ss[m]) <= Work(ss[n])
  {
    if n < m {
      OwnStepsBounded(ss, acts, n, m - 1);
      WorkFallsInRun(ss, acts, m - 1);
    }
  }

  /** Closing drains the pool. From the moment `n` the shutdown signal has been sent, the publishes,
      background tasks, operations and closers that are there take at most `Work` steps between them,
      whatever the broker and the consumers do meanwhile; and as long as not everything is over one of
      them can take a step. So every guard is given back, and every `close` that does not run into
      its own deadline succeeds. */
  lemma ClosingDrains(ss: seq<System>, acts: seq<Action>, n: nat, m: nat)
    requires Run(ss, acts) && ss[0] == NEW && n <= m <= |acts| && ss[n].pool.life.shutdown.value
    requires forall i :: n <= i < m ==> !Arrives(acts[i])
    ensures OwnSteps(acts, n, m) <= Work(ss[n])
    ensures AllOver(ss[m]) || exists a, s' :: Own(a) && Next(ss[m], a, s')
  {
    OwnStepsBounded(ss, acts, n, m);
    ReachableInv(ss, acts, m);
    if !AllOver(ss[m]) {
      var a, s' := NothingStuck(ss[m]);
    }
  }

  /** In every reachable state a task that has not ended holds a live guard, so no `close` has
      succeeded while one is running. */
  lemma RunningTaskIsCounted(ss: seq<System>, acts: seq<Action>, n: nat, f: nat)
    requires Run(ss, acts) && ss[0] == NEW && n <= |acts|
    requires f < |ss[n].fetchers| && !ss[n].fetchers[f].pipe.task.Ended?
    ensures ss[n].pool.life.active > 0 && !P.Shut(ss[n].pool)
  {
    ReachableInv(ss, acts, n);
    var s := ss[n];
    assert FetcherOk(s, s.fetchers[f]);
    L.HolderMeansActive(s.pool.life, s.fetchers[f].op);
    forall j | 0 <= j < |s.pool.life.closers| ensures !s.pool.life.closers[j].ClosedOk? {
      assert L.CloserOk(s.pool.life, s.pool.life.closers[j]);
    }
  }
}
