/** Shutdown of a connection pool: operations are admitted and counted, closing refuses new ones and
    waits for the count to reach zero. Every atomic access and every access to a watch channel is one
    step; steps of any number of threads interleave in any order (sequential consistency). */
module Lifecycle {
  import opened Common

  /** One call of `start_operation` and the guard it may hand out. */
  datatype Op =
    | Starting                    // before the first look at `closed`
    | Checked                     // saw the pool open
    | Counted                     // `active` raised
    | Rejecting                   // saw the pool closed on the second look
    | Live                        // guard handed out
    | Releasing(granted: bool)    // `active` lowered, notification still to be sent
    | Rejected
    | Released

  /** One call of `close`; `seen` is the activity version its receiver has seen. */
  datatype Closer =
    | Subscribing
    | Marking(seen: nat)          // about to set `closed`
    | Broadcasting(seen: nat)     // about to send the shutdown signal
    | Testing(seen: nat)          // about to look at `active`
    | Waiting(seen: nat)          // in `changed().await`
    | ClosedOk
    | GaveUp                      // deadline expired, or the future was dropped

  const USIZE_MAX: nat := 0xffff_ffff_ffff_ffff

  datatype State = State(
    closed: bool,
    active: nat,
    shutdown: Watch,
    activity: nat,                // version of the activity channel
    ops: seq<Op>,
    closers: seq<Closer>)

  const NEW := State(false, 0, Watch(false, 0), 0, [], [])

  datatype Action =
    | NewOp
    | OpStep(i: nat)
    | DropGuard(i: nat)
    | NewCloser
    | CloserStep(i: nat)
    | GiveUp(i: nat)

  /** `fetch_sub` on an unsigned counter wraps at zero. */
  function Decrement(n: nat): nat {
    if n == 0 then USIZE_MAX else n - 1
  }

  predicate Enabled(s: State, a: Action) {
    match a
    case NewOp => true
    case OpStep(i) =>
      i < |s.ops| && !s.ops[i].Live? && !s.ops[i].Rejected? && !s.ops[i].Released?
    case DropGuard(i) => i < |s.ops| && s.ops[i].Live?
    case NewCloser => true
    case CloserStep(i) =>
      i < |s.closers| && !s.closers[i].ClosedOk? && !s.closers[i].GaveUp? &&
      (s.closers[i].Waiting? ==> s.closers[i].seen != s.activity)
    case GiveUp(i) => i < |s.closers| && s.closers[i].Waiting?
  }

  function SetOp(s: State, i: nat, op: Op): State
    requires i < |s.ops|
  {
    s.(ops := s.ops[i := op])
  }

  function SetCloser(s: State, i: nat, c: Closer): State
    requires i < |s.closers|
  {
    s.(closers := s.closers[i := c])
  }

  function After(s: State, a: Action): State
    requires Enabled(s, a)
  {
    match a
    case NewOp => s.(ops := s.ops + [Starting])
    case OpStep(i) =>
      (match s.ops[i]
       case Starting => SetOp(s, i, if s.closed then Rejected else Checked)
       case Checked => SetOp(s, i, Counted).(active := s.active + 1)
       case Counted => SetOp(s, i, if s.closed then Rejecting else Live)
       case Rejecting => SetOp(s, i, Releasing(false)).(active := Decrement(s.active))
       case Releasing(granted) =>
         SetOp(s, i, if granted then Released else Rejected).(activity := s.activity + 1)
       case _ => s)
    case DropGuard(i) => SetOp(s, i, Releasing(true)).(active := Decrement(s.active))
    case NewCloser => s.(closers := s.closers + [Subscribing])
    case CloserStep(i) =>
      (match s.closers[i]
       case Subscribing => SetCloser(s, i, Marking(s.activity))
       case Marking(seen) => SetCloser(s, i, Broadcasting(seen)).(closed := true)
       case Broadcasting(seen) =>
         SetCloser(s, i, Testing(seen)).(shutdown := Watch(true, s.shutdown.version + 1))
       case Testing(seen) => SetCloser(s, i, if s.active == 0 then ClosedOk else Waiting(seen))
       case Waiting(_) => SetCloser(s, i, Testing(s.activity))
       case _ => s)
    case GiveUp(i) => SetCloser(s, i, GaveUp)
  }

  // ---------------------------------------------------------------- the invariant

  /** Threads between their increment and their decrement. */
  function Holds(op: Op): nat {
    if op.Counted? || op.Rejecting? || op.Live? then 1 else 0
  }

  /** Threads that saw the pool open and will still send a notification. */
  function Owes(op: Op): nat {
    if op.Checked? || op.Counted? || op.Rejecting? || op.Live? || op.Releasing? then 1 else 0
  }

  predicate CloserOk(s: State, c: Closer) {
    match c
    case Subscribing => true
    case Marking(seen) => seen <= s.activity
    case Broadcasting(seen) => s.closed && seen <= s.activity
    case Testing(seen) => s.closed && s.shutdown.value && seen <= s.activity
    case Waiting(seen) =>
      && s.closed && s.shutdown.value && seen <= s.activity
      && (seen == s.activity && s.active == 0 ==> exists i :: 0 <= i < |s.ops| && s.ops[i].Releasing?)
    case ClosedOk => s.closed && s.shutdown.value && forall i :: 0 <= i < |s.ops| ==> !s.ops[i].Live?
    case GaveUp => s.closed && s.shutdown.value
  }

  ghost predicate Inv(s: State) {
    && s.active == Sum(s.ops, Holds)
    && (s.shutdown.value <==> s.shutdown.version > 0)
    && (s.shutdown.value ==> s.closed)
    && forall i :: 0 <= i < |s.closers| ==> CloserOk(s, s.closers[i])
  }

  /** A thread about to lower `active` finds it positive, so the subtraction never wraps. */
  lemma HolderMeansActive(s: State, i: nat)
    requires s.active == Sum(s.ops, Holds) && i < |s.ops| && Holds(s.ops[i]) == 1
    ensures s.active > 0
  {
    SumAtLeast(s.ops, i, Holds);
  }

  lemma OpKeepsCount(s: State, i: nat, s': State)
    requires s.active == Sum(s.ops, Holds)
    requires (Enabled(s, OpStep(i)) && s' == After(s, OpStep(i))) ||
             (Enabled(s, DropGuard(i)) && s' == After(s, DropGuard(i)))
    ensures s'.active == Sum(s'.ops, Holds)
  {
    SumUpdate(s.ops, i, s'.ops[i], Holds);
    if Holds(s.ops[i]) == 1 {
      HolderMeansActive(s, i);
    }
  }

  lemma OpKeepsCloser(s: State, i: nat, s': State, c: Closer)
    requires s.active == Sum(s.ops, Holds) && CloserOk(s, c)
    requires (Enabled(s, OpStep(i)) && s' == After(s, OpStep(i))) ||
             (Enabled(s, DropGuard(i)) && s' == After(s, DropGuard(i)))
    ensures CloserOk(s', c)
  {
    if Holds(s.ops[i]) == 1 {
      HolderMeansActive(s, i);
    }
    if c.Waiting? && c.seen == s'.activity && s'.active == 0 && !s'.ops[i].Releasing? {
      var k :| 0 <= k < |s.ops| && s.ops[k].Releasing?;
      assert k != i && s'.ops[k].Releasing?;
    }
  }

  lemma OpKeepsInv(s: State, i: nat, s': State)
    requires Inv(s)
    requires (Enabled(s, OpStep(i)) && s' == After(s, OpStep(i))) ||
             (Enabled(s, DropGuard(i)) && s' == After(s, DropGuard(i)))
    ensures Inv(s')
  {
    OpKeepsCount(s, i, s');
    forall j | 0 <= j < |s'.closers| ensures CloserOk(s', s'.closers[j]) {
      OpKeepsCloser(s, i, s', s.closers[j]);
    }
  }

  lemma CloserKeepsInv(s: State, i: nat, s': State)
    requires Inv(s)
    requires (Enabled(s, CloserStep(i)) && s' == After(s, CloserStep(i))) ||
             (Enabled(s, GiveUp(i)) && s' == After(s, GiveUp(i)))
    ensures Inv(s')
  {
    forall j | 0 <= j < |s'.closers| ensures CloserOk(s', s'.closers[j]) {
      assert CloserOk(s, s.closers[j]);
      if s'.closers[i].ClosedOk? {
        forall k | 0 <= k < |s.ops| ensures !s.ops[k].Live? {
          SumAtLeast(s.ops, k, Holds);
        }
      }
    }
  }

  lemma StepKeepsInv(s: State, a: Action)
    requires Inv(s) && Enabled(s, a)
    ensures Inv(After(s, a))
  {
    var s' := After(s, a);
    match a
    case NewOp =>
      SumAppend(s.ops, Starting, Holds);
      forall j | 0 <= j < |s'.closers| ensures CloserOk(s', s'.closers[j]) {
        var c := s.closers[j];
        assert CloserOk(s, c);
        if c.Waiting? && c.seen == s.activity && s.active == 0 {
          var k :| 0 <= k < |s.ops| && s.ops[k].Releasing?;
          assert s'.ops[k].Releasing?;
        }
      }
    case NewCloser =>
      forall j | 0 <= j < |s'.closers| ensures CloserOk(s', s'.closers[j]) {
        if j < |s.closers| {
          assert CloserOk(s, s.closers[j]);
        }
      }
    case OpStep(i) => OpKeepsInv(s, i, s');
    case DropGuard(i) => OpKeepsInv(s, i, s');
    case CloserStep(i) => CloserKeepsInv(s, i, s');
    case GiveUp(i) => CloserKeepsInv(s, i, s');
  }

  // ---------------------------------------------------------------- runs

  ghost predicate Run(ss: seq<State>, acts: seq<Action>) {
    && |ss| == |acts| + 1
    && forall i :: 0 <= i < |acts| ==> Enabled(ss[i], acts[i]) && ss[i + 1] == After(ss[i], acts[i])
  }

  lemma {:induction false} RunKeepsInv(ss: seq<State>, acts: seq<Action>, n: nat)
    requires Run(ss, acts) && Inv(ss[0]) && n <= |acts|
    ensures Inv(ss[n])
  {
    if n > 0 {
      RunKeepsInv(ss, acts, n - 1);
      StepKeepsInv(ss[n - 1], acts[n - 1]);
    }
  }

  /** `active` is, at every moment, exactly the number of threads between their increment and their
      decrement, and every decrement finds it positive. */
  lemma ExactCounting(ss: seq<State>, acts: seq<Action>, n: nat)
    requires Run(ss, acts) && ss[0] == NEW && n <= |acts|
    ensures ss[n].active == Sum(ss[n].ops, Holds)
    ensures n < |acts| && acts[n].DropGuard? ==> ss[n].active > 0
    ensures n < |acts| && acts[n].OpStep? && ss[n].ops[acts[n].i].Rejecting? ==> ss[n].active > 0
  {
    assert Inv(ss[0]);
    RunKeepsInv(ss, acts, n);
    if n < |acts| {
      assert Enabled(ss[n], acts[n]);
      if acts[n].DropGuard? || (acts[n].OpStep? && ss[n].ops[acts[n].i].Rejecting?) {
        HolderMeansActive(ss[n], acts[n].i);
      }
    }
  }

  lemma {:induction false} ClosedOkStays(ss: seq<State>, acts: seq<Action>, n: nat, m: nat, j: nat)
    requires Run(ss, acts) && n <= m <= |acts| && j < |ss[n].closers| && ss[n].closers[j].ClosedOk?
    ensures j < |ss[m].closers| && ss[m].closers[j].ClosedOk?
  {
    if n < m {
      ClosedOkStays(ss, acts, n, m - 1, j);
      assert Enabled(ss[m - 1], acts[m - 1]);
    }
  }

  /** Closing is a barrier: from the moment some `close` has returned success, no guard is live and
      none ever will be, in any interleaving. */
  lemma CloseIsBarrier(ss: seq<State>, acts: seq<Action>, n: nat, m: nat, j: nat)
    requires Run(ss, acts) && ss[0] == NEW && n <= m <= |acts|
    requires j < |ss[n].closers| && ss[n].closers[j].ClosedOk?
    ensures ss[m].closed && forall i :: 0 <= i < |ss[m].ops| ==> !ss[m].ops[i].Live?
  {
    assert Inv(ss[0]);
    RunKeepsInv(ss, acts, m);
    ClosedOkStays(ss, acts, n, m, j);
    assert CloserOk(ss[m], ss[m].closers[j]);
  }

  /** No wake-up is lost: a closer waiting while nothing is active either has a notification it has
      not seen, or one is still about to be sent. */
  lemma NoLostWakeup(ss: seq<State>, acts: seq<Action>, n: nat, j: nat)
    requires Run(ss, acts) && ss[0] == NEW && n <= |acts|
    requires j < |ss[n].closers| && ss[n].closers[j].Waiting? && ss[n].active == 0
    ensures Enabled(ss[n], CloserStep(j)) || exists i :: 0 <= i < |ss[n].ops| && ss[n].ops[i].Releasing?
  {
    assert Inv(ss[0]);
    RunKeepsInv(ss, acts, n);
    assert CloserOk(ss[n], ss[n].closers[j]);
  }

  // ---------------------------------------------------------------- termination

  /** Notifications sent and still owed. Once the pool is closed no step raises it: a thread that
      starts later sees `closed` and never owes one. */
  function Horizon(s: State): nat {
    Sum(s.ops, Owes) + s.activity
  }

  lemma HorizonFalls(s: State, a: Action)
    requires Enabled(s, a) && s.closed
    ensures After(s, a).closed && Horizon(After(s, a)) <= Horizon(s)
    ensures !a.NewOp? ==> Horizon(After(s, a)) == Horizon(s)
  {
    match a
    case NewOp => SumAppend(s.ops, Starting, Owes);
    case OpStep(i) => SumUpdate(s.ops, i, After(s, a).ops[i], Owes);
    case DropGuard(i) => SumUpdate(s.ops, i, After(s, a).ops[i], Owes);
    case _ =>
  }

  /** How many more times closer `j` can find a notification. */
  function Wakeups(s: State, j: nat): int
    requires j < |s.closers|
  {
    match s.closers[j]
    case Testing(seen) => Horizon(s) - seen
    case Waiting(seen) => Horizon(s) - seen
    case _ => 0
  }

  predicate InLoop(s: State, j: nat) {
    j < |s.closers| && (s.closers[j].Testing? || s.closers[j].Waiting?)
  }

  predicate Wakes(s: State, a: Action, j: nat) {
    a == CloserStep(j) && j < |s.closers| && s.closers[j].Waiting?
  }

  function CountWakes(ss: seq<State>, acts: seq<Action>, j: nat): nat
    requires |ss| == |acts| + 1
  {
    if acts == [] then 0
    else (if Wakes(ss[0], acts[0], j) then 1 else 0) + CountWakes(ss[1..], acts[1..], j)
  }

  lemma WakeupsFall(s: State, a: Action, j: nat)
    requires Inv(s) && Enabled(s, a) && InLoop(s, j)
    ensures j < |After(s, a).closers|
    ensures Wakeups(After(s, a), j) >= 0
    ensures (if Wakes(s, a, j) then 1 else 0) + Wakeups(After(s, a), j) <= Wakeups(s, j)
    ensures InLoop(After(s, a), j) || After(s, a).closers[j].ClosedOk? || After(s, a).closers[j].GaveUp?
  {
    assert CloserOk(s, s.closers[j]);
    HorizonFalls(s, a);
    StepKeepsInv(s, a);
    assert CloserOk(After(s, a), After(s, a).closers[j]);
  }

  lemma DoneCloserSleeps(ss: seq<State>, acts: seq<Action>, j: nat)
    requires Run(ss, acts) && j < |ss[0].closers| && (ss[0].closers[j].ClosedOk? || ss[0].closers[j].GaveUp?)
    ensures CountWakes(ss, acts, j) == 0
  {
    if acts != [] {
      assert Enabled(ss[0], acts[0]) && ss[1] == After(ss[0], acts[0]);
      RunTail(ss, acts);
      DoneCloserSleeps(ss[1..], acts[1..], j);
    }
  }

  lemma RunTail(ss: seq<State>, acts: seq<Action>)
    requires Run(ss, acts) && acts != []
    ensures Run(ss[1..], acts[1..])
  {
    forall i | 0 <= i < |acts[1..]|
      ensures Enabled(ss[1..][i], acts[1..][i]) && ss[1..][i + 1] == After(ss[1..][i], acts[1..][i])
    {
      assert Enabled(ss[i + 1], acts[i + 1]) && ss[i + 2] == After(ss[i + 1], acts[i + 1]);
    }
  }

  /** The wait loop of a closer goes round at most once for every notification owed or unseen when
      it was entered, however many operations and closers arrive meanwhile. */
  lemma {:induction false} WaitLoopBounded(ss: seq<State>, acts: seq<Action>, j: nat)
    requires Run(ss, acts) && Inv(ss[0]) && InLoop(ss[0], j)
    ensures CountWakes(ss, acts, j) <= Wakeups(ss[0], j)
  {
    if acts == [] {
      assert CloserOk(ss[0], ss[0].closers[j]);
    } else {
      assert Enabled(ss[0], acts[0]) && ss[1] == After(ss[0], acts[0]);
      WakeupsFall(ss[0], acts[0], j);
      StepKeepsInv(ss[0], acts[0]);
      RunTail(ss, acts);
      if InLoop(ss[1], j) {
        WaitLoopBounded(ss[1..], acts[1..], j);
      } else {
        DoneCloserSleeps(ss[1..], acts[1..], j);
      }
    }
  }

  /** Steps a thread still takes once the pool is closed. */
  function OpWork(op: Op): nat {
    match op
    case Starting => 1
    case Checked => 4
    case Counted => 3
    case Rejecting => 2
    case Live => 2
    case Releasing(_) => 1
    case Rejected => 0
    case Released => 0
  }

  function Distance(horizon: nat, seen: nat): nat {
    if seen <= horizon then horizon - seen else 0
  }

  function CloserWork(c: Closer, horizon: nat): nat {
    match c
    case Subscribing => 2 * horizon + 6
    case Marking(seen) => 2 * Distance(horizon, seen) + 5
    case Broadcasting(seen) => 2 * Distance(horizon, seen) + 4
    case Testing(seen) => 2 * Distance(horizon, seen) + 2
    case Waiting(seen) => 2 * Distance(horizon, seen) + 1
    case ClosedOk => 0
    case GaveUp => 0
  }

  function ClosersWork(cs: seq<Closer>, horizon: nat): nat {
    if cs == [] then 0 else CloserWork(cs[0], horizon) + ClosersWork(cs[1..], horizon)
  }

  lemma {:induction false} ClosersWorkUpdate(cs: seq<Closer>, i: nat, c: Closer, horizon: nat)
    requires i < |cs|
    ensures ClosersWork(cs[i := c], horizon) + CloserWork(cs[i], horizon) ==
            ClosersWork(cs, horizon) + CloserWork(c, horizon)
  {
    if i == 0 {
      assert cs[0 := c][1..] == cs[1..];
    } else {
      assert cs[i := c][1..] == cs[1..][i - 1 := c];
      ClosersWorkUpdate(cs[1..], i - 1, c, horizon);
    }
  }

  function Measure(s: State): nat {
    Sum(s.ops, OpWork) + ClosersWork(s.closers, Horizon(s))
  }

  predicate Arrival(a: Action) {
    a.NewOp? || a.NewCloser?
  }

  lemma OpWorkFalls(s: State, i: nat, a: Action)
    requires Inv(s) && s.closed && Enabled(s, a) && (a == OpStep(i) || a == DropGuard(i))
    ensures Sum(After(s, a).ops, OpWork) < Sum(s.ops, OpWork)
  {
    SumUpdate(s.ops, i, After(s, a).ops[i], OpWork);
  }

  lemma ClosersWorkFalls(s: State, i: nat, a: Action)
    requires Inv(s) && Enabled(s, a) && (a == CloserStep(i) || a == GiveUp(i))
    ensures ClosersWork(After(s, a).closers, Horizon(s)) < ClosersWork(s.closers, Horizon(s))
  {
    var c, c' := s.closers[i], After(s, a).closers[i];
    assert CloserOk(s, c);
    ClosersWorkUpdate(s.closers, i, c', Horizon(s));
    assert CloserWork(c', Horizon(s)) < CloserWork(c, Horizon(s));
  }

  /** Once the pool is closed, every step of a thread that exists brings the end nearer. */
  lemma MeasureFalls(s: State, a: Action)
    requires Inv(s) && s.closed && Enabled(s, a) && !Arrival(a)
    ensures Measure(After(s, a)) < Measure(s)
  {
    HorizonFalls(s, a);
    match a
    case OpStep(i) => OpWorkFalls(s, i, a);
    case DropGuard(i) => OpWorkFalls(s, i, a);
    case CloserStep(i) => ClosersWorkFalls(s, i, a);
    case GiveUp(i) => ClosersWorkFalls(s, i, a);
  }

  lemma {:induction false} ClosingRunBounded(ss: seq<State>, acts: seq<Action>, n: nat)
    requires Run(ss, acts) && Inv(ss[0]) && ss[0].closed && n <= |acts|
    requires forall i :: 0 <= i < |acts| ==> !Arrival(acts[i])
    ensures ss[n].closed && n + Measure(ss[n]) <= Measure(ss[0])
  {
    if n > 0 {
      ClosingRunBounded(ss, acts, n - 1);
      RunKeepsInv(ss, acts, n - 1);
      assert Enabled(ss[n - 1], acts[n - 1]);
      HorizonFalls(ss[n - 1], acts[n - 1]);
      MeasureFalls(ss[n - 1], acts[n - 1]);
    }
  }

  /** A closer is never stuck: it can move, or some operation it waits for can. */
  lemma CloserNotStuck(s: State, j: nat) returns (a: Action)
    requires Inv(s) && j < |s.closers| && !s.closers[j].ClosedOk? && !s.closers[j].GaveUp?
    ensures Enabled(s, a) && (a == CloserStep(j) || a.OpStep? || a.DropGuard?)
  {
    assert CloserOk(s, s.closers[j]);
    if Enabled(s, CloserStep(j)) {
      a := CloserStep(j);
    } else if s.active == 0 {
      var i :| 0 <= i < |s.ops| && s.ops[i].Releasing?;
      a := OpStep(i);
    } else {
      var i := SumPositive(s.ops, Holds);
      a := if s.ops[i].Live? then DropGuard(i) else OpStep(i);
    }
  }

  /** Closing ends: after the flag is set, the threads that exist take at most `Measure` steps between
      them, and they only come to rest with every closer returned and every operation over. */
  lemma ClosingEnds(ss: seq<State>, acts: seq<Action>)
    requires Run(ss, acts) && Inv(ss[0]) && ss[0].closed
    requires forall i :: 0 <= i < |acts| ==> !Arrival(acts[i])
    ensures |acts| <= Measure(ss[0])
    ensures var last := ss[|acts|];
      (forall a :: Enabled(last, a) ==> Arrival(a)) ==>
        && last.active == 0
        && (forall j :: 0 <= j < |last.closers| ==> last.closers[j].ClosedOk? || last.closers[j].GaveUp?)
        && (forall i :: 0 <= i < |last.ops| ==> last.ops[i].Rejected? || last.ops[i].Released?)
  {
    ClosingRunBounded(ss, acts, |acts|);
    RunKeepsInv(ss, acts, |acts|);
    var last := ss[|acts|];
    if forall a :: Enabled(last, a) ==> Arrival(a) {
      forall i | 0 <= i < |last.ops| ensures last.ops[i].Rejected? || last.ops[i].Released? {
        assert !Enabled(last, OpStep(i)) && !Enabled(last, DropGuard(i));
      }
      forall j | 0 <= j < |last.closers| ensures last.closers[j].ClosedOk? || last.closers[j].GaveUp? {
        if !last.closers[j].ClosedOk? && !last.closers[j].GaveUp? {
          var a := CloserNotStuck(last, j);
        }
      }
      if last.active > 0 {
        var i := SumPositive(last.ops, Holds);
      }
    }
  }

  // ---------------------------------------------------------------- the methods under interference

  /** What any number of steps by other threads may do to the shared state. */
  ghost predicate Later(s: State, s': State) {
    && |s.ops| <= |s'.ops| && |s.closers| <= |s'.closers|
    && (s.closed ==> s'.closed && Horizon(s') <= Horizon(s))
    && (s.shutdown.value ==> s'.shutdown.value)
    && s.activity <= s'.activity
    && forall j :: 0 <= j < |s.closers| && s.closers[j].ClosedOk? ==> s'.closers[j].ClosedOk?
  }

  lemma StepIsLater(s: State, a: Action)
    requires Enabled(s, a)
    ensures Later(s, After(s, a))
  {
    if s.closed {
      HorizonFalls(s, a);
    }
  }

  predicate Names(s: State, op: Option<nat>, closer: Option<nat>) {
    (op.Some? ==> op.value < |s.ops|) && (closer.Some? ==> closer.value < |s.closers|)
  }

  /** The operation and the closer named have not moved. */
  predicate Untouched(s: State, s': State, op: Option<nat>, closer: Option<nat>)
    requires Names(s, op, closer)
  {
    && Names(s', op, closer)
    && (op.Some? ==> s'.ops[op.value] == s.ops[op.value])
    && (closer.Some? ==> s'.closers[closer.value] == s.closers[closer.value])
  }

  predicate IsOwn(a: Action, op: Option<nat>, closer: Option<nat>) {
    || (op.Some? && (a == OpStep(op.value) || a == DropGuard(op.value)))
    || (closer.Some? && (a == CloserStep(closer.value) || a == GiveUp(closer.value)))
  }

  lemma OthersLeave(s: State, a: Action, op: Option<nat>, closer: Option<nat>)
    requires Names(s, op, closer) && Enabled(s, a) && !IsOwn(a, op, closer)
    ensures Untouched(s, After(s, a), op, closer)
  {
  }

  /** Whoever is counted still owes a notification. */
  lemma {:induction false} HoldersOwe(ops: seq<Op>)
    ensures Sum(ops, Holds) <= Sum(ops, Owes)
  {
    if ops != [] {
      HoldersOwe(ops[1..]);
    }
  }

  /** Once the pool is closed and nobody owes a notification, nothing becomes active again. */
  lemma NothingOwed(s: State, s': State)
    requires Later(s, s') && Inv(s')
    ensures s.closed && Sum(s.ops, Owes) == 0 ==> s'.active == 0
  {
    HoldersOwe(s'.ops);
  }

  /** A closer that has seen every notification is waiting for one that is still owed. */
  lemma WaitingIsOwed(s: State, j: nat)
    requires Inv(s) && j < |s.closers| && s.closers[j] == Waiting(s.activity)
    ensures Sum(s.ops, Owes) > 0
  {
    assert CloserOk(s, s.closers[j]);
    if s.active == 0 {
      var i :| 0 <= i < |s.ops| && s.ops[i].Releasing?;
      SumAtLeast(s.ops, i, Owes);
    } else {
      HoldersOwe(s.ops);
    }
  }

  /** The methods as one thread runs them, with other threads running between any two of its own
      accesses, or alone. `s` holds the shared fields together with where every thread has got to. */
  class SharedLifecycle {
    const alone: bool
    var s: State

    constructor (alone: bool)
      ensures Inv(s) && s == NEW && this.alone == alone
    {
      this.alone := alone;
      s := NEW;
    }

    /** One access of the calling thread. */
    method Access(a: Action)
      requires Inv(s) && Enabled(s, a)
      modifies this
      ensures s == After(old(s), a) && Inv(s) && Later(old(s), s)
    {
      StepKeepsInv(s, a);
      StepIsLater(s, a);
      s := After(s, a);
    }

    /** At most one access of some other thread. */
    method OtherAccess(op: Option<nat>, closer: Option<nat>)
      requires Inv(s) && Names(s, op, closer)
      modifies this
      ensures Inv(s) && Later(old(s), s) && Untouched(old(s), s, op, closer)
    {
      var a: Action := *;
      if !IsOwn(a, op, closer) && Enabled(s, a) {
        OthersLeave(s, a, op, closer);
        Access(a);
      }
    }

    /** Any number of accesses of other threads. */
    method Interfere(op: Option<nat>, closer: Option<nat>)
      requires Inv(s) && Names(s, op, closer)
      modifies this
      ensures Inv(s) && Later(old(s), s) && Untouched(old(s), s, op, closer)
      ensures alone ==> s == old(s)
    {
      var rounds: nat :| true;
      while !alone && rounds > 0
        invariant alone ==> s == old(s)
        invariant Inv(s) && Later(old(s), s) && Untouched(old(s), s, op, closer)
      {
        OtherAccess(op, closer);
        rounds := rounds - 1;
      }
    }

    /** One access of operation `me`, and whatever others do before its next. */
    method OpAccess(me: nat)
      requires Inv(s) && Enabled(s, OpStep(me))
      modifies this
      ensures Inv(s) && Later(old(s), s)
      ensures s.ops[me] == After(old(s), OpStep(me)).ops[me]
      ensures alone ==> s == After(old(s), OpStep(me))
    {
      Access(OpStep(me));
      Interfere(Some(me), None);
    }

    /** Hands out a guard only if the pool was open; a pool closed beforehand always refuses. */
    method StartOperation() returns (r: Result<nat>)
      requires Inv(s)
      modifies this
      ensures Inv(s) && Later(old(s), s)
      ensures r.Ok? ==> |old(s.ops)| <= r.value < |s.ops| && s.ops[r.value].Live?
      ensures r.Err? ==> r.error == Closed && s.closed
      ensures old(s.closed) ==> r.Err?
      ensures alone && !old(s.closed) ==> r.Ok?
    {
      var me := |s.ops|;
      Access(NewOp);
      Interfere(Some(me), None);
      OpAccess(me);
      if s.ops[me].Rejected? {
        return Err(Closed);
      }
      OpAccess(me);
      OpAccess(me);
      if s.ops[me].Live? {
        return Ok(me);
      }
      Retract(me);
      return Err(Closed);
    }

    /** The second look found the pool closed: the guard is dropped again. */
    method Retract(me: nat)
      requires Inv(s) && me < |s.ops| && s.ops[me].Rejecting?
      modifies this
      ensures Inv(s) && Later(old(s), s) && s.ops[me].Rejected?
    {
      OpAccess(me);
      OpAccess(me);
    }

    /** Dropping a guard lowers `active`, then notifies. */
    method DropOperation(guard: nat)
      requires Inv(s) && guard < |s.ops| && s.ops[guard].Live?
      modifies this
      ensures Inv(s) && Later(old(s), s)
      ensures s.ops[guard] == Released && s.activity > old(s.activity)
    {
      Access(DropGuard(guard));
      Interfere(Some(guard), None);
      Access(OpStep(guard));
    }

    /** One access of closer `me`, and whatever others do before its next. */
    method CloserAccess(me: nat)
      requires Inv(s) && Enabled(s, CloserStep(me))
      modifies this
      ensures Inv(s) && Later(old(s), s)
      ensures me < |s.closers| && s.closers[me] == After(old(s), CloserStep(me)).closers[me]
      ensures alone ==> s == After(old(s), CloserStep(me))
    {
      Access(CloserStep(me));
      Interfere(None, Some(me));
    }

    /** Subscribe to the activity channel, set the flag, broadcast; in this order, so that no
        notification sent after the flag is set can be missed. */
    method Announce() returns (me: nat)
      requires Inv(s)
      modifies this
      ensures Inv(s) && Later(old(s), s)
      ensures |old(s.closers)| <= me < |s.closers| && s.closers[me].Testing?
      ensures alone ==> s.active == old(s.active)
    {
      me := |s.closers|;
      Access(NewCloser);
      Interfere(None, Some(me));
      CloserAccess(me);
      CloserAccess(me);
      CloserAccess(me);
    }

    /** One `changed().await` under the deadline, which can only expire while there is no notification
        the closer has not seen; `expired` is the state it expires in. */
    method AwaitActivity(me: nat) returns (notified: bool, ghost expired: State)
      requires Inv(s) && me < |s.closers| && s.closers[me].Testing? && s.active != 0
      modifies this
      ensures Inv(s) && Later(old(s), s) && me < |s.closers|
      ensures !notified ==> s.closers[me].GaveUp?
      ensures !notified ==>
        Inv(expired) && Later(old(s), expired) && Later(expired, s) && Sum(expired.ops, Owes) > 0
      ensures notified ==> s.closers[me].Testing? && Wakeups(s, me) < Wakeups(old(s), me)
    {
      assert CloserOk(s, s.closers[me]);
      Access(CloserStep(me));
      Interfere(None, Some(me));
      assert CloserOk(s, s.closers[me]);
      expired := s;
      notified := s.closers[me].seen != s.activity;
      if !notified {
        WaitingIsOwed(s, me);
      }
      Access(if notified then CloserStep(me) else GiveUp(me));
      Interfere(None, Some(me));
    }

    /** Success means nothing is active and nothing ever will be. Failure is a timeout, and means that
        in the meantime something was found active (`tested`) and later, when the deadline expired,
        a notification was still owed (`expired`). Either way the pool stays closed. The wait loop
        ends because every round uses up one notification. */
    method Close() returns (r: Result<()>, ghost tested: State, ghost expired: State)
      requires Inv(s)
      modifies this
      ensures Inv(s) && Later(old(s), s)
      ensures s.closed && s.shutdown.value
      ensures r.Ok? ==> s.active == 0 && forall i :: 0 <= i < |s.ops| ==> !s.ops[i].Live?
      ensures r.Err? ==> r.error == Timeout
      ensures r.Err? ==>
        && Inv(tested) && Later(old(s), tested) && tested.closed && tested.active != 0
        && Inv(expired) && Later(tested, expired) && Later(expired, s) && Sum(expired.ops, Owes) > 0
      ensures old(s.closed) && Sum(old(s.ops), Owes) == 0 ==> r.Ok?
      ensures alone && old(s.active) == 0 ==> r.Ok?
    {
      ghost var entry := s;
      var me := Announce();
      tested, expired := s, s;
      while s.active != 0
        invariant Inv(s) && Later(old(s), s)
        invariant me < |s.closers| && s.closers[me].Testing?
        invariant alone && old(s.active) == 0 ==> s.active == 0
        decreases Wakeups(s, me)
      {
        assert CloserOk(s, s.closers[me]);
        tested := s;
        var notified;
        notified, expired := AwaitActivity(me);
        assert CloserOk(s, s.closers[me]);
        if !notified {
          NothingOwed(entry, tested);
          return Err(Timeout), tested, expired;
        }
      }
      assert CloserOk(s, s.closers[me]);
      Access(CloserStep(me));
      assert CloserOk(s, s.closers[me]);
      return Ok(()), tested, expired;
    }
  }
}
