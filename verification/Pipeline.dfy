/** The background task of a consumer: it reads the partition log as a stream and feeds a bounded
    queue, racing every wait against the shutdown signal. */
module Pipeline {
  import opened Common
  import opened ErrorMap

  /** A log record; key, value, headers and timestamp are one opaque payload. */
  datatype Record = Record(offset: i64, payload: int)

  /** What travels through the queue: a message, or the error that ended the stream. The driver's error
      is kept here; a consumer sees what it maps to. */
  datatype Item = Message(record: Record) | StreamError(error: DriverError)

  const CAPACITY: nat := 64

  datatype StartOffset = Earliest | Latest | StartAt(offset: i64)

  /** Where the stream stands. `Earliest` and `Latest` are resolved when it is first polled. */
  datatype Cursor = Unresolved(start: StartOffset) | Reading(first: int, next: int)

  datatype Arm = Fetch | Send

  /** One wait of the task is a biased select: `wait_for_shutdown` looks at the flag, then asks for a
      version it has not seen; only then is the other arm polled, and if that is not ready either
      the task parks. A parked task resumes inside `changed().await`. */
  datatype Task =
    | Borrow(arm: Arm)
    | Changed(arm: Arm)
    | Poll(arm: Arm)
    | Parked(arm: Arm)
    | Breaking                 // out of the loop, still holding its operation guard
    | Ended

  /** `hand` is the item fetched and not yet queued; `late` counts items queued after the shutdown
      signal; `received` is what the consumer has taken out. */
  datatype Pipe = Pipe(
    cursor: Cursor,
    task: Task,
    seen: nat,
    hand: Option<Item>,
    queue: seq<Item>,
    received: seq<Item>,
    rxOpen: bool,
    late: nat)

  datatype Line = Line(log: seq<Record>, shutdown: Watch, pipe: Pipe)

  datatype Action =
    | TaskStep
    | Abort
    | Append(r: Record)
    | Broadcast
    | Receive
    | DropConsumer

  // ---------------------------------------------------------------- the log

  ghost predicate LogOk(log: seq<Record>) {
    && (forall i :: 0 <= i < |log| ==> log[i].offset >= 0)
    && (forall i, j :: 0 <= i < j < |log| ==> log[i].offset < log[j].offset)
  }

  function LogEnd(log: seq<Record>): int {
    if log == [] then 0 else log[|log| - 1].offset + 1
  }

  predicate InRange(r: Record, a: int, b: int) {
    a <= r.offset < b
  }

  /** The records of the log with offsets in [a, b), in order. Offsets may have gaps. */
  function Slice(log: seq<Record>, a: int, b: int): seq<Record> {
    if log == [] then []
    else Slice(log[..|log| - 1], a, b) + if InRange(log[|log| - 1], a, b) then [log[|log| - 1]] else []
  }

  /** `r` is the first record at or after offset `n`. */
  ghost predicate IsNext(log: seq<Record>, n: int, r: Record) {
    && r in log && r.offset >= n
    && forall q :: q in log && q.offset >= n ==> r.offset <= q.offset
  }

  lemma {:induction false} SliceContains(log: seq<Record>, a: int, b: int)
    ensures forall r :: r in Slice(log, a, b) <==> r in log && InRange(r, a, b)
  {
    if log != [] {
      var init, last := log[..|log| - 1], log[|log| - 1];
      SliceContains(init, a, b);
      assert log == init + [last];
    }
  }

  lemma {:induction false} SliceSorted(log: seq<Record>, a: int, b: int)
    requires LogOk(log)
    ensures LogOk(Slice(log, a, b))
  {
    if log != [] {
      var init, last := log[..|log| - 1], log[|log| - 1];
      SliceSorted(init, a, b);
      SliceContains(init, a, b);
      var s := Slice(init, a, b);
      forall i | 0 <= i < |s| ensures s[i].offset < last.offset {
        assert s[i] in init;
      }
    }
  }

  lemma {:induction false} SliceSame(log: seq<Record>, a: int, n: int, m: int)
    requires forall r :: r in log ==> !InRange(r, n, m) && !InRange(r, m, n)
    ensures Slice(log, a, n) == Slice(log, a, m)
  {
    if log != [] {
      var init, last := log[..|log| - 1], log[|log| - 1];
      assert last in log;
      SliceSame(init, a, n, m);
    }
  }

  lemma SliceAppend(log: seq<Record>, r: Record, a: int, b: int)
    requires b <= r.offset || b <= a
    ensures Slice(log + [r], a, b) == Slice(log, a, b)
  {
    assert (log + [r])[..|log|] == log;
  }

  lemma LastIsLargest(log: seq<Record>, q: Record)
    requires LogOk(log) && log != [] && q in log[..|log| - 1]
    ensures q in log && q.offset < log[|log| - 1].offset
  {
    var i :| 0 <= i < |log| - 1 && log[i] == q;
    assert log[i].offset < log[|log| - 1].offset;
  }

  lemma SliceExtendLast(log: seq<Record>, a: int, n: int)
    requires LogOk(log) && log != [] && a <= n && IsNext(log, n, log[|log| - 1])
    ensures Slice(log, a, log[|log| - 1].offset + 1) == Slice(log, a, n) + [log[|log| - 1]]
  {
    var init, last := log[..|log| - 1], log[|log| - 1];
    forall q | q in init ensures !InRange(q, n, last.offset + 1) && !InRange(q, last.offset + 1, n) {
      LastIsLargest(log, q);
    }
    SliceSame(init, a, n, last.offset + 1);
  }

  lemma {:induction false} SliceExtend(log: seq<Record>, a: int, n: int, r: Record)
    requires LogOk(log) && a <= n && IsNext(log, n, r)
    ensures Slice(log, a, r.offset + 1) == Slice(log, a, n) + [r]
  {
    var init, last := log[..|log| - 1], log[|log| - 1];
    if last == r {
      SliceExtendLast(log, a, n);
    } else {
      assert log == init + [last];
      LastIsLargest(log, r);
      SliceExtend(init, a, n, r);
    }
  }

  /** Where reading stands after `pre` when it started at `a`. */
  function Head(a: int, pre: seq<Record>): int {
    if pre == [] then a else pre[|pre| - 1].offset + 1
  }

  /** A record in a slice is the first one after its predecessor. */
  lemma SliceGap(log: seq<Record>, a: int, b: int, pre: seq<Record>, m: Record, post: seq<Record>)
    requires LogOk(log) && Slice(log, a, b) == pre + [m] + post
    ensures IsNext(log, Head(a, pre), m) && a <= Head(a, pre) && m.offset < b
  {
    var s := Slice(log, a, b);
    SliceContains(log, a, b);
    SliceSorted(log, a, b);
    var k := |pre|;
    assert s[k] == m && m in s;
    if pre != [] {
      assert s[k - 1] == pre[k - 1] && s[k - 1] in s;
      assert s[k - 1].offset < s[k].offset;
    }
    forall i | 0 <= i < k ensures s[i].offset < Head(a, pre) {
      assert s[i].offset <= s[k - 1].offset;
    }
    forall q | q in log && q.offset >= Head(a, pre) ensures m.offset <= q.offset {
      if q.offset < b {
        assert InRange(q, a, b) && q in s;
        var i :| 0 <= i < |s| && s[i] == q;
        assert i >= k;
      }
    }
  }

  function Records(items: seq<Item>): seq<Record> {
    if items == [] then []
    else
      var last := items[|items| - 1];
      Records(items[..|items| - 1]) + if last.Message? then [last.record] else []
  }

  lemma RecordsAppend(items: seq<Item>, item: Item)
    ensures Records(items + [item]) == Records(items) + if item.Message? then [item.record] else []
  {
    assert (items + [item])[..|items|] == items;
  }

  lemma {:induction false} RecordsConcat(a: seq<Item>, b: seq<Item>)
    ensures Records(a + b) == Records(a) + Records(b)
  {
    if b == [] {
      assert a + b == a;
    } else {
      var b', last := b[..|b| - 1], b[|b| - 1];
      RecordsConcat(a, b');
      assert a + b == (a + b') + [last] && b == b' + [last];
      RecordsAppend(a + b', last);
      RecordsAppend(b', last);
    }
  }

  // ---------------------------------------------------------------- steps

  function NewPipe(start: StartOffset, shutdown: Watch): Pipe {
    Pipe(Unresolved(start), Borrow(Fetch), shutdown.version, None, [], [], true, 0)
  }

  function Resolve(start: StartOffset, log: seq<Record>): Cursor {
    var n := match start
             case Earliest => 0
             case Latest => LogEnd(log)
             case StartAt(offset) => offset;
    Reading(n, n)
  }

  /** The stream fails for good. */
  ghost predicate Failed(p: Pipe, p': Pipe) {
    exists e :: p' == p.(hand := Some(StreamError(e)), task := Borrow(Send))
  }

  ghost predicate FetchPolled(log: seq<Record>, p: Pipe, p': Pipe) {
    match p.cursor
    case Unresolved(start) =>
      p' == p.(cursor := Resolve(start, log)) || p' == p.(task := Parked(Fetch)) ||
      p' == p.(task := Breaking) || Failed(p, p')
    case Reading(first, next) =>
      || (exists r :: IsNext(log, next, r) &&
           p' == p.(cursor := Reading(first, r.offset + 1), hand := Some(Message(r)), task := Borrow(Send)))
      || Failed(p, p')
      || p' == p.(task := Breaking)
      || p' == p.(task := Parked(Fetch))
  }

  predicate SendPolled(shutdown: Watch, p: Pipe, p': Pipe) {
    && p.hand.Some?
    && if !p.rxOpen then p' == p.(task := Breaking)
       else if |p.queue| < CAPACITY then
         p' == p.(queue := p.queue + [p.hand.value], hand := None,
                  late := p.late + (if shutdown.value then 1 else 0),
                  task := if p.hand.value.StreamError? then Breaking else Borrow(Fetch))
       else p' == p.(task := Parked(Send))
  }

  /** A parked task is woken by a version it has not seen or by the other arm becoming ready. */
  predicate Woken(shutdown: Watch, p: Pipe)
    requires p.task.Parked?
  {
    shutdown.version != p.seen || p.task.arm.Fetch? || !p.rxOpen || |p.queue| < CAPACITY
  }

  ghost predicate TaskNext(log: seq<Record>, shutdown: Watch, p: Pipe, p': Pipe) {
    match p.task
    case Borrow(arm) => p' == p.(task := if shutdown.value then Breaking else Changed(arm))
    case Changed(arm) =>
      if shutdown.version != p.seen then p' == p.(seen := shutdown.version, task := Borrow(arm))
      else p' == p.(task := Poll(arm))
    case Poll(Fetch) => FetchPolled(log, p, p')
    case Poll(Send) => SendPolled(shutdown, p, p')
    case Parked(arm) => Woken(shutdown, p) && p' == p.(task := Changed(arm))
    case Breaking => p' == p.(task := Ended)
    case Ended => false
  }

  /** The consumer takes the item at the head of the queue. */
  function Take(p: Pipe): Pipe
    requires p.queue != []
  {
    p.(queue := p.queue[1..], received := p.received + [p.queue[0]])
  }

  ghost predicate LineNext(l: Line, a: Action, l': Line) {
    match a
    case TaskStep => TaskNext(l.log, l.shutdown, l.pipe, l'.pipe) && l' == l.(pipe := l'.pipe)
    case Abort =>
      // dropping the consumer aborts the task where it is parked, or before it is first polled
      && !l.pipe.rxOpen && (l.pipe.task.Parked? || l.pipe.task == Borrow(Fetch))
      && l' == l.(pipe := l.pipe.(task := Breaking))
    case Append(r) => LogEnd(l.log) <= r.offset && l' == l.(log := l.log + [r])
    case Broadcast => l' == l.(shutdown := Watch(true, l.shutdown.version + 1))
    case Receive =>
      l.pipe.rxOpen && l.pipe.queue != [] && l' == l.(pipe := Take(l.pipe))
    case DropConsumer => l' == l.(pipe := l.pipe.(rxOpen := false))
  }

  // ---------------------------------------------------------------- the consumer's side

  datatype Reply =
    | Delivered(record: Record)
    | StreamFailed(error: KafkaError)
    | Finished
    | Refused(error: KafkaError)

  /** A receive future when polled. */
  datatype Polled = NotReady | Ready(reply: Reply)

  /** One poll. `ensure_open` is looked at once, when the call is made, and refuses even if items are
      queued; a receive that got past it keeps waiting after the pool closes and still delivers what
      the task had queued. An empty queue ends the consumption only when the task is gone. */
  function PollQueue(p: Pipe, refuses: bool): (Pipe, Polled) {
    if refuses then (p, Ready(Refused(Closed)))
    else if p.queue != [] then
      (Take(p), Ready(match p.queue[0]
                      case Message(record) => Delivered(record)
                      case StreamError(error) => StreamFailed(MapDriverError(error))))
    else (p, if p.task.Ended? then Ready(Finished) else NotReady)
  }

  /** The same poll under a deadline, which can only expire when nothing is ready. */
  function Deadline(polled: Polled): Result<Option<Record>> {
    match polled
    case Ready(Delivered(record)) => Ok(Some(record))
    case Ready(StreamFailed(error)) => Err(error)
    case Ready(Finished) => Ok(None)
    case Ready(Refused(error)) => Err(error)
    case NotReady => Err(Timeout)
  }

  // ---------------------------------------------------------------- the invariant

  function Queued(p: Pipe): seq<Item> {
    p.received + p.queue
  }

  function InHand(p: Pipe): seq<Item> {
    if p.hand.Some? then [p.hand.value] else []
  }

  predicate TaskOk(shutdown: Watch, p: Pipe) {
    match p.task
    case Borrow(arm) => arm.Send? <==> p.hand.Some?
    case Changed(arm) => p.seen == 0 && (arm.Send? <==> p.hand.Some?)
    case Poll(arm) => p.seen == 0 && (arm.Send? <==> p.hand.Some?)
    case Parked(arm) => p.seen == 0 && (arm.Send? <==> p.hand.Some?)
    case _ => true
  }

  ghost predicate CursorOk(log: seq<Record>, p: Pipe) {
    match p.cursor
    case Unresolved(_) => Records(Queued(p) + InHand(p)) == []
    case Reading(first, next) =>
      && first <= next
      && (next == first || exists r :: r in log && r.offset == next - 1)
      && Records(Queued(p) + InHand(p)) == Slice(log, first, next)
  }

  ghost predicate PipeOk(log: seq<Record>, shutdown: Watch, p: Pipe) {
    && |p.queue| <= CAPACITY
    && p.seen <= shutdown.version
    && TaskOk(shutdown, p)
    && CursorOk(log, p)
    && (forall i :: 0 <= i < |Queued(p)| && Queued(p)[i].StreamError? ==>
          i == |Queued(p)| - 1 && (p.task.Breaking? || p.task.Ended?) && p.hand.None?)
    && (!shutdown.value ==> p.late == 0)
    && p.late + (if p.task == Poll(Send) && shutdown.value then 1 else 0) <= 1
  }

  ghost predicate LineInv(l: Line) {
    && LogOk(l.log)
    && (l.shutdown.value <==> l.shutdown.version > 0)
    && PipeOk(l.log, l.shutdown, l.pipe)
  }

  lemma NewPipeOk(log: seq<Record>, start: StartOffset, shutdown: Watch)
    ensures PipeOk(log, shutdown, NewPipe(start, shutdown))
  {
  }

  lemma BelowEnd(log: seq<Record>, r: Record)
    requires LogOk(log) && r in log
    ensures r.offset < LogEnd(log)
  {
    var i :| 0 <= i < |log| && log[i] == r;
    assert log[i].offset <= log[|log| - 1].offset;
  }

  lemma LongerLogOk(log: seq<Record>, r: Record)
    requires LogOk(log) && LogEnd(log) <= r.offset
    ensures LogOk(log + [r])
  {
    forall i | 0 <= i < |log| ensures log[i].offset < r.offset {
      BelowEnd(log, log[i]);
    }
  }

  lemma AppendKeepsSlice(log: seq<Record>, r: Record, first: int, next: int)
    requires LogOk(log) && LogEnd(log) <= r.offset
    requires next == first || exists q :: q in log && q.offset == next - 1
    ensures Slice(log + [r], first, next) == Slice(log, first, next)
    ensures next == first || exists q :: q in log + [r] && q.offset == next - 1
  {
    if next != first {
      var q :| q in log && q.offset == next - 1;
      BelowEnd(log, q);
      assert q in log + [r];
    }
    SliceAppend(log, r, first, next);
  }

  lemma AppendKeepsCursor(log: seq<Record>, r: Record, p: Pipe)
    requires LogOk(log) && LogEnd(log) <= r.offset && CursorOk(log, p)
    ensures LogOk(log + [r]) && CursorOk(log + [r], p)
  {
    LongerLogOk(log, r);
    match p.cursor
    case Unresolved(_) =>
    case Reading(first, next) => AppendKeepsSlice(log, r, first, next);
  }

  lemma SliceEmpty(log: seq<Record>, a: int)
    ensures Slice(log, a, a) == []
  {
  }

  lemma FetchedRecordKeeps(log: seq<Record>, p: Pipe, r: Record, p': Pipe)
    requires LogOk(log) && CursorOk(log, p) && p.hand.None? && p.cursor.Reading? && IsNext(log, p.cursor.next, r)
    requires p'.received == p.received && p'.queue == p.queue
    requires p'.hand == Some(Message(r)) && p'.cursor == Reading(p.cursor.first, r.offset + 1)
    ensures CursorOk(log, p')
  {
    assert Queued(p) + InHand(p) == Queued(p);
    SliceExtend(log, p.cursor.first, p.cursor.next, r);
    RecordsAppend(Queued(p), Message(r));
  }

  lemma FetchedErrorKeeps(log: seq<Record>, p: Pipe, p': Pipe)
    requires CursorOk(log, p) && p.hand.None?
    requires p'.received == p.received && p'.queue == p.queue && p'.cursor == p.cursor
    requires p'.hand.None? || p'.hand.value.StreamError?
    ensures CursorOk(log, p')
  {
    assert Queued(p) + InHand(p) == Queued(p);
    if p'.hand.Some? {
      RecordsAppend(Queued(p), p'.hand.value);
    }
  }

  lemma ResolvedKeeps(log: seq<Record>, p: Pipe, n: int, p': Pipe)
    requires CursorOk(log, p) && p.cursor.Unresolved?
    requires p' == p.(cursor := Reading(n, n))
    ensures CursorOk(log, p')
  {
    SliceEmpty(log, n);
  }

  lemma FetchKeepsCursor(log: seq<Record>, p: Pipe, p': Pipe)
    requires LogOk(log) && CursorOk(log, p) && p.hand.None? && FetchPolled(log, p, p')
    ensures CursorOk(log, p')
  {
    if p'.hand.Some? && p'.hand.value.Message? {
      FetchedRecordKeeps(log, p, p'.hand.value.record, p');
    } else if p'.cursor == p.cursor {
      FetchedErrorKeeps(log, p, p');
    } else {
      ResolvedKeeps(log, p, p'.cursor.first, p');
    }
  }

  /** What polling the stream leaves alone, and where it leaves the task. */
  lemma FetchFacts(log: seq<Record>, p: Pipe, p': Pipe)
    requires p.task == Poll(Fetch) && p.hand.None? && FetchPolled(log, p, p')
    ensures p'.received == p.received && p'.queue == p.queue && p'.seen == p.seen && p'.late == p.late
    ensures p'.task == Poll(Fetch) || p'.task == Parked(Fetch) || p'.task == Breaking || p'.task == Borrow(Send)
    ensures p'.hand.Some? <==> p'.task == Borrow(Send)
  {
  }

  lemma FetchKeeps(log: seq<Record>, shutdown: Watch, p: Pipe, p': Pipe)
    requires LogOk(log) && PipeOk(log, shutdown, p) && p.task == Poll(Fetch) && FetchPolled(log, p, p')
    ensures PipeOk(log, shutdown, p')
  {
    FetchKeepsCursor(log, p, p');
    FetchFacts(log, p, p');
    assert Queued(p') == Queued(p);
  }

  /** The cursor's part looks only at the items read so far, wherever they have got to. */
  lemma SameItems(log: seq<Record>, p: Pipe, p': Pipe)
    requires CursorOk(log, p) && p'.cursor == p.cursor
    requires Queued(p') + InHand(p') == Queued(p) + InHand(p)
    ensures CursorOk(log, p')
  {
  }

  lemma SentItem(p: Pipe, p': Pipe)
    requires p.hand.Some? && p'.hand.None? && p'.received == p.received && p'.queue == p.queue + [p.hand.value]
    ensures Queued(p') == Queued(p) + [p.hand.value] && Queued(p') + InHand(p') == Queued(p) + InHand(p)
  {
  }

  lemma SentKeeps(log: seq<Record>, shutdown: Watch, p: Pipe, p': Pipe)
    requires PipeOk(log, shutdown, p) && p.task == Poll(Send) && SendPolled(shutdown, p, p') && p'.hand.None?
    ensures PipeOk(log, shutdown, p')
  {
    SentItem(p, p');
    SameItems(log, p, p');
  }

  lemma SendKeeps(log: seq<Record>, shutdown: Watch, p: Pipe, p': Pipe)
    requires PipeOk(log, shutdown, p) && p.task == Poll(Send) && SendPolled(shutdown, p, p')
    ensures PipeOk(log, shutdown, p')
  {
    if p'.hand.None? {
      SentKeeps(log, shutdown, p, p');
    } else {
      SameItems(log, p, p');
    }
  }

  /** The steps that only move the task along. */
  lemma MoveKeeps(log: seq<Record>, shutdown: Watch, p: Pipe, p': Pipe)
    requires PipeOk(log, shutdown, p) && TaskNext(log, shutdown, p, p') && !p.task.Poll?
    requires shutdown.value <==> shutdown.version > 0
    ensures PipeOk(log, shutdown, p')
  {
    SameItems(log, p, p');
  }

  lemma TaskKeeps(log: seq<Record>, shutdown: Watch, p: Pipe, p': Pipe)
    requires LogOk(log) && PipeOk(log, shutdown, p) && TaskNext(log, shutdown, p, p')
    requires shutdown.value <==> shutdown.version > 0
    ensures PipeOk(log, shutdown, p')
  {
    match p.task
    case Poll(Fetch) => FetchKeeps(log, shutdown, p, p');
    case Poll(Send) => SendKeeps(log, shutdown, p, p');
    case _ => MoveKeeps(log, shutdown, p, p');
  }

  lemma AbortKeeps(log: seq<Record>, shutdown: Watch, p: Pipe)
    requires PipeOk(log, shutdown, p) && (p.task.Parked? || p.task.Borrow?)
    ensures PipeOk(log, shutdown, p.(task := Breaking))
  {
    SameItems(log, p, p.(task := Breaking));
  }

  lemma AppendKeeps(log: seq<Record>, r: Record, shutdown: Watch, p: Pipe)
    requires LogOk(log) && LogEnd(log) <= r.offset && PipeOk(log, shutdown, p)
    ensures LogOk(log + [r]) && PipeOk(log + [r], shutdown, p)
  {
    AppendKeepsCursor(log, r, p);
  }

  lemma BroadcastKeeps(log: seq<Record>, shutdown: Watch, p: Pipe)
    requires PipeOk(log, shutdown, p)
    ensures PipeOk(log, Watch(true, shutdown.version + 1), p)
  {
    SameItems(log, p, p);
  }

  lemma TakeKeeps(log: seq<Record>, shutdown: Watch, p: Pipe)
    requires PipeOk(log, shutdown, p) && p.queue != []
    ensures Queued(Take(p)) == Queued(p) && PipeOk(log, shutdown, Take(p))
  {
    assert Queued(Take(p)) == Queued(p);
    SameItems(log, p, Take(p));
  }

  lemma CloseRxKeeps(log: seq<Record>, shutdown: Watch, p: Pipe)
    requires PipeOk(log, shutdown, p)
    ensures PipeOk(log, shutdown, p.(rxOpen := false))
  {
    SameItems(log, p, p.(rxOpen := false));
  }

  lemma LineNextKeepsInv(l: Line, a: Action, l': Line)
    requires LineInv(l) && LineNext(l, a, l')
    ensures LineInv(l')
  {
    match a
    case TaskStep => TaskKeeps(l.log, l.shutdown, l.pipe, l'.pipe);
    case Abort => AbortKeeps(l.log, l.shutdown, l.pipe);
    case Append(r) => AppendKeeps(l.log, r, l.shutdown, l.pipe);
    case Broadcast => BroadcastKeeps(l.log, l.shutdown, l.pipe);
    case Receive => TakeKeeps(l.log, l.shutdown, l.pipe);
    case DropConsumer => CloseRxKeeps(l.log, l.shutdown, l.pipe);
  }

  // ---------------------------------------------------------------- runs

  ghost predicate Run(ls: seq<Line>, acts: seq<Action>) {
    && |ls| == |acts| + 1
    && forall i :: 0 <= i < |acts| ==> LineNext(ls[i], acts[i], ls[i + 1])
  }

  lemma {:induction false} RunKeepsInv(ls: seq<Line>, acts: seq<Action>, n: nat)
    requires Run(ls, acts) && LineInv(ls[0]) && n <= |acts|
    ensures LineInv(ls[n])
  {
    if n > 0 {
      RunKeepsInv(ls, acts, n - 1);
      LineNextKeepsInv(ls[n - 1], acts[n - 1], ls[n]);
    }
  }

  /** In every reachable state, what was received followed by what is queued is a prefix of the log
      from the start offset, lacking at most the one record in the task's hand; the queue respects
      its capacity; and a stream error is the last item ever queued. */
  lemma PrefixOfLog(ls: seq<Line>, acts: seq<Action>, n: nat)
    requires Run(ls, acts) && LineInv(ls[0]) && n <= |acts|
    ensures var l, p := ls[n], ls[n].pipe;
      && |p.queue| <= 64
      && (p.cursor.Reading? ==>
            var s := Slice(l.log, p.cursor.first, p.cursor.next);
            Records(Queued(p)) <= s && |s| <= |Records(Queued(p))| + 1)
      && (p.cursor.Unresolved? ==> Records(Queued(p)) == [])
      && (forall i :: 0 <= i < |Queued(p)| && Queued(p)[i].StreamError? ==> i == |Queued(p)| - 1)
  {
    RunKeepsInv(ls, acts, n);
    var p := ls[n].pipe;
    RecordsConcat(Queued(p), InHand(p));
    assert |Records(InHand(p))| <= 1 by {
      if p.hand.Some? {
        assert [p.hand.value][..0] == [];
      }
    }
  }

  /** The task waits for room only while 64 items are queued. */
  lemma SendWaitsWhenFull(log: seq<Record>, shutdown: Watch, p: Pipe, p': Pipe)
    requires TaskNext(log, shutdown, p, p') && p.task == Poll(Send) && p.rxOpen
    ensures p.hand.Some?
    ensures |p.queue| < 64 ==> p'.queue == p.queue + [p.hand.value] && p'.hand.None?
    ensures |p.queue| >= 64 ==> p' == p.(task := Parked(Send))
  {
  }

  /** Where a stream was told to start. */
  ghost predicate StartedAs(start: StartOffset, ls: seq<Line>, n: nat)
    requires n < |ls|
  {
    match ls[n].pipe.cursor
    case Unresolved(s) => s == start
    case Reading(first, _) =>
      match start
      case Earliest => first == 0
      case StartAt(offset) => first == offset
      case Latest => exists k :: 0 <= k <= n && first == LogEnd(ls[k].log)
  }

  lemma CursorStep(l: Line, a: Action, l': Line)
    requires LineNext(l, a, l')
    ensures l.pipe.cursor.Reading? ==> l'.pipe.cursor.Reading? && l'.pipe.cursor.first == l.pipe.cursor.first
    ensures l.pipe.cursor.Unresolved? ==>
      l'.pipe.cursor == l.pipe.cursor || l'.pipe.cursor == Resolve(l.pipe.cursor.start, l.log)
  {
  }

  /** Reading starts at offset 0, at the given offset, or at the end the log had at some earlier moment,
      as the consumer was told. */
  lemma {:induction false} StartsWhereTold(ls: seq<Line>, acts: seq<Action>, n: nat, start: StartOffset)
    requires Run(ls, acts) && n <= |acts| && ls[0].pipe.cursor == Unresolved(start)
    ensures StartedAs(start, ls, n)
  {
    if n > 0 {
      StartsWhereTold(ls, acts, n - 1, start);
      CursorStep(ls[n - 1], acts[n - 1], ls[n]);
    }
  }

  /** Whenever the stream is polled it may yield the next record, fail for good, end, or have nothing. */
  lemma StreamIsOpen(log: seq<Record>, shutdown: Watch, p: Pipe, r: Record, e: DriverError)
    requires p.task == Poll(Fetch) && p.cursor.Reading?
    ensures IsNext(log, p.cursor.next, r) ==>
      TaskNext(log, shutdown, p, p.(cursor := Reading(p.cursor.first, r.offset + 1),
                                    hand := Some(Message(r)), task := Borrow(Send)))
    ensures TaskNext(log, shutdown, p, p.(hand := Some(StreamError(e)), task := Borrow(Send)))
    ensures TaskNext(log, shutdown, p, p.(task := Breaking))
    ensures TaskNext(log, shutdown, p, p.(task := Parked(Fetch)))
  {
    assert Failed(p, p.(hand := Some(StreamError(e)), task := Borrow(Send)));
  }

  // ---------------------------------------------------------------- stopping

  lemma {:induction false} BroadcastStays(ls: seq<Line>, acts: seq<Action>, n: nat, m: nat)
    requires Run(ls, acts) && n <= m <= |acts| && ls[n].shutdown.value
    ensures ls[m].shutdown.value
  {
    if n < m {
      BroadcastStays(ls, acts, n, m - 1);
      assert LineNext(ls[m - 1], acts[m - 1], ls[m]);
    }
  }

  /** At most one item is queued after the shutdown signal, and a task parked while the signal stands
      always has a version it has not seen, so it is woken. */
  lemma ShutdownNotMissed(ls: seq<Line>, acts: seq<Action>, n: nat)
    requires Run(ls, acts) && LineInv(ls[0]) && n <= |acts|
    ensures ls[n].pipe.late <= 1
    ensures ls[n].shutdown.value && ls[n].pipe.task.Parked? ==>
      ls[n].shutdown.version != ls[n].pipe.seen && Woken(ls[n].shutdown, ls[n].pipe)
  {
    RunKeepsInv(ls, acts, n);
  }

  /** Own steps the task can still take once the signal stands. */
  function StepsLeft(p: Pipe): nat {
    match p.task
    case Ended => 0
    case Breaking => 1
    case Borrow(_) => 2
    case Changed(_) => 3
    case Parked(_) => 4
    case Poll(Send) => 5
    case Poll(Fetch) => if p.cursor.Unresolved? then 6 else 5
  }

  lemma TaskStepFalls(log: seq<Record>, shutdown: Watch, p: Pipe, p': Pipe)
    requires shutdown.value && shutdown.version > 0 && TaskOk(shutdown, p) && TaskNext(log, shutdown, p, p')
    ensures StepsLeft(p') < StepsLeft(p)
  {
  }

  lemma TaskStepsFall(l: Line, a: Action, l': Line)
    requires LineInv(l) && l.shutdown.value && LineNext(l, a, l')
    ensures l'.shutdown.value
    ensures a.TaskStep? || a.Abort? ==> StepsLeft(l'.pipe) < StepsLeft(l.pipe)
    ensures !(a.TaskStep? || a.Abort?) ==> StepsLeft(l'.pipe) == StepsLeft(l.pipe)
  {
    if a.TaskStep? {
      TaskStepFalls(l.log, l.shutdown, l.pipe, l'.pipe);
    }
  }

  lemma TaskCanMove(l: Line) returns (l': Line)
    requires LineInv(l) && l.shutdown.value && !l.pipe.task.Ended?
    ensures LineNext(l, TaskStep, l')
  {
    var p := l.pipe;
    var p' :=
      match p.task
      case Borrow(_) => p.(task := Breaking)
      case Changed(arm) => p.(seen := l.shutdown.version, task := Borrow(arm))
      case Poll(Fetch) => p.(task := Breaking)
      case Poll(Send) =>
        if !p.rxOpen then p.(task := Breaking)
        else if |p.queue| < CAPACITY then
          p.(queue := p.queue + [p.hand.value], hand := None, late := p.late + 1,
             task := if p.hand.value.StreamError? then Breaking else Borrow(Fetch))
        else p.(task := Parked(Send))
      case Parked(arm) => p.(task := Changed(arm))
      case Breaking => p.(task := Ended)
      case Ended => p;
    l' := l.(pipe := p');
  }

  function TaskSteps(acts: seq<Action>): nat {
    if acts == [] then 0
    else TaskSteps(acts[..|acts| - 1]) + if acts[|acts| - 1].TaskStep? || acts[|acts| - 1].Abort? then 1 else 0
  }

  /** After the shutdown signal the task, blocked on a full queue or not, takes at most six more steps
      of its own, whatever the consumer, the log and other closers do; until it has released its
      guard it can always take one. */
  lemma {:induction false} TaskStops(ls: seq<Line>, acts: seq<Action>)
    requires Run(ls, acts) && LineInv(ls[0]) && ls[0].shutdown.value
    ensures TaskSteps(acts) + StepsLeft(ls[|acts|].pipe) <= StepsLeft(ls[0].pipe) <= 6
    ensures ls[|acts|].pipe.task.Ended? || exists l' :: LineNext(ls[|acts|], TaskStep, l')
  {
    var n := |acts|;
    RunKeepsInv(ls, acts, n);
    BroadcastStays(ls, acts, 0, n);
    if !ls[n].pipe.task.Ended? {
      var l' := TaskCanMove(ls[n]);
    }
    if n > 0 {
      var before := acts[..n - 1];
      TaskStops(ls[..n], before);
      RunKeepsInv(ls, acts, n - 1);
      BroadcastStays(ls, acts, 0, n - 1);
      TaskStepsFall(ls[n - 1], acts[n - 1], ls[n]);
    }
  }

  // ---------------------------------------------------------------- the consumer

  /** The record received last is the first one at or after everything received before it. */
  lemma ReceivedInOrder(log: seq<Record>, p: Pipe, before: seq<Record>, m: Record)
    requires LogOk(log) && CursorOk(log, p) && p.cursor.Reading?
    requires Records(p.received) == before + [m]
    ensures IsNext(log, Head(p.cursor.first, before), m) && p.cursor.first <= Head(p.cursor.first, before)
  {
    RecordsConcat(p.received, p.queue + InHand(p));
    assert Queued(p) + InHand(p) == p.received + (p.queue + InHand(p));
    SliceGap(log, p.cursor.first, p.cursor.next, before, m, Records(p.queue + InHand(p)));
  }

  lemma NothingReceivedYet(log: seq<Record>, p: Pipe)
    requires CursorOk(log, p) && p.cursor.Unresolved?
    ensures Records(p.received) == [] && Records(p.queue) == []
  {
    RecordsConcat(p.received, p.queue + InHand(p));
    RecordsConcat(p.queue, InHand(p));
    assert Queued(p) + InHand(p) == p.received + (p.queue + InHand(p));
  }

  /** Taking a message delivers the next record of the log. */
  lemma TakeIsNext(log: seq<Record>, shutdown: Watch, p: Pipe)
    requires LogOk(log) && PipeOk(log, shutdown, p) && p.queue != [] && p.queue[0].Message?
    ensures p.cursor.Reading?
    ensures Records(Take(p).received) == Records(p.received) + [p.queue[0].record]
    ensures IsNext(log, Head(p.cursor.first, Records(p.received)), p.queue[0].record)
  {
    TakeKeeps(log, shutdown, p);
    RecordsAppend(p.received, p.queue[0]);
    if p.cursor.Unresolved? {
      NothingReceivedYet(log, Take(p));
      assert false;
    } else {
      ReceivedInOrder(log, Take(p), Records(p.received), p.queue[0].record);
    }
  }

  /** What the task, the log and closers may do while a consumer waits. */
  ghost predicate OthersRan(l: Line, l': Line) {
    exists ls, acts :: Run(ls, acts) && ls[0] == l && ls[|acts|] == l' && NoneIsConsumers(acts)
  }

  predicate NoneIsConsumers(acts: seq<Action>) {
    forall i :: 0 <= i < |acts| ==> !acts[i].Receive? && !acts[i].DropConsumer?
  }

  lemma OthersStep(l: Line, a: Action, l': Line)
    requires LineNext(l, a, l') && !a.Receive? && !a.DropConsumer?
    ensures l'.pipe.received == l.pipe.received && l.pipe.queue <= l'.pipe.queue
  {
  }

  lemma {:induction false} OthersKeepRun(ls: seq<Line>, acts: seq<Action>, n: nat)
    requires Run(ls, acts) && NoneIsConsumers(acts) && n <= |acts|
    ensures ls[n].pipe.received == ls[0].pipe.received && ls[0].pipe.queue <= ls[n].pipe.queue
  {
    if n > 0 {
      OthersKeepRun(ls, acts, n - 1);
      OthersStep(ls[n - 1], acts[n - 1], ls[n]);
    }
  }

  lemma OthersKeep(l: Line, l': Line)
    requires LineInv(l) && OthersRan(l, l')
    ensures LineInv(l') && l'.pipe.received == l.pipe.received && l.pipe.queue <= l'.pipe.queue
  {
    var ls, acts :| Run(ls, acts) && ls[0] == l && ls[|acts|] == l' && NoneIsConsumers(acts);
    RunKeepsInv(ls, acts, |acts|);
    OthersKeepRun(ls, acts, |acts|);
  }

  /** What a poll of a well-kept pipeline means: a refusal or an empty queue leaves everything alone,
      and anything else takes the one item that comes next. */
  ghost predicate TookNext(l: Line, r: Polled, l': Line) {
    && l' == l.(pipe := l'.pipe) && Queued(l'.pipe) == Queued(l.pipe)
    && (match r
        case Ready(Delivered(m)) =>
          && l'.pipe.received == l.pipe.received + [Message(m)]
          && l.pipe.cursor.Reading? && IsNext(l.log, Head(l.pipe.cursor.first, Records(l.pipe.received)), m)
        case Ready(StreamFailed(e)) =>
          && l.pipe.queue != [] && l.pipe.queue[0].StreamError? && e == MapDriverError(l.pipe.queue[0].error)
          && l'.pipe.received == l.pipe.received + [l.pipe.queue[0]] && l'.pipe.queue == []
        case Ready(Finished) => l' == l && l.pipe.queue == [] && l.pipe.task.Ended?
        case NotReady => l' == l && l.pipe.queue == [] && !l.pipe.task.Ended?
        case Ready(Refused(e)) => l' == l && e == Closed)
  }

  lemma PollTakesNext(l: Line, refuses: bool)
    requires LineInv(l)
    ensures var (p, r) := PollQueue(l.pipe, refuses);
      TookNext(l, r, l.(pipe := p)) && LineInv(l.(pipe := p)) && (r == Ready(Refused(Closed)) <==> refuses)
  {
    if !refuses && l.pipe.queue != [] {
      TakeKeeps(l.log, l.shutdown, l.pipe);
      if l.pipe.queue[0].Message? {
        TakeIsNext(l.log, l.shutdown, l.pipe);
      } else {
        assert Queued(l.pipe)[|l.pipe.received|] == l.pipe.queue[0];
      }
    }
  }

  /** What an answer under a deadline says about the last poll. */
  ghost predicate Answers(l: Line, r: Result<Option<Record>>, l': Line) {
    match r
    case Ok(Some(m)) => TookNext(l, Ready(Delivered(m)), l')
    case Ok(None) => TookNext(l, Ready(Finished), l')
    case Err(e) => (e == Timeout && TookNext(l, NotReady, l')) || TookNext(l, Ready(StreamFailed(e)), l')
  }

  lemma DeadlineDelivers(polled: Polled)
    ensures var r := Deadline(polled);
      if polled.Ready? && polled.reply.Delivered? then r == Ok(Some(polled.reply.record))
      else r.Err? || r == Ok(None)
  {
  }

  /** Nothing is queued and the task may still bring something. */
  predicate Silent(p: Pipe) {
    p.queue == [] && !p.task.Ended?
  }

  /** The next thing queued is the error that ended the stream, and it reads as `e`. */
  predicate DiedOf(p: Pipe, e: KafkaError) {
    p.queue != [] && p.queue[0].StreamError? && MapDriverError(p.queue[0].error) == e
  }

  class KafkaConsumer {
    var line: Line

    ghost predicate Valid()
      reads this
    {
      LineInv(line)
    }

    constructor (log: seq<Record>, start: StartOffset, shutdown: Watch)
      requires LogOk(log) && (shutdown.value <==> shutdown.version > 0)
      ensures Valid() && line == Line(log, shutdown, NewPipe(start, shutdown))
    {
      NewPipeOk(log, start, shutdown);
      line := Line(log, shutdown, NewPipe(start, shutdown));
    }

    /** `sawClosed` is what the call read before it began to wait; others run until `later`, when the
        queue is polled. */
    method Recv(sawClosed: bool, later: Line) returns (r: Polled)
      requires Valid() && OthersRan(line, later)
      modifies this
      ensures Valid()
      ensures r == Ready(Refused(Closed)) <==> sawClosed
      ensures TookNext(if sawClosed then old(line) else later, r, line)
      ensures (line.pipe, r) == PollQueue(if sawClosed then old(line.pipe) else later.pipe, sawClosed)
    {
      if sawClosed {
        return Ready(Refused(Closed));
      }
      OthersKeep(line, later);
      PollTakesNext(later, false);
      line := later;
      if line.pipe.queue == [] {
        return if line.pipe.task.Ended? then Ready(Finished) else NotReady;
      }
      var head := line.pipe.queue[0];
      line := line.(pipe := Take(line.pipe));
      match head {
        case Message(record) => return Ready(Delivered(record));
        case StreamError(error) => return Ready(StreamFailed(MapDriverError(error)));
      }
    }

    /** `later` is the last poll before the deadline. A refusal can be told from everything else; a
        timeout cannot be told from a stream that died of one. */
    method RecvTimeout(sawClosed: bool, later: Line) returns (r: Result<Option<Record>>)
      requires Valid() && OthersRan(line, later)
      modifies this
      ensures Valid()
      ensures r == Err(Closed) <==> sawClosed
      ensures if sawClosed then line == old(line) else Answers(later, r, line)
      ensures r == Err(Timeout) <==> !sawClosed && (Silent(later.pipe) || DiedOf(later.pipe, Timeout))
      ensures var (p, polled) := PollQueue(if sawClosed then old(line.pipe) else later.pipe, sawClosed);
        line.pipe == p && r == Deadline(polled)
    {
      var polled := Recv(sawClosed, later);
      match polled {
        case Ready(Delivered(record)) => return Ok(Some(record));
        case Ready(StreamFailed(error)) => return Err(error);
        case Ready(Finished) => return Ok(None);
        case Ready(Refused(error)) => return Err(error);
        case NotReady => return Err(Timeout);
      }
    }
  }
}
