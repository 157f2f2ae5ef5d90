/** At-least-once consumption of one partition by a single owner, over whole runs: sessions that
    connect, receive, acknowledge, give up and reconnect, an offset store whose commits may fail or
    outlive the call that made them, process crashes and power losses. */
module AtLeastOnce {
  import opened Common
  import opened Pipeline
  import opened OffsetTable
  import opened OffsetFile
  import opened OddTopics
  import opened FileStore
  import opened StoreMoves
  import Decimal
  import Text

  // ---------------------------------------------------------------- configuration

  datatype ConsumerConfig = ConsumerConfig(fromBeginning: bool, startOffset: Option<i64>)

  /** A start offset wins over reading from the beginning, which wins over the latest offset. */
  function ResolveStartOffset(config: ConsumerConfig): (r: StartOffset)
    ensures config.startOffset.Some? ==> r == StartAt(config.startOffset.value)
    ensures config.startOffset.None? ==> r == if config.fromBeginning then Earliest else Latest
  {
    if config.startOffset.Some? then StartAt(config.startOffset.value)
    else if config.fromBeginning then Earliest
    else Latest
  }

  /** `connect` lets a stored value override the configured start. */
  function ConnectConfig(config: ConsumerConfig, committed: Option<i64>): (r: ConsumerConfig)
    ensures committed.Some? ==> ResolveStartOffset(r) == StartAt(committed.value)
    ensures committed.None? ==> r == config
  {
    if committed.Some? then ConsumerConfig(false, committed) else config
  }

  // ---------------------------------------------------------------- one session

  /** `config` is what the caller passed to `connect`; `epoch` and `born` record when that was. */
  datatype Session = Session(
    pipe: Pipe,
    pending: Option<Record>,
    terminated: bool,
    config: ConsumerConfig,
    epoch: nat,
    born: int)

  /** Polling `recv`: a terminated session refuses; an unacknowledged message is returned again
      without touching the queue; otherwise the consumer is polled and a message becomes pending.
      `refuses` is what the call read of the pool when it was made. */
  function PollRecv(s: Session, refuses: bool): (Session, Polled) {
    if s.terminated then (s, Ready(Refused(Closed)))
    else if s.pending.Some? then (s, Ready(Delivered(s.pending.value)))
    else
      var (pipe, polled) := PollQueue(s.pipe, refuses);
      var taken := s.(pipe := pipe);
      if polled.Ready? && polled.reply.Delivered? then (taken.(pending := Some(polled.reply.record)), polled)
      else (taken, polled)
  }

  function DropPendingUnacked(s: Session): Session {
    s.(pending := None, terminated := true)
  }

  /** The session `connect` builds. */
  function Connected(config: ConsumerConfig, committed: Option<i64>, shutdown: Watch, epoch: nat, born: int): Session {
    Session(NewPipe(ResolveStartOffset(ConnectConfig(config, committed)), shutdown), None, false, config, epoch, born)
  }

  // ---------------------------------------------------------------- the store behind a session

  /** The stores there are. */
  datatype Backing = InMemory(memory: MemoryOffsetStore) | InFile(file: FileOffsetStore)

  ghost function Footprint(b: Backing): set<object> {
    match b
    case InMemory(memory) => {memory}
    case InFile(file) => {file.fs}
  }

  ghost function Contents(b: Backing): Result<Table>
    reads Footprint(b)
  {
    match b
    case InMemory(memory) => Ok(memory.inner)
    case InFile(file) => LoadFile(file.fs.disk.target)
  }

  /** A file carries only clean topics unchanged. */
  predicate Carries(b: Backing, key: Key) {
    b.InFile? ==> CleanTopic(key.topic)
  }

  /** What a session relies on: success means the table was raised; otherwise it was raised or left
      alone. */
  ghost predicate CommitContract(t: Table, t': Table, key: Key, offset: i64, r: Outcome<()>) {
    var raised := Apply(t, CommitCall(key, offset));
    && (t' == t || t' == raised)
    && (r == Returned(Ok(())) ==> t' == raised && 0 <= offset < I64_MAX)
  }

  lemma MemoryStoreMeetsContract(t: Table, key: Key, offset: i64, r: Result<()>)
    requires r.Ok? ==> 0 <= offset < I64_MAX
    ensures CommitContract(t, Apply(t, CommitCall(key, offset)), key, offset, Returned(r))
  {
  }

  lemma FileStoreMeetsContract(d: Disk, d': Disk, key: Key, offset: i64, r: Outcome<()>)
    requires CommitEffect(d, d', key, offset, r)
    ensures LoadFile(d.target).Ok? && CleanTopic(key.topic) ==>
      LoadFile(d'.target).Ok? && CommitContract(LoadFile(d.target).value, LoadFile(d'.target).value, key, offset, r)
    ensures LoadFile(d.target).Err? ==> d' == d && r != Returned(Ok(()))
  {
    if LoadFile(d.target).Ok? && CleanTopic(key.topic) {
      CleanCommitMeetsContract(d, d', key, offset, r, LoadFile(d.target).value);
    }
  }

  lemma CleanCommitMeetsContract(d: Disk, d': Disk, key: Key, offset: i64, r: Outcome<()>, m: Table)
    requires CommitEffect(d, d', key, offset, r) && LoadFile(d.target) == Ok(m) && CleanTopic(key.topic)
    ensures LoadFile(d'.target).Ok? && CommitContract(m, LoadFile(d'.target).value, key, offset, r)
  {
    CleanCommit(d, d', key, offset, r, m);
  }

  /** The store in memory takes exactly the offsets in range, and says which limit another breaks. */
  ghost predicate MemoryAnswered(t: Table, t': Table, key: Key, offset: i64, r: Outcome<()>) {
    if offset < 0 then t' == t && r == Returned(Err(Config(NegativeOffset)))
    else if offset == I64_MAX then t' == t && r == Returned(Err(Config(OffsetOverflow)))
    else
      && r == Returned(Ok(()))
      && t' == t[key := if key in t && t[key] > offset + 1 then t[key] else offset + 1]
  }

  /** The file store does too, unless one of the calls made on the way did not work, or the file did not
      parse in the first place. */
  ghost predicate FileAnswered(d: Disk, d': Disk, made: seq<Fault>, key: Key, offset: i64, r: Outcome<()>) {
    && CommitEffect(d, d', key, offset, r)
    && if offset < 0 then r == Returned(Err(Config(NegativeOffset))) && made == []
       else if offset == I64_MAX then r == Returned(Err(Config(OffsetOverflow))) && made == []
       else
         match FileStore.Ended(made)
         case Fails => r == Returned(Err(Io))
         case Dies => r == Died
         case Works => (r == Returned(Ok(())) <==> LoadFile(d.target).Ok?) && r.Returned?
  }

  method CommitTo(b: Backing, key: Key, offset: i64) returns (r: Outcome<()>)
    modifies Footprint(b)
    ensures b.InMemory? ==> MemoryAnswered(old(b.memory.inner), b.memory.inner, key, offset, r)
    ensures b.InFile? ==>
      && old(b.file.fs.calls) <= b.file.fs.calls
      && FileAnswered(old(b.file.fs.disk), b.file.fs.disk, b.file.fs.calls[|old(b.file.fs.calls)|..], key, offset, r)
    ensures old(Contents(b)).Ok? && Carries(b, key) ==>
      Contents(b).Ok? && CommitContract(old(Contents(b)).value, Contents(b).value, key, offset, r)
    ensures old(Contents(b)).Err? ==> Contents(b) == old(Contents(b)) && r != Returned(Ok(()))
  {
    match b {
      case InMemory(memory) =>
        ghost var before := memory.inner;
        var done := memory.Commit(key.topic, key.partition, offset);
        MemoryStoreMeetsContract(before, key, offset, done);
        if done.Ok? {
          assert done.value == ();
        }
        r := Returned(done);
      case InFile(file) =>
        ghost var before := file.fs.disk;
        r := file.Commit(key.topic, key.partition, offset);
        FileStoreMeetsContract(before, file.fs.disk, key, offset, r);
    }
  }

  /** Reading fails only for a file: it may not parse, or a call may not work. */
  method ReadFrom(b: Backing, key: Key) returns (r: Outcome<Option<i64>>)
    modifies if b.InFile? then {b.file.fs} else {}
    ensures Contents(b) == old(Contents(b))
    ensures b.InMemory? ==> r == Returned(Ok(Lookup(b.memory.inner, key)))
    ensures b.InFile? ==>
      && old(b.file.fs.calls) <= b.file.fs.calls && b.file.fs.disk == old(b.file.fs.disk)
      && r == Outcomes(b.file.fs.calls[|old(b.file.fs.calls)|..], ReadAnswer(Contents(b), key))
  {
    match b {
      case InMemory(memory) =>
        var found := memory.Committed(key.topic, key.partition);
        r := Returned(Ok(found));
      case InFile(file) =>
        r := file.Committed(key.topic, key.partition);
    }
  }

  // ---------------------------------------------------------------- the session object

  class AtLeastOnceConsumer {
    const inner: KafkaConsumer
    const store: Backing
    const key: Key
    const config: ConsumerConfig
    var pending: Option<Record>
    var terminated: bool
    ghost const epoch: nat
    ghost const born: int

    ghost function View(): Session
      reads this, inner
    {
      Session(inner.line.pipe, pending, terminated, config, epoch, born)
    }

    ghost predicate Valid()
      reads this, inner
    {
      inner.Valid()
    }

    /** `committed` is what `connect` read from the store. */
    constructor (store: Backing, key: Key, config: ConsumerConfig, committed: Option<i64>,
                 log: seq<Record>, shutdown: Watch, ghost epoch: nat)
      requires LogOk(log) && (shutdown.value <==> shutdown.version > 0)
      ensures Valid() && fresh(inner)
      ensures this.store == store && this.key == key && inner.line.log == log && inner.line.shutdown == shutdown
      ensures View() == Connected(config, committed, shutdown, epoch, LogEnd(log))
    {
      this.store := store;
      this.key := key;
      this.config := config;
      this.epoch, this.born := epoch, LogEnd(log);
      var effective := config;
      if committed.Some? {
        effective := effective.(startOffset := committed, fromBeginning := false);
      }
      inner := new KafkaConsumer(log, ResolveStartOffset(effective), shutdown);
      pending, terminated := None, false;
    }

    /** The session when the receive is finally answered: only one with nothing to answer at once
        waits until `later`. */
    static function Awaited(s: Session, sawClosed: bool, later: Pipe): Session {
      if s.terminated || s.pending.Some? || sawClosed then s else s.(pipe := later)
    }

    method Recv(sawClosed: bool, later: Line) returns (r: Polled)
      requires Valid() && OthersRan(inner.line, later)
      modifies this, inner
      ensures Valid()
      ensures old(terminated) ==> r == Ready(Refused(Closed)) && View() == old(View())
      ensures !old(terminated) && old(pending).Some? ==>
        r == Ready(Delivered(old(pending).value)) && View() == old(View())
      ensures !old(terminated) && old(pending).None? && sawClosed ==>
        r == Ready(Refused(Closed)) && View() == old(View())
      ensures !old(terminated) && old(pending).None? && !sawClosed ==>
        && TookNext(later, r, inner.line)
        && pending == (if r.Ready? && r.reply.Delivered? then Some(r.reply.record) else None)
      ensures (View(), r) == PollRecv(Awaited(old(View()), sawClosed, later.pipe), sawClosed)
    {
      if terminated {
        return Ready(Refused(Closed));
      }
      if pending.Some? {
        return Ready(Delivered(pending.value));
      }
      r := inner.Recv(sawClosed, later);
      if r.Ready? && r.reply.Delivered? {
        pending := Some(r.reply.record);
      }
    }

    method RecvTimeout(sawClosed: bool, later: Line) returns (r: Result<Option<Record>>)
      requires Valid() && OthersRan(inner.line, later)
      modifies this, inner
      ensures Valid()
      ensures old(terminated) ==> r == Err(Closed) && View() == old(View())
      ensures !old(terminated) && old(pending).Some? ==> r == Ok(old(pending)) && View() == old(View())
      ensures !old(terminated) && old(pending).None? ==>
        && pending == (if r.Ok? then r.value else None)
        && (r == Err(Closed) <==> sawClosed)
        && (if sawClosed then inner.line == old(inner.line) else Answers(later, r, inner.line))
        && (r == Err(Timeout) <==> !sawClosed && (Silent(later.pipe) || DiedOf(later.pipe, Timeout)))
      ensures var (s, polled) := PollRecv(Awaited(old(View()), sawClosed, later.pipe), sawClosed);
        View() == s && r == Deadline(polled)
    {
      if terminated {
        return Err(Closed);
      }
      if pending.Some? {
        return Ok(pending);
      }
      ghost var polled := PollQueue(if sawClosed then inner.line.pipe else later.pipe, sawClosed).1;
      r := inner.RecvTimeout(sawClosed, later);
      DeadlineDelivers(polled);
      if r.Ok? && r.value.Some? {
        pending := r.value;
      }
    }

    /** Pending is cleared only by a commit that reported success. */
    method Ack() returns (r: Outcome<()>)
      modifies this, Footprint(store)
      ensures old(terminated) ==>
        r == Returned(Err(Closed)) && View() == old(View()) && Contents(store) == old(Contents(store))
      ensures !old(terminated) && old(pending).None? ==>
        r == Returned(Err(Config(NothingPending))) && View() == old(View()) && Contents(store) == old(Contents(store))
      ensures !old(terminated) && old(pending).Some? ==>
        && View() == (if r == Returned(Ok(())) then old(View()).(pending := None) else old(View()))
        && (store.InMemory? ==>
              MemoryAnswered(old(store.memory.inner), store.memory.inner, key, old(pending).value.offset, r))
        && (store.InFile? ==>
              && old(store.file.fs.calls) <= store.file.fs.calls
              && FileAnswered(old(store.file.fs.disk), store.file.fs.disk,
                   store.file.fs.calls[|old(store.file.fs.calls)|..], key, old(pending).value.offset, r))
        && (old(Contents(store)).Ok? && Carries(store, key) ==>
              && Contents(store).Ok?
              && CommitContract(old(Contents(store)).value, Contents(store).value, key, old(pending).value.offset, r))
        && (old(Contents(store)).Err? ==> Contents(store) == old(Contents(store)) && pending == old(pending))
    {
      if terminated {
        return Returned(Err(Closed));
      }
      if pending.None? {
        return Returned(Err(Config(NothingPending)));
      }
      r := CommitTo(store, key, pending.value.offset);
      if r == Returned(Ok(())) {
        pending := None;
      }
    }

    method NackKeepPending()
      ensures View() == old(View())
    {
    }

    /** From here on every receive is refused, whatever is queued. */
    method DropPending()
      modifies this
      ensures View() == DropPendingUnacked(old(View()))
      ensures terminated && pending.None? && inner.line == old(inner.line)
      ensures forall refuses :: PollRecv(View(), refuses) == (View(), Ready(Refused(Closed)))
    {
      pending := None;
      terminated := true;
    }
  }

  /** `connect`: the shape checks come first, then reading the store, then the pool, which may refuse
      or fail (`poolAccepts`). The consumer's task is subscribed to `shutdown` and reads `log`. */
  method Connect(store: Backing, topic: string, partition: i32, config: ConsumerConfig,
                 poolAccepts: Result<()>, log: seq<Record>, shutdown: Watch, ghost epoch: nat)
    returns (r: Outcome<AtLeastOnceConsumer>)
    requires LogOk(log) && (shutdown.value <==> shutdown.version > 0)
    modifies if store.InFile? then {store.file.fs} else {}
    ensures Contents(store) == old(Contents(store))
    ensures store.InFile? ==> old(store.file.fs.calls) <= store.file.fs.calls
    ensures store.InFile? && (Text.Trim(topic) == [] || partition < 0) ==>
      store.file.fs.calls == old(store.file.fs.calls)
    ensures Text.Trim(topic) == [] ==> r == Returned(Err(Config(BlankTopic)))
    ensures Text.Trim(topic) != [] && partition < 0 ==> r == Returned(Err(Config(NegativePartition)))
    ensures Text.Trim(topic) != [] && partition >= 0 ==>
      var calls := if store.InFile? then store.file.fs.calls[|old(store.file.fs.calls)|..] else [];
      match FileStore.Ended(calls)
      case Fails => r == Returned(Err(Io))
      case Dies => r == Died
      case Works =>
        match Contents(store)
        case Err(e) => r == Returned(Err(e))
        case Ok(_) => if poolAccepts.Err? then r == Returned(Err(poolAccepts.error)) else r.Returned? && r.result.Ok?
    ensures r.Returned? && r.result.Ok? ==>
      var c := r.result.value;
      && fresh(c) && c.Valid() && c.store == store && c.key == Key(topic, partition)
      && Contents(store).Ok? && poolAccepts.Ok?
      && c.View() == Connected(config, Lookup(Contents(store).value, c.key), shutdown, epoch, LogEnd(log))
      && c.inner.line.pipe.cursor == Unresolved(
           if c.key in Contents(store).value then StartAt(Contents(store).value[c.key])
           else if config.startOffset.Some? then StartAt(config.startOffset.value)
           else if config.fromBeginning then Earliest
           else Latest)
  {
    if Text.Trim(topic) == [] {
      return Returned(Err(Config(BlankTopic)));
    }
    if partition < 0 {
      return Returned(Err(Config(NegativePartition)));
    }
    var key := Key(topic, partition);
    var committed := ReadFrom(store, key);
    match committed {
      case Died => return Died;
      case Returned(Err(e)) => return Returned(Err(e));
      case Returned(Ok(value)) =>
        if poolAccepts.Err? {
          return Returned(Err(poolAccepts.error));
        }
        var consumer := new AtLeastOnceConsumer(store, key, config, value, log, shutdown, epoch);
        return Returned(Ok(consumer));
    }
  }

  // ---------------------------------------------------------------- the whole system

  /** A commit whose caller is gone but whose blocking task still holds the store's lock. `start` is
      where the session that made it began reading. */
  datatype InFlight = InFlight(record: Record, start: int)

  /** `candidates` are the values a power loss may leave in the store, and `hold` says what the value
      survives; `confirmed` is the highest value a successful `ack` reported since the store last
      forgot; `base` is where the first session whose commit reached the
      store began; `delivered` and `acked` collect offsets handed out and offsets `ack` was called
      on. */
  datatype World = World(
    log: seq<Record>,
    closed: bool,
    shutdown: Watch,
    committed: Option<i64>,
    candidates: set<Option<i64>>,
    hold: Hold,
    base: Option<int>,
    confirmed: Option<i64>,
    inFlight: Option<InFlight>,
    session: Option<Session>,
    epochs: nat,
    delivered: set<int>,
    acked: set<int>)

  /** How one `ack` on a pending message ends. */
  datatype AckOutcome =
    | Confirmed                        // the store was raised and `ack` returned success
    | LandedOnly(synced: bool)         // raised, but an error was returned or the caller was gone
    | NotLanded                        // the store was left alone and an error was returned
    | LeftInFlight                     // the caller was dropped while the blocking task runs on

  datatype Act =
    | LogGrows(r: Record)
    | MarksClosed                      // the pool's flag is set
    | PoolCloses                       // and the shutdown signal sent
    | NewPool
    | Connects(config: ConsumerConfig)
    | TaskMoves
    | Receives(refuses: bool)
    | Acks(outcome: AckOutcome)
    | Settles(landed: bool, synced: bool)
    | Nacks
    | DropsPending
    | Leaves
    | Crashes
    | LosesPower(value: Option<i64>)
    | Forgets                          // the process ends, or power is lost, and the store is empty after it
    | Background(move: Move)           // what commits for other keys, or failing ones, do to the store's file

  function StoreOf(w: World): View {
    View(w.committed, w.candidates, w.hold)
  }

  function WithStore(w: World, v: View): World {
    w.(committed := v.committed, candidates := v.candidates, hold := v.hold)
  }

  /** The store moves to past `r`, on behalf of a session that began reading at `start`. */
  function Land(w: World, r: Record, start: int, synced: bool): World
    requires r.offset < I64_MAX
  {
    WithStore(w, Moved(StoreOf(w), Lands(r.offset + 1, synced))).(
      base := if w.committed.None? then Some(start) else w.base)
  }

  /** What the end of the process leaves, with the store in state `v`. */
  function Ended(w: World, v: View): World {
    WithStore(w, v).(
      session := None, inFlight := None, closed := false, shutdown := Watch(false, 0),
      base := if v.committed.None? then None else w.base)
  }

  predicate CanAck(w: World) {
    && w.session.Some? && !w.session.value.terminated && w.session.value.pending.Some?
    && w.session.value.pipe.cursor.Reading?
    && w.inFlight.None?
  }

  function Acked(w: World): World
    requires w.session.Some? && w.session.value.pending.Some?
  {
    w.(acked := w.acked + {w.session.value.pending.value.offset})
  }

  ghost predicate AckNext(w: World, outcome: AckOutcome, w': World)
    requires CanAck(w)
  {
    var s := w.session.value;
    var r, start := s.pending.value, s.pipe.cursor.first;
    match outcome
    case NotLanded => w' == Acked(w)
    case LeftInFlight => w.hold.OnDisk? && r.offset < I64_MAX && w' == Acked(w).(inFlight := Some(InFlight(r, start)))
    case LandedOnly(synced) => r.offset < I64_MAX && w' == Land(Acked(w), r, start, synced)
    case Confirmed =>
      r.offset < I64_MAX &&
      w' == Land(Acked(w), r, start, true).(
              confirmed := Raised(w.committed, r.offset + 1),
              session := Some(s.(pending := None)))
  }

  ghost predicate Next(w: World, a: Act, w': World) {
    match a
    case LogGrows(r) => LogEnd(w.log) <= r.offset && w' == w.(log := w.log + [r])
    case MarksClosed => w' == w.(closed := true)
    case PoolCloses => w.closed && w' == w.(shutdown := Watch(true, w.shutdown.version + 1))
    case NewPool => w.session.None? && w' == w.(closed := false, shutdown := Watch(false, 0))
    case Connects(config) =>
      && w.session.None? && w.inFlight.None?
      && w' == w.(session := Some(Connected(config, w.committed, w.shutdown, w.epochs, LogEnd(w.log))),
                  epochs := w.epochs + 1)
    case TaskMoves =>
      && w.session.Some? && w'.session.Some?
      && TaskNext(w.log, w.shutdown, w.session.value.pipe, w'.session.value.pipe)
      && w' == w.(session := Some(w.session.value.(pipe := w'.session.value.pipe)))
    case Receives(refuses) =>
      && w.session.Some? && (refuses ==> w.closed)
      && var (s, polled) := PollRecv(w.session.value, refuses);
         w' == w.(session := Some(s),
                  delivered := w.delivered +
                    (if polled.Ready? && polled.reply.Delivered? then {polled.reply.record.offset as int} else {}))
    case Acks(outcome) => CanAck(w) && AckNext(w, outcome, w')
    case Settles(landed, synced) =>
      w.inFlight.Some? && w.inFlight.value.record.offset < I64_MAX &&
      w' == (if landed then Land(w, w.inFlight.value.record, w.inFlight.value.start, synced) else w).(inFlight := None)
    case Nacks => w' == w
    case DropsPending => w.session.Some? && w' == w.(session := Some(DropPendingUnacked(w.session.value)))
    case Leaves => w.session.Some? && w' == w.(session := None)
    case Crashes =>
      w.inFlight.None? && w.hold.OnDisk? && w' == w.(session := None, closed := false, shutdown := Watch(false, 0))
    case LosesPower(value) =>
      Allowed(StoreOf(w), Survives(value)) && w' == Ended(w, Moved(StoreOf(w), Survives(value)))
    case Forgets =>
      Allowed(StoreOf(w), Move.Forgets) && w' == Ended(w, Moved(StoreOf(w), Move.Forgets)).(confirmed := None)
    case Background(mv) => (mv.Makes? || mv.Syncs?) && w' == WithStore(w, Moved(StoreOf(w), mv))
  }

  /** Nothing has been consumed yet; the store may already hold a value. */
  ghost predicate Init(w: World) {
    && LogOk(w.log) && !w.closed && w.shutdown == Watch(false, 0)
    && w.candidates == {w.committed}
    && (w.hold == OnDisk(NoDirectory) ==> w.committed.None?)
    && w.base == (if w.committed.Some? then Some(w.committed.value as int) else None)
    && w.confirmed.None? && w.inFlight.None? && w.session.None?
    && w.epochs == 0 && w.delivered == {} && w.acked == {}
  }

  // ---------------------------------------------------------------- the invariant

  ghost predicate AllAcked(log: seq<Record>, acked: set<int>, a: int, b: int) {
    forall r :: r in log && InRange(r, a, b) ==> r.offset as int in acked
  }

  /** `v` is a position the store can hold: the base, or just past a record. */
  ghost predicate Reached(log: seq<Record>, base: int, v: int) {
    base <= v && (v == base || exists r :: r in log && r.offset + 1 == v)
  }

  ghost predicate CandidateOk(w: World, v: Option<i64>) {
    && (v.Some? ==>
         && w.committed.Some? && w.base.Some? && v.value <= w.committed.value
         && Reached(w.log, w.base.value, v.value))
    && (w.confirmed.Some? ==> v.Some? && w.confirmed.value <= v.value)
  }

  ghost predicate StoreOk(w: World) {
    && (w.committed.Some? <==> w.base.Some?)
    && (w.committed.Some? ==>
         && Reached(w.log, w.base.value, w.committed.value)
         && AllAcked(w.log, w.acked, w.base.value, w.committed.value))
    && w.committed in w.candidates
    && (forall v :: v in w.candidates ==> CandidateOk(w, v))
  }

  /** Where a session began, given what it was configured with and an empty store. */
  ghost predicate BeganAsConfigured(s: Session) {
    match s.pipe.cursor
    case Unresolved(start) => start == ResolveStartOffset(s.config)
    case Reading(first, _) =>
      match ResolveStartOffset(s.config)
      case Earliest => first == 0
      case StartAt(offset) => first == offset
      case Latest => first >= s.born
  }

  /** What the session has handled, against what the store holds. */
  ghost predicate PositionOk(w: World, s: Session) {
    match s.pipe.cursor
    case Unresolved(start) =>
      s.pending.None? && (w.committed.Some? ==> start == StartAt(w.committed.value))
    case Reading(first, _) =>
      var handled := Records(s.pipe.received);
      if s.pending.None? then
        && (w.committed.None? ==> handled == [])
        && (w.committed.Some? ==> w.committed.value == Head(first, handled))
      else
        var m := s.pending.value;
        handled != [] && handled[|handled| - 1] == m &&
        var before := handled[..|handled| - 1];
        && (w.committed.None? ==> before == [])
        && (w.committed.Some? ==> w.committed.value == Head(first, before) || w.committed.value == m.offset + 1)
        && (w.confirmed.Some? ==> w.confirmed.value <= Head(first, before))
  }

  ghost predicate SessionOk(w: World, s: Session) {
    && PipeOk(w.log, w.shutdown, s.pipe)
    && (s.pending.Some? ==> s.pending.value.offset as int in w.delivered)
    && (s.terminated ==> s.pending.None?)
    && (!s.terminated ==> PositionOk(w, s))
    && (w.committed.None? ==> BeganAsConfigured(s))
    && s.epoch < w.epochs
    && s.born <= LogEnd(w.log)
  }

  ghost predicate InFlightOk(w: World, f: InFlight) {
    && f.record in w.log && f.record.offset as int in w.acked && f.record.offset < I64_MAX
    && (w.committed.None? ==> IsNext(w.log, f.start, f.record))
    && (w.committed.Some? ==>
         IsNext(w.log, w.committed.value, f.record) || w.committed.value == f.record.offset + 1)
    && (w.session.Some? && !w.session.value.terminated ==>
         w.session.value.pending == Some(f.record))
  }

  ghost predicate Inv(w: World) {
    && LogOk(w.log)
    && (w.shutdown.value <==> w.shutdown.version > 0)
    && w.acked <= w.delivered
    && StoreOk(w)
    && (w.session.Some? ==> SessionOk(w, w.session.value))
    && (w.inFlight.Some? ==> InFlightOk(w, w.inFlight.value))
  }

  lemma InitInv(w: World)
    requires Init(w)
    ensures Inv(w)
  {
  }

  // ---------------------------------------------------------------- preservation

  lemma IsNextAppend(log: seq<Record>, r: Record, n: int, m: Record)
    requires LogOk(log) && LogEnd(log) <= r.offset && IsNext(log, n, m)
    ensures IsNext(log + [r], n, m)
  {
    var i :| 0 <= i < |log| && log[i] == m;
    assert log[i].offset <= log[|log| - 1].offset;
  }

  lemma PendingIsLast(w: World, s: Session)
    requires PositionOk(w, s) && s.pending.Some?
    ensures s.pipe.cursor.Reading? && Records(s.pipe.received) != []
    ensures var handled := Records(s.pipe.received);
      handled == handled[..|handled| - 1] + [s.pending.value]
  {
  }

  lemma LastReceived(log: seq<Record>, p: Pipe, handled: seq<Record>, m: Record)
    requires LogOk(log) && CursorOk(log, p) && p.cursor.Reading? && handled == Records(p.received)
    requires handled != [] && handled == handled[..|handled| - 1] + [m]
    ensures m in log && IsNext(log, Head(p.cursor.first, handled[..|handled| - 1]), m)
    ensures p.cursor.first <= Head(p.cursor.first, handled[..|handled| - 1])
  {
    ReceivedInOrder(log, p, handled[..|handled| - 1], m);
  }

  /** The pending message is the first record at or after everything handled before it. */
  lemma PendingIsNext(w: World, s: Session)
    requires LogOk(w.log) && SessionOk(w, s) && !s.terminated && s.pending.Some?
    ensures s.pipe.cursor.Reading?
    ensures var handled := Records(s.pipe.received);
      && handled != [] && s.pending.value in w.log
      && IsNext(w.log, Head(s.pipe.cursor.first, handled[..|handled| - 1]), s.pending.value)
      && s.pipe.cursor.first <= Head(s.pipe.cursor.first, handled[..|handled| - 1])
  {
    PendingIsLast(w, s);
    LastReceived(w.log, s.pipe, Records(s.pipe.received), s.pending.value);
  }

  /** Landing the pending (or in-flight) record keeps the store's promise. */
  lemma LandKeepsStore(w: World, r: Record, start: int, synced: bool)
    requires LogOk(w.log) && StoreOk(w) && r in w.log && r.offset < I64_MAX && r.offset as int in w.acked
    requires w.committed.None? ==> IsNext(w.log, start, r)
    requires w.committed.Some? ==> IsNext(w.log, w.committed.value, r) || w.committed.value == r.offset + 1
    ensures StoreOk(Land(w, r, start, synced))
    ensures Land(w, r, start, synced).committed == Some(r.offset + 1)
  {
    var w' := Land(w, r, start, synced);
    var base, next := w'.base.value, r.offset + 1;
    forall q | q in w.log && InRange(q, base, next) ensures q.offset as int in w.acked {
      if w.committed.Some? && q.offset < w.committed.value {
        assert InRange(q, base, w.committed.value);
      }
    }
    forall v | v in w'.candidates ensures CandidateOk(w', v) {
      if v in w.candidates {
        assert CandidateOk(w, v);
      }
      assert CandidateOk(w, w.committed);
    }
  }

  lemma LogGrowsKeepsStore(w: World, r: Record)
    requires LogOk(w.log) && StoreOk(w) && LogEnd(w.log) <= r.offset
    ensures StoreOk(w.(log := w.log + [r]))
  {
    var w' := w.(log := w.log + [r]);
    forall v: int, b: int | Reached(w.log, b, v) ensures Reached(w'.log, b, v) {
      if q :| q in w.log && q.offset + 1 == v {
        assert q in w'.log;
      }
    }
    if w.committed.Some? {
      var b, c := w.base.value, w.committed.value;
      if c != b {
        var q :| q in w.log && q.offset + 1 == c;
        BelowEnd(w.log, q);
      }
      forall q | q in w'.log && InRange(q, b, c) ensures q.offset as int in w'.acked {
        assert q != r ==> q in w.log;
      }
    }
    forall v | v in w'.candidates ensures CandidateOk(w', v) {
      assert CandidateOk(w, v);
    }
  }

  lemma LogGrowsKeepsSession(w: World, r: Record, s: Session)
    requires LogOk(w.log) && SessionOk(w, s) && LogEnd(w.log) <= r.offset
    ensures SessionOk(w.(log := w.log + [r]), s)
  {
    AppendKeepsCursor(w.log, r, s.pipe);
  }

  lemma LogGrowsKeepsInFlight(w: World, r: Record, f: InFlight)
    requires LogOk(w.log) && InFlightOk(w, f) && LogEnd(w.log) <= r.offset
    ensures InFlightOk(w.(log := w.log + [r]), f)
  {
    if w.committed.None? {
      IsNextAppend(w.log, r, f.start, f.record);
    } else if w.committed.value != f.record.offset + 1 {
      IsNextAppend(w.log, r, w.committed.value, f.record);
    }
  }

  lemma LogGrowsKeepsInv(w: World, r: Record, w': World)
    requires Inv(w) && Next(w, LogGrows(r), w')
    ensures Inv(w')
  {
    LogGrowsKeepsStore(w, r);
    if w.session.Some? {
      LogGrowsKeepsSession(w, r, w.session.value);
    }
    if w.inFlight.Some? {
      LogGrowsKeepsInFlight(w, r, w.inFlight.value);
    }
  }

  /** What a step of the background task leaves alone. */
  lemma TaskFacts(log: seq<Record>, shutdown: Watch, p: Pipe, p': Pipe)
    requires TaskNext(log, shutdown, p, p')
    ensures p'.received == p.received
    ensures p.cursor.Reading? ==> p'.cursor.Reading? && p'.cursor.first == p.cursor.first
    ensures p.cursor.Unresolved? ==> p'.cursor == p.cursor || p'.cursor == Resolve(p.cursor.start, log)
  {
  }

  lemma TaskMovesSession(w: World, s: Session, p': Pipe)
    requires LogOk(w.log) && (w.shutdown.value <==> w.shutdown.version > 0)
    requires SessionOk(w, s) && TaskNext(w.log, w.shutdown, s.pipe, p')
    ensures SessionOk(w, s.(pipe := p'))
  {
    LineNextKeepsInv(Line(w.log, w.shutdown, s.pipe), TaskStep, Line(w.log, w.shutdown, p'));
    TaskFacts(w.log, w.shutdown, s.pipe, p');
    if s.pipe.cursor.Unresolved? {
      NothingReceivedYet(w.log, s.pipe);
    }
  }

  lemma TaskMovesKeepsInv(w: World, w': World)
    requires Inv(w) && Next(w, TaskMoves, w')
    ensures Inv(w')
  {
    TaskMovesSession(w, w.session.value, w'.session.value.pipe);
    SameStore(w, w');
  }

  /** The store's part of the invariant looks at the log, the store and the acknowledgements only. */
  lemma SameStore(w: World, w': World)
    requires StoreOk(w)
    requires w'.log == w.log && w'.committed == w.committed
    requires w'.candidates <= w.candidates && w'.committed in w'.candidates
    requires w'.base == w.base && w'.confirmed == w.confirmed && w.acked <= w'.acked
    ensures StoreOk(w')
  {
    forall v | v in w'.candidates ensures CandidateOk(w', v) {
      assert CandidateOk(w, v);
    }
  }

  lemma TakeKeepsPipe(log: seq<Record>, shutdown: Watch, p: Pipe)
    requires LogOk(log) && PipeOk(log, shutdown, p) && p.queue != []
    ensures PipeOk(log, shutdown, Take(p))
    ensures Records(Take(p).received) ==
            Records(p.received) + if p.queue[0].Message? then [p.queue[0].record] else []
    ensures p.cursor.Unresolved? ==> !p.queue[0].Message?
  {
    TakeKeeps(log, shutdown, p);
    if p.queue[0].Message? {
      TakeIsNext(log, shutdown, p);
    } else {
      RecordsAppend(p.received, p.queue[0]);
    }
  }

  /** Where a session with nothing pending stands after it has taken an item. */
  lemma TakenPosition(w: World, s: Session, s': Session)
    requires LogOk(w.log) && SessionOk(w, s) && StoreOk(w) && !s.terminated && s.pending.None?
    requires s.pipe.queue != [] && s'.pipe == Take(s.pipe)
    requires s'.pending == if s.pipe.queue[0].Message? then Some(s.pipe.queue[0].record) else None
    ensures PositionOk(w, s')
  {
    TakeKeepsPipe(w.log, w.shutdown, s.pipe);
    if s.pipe.queue[0].Message? {
      var handled, m := Records(s.pipe.received), s.pipe.queue[0].record;
      assert (handled + [m])[..|handled|] == handled && (handled + [m])[|handled|] == m;
      assert w.committed.Some? ==> CandidateOk(w, w.committed);
    }
  }

  lemma ReceivesSession(w: World, s: Session, refuses: bool, delivered: set<int>)
    requires LogOk(w.log) && SessionOk(w, s) && StoreOk(w)
    requires w.delivered <= delivered
    requires var polled := PollRecv(s, refuses).1;
      polled.Ready? && polled.reply.Delivered? ==> polled.reply.record.offset as int in delivered
    ensures SessionOk(w.(delivered := delivered), PollRecv(s, refuses).0)
  {
    var s' := PollRecv(s, refuses).0;
    if s' != s {
      TakeKeeps(w.log, w.shutdown, s.pipe);
      TakenPosition(w, s, s');
      assert PositionOk(w.(delivered := delivered), s');
    }
  }

  lemma ReceivesKeepsInv(w: World, refuses: bool, w': World)
    requires Inv(w) && Next(w, Receives(refuses), w')
    ensures Inv(w')
  {
    ReceivesSession(w, w.session.value, refuses, w'.delivered);
    SameStore(w, w');
  }

  /** What the store needs to know about the message being acknowledged. */
  lemma PendingMayLand(w: World, s: Session)
    requires LogOk(w.log) && SessionOk(w, s) && !s.terminated && s.pending.Some?
    ensures s.pipe.cursor.Reading? && s.pending.value in w.log
    ensures w.committed.None? ==> IsNext(w.log, s.pipe.cursor.first, s.pending.value)
    ensures w.committed.Some? ==>
      IsNext(w.log, w.committed.value, s.pending.value) || w.committed.value == s.pending.value.offset + 1
  {
    PendingIsNext(w, s);
  }

  /** After a commit of the pending message has landed the session still fits the store. */
  lemma LandedSession(w: World, s: Session, w': World)
    requires LogOk(w.log) && SessionOk(w, s) && !s.terminated && s.pending.Some?
    requires s.pending.value.offset < I64_MAX && w'.committed == Some(s.pending.value.offset + 1)
    requires w'.log == w.log && w'.shutdown == w.shutdown && w'.delivered == w.delivered && w'.epochs == w.epochs
    ensures w'.confirmed == w.confirmed ==> SessionOk(w', s)
    ensures SessionOk(w', s.(pending := None))
  {
  }

  /** What landing leaves alone. */
  lemma LandFacts(w: World, r: Record, start: int, synced: bool)
    requires r.offset < I64_MAX
    ensures var w' := Land(w, r, start, synced);
      && w'.log == w.log && w'.shutdown == w.shutdown && w'.session == w.session && w'.inFlight == w.inFlight
      && w'.confirmed == w.confirmed && w'.epochs == w.epochs && w'.delivered == w.delivered && w'.acked == w.acked
      && (synced ==> w'.candidates == {w'.committed})
  {
  }

  /** The store after the pending message has been acknowledged and its commit has landed. */
  lemma AckLandsStore(w: World, synced: bool)
    requires Inv(w) && CanAck(w) && w.session.value.pending.value.offset < I64_MAX
    ensures var s := w.session.value;
      var w' := Land(Acked(w), s.pending.value, s.pipe.cursor.first, synced);
      StoreOk(w') && w'.committed == Some(s.pending.value.offset + 1)
  {
    var s := w.session.value;
    PendingMayLand(w, s);
    SameStore(w, Acked(w));
    LandKeepsStore(Acked(w), s.pending.value, s.pipe.cursor.first, synced);
  }

  lemma ConfirmedKeepsInv(w: World, w': World)
    requires Inv(w) && Next(w, Acks(Confirmed), w')
    ensures Inv(w')
  {
    var s := w.session.value;
    AckLandsStore(w, true);
    LandFacts(Acked(w), s.pending.value, s.pipe.cursor.first, true);
    LandedSession(w, s, w');
    assert w'.candidates == {w'.committed};
  }

  lemma LandedOnlyKeepsInv(w: World, synced: bool, w': World)
    requires Inv(w) && Next(w, Acks(LandedOnly(synced)), w')
    ensures Inv(w')
  {
    var s := w.session.value;
    AckLandsStore(w, synced);
    LandFacts(Acked(w), s.pending.value, s.pipe.cursor.first, synced);
    LandedSession(w, s, w');
  }

  lemma AcksKeepsInv(w: World, outcome: AckOutcome, w': World)
    requires Inv(w) && Next(w, Acks(outcome), w')
    ensures Inv(w')
  {
    match outcome
    case LandedOnly(synced) => LandedOnlyKeepsInv(w, synced, w');
    case Confirmed => ConfirmedKeepsInv(w, w');
    case _ =>
      PendingMayLand(w, w.session.value);
      SameStore(w, Acked(w));
  }

  lemma SettlesKeepsInv(w: World, landed: bool, synced: bool, w': World)
    requires Inv(w) && Next(w, Settles(landed, synced), w')
    ensures Inv(w')
  {
    var f := w.inFlight.value;
    if landed {
      LandKeepsStore(w, f.record, f.start, synced);
      var after := Land(w, f.record, f.start, synced);
      forall v | v in w'.candidates ensures CandidateOk(w', v) {
        assert CandidateOk(after, v);
      }
    } else {
      forall v | v in w'.candidates ensures CandidateOk(w', v) {
        assert CandidateOk(w, v);
      }
    }
  }

  lemma LosesPowerKeepsInv(w: World, value: Option<i64>, w': World)
    requires Inv(w) && Next(w, LosesPower(value), w')
    ensures Inv(w')
  {
    assert CandidateOk(w, value);
    if value.Some? {
      forall r | r in w.log && InRange(r, w.base.value, value.value) ensures r.offset as int in w.acked {
        assert InRange(r, w.base.value, w.committed.value);
      }
    }
    assert CandidateOk(w', value);
  }

  lemma ConnectsKeepsInv(w: World, config: ConsumerConfig, w': World)
    requires Inv(w) && Next(w, Connects(config), w')
    ensures Inv(w')
  {
    SameStore(w, w');
    NewPipeOk(w.log, ResolveStartOffset(ConnectConfig(config, w.committed)), w.shutdown);
  }

  lemma ForgetsKeepsInv(w: World, w': World)
    requires Inv(w) && Next(w, Act.Forgets, w')
    ensures Inv(w')
  {
    assert w'.committed.None? && w'.candidates == {None};
    assert CandidateOk(w', None);
  }

  lemma BackgroundKeepsInv(w: World, mv: Move, w': World)
    requires Inv(w) && Next(w, Background(mv), w')
    ensures Inv(w')
  {
    SameStore(w, w');
  }

  /** Steps that close, give up or leave. */
  lemma LeavesKeepsInv(w: World, a: Act, w': World)
    requires Inv(w) && Next(w, a, w')
    requires a.NewPool? || a.DropsPending? || a.Leaves? || a.Crashes?
    ensures Inv(w')
  {
    SameStore(w, w');
  }

  lemma BroadcastKeepsSession(w: World, s: Session)
    requires SessionOk(w, s)
    ensures SessionOk(w.(shutdown := Watch(true, w.shutdown.version + 1)), s)
  {
    BroadcastKeeps(w.log, w.shutdown, s.pipe);
  }

  lemma PoolClosesKeepsInv(w: World, w': World)
    requires Inv(w) && Next(w, PoolCloses, w')
    ensures Inv(w')
  {
    SameStore(w, w');
    if w.session.Some? {
      BroadcastKeepsSession(w, w.session.value);
    }
  }

  lemma ClosesKeepsInv(w: World, a: Act, w': World)
    requires Inv(w) && Next(w, a, w') && (a.MarksClosed? || a.PoolCloses? || a.Nacks?)
    ensures Inv(w')
  {
    if a.PoolCloses? {
      PoolClosesKeepsInv(w, w');
    } else {
      SameStore(w, w');
    }
  }

  /** Steps that touch the store. */
  lemma StoreActKeepsInv(w: World, a: Act, w': World)
    requires Inv(w) && Next(w, a, w')
    requires a.Acks? || a.Settles? || a.LosesPower? || a.Forgets? || a.Background?
    ensures Inv(w')
  {
    match a
    case Acks(outcome) => AcksKeepsInv(w, outcome, w');
    case Settles(landed, synced) => SettlesKeepsInv(w, landed, synced, w');
    case LosesPower(value) => LosesPowerKeepsInv(w, value, w');
    case Forgets => ForgetsKeepsInv(w, w');
    case Background(mv) => BackgroundKeepsInv(w, mv, w');
  }

  /** Steps that touch the log, the task or the session's position. */
  lemma ReadingActKeepsInv(w: World, a: Act, w': World)
    requires Inv(w) && Next(w, a, w') && (a.LogGrows? || a.Connects? || a.TaskMoves? || a.Receives?)
    ensures Inv(w')
  {
    match a
    case LogGrows(r) => LogGrowsKeepsInv(w, r, w');
    case Connects(config) => ConnectsKeepsInv(w, config, w');
    case TaskMoves => TaskMovesKeepsInv(w, w');
    case Receives(refuses) => ReceivesKeepsInv(w, refuses, w');
  }

  lemma NextKeepsInv(w: World, a: Act, w': World)
    requires Inv(w) && Next(w, a, w')
    ensures Inv(w')
  {
    if a.Acks? || a.Settles? || a.LosesPower? || a.Forgets? || a.Background? {
      StoreActKeepsInv(w, a, w');
    } else if a.LogGrows? || a.Connects? || a.TaskMoves? || a.Receives? {
      ReadingActKeepsInv(w, a, w');
    } else if a.MarksClosed? || a.PoolCloses? || a.Nacks? {
      ClosesKeepsInv(w, a, w');
    } else {
      LeavesKeepsInv(w, a, w');
    }
  }

  /** What the steps leave open. The process can end and the pool close at any time, and the caller can
      give up or leave. */
  lemma LeavingIsOpen(w: World)
    ensures w.inFlight.None? && w.hold.OnDisk? ==>
      Next(w, Crashes, w.(session := None, closed := false, shutdown := Watch(false, 0)))
    ensures Next(w, MarksClosed, w.(closed := true))
    ensures w.closed ==> Next(w, PoolCloses, w.(shutdown := Watch(true, w.shutdown.version + 1)))
    ensures w.session.Some? ==> Next(w, Leaves, w.(session := None))
    ensures w.session.Some? ==> Next(w, DropsPending, w.(session := Some(DropPendingUnacked(w.session.value))))
  {
  }

  /** Power can be lost at any time, leaving any of the values it may leave, and other commits can work on
      the store's file. */
  lemma LossesAreOpen(w: World, value: Option<i64>)
    ensures value in w.candidates && w.hold.OnDisk? && !w.hold.dir.NoDirectory? ==>
      exists w' :: Next(w, LosesPower(value), w')
    ensures exists w' :: Next(w, Background(Makes), w')
    ensures exists w' :: Next(w, Background(Syncs), w')
  {
    var lost := Ended(w, Moved(StoreOf(w), Survives(value)));
    if value in w.candidates && w.hold.OnDisk? && !w.hold.dir.NoDirectory? {
      assert Next(w, LosesPower(value), lost);
    }
    assert Next(w, Background(Makes), WithStore(w, Moved(StoreOf(w), Makes)));
    assert Next(w, Background(Syncs), WithStore(w, Moved(StoreOf(w), Syncs)));
  }

  lemma AcksAreOpen(w: World, synced: bool)
    requires CanAck(w)
    ensures exists w' :: Next(w, Acks(NotLanded), w')
    ensures w.session.value.pending.value.offset < I64_MAX ==>
      && (exists w' :: Next(w, Acks(Confirmed), w'))
      && (exists w' :: Next(w, Acks(LandedOnly(synced)), w'))
      && (w.hold.OnDisk? ==> exists w' :: Next(w, Acks(LeftInFlight), w'))
  {
    var s := w.session.value;
    var r, start := s.pending.value, s.pipe.cursor.first;
    assert Next(w, Acks(NotLanded), Acked(w));
    if r.offset < I64_MAX {
      assert Next(w, Acks(Confirmed), Land(Acked(w), r, start, true).(
                    confirmed := Raised(w.committed, r.offset + 1), session := Some(s.(pending := None))));
      assert Next(w, Acks(LandedOnly(synced)), Land(Acked(w), r, start, synced));
      if w.hold.OnDisk? {
        assert Next(w, Acks(LeftInFlight), Acked(w).(inFlight := Some(InFlight(r, start))));
      }
    }
  }

  /** A commit in flight can land or not, whatever else has happened. */
  lemma SettlingIsOpen(w: World, landed: bool, synced: bool)
    requires Inv(w) && w.inFlight.Some?
    ensures exists w' :: Next(w, Settles(landed, synced), w')
  {
    var f := w.inFlight.value;
    var w' := (if landed then Land(w, f.record, f.start, synced) else w).(inFlight := None);
    assert Next(w, Settles(landed, synced), w');
  }

  // ---------------------------------------------------------------- whole runs

  ghost predicate Linked(ws: seq<World>, acts: seq<Act>, i: int)
    requires 0 <= i < |acts| < |ws|
  {
    Next(ws[i], acts[i], ws[i + 1])
  }

  /** One step after another, from anywhere. */
  ghost predicate Path(ws: seq<World>, acts: seq<Act>) {
    && |ws| == |acts| + 1
    && forall i :: 0 <= i < |acts| ==> Linked(ws, acts, i)
  }

  ghost predicate Run(ws: seq<World>, acts: seq<Act>) {
    Path(ws, acts) && Init(ws[0])
  }

  lemma {:induction false} RunKeepsInv(ws: seq<World>, acts: seq<Act>, n: nat)
    requires Run(ws, acts) && n <= |acts|
    ensures Inv(ws[n])
  {
    if n == 0 {
      InitInv(ws[0]);
    } else {
      RunKeepsInv(ws, acts, n - 1);
      assert Linked(ws, acts, n - 1);
      NextKeepsInv(ws[n - 1], acts[n - 1], ws[n]);
    }
  }

  /** No record is skipped: at every moment of every run, each record between the base and the stored
      position was handed to the caller and had `ack` called on it. After a power loss this holds
      of whichever of the possible values survives. */
  lemma NoRecordSkipped(ws: seq<World>, acts: seq<Act>, n: nat, r: Record, v: Option<i64>)
    requires Run(ws, acts) && n <= |acts|
    requires v in ws[n].candidates && v.Some?
    requires r in ws[n].log && ws[n].base.Some? && InRange(r, ws[n].base.value, v.value)
    ensures r.offset as int in ws[n].delivered && r.offset as int in ws[n].acked
    ensures ws[n].committed in ws[n].candidates
  {
    RunKeepsInv(ws, acts, n);
    var w := ws[n];
    assert CandidateOk(w, v);
    assert InRange(r, w.base.value, w.committed.value);
  }

  /** `s` is the live session of `w` and holds `m` unacknowledged. */
  predicate Holds(w: World, m: Record) {
    w.session.Some? && !w.session.value.terminated && w.session.value.pending == Some(m)
  }

  /** A pending message is the first record at or after the stored position, unless a commit of it
      has landed unconfirmed; while the store is empty it is the first record of the session. */
  lemma PendingIsFirstUncommitted(ws: seq<World>, acts: seq<Act>, n: nat, m: Record)
    requires Run(ws, acts) && n <= |acts| && Holds(ws[n], m)
    ensures ws[n].committed.Some? ==>
      ws[n].committed.value == m.offset + 1 || IsNext(ws[n].log, ws[n].committed.value, m)
    ensures ws[n].committed.None? ==>
      ws[n].session.value.pipe.cursor.Reading? &&
      IsNext(ws[n].log, ws[n].session.value.pipe.cursor.first, m)
  {
    RunKeepsInv(ws, acts, n);
    PendingIsNext(ws[n], ws[n].session.value);
  }

  /** Steps that can end a session's hold on its message. */
  predicate EndsHold(a: Act) {
    a == Acks(Confirmed) || a.DropsPending? || a.Leaves? || a.Crashes? || a.LosesPower? || a.Forgets?
  }

  lemma HoldStep(w: World, a: Act, w': World, m: Record)
    requires Next(w, a, w') && Holds(w, m) && !EndsHold(a)
    ensures Holds(w', m)
  {
  }

  /** An unacknowledged message comes again: until it is acknowledged with success, given up, or the
      session is gone, every receive returns it, whether or not the pool has closed, and takes
      nothing from the queue. */
  lemma {:induction false} HeldUntilAcknowledged(ws: seq<World>, acts: seq<Act>, n: nat, k: nat, m: Record)
    requires Run(ws, acts) && n <= k <= |acts| && Holds(ws[n], m)
    requires forall i :: n <= i < k ==> !EndsHold(acts[i])
    ensures Holds(ws[k], m)
    ensures forall refuses ::
      PollRecv(ws[k].session.value, refuses) == (ws[k].session.value, Ready(Delivered(m)))
  {
    if n < k {
      HeldUntilAcknowledged(ws, acts, n, k - 1, m);
      assert Linked(ws, acts, k - 1);
      HoldStep(ws[k - 1], acts[k - 1], ws[k], m);
    }
  }

  /** No session, or one that has been given up. */
  predicate Over(w: World) {
    w.session.Some? ==> w.session.value.terminated
  }

  lemma OverStep(w: World, a: Act, w': World)
    requires Next(w, a, w') && Over(w) && !a.Connects?
    ensures Over(w') && w'.delivered == w.delivered && w'.acked == w.acked
  {
  }

  /** Giving a message up ends the session: until the next connection nothing more is handed out or
      acknowledged. */
  lemma {:induction false} DropEndsSession(ws: seq<World>, acts: seq<Act>, n: nat, k: nat)
    requires Run(ws, acts) && n < k <= |acts| && acts[n].DropsPending?
    requires forall i :: n < i < k ==> !acts[i].Connects?
    ensures Over(ws[k]) && ws[k].delivered == ws[n].delivered && ws[k].acked == ws[n].acked
  {
    assert Linked(ws, acts, k - 1);
    if n + 1 < k {
      DropEndsSession(ws, acts, n, k - 1);
      OverStep(ws[k - 1], acts[k - 1], ws[k]);
    }
  }

  lemma ConfirmedStep(w: World, a: Act, w': World)
    requires Next(w, a, w') && w.confirmed.Some? && !a.Forgets?
    requires w.committed.Some? && w.confirmed.value <= w.committed.value
    ensures w'.confirmed.Some? && w.confirmed.value <= w'.confirmed.value
  {
  }

  lemma ConfirmedIsStored(ws: seq<World>, acts: seq<Act>, n: nat)
    requires Run(ws, acts) && n <= |acts| && ws[n].confirmed.Some?
    ensures ws[n].committed.Some? && ws[n].confirmed.value <= ws[n].committed.value
  {
    RunKeepsInv(ws, acts, n);
    assert CandidateOk(ws[n], ws[n].committed);
  }

  lemma ConfirmedInRun(ws: seq<World>, acts: seq<Act>, n: nat)
    requires Run(ws, acts) && n < |acts| && ws[n].confirmed.Some? && !acts[n].Forgets?
    ensures ws[n + 1].confirmed.Some? && ws[n].confirmed.value <= ws[n + 1].confirmed.value
  {
    ConfirmedIsStored(ws, acts, n);
    assert Linked(ws, acts, n);
    ConfirmedStep(ws[n], acts[n], ws[n + 1]);
  }

  lemma {:induction false} ConfirmedGrows(ws: seq<World>, acts: seq<Act>, n: nat, m: nat)
    requires Run(ws, acts) && n <= m <= |acts| && ws[n].confirmed.Some?
    requires forall i :: n <= i < m ==> !acts[i].Forgets?
    ensures ws[m].confirmed.Some? && ws[n].confirmed.value <= ws[m].confirmed.value
  {
    if n < m {
      ConfirmedGrows(ws, acts, n, m - 1);
      ConfirmedInRun(ws, acts, m - 1);
    }
  }

  lemma ConfirmedAckStep(w: World, w': World, m: Record)
    requires Next(w, Acks(Confirmed), w') && Holds(w, m)
    ensures w'.confirmed.Some? && m.offset < w'.confirmed.value
  {
  }

  lemma BeyondConfirmed(w: World, offset: int)
    requires Inv(w) && w.confirmed.Some? && offset < w.confirmed.value
    ensures forall v :: v in w.candidates ==> v.Some? && offset < v.value
    ensures w.committed.Some? && offset < w.committed.value
    ensures forall r :: Holds(w, r) ==> offset < r.offset
  {
    forall v | v in w.candidates ensures v.Some? && offset < v.value {
      assert CandidateOk(w, v);
    }
    forall r | Holds(w, r) ensures offset < r.offset {
      PendingIsNext(w, w.session.value);
    }
  }

  /** Once `ack` has reported success the record never comes back, unless the store forgets: the stored
      position stays past it through every later crash and power loss, and no session ever again
      holds it or anything before it. */
  lemma ConfirmedIsFinal(ws: seq<World>, acts: seq<Act>, n: nat, m: nat, acknowledged: Record)
    requires Run(ws, acts) && n < m <= |acts|
    requires acts[n] == Acks(Confirmed) && Holds(ws[n], acknowledged)
    requires forall i :: n < i < m ==> !acts[i].Forgets?
    ensures ws[m].committed.Some? && acknowledged.offset < ws[m].committed.value
    ensures forall v :: v in ws[m].candidates ==> v.Some? && acknowledged.offset < v.value
    ensures forall r :: Holds(ws[m], r) ==> acknowledged.offset < r.offset
  {
    assert Linked(ws, acts, n);
    ConfirmedAckStep(ws[n], ws[n + 1], acknowledged);
    RunKeepsInv(ws, acts, m);
    ConfirmedGrows(ws, acts, n + 1, m);
    BeyondConfirmed(ws[m], acknowledged.offset);
  }

  /** Every step moves the store as the stores can move. */
  lemma StepMovesStore(w: World, a: Act, w': World) returns (mv: Move)
    requires Next(w, a, w')
    ensures Allowed(StoreOf(w), mv) && StoreOf(w') == Moved(StoreOf(w), mv)
    ensures mv.Forgets? <==> a.Forgets?
  {
    mv := match a
      case Acks(Confirmed) => Lands(w.session.value.pending.value.offset + 1, true)
      case Acks(LandedOnly(synced)) => Lands(w.session.value.pending.value.offset + 1, synced)
      case Settles(true, synced) => Lands(w.inFlight.value.record.offset + 1, synced)
      case LosesPower(value) => Survives(value)
      case Forgets => Move.Forgets
      case Background(m) => m
      case _ => Stays;
  }

  /** A store forgets exactly as long as it is not a file in a directory that is certain to be there:
      one step may always take what was confirmed, and from then on none can. */
  lemma ForgetsExactly(w: World)
    ensures (exists w' :: Next(w, Act.Forgets, w')) <==> !Safe(w.hold)
  {
    if !Safe(w.hold) {
      assert Next(w, Act.Forgets, Ended(w, Moved(StoreOf(w), Move.Forgets)).(confirmed := None));
    }
  }

  lemma {:induction false} SafeStays(ws: seq<World>, acts: seq<Act>, n: nat, m: nat)
    requires Run(ws, acts) && n <= m <= |acts| && Safe(ws[n].hold)
    ensures Safe(ws[m].hold) && (m < |acts| ==> !acts[m].Forgets?)
  {
    if n < m {
      SafeStays(ws, acts, n, m - 1);
      assert Linked(ws, acts, m - 1);
      var mv := StepMovesStore(ws[m - 1], acts[m - 1], ws[m]);
    }
    if m < |acts| {
      assert Linked(ws, acts, m);
    }
  }

  // ---------------------------------------------------------------- redelivery

  lemma LogStep(w: World, a: Act, w': World)
    requires Next(w, a, w')
    ensures w.log <= w'.log && w.epochs <= w'.epochs
  {
  }

  lemma LogInRun(ws: seq<World>, acts: seq<Act>, n: nat)
    requires Run(ws, acts) && n < |acts|
    ensures ws[n].log <= ws[n + 1].log && ws[n].epochs <= ws[n + 1].epochs
  {
    assert Linked(ws, acts, n);
    LogStep(ws[n], acts[n], ws[n + 1]);
  }

  lemma {:induction false} LogGrowsOnly(ws: seq<World>, acts: seq<Act>, n: nat, m: nat)
    requires Run(ws, acts) && n <= m <= |acts|
    ensures ws[n].log <= ws[m].log && ws[n].epochs <= ws[m].epochs
  {
    if n < m {
      LogGrowsOnly(ws, acts, n, m - 1);
      LogInRun(ws, acts, m - 1);
      PrefixTransitive(ws[n].log, ws[m - 1].log, ws[m].log);
    }
  }

  lemma PrefixTransitive(a: seq<Record>, b: seq<Record>, c: seq<Record>)
    requires a <= b && b <= c
    ensures a <= c
  {
  }

  lemma SessionStep(w: World, a: Act, w': World)
    requires Next(w, a, w') && w'.session.Some?
    ensures !a.Connects? ==> w.session.Some?
    ensures !a.Connects? ==> w'.session.value.epoch == w.session.value.epoch
    ensures !a.Connects? ==> w'.session.value.born == w.session.value.born
    ensures a.Connects? ==> w'.session.value.born == LogEnd(w.log)
  {
  }

  lemma LongerLogEndsLater(log: seq<Record>, log': seq<Record>)
    requires log <= log' && LogOk(log')
    ensures LogEnd(log) <= LogEnd(log')
  {
    if log != [] {
      assert log[|log| - 1] == log'[|log| - 1];
      BelowEnd(log', log'[|log| - 1]);
    }
  }

  lemma RunFacts(ws: seq<World>, acts: seq<Act>, n: nat)
    requires Run(ws, acts) && n <= |acts|
    ensures LogOk(ws[n].log)
    ensures ws[n].session.Some? ==> ws[n].session.value.epoch < ws[n].epochs
  {
    RunKeepsInv(ws, acts, n);
  }

  /** A session opened after moment `n` was born when the log was at least that long. */
  lemma {:induction false} LaterSessionBornLater(ws: seq<World>, acts: seq<Act>, n: nat, m: nat)
    requires Run(ws, acts) && n < m <= |acts|
    requires ws[m].session.Some? && ws[m].session.value.epoch >= ws[n].epochs
    ensures LogEnd(ws[n].log) <= ws[m].session.value.born
  {
    assert Linked(ws, acts, m - 1);
    SessionStep(ws[m - 1], acts[m - 1], ws[m]);
    RunFacts(ws, acts, m - 1);
    if acts[m - 1].Connects? {
      LogGrowsOnly(ws, acts, n, m - 1);
      LongerLogEndsLater(ws[n].log, ws[m - 1].log);
    } else if n < m - 1 {
      LaterSessionBornLater(ws, acts, n, m - 1);
    }
  }

  lemma OffsetsOrdered(log: seq<Record>, i: nat, j: nat)
    requires LogOk(log) && i < |log| && j < |log|
    ensures log[i].offset < log[j].offset <==> i < j
  {
  }

  lemma SameFirst(log: seq<Record>, log': seq<Record>, a: int, p: Record, q: Record)
    requires log <= log' && LogOk(log')
    requires IsNext(log, a, p) && IsNext(log', a, q)
    ensures p == q
  {
    var k :| 0 <= k < |log| && log[k] == p;
    var j :| 0 <= j < |log'| && log'[j] == q;
    assert log'[k] == p && p in log';
    OffsetsOrdered(log', k, j);
    assert q == log[j];
    OffsetsOrdered(log', j, k);
  }

  /** A message given up unacknowledged comes first again after reconnecting exactly when the caller
      had something for the new session to start from: a value in the store, a configured start
      offset, or reading from the beginning. The store holds the same value at moments `n` and `m`, no
      commit of either message has landed, and if the store is empty, so that the configuration
      decides, both sessions were opened with the same one. */
  lemma RedeliveredExactlyWhenAnchored(
      ws: seq<World>, acts: seq<Act>, n: nat, m: nat, p: Record, q: Record)
    requires Run(ws, acts) && n < m <= |acts|
    requires Holds(ws[n], p) && Holds(ws[m], q)
    requires ws[m].session.value.epoch >= ws[n].epochs
    requires ws[n].committed == ws[m].committed
    requires ws[n].committed.None? ==> ws[n].session.value.config == ws[m].session.value.config
    requires ws[n].committed.Some? ==>
      ws[n].committed.value != p.offset + 1 && ws[n].committed.value != q.offset + 1
    ensures var config := ws[n].session.value.config;
      p == q <==> ws[n].committed.Some? || config.startOffset.Some? || config.fromBeginning
  {
    RunKeepsInv(ws, acts, n);
    RunKeepsInv(ws, acts, m);
    PendingIsFirstUncommitted(ws, acts, n, p);
    PendingIsFirstUncommitted(ws, acts, m, q);
    LogGrowsOnly(ws, acts, n, m);
    var w, w' := ws[n], ws[m];
    if w.committed.Some? {
      SameFirst(w.log, w'.log, w.committed.value, p, q);
    } else {
      var first, first' := w.session.value.pipe.cursor.first, w'.session.value.pipe.cursor.first;
      if ResolveStartOffset(w.session.value.config).Latest? {
        LaterSessionBornLater(ws, acts, n, m);
        BelowEnd(w.log, p);
      } else {
        SameFirst(w.log, w'.log, first, p, q);
      }
    }
  }

  // ---------------------------------------------------------------- what can happen next

  lemma Extend(ws: seq<World>, acts: seq<Act>, a: Act, w': World) returns (ws': seq<World>, acts': seq<Act>)
    requires Path(ws, acts) && Next(ws[|acts|], a, w')
    ensures ws' == ws + [w'] && acts' == acts + [a] && ws'[0] == ws[0]
    ensures Path(ws', acts') && ws'[|acts'|] == w'
  {
    ws', acts' := ws + [w'], acts + [a];
    forall i | 0 <= i < |acts'| ensures Linked(ws', acts', i) {
      if i < |acts| {
        assert Linked(ws, acts, i);
      }
    }
  }

  function WithPipe(w: World, p: Pipe): World
    requires w.session.Some?
  {
    w.(session := Some(w.session.value.(pipe := p)))
  }

  lemma TaskExtend(ws: seq<World>, acts: seq<Act>, p: Pipe) returns (ws': seq<World>, acts': seq<Act>)
    requires Path(ws, acts) && ws[|acts|].session.Some?
    requires TaskNext(ws[|acts|].log, ws[|acts|].shutdown, ws[|acts|].session.value.pipe, p)
    ensures Path(ws', acts') && ws'[0] == ws[0] && ws'[|acts'|] == WithPipe(ws[|acts|], p)
  {
    ws', acts' := Extend(ws, acts, TaskMoves, WithPipe(ws[|acts|], p));
  }

  /** Whatever session there is is left, and a new pool opened. */
  lemma StartOver(ws: seq<World>, acts: seq<Act>) returns (ws': seq<World>, acts': seq<Act>)
    requires Path(ws, acts)
    ensures Path(ws', acts') && ws'[0] == ws[0]
    ensures ws'[|acts'|] == ws[|acts|].(session := None, closed := false, shutdown := Watch(false, 0))
  {
    ws', acts' := ws, acts;
    if ws[|acts|].session.Some? {
      ws', acts' := Extend(ws', acts', Leaves, ws[|acts|].(session := None));
    }
    ws', acts' := Extend(ws', acts', NewPool, ws'[|acts'|].(closed := false, shutdown := Watch(false, 0)));
  }

  /** A stream that stands at `n` and is about to be polled. */
  function Tuned(n: int): Pipe {
    Pipe(Reading(n, n), Poll(Fetch), 0, None, [], [], true, 0)
  }

  /** A new session connects and its task polls the stream for the first time. */
  lemma Tune(ws: seq<World>, acts: seq<Act>, config: ConsumerConfig)
    returns (ws': seq<World>, acts': seq<Act>, n: int)
    requires Path(ws, acts) && ws[|acts|].session.None? && ws[|acts|].inFlight.None?
    requires ws[|acts|].shutdown == Watch(false, 0)
    ensures Path(ws', acts') && ws'[0] == ws[0]
    ensures var w := ws[|acts|];
      && Resolve(ResolveStartOffset(ConnectConfig(config, w.committed)), w.log) == Reading(n, n)
      && ws'[|acts'|] == w.(epochs := w.epochs + 1,
                            session := Some(Session(Tuned(n), None, false, config, w.epochs, LogEnd(w.log))))
  {
    var w := ws[|acts|];
    var s := Connected(config, w.committed, w.shutdown, w.epochs, LogEnd(w.log));
    var p := s.pipe;
    ws', acts' := Extend(ws, acts, Connects(config), w.(session := Some(s), epochs := w.epochs + 1));
    p := p.(task := Changed(Fetch));
    ws', acts' := TaskExtend(ws', acts', p);
    p := p.(task := Poll(Fetch));
    ws', acts' := TaskExtend(ws', acts', p);
    p := p.(cursor := Resolve(p.cursor.start, w.log));
    ws', acts' := TaskExtend(ws', acts', p);
    n := p.cursor.first;
  }

  /** The next record is fetched and queued. */
  lemma Enqueue(ws: seq<World>, acts: seq<Act>, n: int, r: Record) returns (ws': seq<World>, acts': seq<Act>)
    requires Path(ws, acts) && ws[|acts|].session.Some? && ws[|acts|].session.value.pipe == Tuned(n)
    requires ws[|acts|].shutdown == Watch(false, 0) && IsNext(ws[|acts|].log, n, r)
    ensures Path(ws', acts') && ws'[0] == ws[0]
    ensures ws'[|acts'|] == WithPipe(ws[|acts|],
      Pipe(Reading(n, r.offset + 1), Borrow(Fetch), 0, None, [Message(r)], [], true, 0))
  {
    var q := Tuned(n).(cursor := Reading(n, r.offset + 1), hand := Some(Message(r)), task := Borrow(Send));
    ws', acts' := TaskExtend(ws, acts, q);
    q := q.(task := Changed(Send));
    ws', acts' := TaskExtend(ws', acts', q);
    q := q.(task := Poll(Send));
    ws', acts' := TaskExtend(ws', acts', q);
    q := q.(queue := [Message(r)], hand := None, task := Borrow(Fetch));
    ws', acts' := TaskExtend(ws', acts', q);
  }

  /** And received. */
  lemma Hand(ws: seq<World>, acts: seq<Act>, n: int, r: Record) returns (ws': seq<World>, acts': seq<Act>)
    requires Path(ws, acts) && ws[|acts|].session.Some? && ws[|acts|].session.value.pipe == Tuned(n)
    requires ws[|acts|].session.value.pending.None? && !ws[|acts|].session.value.terminated
    requires ws[|acts|].shutdown == Watch(false, 0) && IsNext(ws[|acts|].log, n, r)
    ensures Path(ws', acts') && ws'[0] == ws[0]
    ensures var w, w' := ws[|acts|], ws'[|acts'|];
      && Holds(w', r) && w'.session.value.pipe.cursor == Reading(n, r.offset + 1)
      && w' == w.(session := w'.session, delivered := w.delivered + {r.offset as int})
  {
    ws', acts' := Enqueue(ws, acts, n, r);
    var before := ws'[|acts'|];
    var (s, polled) := PollRecv(before.session.value, false);
    var after := before.(session := Some(s), delivered := before.delivered + {r.offset as int});
    ws', acts' := Extend(ws', acts', Receives(false), after);
  }

  /** A message at the head of the session is acknowledged with success. */
  lemma Confirm(ws: seq<World>, acts: seq<Act>, r: Record) returns (ws': seq<World>, acts': seq<Act>)
    requires Path(ws, acts) && Holds(ws[|acts|], r) && r.offset < I64_MAX
    requires ws[|acts|].session.value.pipe.cursor.Reading? && ws[|acts|].inFlight.None?
    ensures Path(ws', acts') && ws'[0] == ws[0] && acts' == acts + [Acks(Confirmed)]
    ensures var w, w' := ws[|acts|], ws'[|acts'|];
      && w'.log == w.log && w'.delivered == w.delivered && w'.acked == w.acked + {r.offset as int}
      && StoreOf(w') == Moved(StoreOf(w), Lands(r.offset + 1, true))
      && w'.base == (if w.committed.None? then Some(w.session.value.pipe.cursor.first) else w.base)
      && w'.inFlight.None? && w'.session.Some? && w'.session.value.pending.None?
  {
    var w := ws[|acts|];
    var acked := Land(Acked(w), r, w.session.value.pipe.cursor.first, true).(
                   confirmed := Raised(w.committed, r.offset + 1),
                   session := Some(w.session.value.(pending := None)));
    ws', acts' := Extend(ws, acts, Acks(Confirmed), acked);
  }

  /** Nothing stands in the way of the next record: from any state the invariant allows, with no commit in
      flight, the first record at or after where a new session starts can be delivered and acknowledged,
      and the store then holds the position just past it. */
  lemma NextRecordGetsThrough(w: World, config: ConsumerConfig, n: int, r: Record)
    returns (ws: seq<World>, acts: seq<Act>)
    requires Inv(w) && w.inFlight.None? && r.offset < I64_MAX
    requires Resolve(ResolveStartOffset(ConnectConfig(config, w.committed)), w.log) == Reading(n, n)
    requires IsNext(w.log, n, r)
    ensures Path(ws, acts) && ws[0] == w
    ensures var w' := ws[|acts|];
      && w'.log == w.log && w'.committed == Some(r.offset + 1)
      && r.offset as int in w'.delivered && r.offset as int in w'.acked
  {
    ws, acts := StartOver([w], []);
    var m;
    ws, acts, m := Tune(ws, acts, config);
    ws, acts := Hand(ws, acts, n, r);
    ws, acts := Confirm(ws, acts, r);
  }

  // ---------------------------------------------------------------- a run that skips a record

  const FROM_LATEST := ConsumerConfig(false, None)

  /** A world between sessions: the pool is open, nothing is in flight, the store is empty. */
  ghost predicate Idle(w: World) {
    && w.session.None? && w.inFlight.None? && w.committed.None? && w.shutdown == Watch(false, 0)
    && LogOk(w.log)
  }

  lemma AppendedIsNext(log: seq<Record>, r: Record)
    requires LogOk(log) && r.offset == LogEnd(log)
    ensures IsNext(log + [r], r.offset, r) && LogOk(log + [r])
  {
    LongerLogOk(log, r);
    assert (log + [r])[|log|] == r;
    forall q | q in log + [r] && q.offset >= r.offset ensures r.offset <= q.offset {}
  }

  /** A session reads from the latest offset; then a record is appended, fetched, queued and received. */
  lemma Deliver(ws: seq<World>, acts: seq<Act>, r: Record) returns (ws': seq<World>, acts': seq<Act>)
    requires Path(ws, acts) && Idle(ws[|acts|]) && r.offset == LogEnd(ws[|acts|].log)
    ensures Path(ws', acts') && ws'[0] == ws[0]
    ensures var w, w' := ws[|acts|], ws'[|acts'|];
      && Holds(w', r) && w'.session.value.pipe.cursor == Reading(r.offset, r.offset + 1) && LogOk(w'.log)
      && w' == w.(log := w.log + [r], session := w'.session, epochs := w.epochs + 1,
                  delivered := w.delivered + {r.offset as int})
  {
    var w := ws[|acts|];
    AppendedIsNext(w.log, r);
    var n;
    ws', acts', n := Tune(ws, acts, FROM_LATEST);
    var grown := ws'[|acts'|].(log := w.log + [r]);
    ws', acts' := Extend(ws', acts', LogGrows(r), grown);
    ws', acts' := Hand(ws', acts', n, r);
  }

  /** Nothing has happened and nothing is stored. */
  function Fresh(hold: Hold): World {
    World([], false, Watch(false, 0), None, {None}, hold, None, None, None, None, 0, {}, {})
  }

  /** The first record is delivered and acknowledged with success. */
  lemma ConfirmFirst(hold: Hold) returns (ws: seq<World>, acts: seq<Act>)
    ensures Run(ws, acts) && acts != [] && acts[|acts| - 1] == Acks(Confirmed)
    ensures var w := ws[|acts|];
      && w.log == [Record(0, 0)] && w.delivered == {0} && w.base == Some(0)
      && StoreOf(w) == View(Some(1), {Some(1)}, MadeHold(hold))
  {
    ws, acts := Deliver([Fresh(hold)], [], Record(0, 0));
    ws, acts := Confirm(ws, acts, Record(0, 0));
  }

  /** What was confirmed can be lost: in a store that is not a file in a directory certain to be there,
      the end of the process may leave nothing of a commit that reported success. */
  lemma ConfirmedForgotten(hold: Hold) returns (ws: seq<World>, acts: seq<Act>)
    requires !Safe(hold)
    ensures Run(ws, acts) && |acts| >= 2 && acts[|acts| - 2] == Acks(Confirmed)
    ensures ws[|acts| - 1].committed == Some(1) && ws[|acts|].committed.None?
  {
    ws, acts := ConfirmFirst(hold);
    var w := ws[|acts|];
    var forgotten := Ended(w, Moved(StoreOf(w), Move.Forgets)).(confirmed := None);
    ws, acts := Extend(ws, acts, Act.Forgets, forgotten);
  }

  /** The first record is delivered and acknowledged, and a second one is appended. */
  lemma ConfirmThenAppend() returns (ws: seq<World>, acts: seq<Act>)
    ensures Run(ws, acts)
    ensures var w := ws[|acts|];
      && w.log == [Record(0, 0), Record(1, 0)] && w.delivered == {0} && w.base == Some(0)
      && StoreOf(w) == View(Some(1), {Some(1)}, OnDisk(KeptDirectory))
  {
    ws, acts := ConfirmFirst(OnDisk(KeptDirectory));
    var grown := ws[|acts|].(log := [Record(0, 0), Record(1, 0)]);
    assert grown.log == ws[|acts|].log + [Record(1, 0)];
    ws, acts := Extend(ws, acts, LogGrows(Record(1, 0)), grown);
  }

  lemma SettledView(d: Disk, key: Key, next: i64)
    requires Settled(d) && d.dir.KeptDirectory? && LoadFile(d.target) == Ok(map[key := next])
    ensures FileView(d, key) == View(Some(next), {Some(next)}, OnDisk(KeptDirectory))
  {
    SurvivorsGrow({}, d.target, key);
  }

  /** A commit on another topic that does not spare the key can move its position past a record that
      was never delivered: the first record is acknowledged, a second one is appended, and the topic made
      of `t`, a tab and `q`, with partition 2, is committed to the same file. */
  lemma TabTopicSkipsRecord(t: string, q: i32, later: i64)
    returns (ws: seq<World>, acts: seq<Act>, ds: seq<Disk>, es: seq<Event>, w: World)
    requires CleanTopic(t) && 0 <= later < I64_MAX
    ensures Run(ws, acts) && FileStore.Run(ds, es)
    ensures es == [Tried(Key(t, q), 0, Returned(Ok(()))),
                   Tried(Key(t + ['\t'] + Decimal.Print(q), 2), later, Returned(Ok(())))]
    ensures StoreOf(ws[|acts|]) == FileView(ds[1], Key(t, q))
    ensures w == WithStore(ws[|acts|], FileView(ds[2], Key(t, q)))
    ensures Record(1, 0) in w.log && w.base == Some(0) && w.committed == Some(2) && 1 !in w.delivered
  {
    ws, acts := ConfirmThenAppend();
    TwoSortsAfterOne(later + 1);
    ds, es := TabTopicOverwrites(t, q, 0, 2, later);
    SettledView(ds[1], Key(t, q), 1);
    SettledView(ds[2], Key(t, q), 2);
    w := WithStore(ws[|acts|], FileView(ds[2], Key(t, q)));
    assert w.log[1] == Record(1, 0);
  }

  /** Without such an anchor the promise fails: reading from the latest offset with an empty store, a
      message received and given up at offset 0 is never seen again, and a commit goes past it
      although `ack` was never called on it. */
  lemma GivenUpAndSkipped() returns (ws: seq<World>, acts: seq<Act>)
    ensures Run(ws, acts)
    ensures var w := ws[|acts|];
      && Record(0, 0) in w.log && 0 in w.delivered && 0 !in w.acked
      && w.committed == Some(2) && w.base == Some(1)
  {
    ws, acts := Deliver([Fresh(OnDisk(KeptDirectory))], [], Record(0, 0));
    var w := ws[|acts|];
    w := w.(session := Some(DropPendingUnacked(w.session.value)));
    ws, acts := Extend(ws, acts, DropsPending, w);
    w := w.(session := None);
    ws, acts := Extend(ws, acts, Leaves, w);
    ws, acts := Deliver(ws, acts, Record(1, 0));
    ws, acts := Confirm(ws, acts, Record(1, 0));
  }
}
