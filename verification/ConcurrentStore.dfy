/** Any number of concurrent calls on one file store. Each call queues for the async lock; the one
    that gets it moves the lock guard into a blocking task, which keeps it until it ends, whether or
    not the future that started it is still there. */
module ConcurrentStore {
  import opened Common
  import opened OffsetTable
  import opened OffsetFile
  import opened FileStore

  /** Offsets reaching this point passed `next_offset_of`. */
  datatype Op =
    | Write(key: Key, offset: i64)
    | Read(key: Key)

  datatype Pc =
    | Waiting                    // the future is queued for the lock
    | Abandoned                  // dropped while queued, or killed with the process
    | Locked                     // the blocking task owns the guard
    | Loaded(m: Table)           // table read and raised
    | Placed(m: Table)           // directory there
    | Opened(m: Table)           // temporary file created
    | Written(m: Table)
    | Forced(m: Table)           // temporary file synced
    | Renamed
    | Failed
    | Committed
    | Answered(value: Option<i64>, at: nat)

  /** `arrived` is how many writes had landed when the call was made. */
  datatype Job = Job(op: Op, pc: Pc, arrived: nat)

  /** A write that replaced the target file, and what the file has read as since. */
  datatype Landing = Landing(job: nat, call: Call, after: Result<Table>)

  datatype Store = Store(disk: Disk, lock: Option<nat>, jobs: seq<Job>, landed: seq<Landing>)

  predicate Holding(pc: Pc) {
    pc.Locked? || pc.Loaded? || pc.Placed? || pc.Opened? || pc.Written? || pc.Forced? || pc.Renamed?
  }

  function CallOf(op: Op): Call
    requires op.Write?
  {
    CommitCall(op.key, op.offset)
  }

  predicate AllowedOp(op: Op) {
    op.Write? ==> 0 <= op.offset < I64_MAX
  }

  function At(s: Store, i: nat, pc: Pc): Store
    requires i < |s.jobs|
  {
    s.(jobs := s.jobs[i := s.jobs[i].(pc := pc)])
  }

  /** The blocking task ends and drops its guard. */
  function End(s: Store, i: nat, pc: Pc): Store
    requires i < |s.jobs|
  {
    At(s, i, pc).(lock := None)
  }

  datatype Action =
    | Arrive(op: Op)
    | Drop(i: nat)
    | Acquire(i: nat)
    | Advance(i: nat)
    | Break(i: nat)
    | Crash

  ghost predicate Next(s: Store, a: Action, s': Store) {
    match a
    case Arrive(op) => AllowedOp(op) && s' == s.(jobs := s.jobs + [Job(op, Waiting, |s.landed|)])
    case Drop(i) => i < |s.jobs| && s.jobs[i].pc.Waiting? && s' == At(s, i, Abandoned)
    case Acquire(i) =>
      i < |s.jobs| && s.jobs[i].pc.Waiting? && s.lock.None? && s' == At(s, i, Locked).(lock := Some(i))
    case Advance(i) => i < |s.jobs| && Holding(s.jobs[i].pc) && Advanced(s, i, s')
    case Break(i) => i < |s.jobs| && Holding(s.jobs[i].pc) && Broken(s, i, s')
    case Crash => s' == s.(lock := None, jobs := Killed(s.jobs))
  }

  /** One file-system call of the blocking task, succeeding. */
  ghost predicate Advanced(s: Store, i: nat, s': Store)
    requires i < |s.jobs|
  {
    var op := s.jobs[i].op;
    match s.jobs[i].pc
    case Locked =>
      (match LoadFile(s.disk.target)
       case Err(_) => s' == End(s, i, Failed)
       case Ok(m) =>
         if op.Write? then s' == At(s, i, Loaded(Apply(m, CallOf(op))))
         else s' == End(s, i, Answered(Lookup(m, op.key), |s.landed|)))
    case Loaded(m) => s' == At(s, i, Placed(m)).(disk := MakeDirectory(s.disk))
    case Placed(m) => s' == At(s, i, Opened(m)).(disk := OpenTemp(s.disk))
    case Opened(m) => s' == At(s, i, Written(m)).(disk := WriteTemp(s.disk, SavedText(m)))
    case Written(m) => s.disk.temp.Some? && s' == At(s, i, Forced(m)).(disk := SyncTemp(s.disk))
    case Forced(_) => s.disk.temp.Some? && op.Write? && s' == Landed(At(s, i, Renamed), i)
    case Renamed => s' == End(s, i, Committed).(disk := SyncDirectory(s.disk))
    case _ => false
  }

  function Landed(s: Store, i: nat): Store
    requires i < |s.jobs| && s.jobs[i].op.Write? && s.disk.temp.Some?
  {
    s.(disk := RenameTemp(s.disk), landed := s.landed + [Landing(i, CallOf(s.jobs[i].op), LoadFile(s.disk.temp))])
  }

  /** One file-system call reporting an error: it may or may not have taken effect, and a failed
      write leaves anything in the temporary file. */
  ghost predicate Broken(s: Store, i: nat, s': Store)
    requires i < |s.jobs|
  {
    match s.jobs[i].pc
    case Locked => s' == End(s, i, Failed)
    case Forced(_) =>
      || s' == End(s, i, Failed)
      || (s.disk.temp.Some? && s.jobs[i].op.Write? && s' == Landed(End(s, i, Failed), i))
    case Renamed =>
      s' == End(s, i, Failed) || s' == End(s, i, Failed).(disk := SyncDirectory(s.disk))
    case Loaded(_) => s' == End(s, i, Failed) || s' == End(s, i, Failed).(disk := MakeDirectory(s.disk))
    case _ => s' == End(s, i, Failed).(disk := s'.disk) && s'.disk == s.disk.(temp := s'.disk.temp)
  }

  function Killed(jobs: seq<Job>): (r: seq<Job>)
    ensures |r| == |jobs|
    ensures forall i :: 0 <= i < |jobs| ==>
      r[i] == if Holding(jobs[i].pc) || jobs[i].pc.Waiting? then jobs[i].(pc := Abandoned) else jobs[i]
  {
    Map((j: Job) => if Holding(j.pc) || j.pc.Waiting? then j.(pc := Abandoned) else j, jobs)
  }

  // ---------------------------------------------------------------- the invariant

  function Calls(landed: seq<Landing>): (r: seq<Call>)
    ensures |r| == |landed| && forall i :: 0 <= i < |landed| ==> r[i] == landed[i].call
  {
    Map((l: Landing) => l.call, landed)
  }

  /** What the file read as after the first `n` writes that landed. */
  function TableAt(initial: Table, landed: seq<Landing>, n: nat): Result<Table>
    requires n <= |landed|
  {
    if n == 0 then Ok(initial) else landed[n - 1].after
  }

  /** Write `p` was made of what the file read as just before it; `kept` is what a table reads as once
      it has been written. */
  ghost predicate ChainOk(kept: Table -> Result<Table>, initial: Table, landed: seq<Landing>, p: int)
    requires 0 <= p < |landed|
  {
    && TableAt(initial, landed, p).Ok?
    && landed[p].after == kept(Apply(TableAt(initial, landed, p).value, landed[p].call))
  }

  /** What the holder of the lock has in hand agrees with the file it is about to replace. */
  ghost predicate HolderOk(s: Store, job: Job, current: Result<Table>) {
    match job.pc
    case Loaded(m) => Prepared(job, m, current)
    case Placed(m) => Prepared(job, m, current)
    case Opened(m) => Prepared(job, m, current) && s.disk.temp.Some?
    case Written(m) => Prepared(job, m, current) && s.disk.temp == Some(File(SavedText(m), false))
    case Forced(m) => Prepared(job, m, current) && s.disk.temp == Saved(m)
    case Renamed => job.op.Write?
    case _ => true
  }

  ghost predicate Prepared(job: Job, m: Table, current: Result<Table>) {
    job.op.Write? && current.Ok? && m == Apply(current.value, CallOf(job.op))
  }

  predicate HasLanded(s: Store, i: nat) {
    exists p :: 0 <= p < |s.landed| && s.landed[p].job == i
  }

  ghost predicate JobOk(s: Store, initial: Table, i: nat)
    requires i < |s.jobs|
  {
    var job := s.jobs[i];
    && AllowedOp(job.op)
    && job.arrived <= |s.landed|
    && (Holding(job.pc) ==> s.lock == Some(i))
    && ((job.pc.Waiting? || (Holding(job.pc) && !job.pc.Renamed?)) ==> !HasLanded(s, i))
    && (job.pc.Renamed? || job.pc.Committed? ==> HasLanded(s, i))
    && (job.pc.Committed? ==> job.op.Write?)
    && (job.pc.Answered? ==>
         && job.op.Read?
         && job.arrived <= job.pc.at <= |s.landed|
         && TableAt(initial, s.landed, job.pc.at).Ok?
         && job.pc.value == Lookup(TableAt(initial, s.landed, job.pc.at).value, job.op.key))
  }

  ghost predicate LandingOk(s: Store, p: int)
    requires 0 <= p < |s.landed|
  {
    var l := s.landed[p];
    && l.job < |s.jobs|
    && s.jobs[l.job].op.Write? && l.call == CallOf(s.jobs[l.job].op)
    && s.jobs[l.job].arrived <= p
    && forall q :: 0 <= q < p ==> s.landed[q].job != l.job
  }

  ghost predicate Inv(s: Store, initial: Table) {
    && LoadFile(s.disk.target) == TableAt(initial, s.landed, |s.landed|)
    && (forall i :: 0 <= i < |s.jobs| ==> JobOk(s, initial, i))
    && (forall p :: 0 <= p < |s.landed| ==> LandingOk(s, p))
    && (forall p :: 0 <= p < |s.landed| ==> ChainOk(Reread, initial, s.landed, p))
    && (s.lock.Some? ==>
         && s.lock.value < |s.jobs| && Holding(s.jobs[s.lock.value].pc)
         && HolderOk(s, s.jobs[s.lock.value], TableAt(initial, s.landed, |s.landed|)))
  }

  ghost predicate Init(s: Store, initial: Table) {
    s.lock.None? && s.jobs == [] && s.landed == [] && LoadFile(s.disk.target) == Ok(initial)
  }

  /** The table after the calls, each made on what the one before it left. */
  function Serial(kept: Table -> Result<Table>, initial: Table, calls: seq<Call>): Result<Table> {
    if calls == [] then Ok(initial)
    else
      match Serial(kept, initial, calls[..|calls| - 1])
      case Err(e) => Err(e)
      case Ok(m) => kept(Apply(m, calls[|calls| - 1]))
  }

  lemma {:induction false} TableAtIsSerial(
      kept: Table -> Result<Table>, initial: Table, landed: seq<Landing>, n: nat)
    requires n <= |landed| && forall p :: 0 <= p < |landed| ==> ChainOk(kept, initial, landed, p)
    ensures TableAt(initial, landed, n) == Serial(kept, initial, Calls(landed)[..n])
  {
    if n > 0 {
      TableAtIsSerial(kept, initial, landed, n - 1);
      assert ChainOk(kept, initial, landed, n - 1);
      assert Calls(landed)[..n][..n - 1] == Calls(landed)[..n - 1];
    }
  }

  ghost predicate CleanCall(call: Call) {
    CleanTopic(call.key.topic)
  }

  /** A file that keeps clean tables goes through exactly the tables the memory store does. */
  lemma {:induction false} SerialWhenClean(kept: Table -> Result<Table>, initial: Table, calls: seq<Call>)
    requires forall m :: CleanTable(m) ==> kept(m) == Ok(m)
    requires CleanTable(initial) && forall c :: c in calls ==> CleanCall(c)
    ensures Serial(kept, initial, calls) == Ok(ApplyAll(initial, calls)) && CleanTable(ApplyAll(initial, calls))
  {
    if calls != [] {
      var before, last := calls[..|calls| - 1], calls[|calls| - 1];
      assert calls == before + [last];
      SerialWhenClean(kept, initial, before);
      assert CleanCall(last);
    }
  }

  lemma RereadKeepsClean()
    ensures forall m :: CleanTable(m) ==> Reread(m) == Ok(m)
  {
    forall m | CleanTable(m) ensures Reread(m) == Ok(m) {
      SaveThenLoad(m);
    }
  }

  /** A job changes its program counter; nothing lands. */
  lemma KeepsJobs(s: Store, i: nat, pc: Pc, s': Store, initial: Table)
    requires Inv(s, initial) && i < |s.jobs|
    requires s'.jobs == s.jobs[i := s.jobs[i].(pc := pc)] && s'.landed == s.landed
    requires s'.lock == s.lock || s.lock.None? || s.lock == Some(i)
    requires JobOk(s', initial, i)
    ensures forall j :: 0 <= j < |s'.jobs| ==> JobOk(s', initial, j)
    ensures forall p :: 0 <= p < |s'.landed| ==> LandingOk(s', p)
  {
    forall j | 0 <= j < |s'.jobs| ensures JobOk(s', initial, j) {
      assert JobOk(s, initial, j);
      assert HasLanded(s', j) == HasLanded(s, j);
    }
    forall p | 0 <= p < |s'.landed| ensures LandingOk(s', p) {
      assert LandingOk(s, p);
    }
  }

  /** The file about to be renamed holds what the holder prepared from the current one. */
  lemma ForcedFacts(s: Store, job: Job, current: Result<Table>)
    requires HolderOk(s, job, current) && job.pc.Forced?
    ensures job.op.Write? && current.Ok?
    ensures s.disk.temp.Some? && LoadFile(s.disk.temp) == Reread(Apply(current.value, CallOf(job.op)))
  {
    SavedRereads(job.pc.m);
  }

  lemma ChainAppend(kept: Table -> Result<Table>, initial: Table, landed: seq<Landing>, l: Landing)
    requires forall p :: 0 <= p < |landed| ==> ChainOk(kept, initial, landed, p)
    requires TableAt(initial, landed, |landed|).Ok?
    requires l.after == kept(Apply(TableAt(initial, landed, |landed|).value, l.call))
    ensures forall p :: 0 <= p < |landed + [l]| ==> ChainOk(kept, initial, landed + [l], p)
  {
    forall p | 0 <= p < |landed + [l]| ensures ChainOk(kept, initial, landed + [l], p) {
      if p < |landed| {
        assert ChainOk(kept, initial, landed, p);
      }
    }
  }

  lemma LandedChain(s: Store, i: nat, initial: Table, l: Landing)
    requires Inv(s, initial) && i < |s.jobs| && s.jobs[i].pc.Forced? && s.lock == Some(i)
    requires s.jobs[i].op.Write? && l == Landing(i, CallOf(s.jobs[i].op), LoadFile(s.disk.temp))
    ensures forall p :: 0 <= p < |s.landed + [l]| ==> ChainOk(Reread, initial, s.landed + [l], p)
  {
    ForcedFacts(s, s.jobs[i], TableAt(initial, s.landed, |s.landed|));
    ChainAppend(Reread, initial, s.landed, l);
  }

  lemma LandedJob(s: Store, l: Landing, s': Store, initial: Table, j: nat)
    requires j < |s.jobs| && JobOk(s, initial, j) && j != l.job
    requires s'.landed == s.landed + [l] && j < |s'.jobs| && s'.jobs[j] == s.jobs[j]
    requires !Holding(s.jobs[j].pc)
    ensures JobOk(s', initial, j)
  {
    LandedGrows(s, s', l, j);
  }

  lemma LandingKeepsJobs(s: Store, i: nat, pc: Pc, l: Landing, s': Store, initial: Table)
    requires Inv(s, initial) && i < |s.jobs| && s.jobs[i].pc.Forced? && s.lock == Some(i)
    requires (pc == Renamed && s'.lock == Some(i)) || pc == Failed
    requires l.job == i && s'.landed == s.landed + [l] && s'.jobs == s.jobs[i := s.jobs[i].(pc := pc)]
    ensures forall j :: 0 <= j < |s'.jobs| ==> JobOk(s', initial, j)
  {
    forall j | 0 <= j < |s'.jobs| ensures JobOk(s', initial, j) {
      assert JobOk(s, initial, j);
      LandedGrows(s, s', l, j);
      if j != i {
        LandedJob(s, l, s', initial, j);
      }
    }
  }

  lemma LandingKeepsOrder(s: Store, i: nat, pc: Pc, l: Landing, s': Store, initial: Table)
    requires Inv(s, initial) && i < |s.jobs| && s.jobs[i].pc.Forced?
    requires s.jobs[i].op.Write? && l.job == i && l.call == CallOf(s.jobs[i].op)
    requires s'.landed == s.landed + [l] && s'.jobs == s.jobs[i := s.jobs[i].(pc := pc)]
    ensures forall p :: 0 <= p < |s'.landed| ==> LandingOk(s', p)
  {
    assert JobOk(s, initial, i);
    forall p | 0 <= p < |s'.landed| ensures LandingOk(s', p) {
      if p < |s.landed| {
        assert LandingOk(s, p);
      }
    }
  }

  /** The holder's rename lands: the target becomes the table it prepared. */
  lemma LandingKeeps(s: Store, i: nat, pc: Pc, lock: Option<nat>, s': Store, initial: Table)
    requires Inv(s, initial) && i < |s.jobs| && s.jobs[i].pc.Forced? && s.lock == Some(i)
    requires (pc == Renamed && lock == Some(i)) || (pc == Failed && lock == None)
    requires s.disk.temp.Some? && s.jobs[i].op.Write?
    requires s' == Landed(At(s, i, pc).(lock := lock), i)
    ensures Inv(s', initial)
  {
    var l := Landing(i, CallOf(s.jobs[i].op), LoadFile(s.disk.temp));
    LandedChain(s, i, initial, l);
    LandingKeepsJobs(s, i, pc, l, s', initial);
    LandingKeepsOrder(s, i, pc, l, s', initial);
  }

  lemma LandedGrows(s: Store, s': Store, l: Landing, j: nat)
    requires s'.landed == s.landed + [l]
    ensures HasLanded(s', j) <==> HasLanded(s, j) || l.job == j
  {
    if p :| 0 <= p < |s.landed| && s.landed[p].job == j {
      assert s'.landed[p].job == j;
    }
    assert s'.landed[|s.landed|] == l;
  }

  lemma LandedInRange(s: Store, initial: Table)
    requires Inv(s, initial)
    ensures forall j: nat :: HasLanded(s, j) ==> j < |s.jobs|
  {
    forall j: nat | HasLanded(s, j) ensures j < |s.jobs| {
      var p :| 0 <= p < |s.landed| && s.landed[p].job == j;
      assert LandingOk(s, p);
    }
  }

  lemma AdvanceKeeps(s: Store, i: nat, s': Store, initial: Table)
    requires Inv(s, initial) && i < |s.jobs| && Holding(s.jobs[i].pc) && Advanced(s, i, s')
    ensures Inv(s', initial)
  {
    var pc := s.jobs[i].pc;
    assert JobOk(s, initial, i);
    if pc.Forced? {
      LandingKeeps(s, i, Renamed, Some(i), s', initial);
    } else {
      assert HasLanded(s', i) == HasLanded(s, i);
      KeepsJobs(s, i, s'.jobs[i].pc, s', initial);
    }
  }

  /** What a failing call changes when nothing lands. */
  lemma BrokenFacts(s: Store, i: nat, s': Store)
    requires i < |s.jobs| && Holding(s.jobs[i].pc) && Broken(s, i, s') && s'.landed == s.landed
    ensures s'.jobs == s.jobs[i := s.jobs[i].(pc := Failed)] && s'.lock.None?
    ensures s'.disk.target == s.disk.target
  {
  }

  /** The holder gives up the lock with the file as it was. */
  lemma FailKeeps(s: Store, i: nat, s': Store, initial: Table)
    requires Inv(s, initial) && i < |s.jobs| && Holding(s.jobs[i].pc)
    requires s'.jobs == s.jobs[i := s.jobs[i].(pc := Failed)] && s'.landed == s.landed
    requires s'.lock.None? && s'.disk.target == s.disk.target
    ensures Inv(s', initial)
  {
    assert JobOk(s, initial, i);
    KeepsJobs(s, i, Failed, s', initial);
  }

  lemma BreakKeeps(s: Store, i: nat, s': Store, initial: Table)
    requires Inv(s, initial) && i < |s.jobs| && Holding(s.jobs[i].pc) && Broken(s, i, s')
    ensures Inv(s', initial)
  {
    assert JobOk(s, initial, i);
    if s'.landed != s.landed {
      LandingKeeps(s, i, Failed, None, s', initial);
    } else {
      BrokenFacts(s, i, s');
      FailKeeps(s, i, s', initial);
    }
  }

  lemma ArriveKeeps(s: Store, op: Op, s': Store, initial: Table)
    requires Inv(s, initial) && Next(s, Arrive(op), s')
    ensures Inv(s', initial)
  {
    LandedInRange(s, initial);
    forall j | 0 <= j < |s'.jobs| ensures JobOk(s', initial, j) {
      assert HasLanded(s', j) == HasLanded(s, j);
      if j < |s.jobs| {
        assert JobOk(s, initial, j);
      }
    }
    forall p | 0 <= p < |s'.landed| ensures LandingOk(s', p) {
      assert LandingOk(s, p);
    }
  }

  lemma CrashKeeps(s: Store, s': Store, initial: Table)
    requires Inv(s, initial) && Next(s, Crash, s')
    ensures Inv(s', initial)
  {
    forall j | 0 <= j < |s'.jobs| ensures JobOk(s', initial, j) {
      assert JobOk(s, initial, j);
      assert HasLanded(s', j) == HasLanded(s, j);
    }
    forall p | 0 <= p < |s'.landed| ensures LandingOk(s', p) {
      assert LandingOk(s, p);
    }
  }

  lemma NextKeepsInv(s: Store, a: Action, s': Store, initial: Table)
    requires Inv(s, initial) && Next(s, a, s')
    ensures Inv(s', initial)
  {
    match a
    case Arrive(op) => ArriveKeeps(s, op, s', initial);
    case Drop(i) =>
      assert JobOk(s, initial, i);
      KeepsJobs(s, i, Abandoned, s', initial);
    case Acquire(i) =>
      assert JobOk(s, initial, i);
      assert HasLanded(s', i) == HasLanded(s, i);
      KeepsJobs(s, i, Locked, s', initial);
    case Advance(i) => AdvanceKeeps(s, i, s', initial);
    case Break(i) => BreakKeeps(s, i, s', initial);
    case Crash => CrashKeeps(s, s', initial);
  }

  // ---------------------------------------------------------------- the result

  ghost predicate Trace(ss: seq<Store>, acts: seq<Action>, initial: Table) {
    && |ss| == |acts| + 1
    && Init(ss[0], initial)
    && forall i :: 0 <= i < |acts| ==> Next(ss[i], acts[i], ss[i + 1])
  }

  lemma {:induction false} ReachableInv(ss: seq<Store>, acts: seq<Action>, initial: Table, n: nat)
    requires Trace(ss, acts, initial) && n <= |acts|
    ensures Inv(ss[n], initial)
  {
    if n > 0 {
      ReachableInv(ss, acts, initial, n - 1);
      NextKeepsInv(ss[n - 1], acts[n - 1], ss[n], initial);
    }
  }

  /** The writes that landed are some of the writes made, each once; one that reported success is
      among them, and each takes its place after everything that had landed when it was made. */
  lemma LandedOnce(ss: seq<Store>, acts: seq<Action>, initial: Table, n: nat)
    requires Trace(ss, acts, initial) && n <= |acts|
    ensures var s := ss[n];
      && (forall p, q :: 0 <= p < q < |s.landed| ==> s.landed[p].job != s.landed[q].job)
      && (forall p :: 0 <= p < |s.landed| ==>
            var j := s.landed[p].job;
            j < |s.jobs| && s.jobs[j].op.Write? && s.landed[p].call == CallOf(s.jobs[j].op) && s.jobs[j].arrived <= p)
      && (forall i :: 0 <= i < |s.jobs| && s.jobs[i].pc.Committed? ==> HasLanded(s, i))
  {
    ReachableInv(ss, acts, initial, n);
    var s := ss[n];
    forall p, q | 0 <= p < q < |s.landed| ensures s.landed[p].job != s.landed[q].job {
      assert LandingOk(s, q);
    }
    forall p | 0 <= p < |s.landed|
      ensures var j := s.landed[p].job;
        j < |s.jobs| && s.jobs[j].op.Write? && s.landed[p].call == CallOf(s.jobs[j].op) && s.jobs[j].arrived <= p
    {
      assert LandingOk(s, p);
    }
    forall i | 0 <= i < |s.jobs| && s.jobs[i].pc.Committed? ensures HasLanded(s, i) {
      assert JobOk(s, initial, i);
    }
  }

  /** In every reachable state the file holds the result of making, one at a time and in some order,
      exactly the writes that landed; with clean topics that is the table of the memory store. A
      read answers from the file as it was at some point between the moment it was made and now. */
  lemma Linearised(ss: seq<Store>, acts: seq<Action>, initial: Table, n: nat)
    requires Trace(ss, acts, initial) && n <= |acts|
    ensures var s := ss[n];
      && LoadFile(s.disk.target) == Serial(Reread, initial, Calls(s.landed))
      && ((forall c :: c in Calls(s.landed) ==> CleanCall(c)) ==>
            LoadFile(s.disk.target) == Ok(ApplyAll(initial, Calls(s.landed))))
      && (forall i :: 0 <= i < |s.jobs| && s.jobs[i].pc.Answered? ==> AnswerOk(s, initial, s.jobs[i]))
  {
    ReachableInv(ss, acts, initial, n);
    LoadFileIsClean(ss[0].disk.target);
    var s := ss[n];
    TableAtIsSerial(Reread, initial, s.landed, |s.landed|);
    assert Calls(s.landed)[..|s.landed|] == Calls(s.landed);
    if forall c :: c in Calls(s.landed) ==> CleanCall(c) {
      RereadKeepsClean();
      SerialWhenClean(Reread, initial, Calls(s.landed));
    }
    forall i | 0 <= i < |s.jobs| && s.jobs[i].pc.Answered? ensures AnswerOk(s, initial, s.jobs[i]) {
      assert JobOk(s, initial, i);
      TableAtIsSerial(Reread, initial, s.landed, s.jobs[i].pc.at);
    }
  }

  /** The read saw the file as it was after some of the writes, not fewer than had landed when it
      was made. */
  ghost predicate AnswerOk(s: Store, initial: Table, job: Job)
    requires job.pc.Answered?
  {
    && job.op.Read?
    && job.arrived <= job.pc.at <= |s.landed|
    && Serial(Reread, initial, Calls(s.landed)[..job.pc.at]).Ok?
    && job.pc.value == Lookup(Serial(Reread, initial, Calls(s.landed)[..job.pc.at]).value, job.op.key)
  }

  // ---------------------------------------------------------------- a call that is not disturbed

  ghost predicate Linked(ss: seq<Store>, acts: seq<Action>, i: int)
    requires 0 <= i < |acts| < |ss|
  {
    Next(ss[i], acts[i], ss[i + 1])
  }

  /** One step after another, from anywhere. */
  ghost predicate Path(ss: seq<Store>, acts: seq<Action>) {
    && |ss| == |acts| + 1
    && forall i :: 0 <= i < |acts| ==> Linked(ss, acts, i)
  }

  lemma PathCons(s: Store, a: Action, rest: seq<Store>, more: seq<Action>)
    requires Path(rest, more) && Next(s, a, rest[0])
    ensures Path([s] + rest, [a] + more)
  {
    forall k | 0 <= k < |[a] + more| ensures Linked([s] + rest, [a] + more, k) {
      if k > 0 {
        assert Linked(rest, more, k - 1);
      }
    }
  }

  /** File-system calls the holder of the lock still makes. */
  function CallsLeft(pc: Pc): nat {
    match pc
    case Locked => 7
    case Loaded(_) => 6
    case Placed(_) => 5
    case Opened(_) => 4
    case Written(_) => 3
    case Forced(_) => 2
    case Renamed => 1
    case _ => 0
  }

  lemma AdvancedFall(s: Store, i: nat, s': Store)
    requires i < |s.jobs| && Holding(s.jobs[i].pc) && Advanced(s, i, s')
    ensures i < |s'.jobs| && CallsLeft(s'.jobs[i].pc) < CallsLeft(s.jobs[i].pc)
  {
    var pc := s.jobs[i].pc;
    if pc.Locked? && s'.jobs[i].pc.Loaded? {
      assert CallsLeft(s'.jobs[i].pc) == 6;
    }
  }

  lemma BrokenEnds(s: Store, i: nat, s': Store)
    requires i < |s.jobs| && Holding(s.jobs[i].pc) && Broken(s, i, s')
    ensures s'.jobs == s.jobs[i := s.jobs[i].(pc := Failed)]
  {
  }

  /** Every call the holder makes, working or not, brings the end of its turn nearer. */
  lemma CallsLeftFall(s: Store, i: nat, s': Store)
    requires i < |s.jobs| && Holding(s.jobs[i].pc) && (Advanced(s, i, s') || Broken(s, i, s'))
    ensures i < |s'.jobs| && CallsLeft(s'.jobs[i].pc) < CallsLeft(s.jobs[i].pc)
  {
    if Advanced(s, i, s') {
      AdvancedFall(s, i, s');
    } else {
      BrokenEnds(s, i, s');
    }
  }

  /** The holder can always make its next call, and a call waiting for a free lock can take it. */
  lemma SomeoneMoves(s: Store, initial: Table, i: nat) returns (s': Store)
    requires Inv(s, initial) && i < |s.jobs|
    requires Holding(s.jobs[i].pc) || (s.jobs[i].pc.Waiting? && s.lock.None?)
    ensures Next(s, if Holding(s.jobs[i].pc) then Advance(i) else Acquire(i), s')
  {
    assert JobOk(s, initial, i);
    if s.jobs[i].pc.Waiting? {
      s' := At(s, i, Locked).(lock := Some(i));
    } else {
      s' := HolderMoves(s, initial, i);
    }
  }

  lemma HolderMoves(s: Store, initial: Table, i: nat) returns (s': Store)
    requires Inv(s, initial) && i < |s.jobs| && Holding(s.jobs[i].pc) && s.lock == Some(i)
    ensures Advanced(s, i, s')
  {
    var op := s.jobs[i].op;
    match s.jobs[i].pc
    case Locked =>
      var loaded := LoadFile(s.disk.target);
      if loaded.Err? {
        s' := End(s, i, Failed);
      } else if op.Write? {
        s' := At(s, i, Loaded(Apply(loaded.value, CallOf(op))));
      } else {
        s' := End(s, i, Answered(Lookup(loaded.value, op.key), |s.landed|));
      }
    case Loaded(m) => s' := At(s, i, Placed(m)).(disk := MakeDirectory(s.disk));
    case Placed(m) => s' := At(s, i, Opened(m)).(disk := OpenTemp(s.disk));
    case Opened(m) => s' := At(s, i, Written(m)).(disk := WriteTemp(s.disk, SavedText(m)));
    case Written(m) => s' := At(s, i, Forced(m)).(disk := SyncTemp(s.disk));
    case Forced(_) => s' := Landed(At(s, i, Renamed), i);
    case Renamed => s' := End(s, i, Committed).(disk := SyncDirectory(s.disk));
  }

  /** How a turn with working calls that began in `s` ends for job `i`: a write lands and is reported, a
      read answers, and only a file that cannot be read stops either. */
  ghost predicate EndsWell(s: Store, i: nat, job: Job)
    requires i < |s.jobs|
  {
    match job.pc
    case Committed => s.jobs[i].op.Write?
    case Answered(_, _) => s.jobs[i].op.Read? && LoadFile(s.disk.target).Ok?
    case Failed => s.jobs[i].pc.Locked? && LoadFile(s.disk.target).Err?
    case _ => false
  }

  /** The holder's next call: it ends the turn, or leaves the holder closer to its end. */
  lemma TurnMoves(s: Store, initial: Table, i: nat) returns (s': Store)
    requires Inv(s, initial) && i < |s.jobs| && Holding(s.jobs[i].pc) && s.lock == Some(i)
    ensures Next(s, Advance(i), s') && Inv(s', initial) && i < |s'.jobs|
    ensures CallsLeft(s'.jobs[i].pc) < CallsLeft(s.jobs[i].pc)
    ensures s'.lock.None? ==> EndsWell(s, i, s'.jobs[i])
    ensures s'.lock.Some? ==>
      && s'.lock == Some(i) && Holding(s'.jobs[i].pc) && !s'.jobs[i].pc.Locked?
      && s.jobs[i].op.Write? && s'.jobs[i].op == s.jobs[i].op
  {
    s' := HolderMoves(s, initial, i);
    CallsLeftFall(s, i, s');
    AdvanceFacts(s, i, s', initial);
    AdvanceKeeps(s, i, s', initial);
  }

  lemma LaterEndsWell(s: Store, s': Store, i: nat, job: Job)
    requires i < |s.jobs| && i < |s'.jobs| && EndsWell(s', i, job)
    requires s.jobs[i].op.Write? && s'.jobs[i].op == s.jobs[i].op && !s'.jobs[i].pc.Locked?
    ensures EndsWell(s, i, job)
  {
  }

  lemma {:induction false} TurnEnds(s: Store, initial: Table, i: nat) returns (ss: seq<Store>, acts: seq<Action>)
    requires Inv(s, initial) && i < |s.jobs| && Holding(s.jobs[i].pc) && s.lock == Some(i)
    ensures Path(ss, acts) && ss[0] == s && |acts| <= CallsLeft(s.jobs[i].pc)
    ensures ss[|acts|].lock.None? && i < |ss[|acts|].jobs| && EndsWell(s, i, ss[|acts|].jobs[i])
    decreases CallsLeft(s.jobs[i].pc)
  {
    var s1 := TurnMoves(s, initial, i);
    var rest, more := [s1], [];
    if s1.lock.Some? {
      rest, more := TurnEnds(s1, initial, i);
      LaterEndsWell(s, s1, i, rest[|more|].jobs[i]);
    }
    PathCons(s, Advance(i), rest, more);
    ss, acts := [s] + rest, [Advance(i)] + more;
    assert ss[|acts|] == rest[|more|];
  }

  lemma AdvanceFacts(s: Store, i: nat, s': Store, initial: Table)
    requires Inv(s, initial) && i < |s.jobs| && Holding(s.jobs[i].pc) && s.lock == Some(i) && Advanced(s, i, s')
    ensures |s'.jobs| == |s.jobs| && s'.jobs[i].op == s.jobs[i].op
    ensures s'.lock == Some(i) ==> Holding(s'.jobs[i].pc) && !s'.jobs[i].pc.Locked? && s.jobs[i].op.Write?
    ensures s'.lock.None? ==> EndsWell(s, i, s'.jobs[i])
    ensures s'.lock.None? || s'.lock == Some(i)
  {
    assert JobOk(s, initial, i);
    assert HolderOk(s, s.jobs[i], TableAt(initial, s.landed, |s.landed|));
  }

  /** Nothing is assumed to work: the holder's call can fail at every stage, the process can die at any
      time, a queued future can be dropped, and any write or read can arrive. */
  lemma FaultsAreOpen(s: Store, i: nat, op: Op)
    requires i < |s.jobs|
    ensures exists s' :: Next(s, Crash, s')
    ensures AllowedOp(op) ==> exists s' :: Next(s, Arrive(op), s')
    ensures s.jobs[i].pc.Waiting? ==> exists s' :: Next(s, Drop(i), s')
    ensures Holding(s.jobs[i].pc) ==> exists s' :: Next(s, Break(i), s')
  {
    assert Next(s, Crash, s.(lock := None, jobs := Killed(s.jobs)));
    if AllowedOp(op) {
      assert Next(s, Arrive(op), s.(jobs := s.jobs + [Job(op, Waiting, |s.landed|)]));
    }
    if s.jobs[i].pc.Waiting? {
      assert Next(s, Drop(i), At(s, i, Abandoned));
    }
    if Holding(s.jobs[i].pc) {
      assert Broken(s, i, End(s, i, Failed));
      assert Next(s, Break(i), End(s, i, Failed));
    }
  }
}
