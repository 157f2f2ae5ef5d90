/** The file-backed offset store over a file system whose every call may fail, or may be the last
    thing the process does, and which may lose power at any time. */
module FileStore {
  import opened Common
  import opened OffsetTable
  import opened OffsetFile
  import opened OddTopics
  import Decimal

  // ---------------------------------------------------------------- the file system

  /** A file's contents, and whether they have been forced to the device. */
  datatype File = File(text: string, synced: bool)

  /** The directory of the store's path: not there, made by a commit but never forced out in its own
      parent directory, or certain to be there. */
  datatype Directory = NoDirectory | FreshDirectory | KeptDirectory

  /** The two names the store uses in one directory. `past` collects what the target name may turn
      out to refer to after a power loss: everything it has referred to since the directory was
      last forced to the device. */
  datatype Disk = Disk(dir: Directory, target: Option<File>, temp: Option<File>, past: set<Option<File>>)

  function Made(dir: Directory): Directory {
    if dir.NoDirectory? then FreshDirectory else dir
  }

  function MakeDirectory(d: Disk): Disk {
    d.(dir := Made(d.dir))
  }

  function OpenTemp(d: Disk): Disk {
    d.(temp := Some(File("", false)))
  }

  function WriteTemp(d: Disk, text: string): Disk {
    d.(temp := Some(File(text, false)))
  }

  function SyncTemp(d: Disk): Disk
    requires d.temp.Some?
  {
    d.(temp := Some(d.temp.value.(synced := true)))
  }

  function RenameTemp(d: Disk): Disk
    requires d.temp.Some?
  {
    d.(target := d.temp, temp := None, past := d.past + {d.temp})
  }

  /** Forces out the names in the directory, but not the directory's own name in its parent. */
  function SyncDirectory(d: Disk): Disk {
    d.(past := {d.target})
  }

  const NOWHERE := Disk(NoDirectory, None, None, {None})

  /** After a power loss a directory whose own name was never forced out may be gone. If it is there,
      the target name refers to something it referred to since the directory was last synced, and
      a file that was never synced may hold anything. */
  ghost predicate PowerLoss(d: Disk, d': Disk) {
    || (!d.dir.KeptDirectory? && d' == NOWHERE)
    || (!d.dir.NoDirectory? && d'.dir.KeptDirectory? && Reappears(d, d'))
  }

  ghost predicate Reappears(d: Disk, d': Disk) {
    exists f :: f in d.past && SurvivesAs(f, d'.target) && d'.past == {d'.target}
  }

  ghost predicate SurvivesAs(f: Option<File>, g: Option<File>) {
    match f
    case None => g.None?
    case Some(file) => g.Some? && g.value.synced && (file.synced ==> g == f)
  }

  /** How a file-system call ends: it works, it reports an error, or the process dies in it. */
  datatype Fault = Works | Fails | Dies

  /** How an operation of the store ends. */
  datatype Outcome<+T> = Returned(result: Result<T>) | Died

  /** How a series of calls that stops at the first that does not work comes out. */
  function Ended(calls: seq<Fault>): Fault {
    if calls == [] then Works else if calls[0] != Works then calls[0] else Ended(calls[1..])
  }

  /** What an operation that made these calls returns: its own answer if all of them worked, and
      otherwise what the first that did not makes of it. */
  function Outcomes<T>(calls: seq<Fault>, answer: Result<T>): Outcome<T> {
    match Ended(calls)
    case Works => Returned(answer)
    case Fails => Returned(Err(Io))
    case Dies => Died
  }

  lemma {:induction false} EndedConcat(a: seq<Fault>, b: seq<Fault>)
    ensures Ended(a + b) == if Ended(a) == Works then Ended(b) else Ended(a)
  {
    if a == [] {
      assert a + b == b;
    } else {
      assert (a + b)[1..] == a[1..] + b;
      EndedConcat(a[1..], b);
    }
  }

  /** The calls made between two moments came out as `fault`. */
  predicate CameOut(was: seq<Fault>, now: seq<Fault>, fault: Fault) {
    was <= now && Ended(now[|was|..]) == fault
  }

  lemma OneMoreCall(was: seq<Fault>, before: seq<Fault>, fault: Fault)
    requires CameOut(was, before, Works)
    ensures CameOut(was, before + [fault], fault)
  {
    assert (before + [fault])[|was|..] == before[|was|..] + [fault];
    assert [fault][1..] == [];
    EndedConcat(before[|was|..], [fault]);
  }

  lemma MoreCalls(was: seq<Fault>, before: seq<Fault>, now: seq<Fault>)
    requires CameOut(was, before, Works) && before <= now
    ensures CameOut(was, now, Ended(now[|before|..]))
  {
    assert now[|was|..] == before[|was|..] + now[|before|..];
    EndedConcat(before[|was|..], now[|before|..]);
  }

  /** `calls` collects how every call made so far has ended. */
  class FileSystem {
    var disk: Disk
    ghost var calls: seq<Fault>

    constructor (disk: Disk)
      ensures this.disk == disk
    {
      this.disk := disk;
      calls := [];
    }

    method ReadTarget() returns (fault: Fault, text: Option<string>)
      modifies this`calls
      ensures calls == old(calls) + [fault]
      ensures fault == Works ==>
        text == match disk.target { case None => None case Some(f) => Some(f.text) }
    {
      fault := *;
      calls := calls + [fault];
      text := None;
      if fault == Works && disk.target.Some? {
        text := Some(disk.target.value.text);
      }
    }

    method CreateParent() returns (fault: Fault)
      modifies this
      ensures calls == old(calls) + [fault]
      ensures disk == MakeDirectory(old(disk)) || (fault != Works && disk == old(disk))
    {
      fault := *;
      calls := calls + [fault];
      var took: bool := *;
      if fault == Works || took {
        disk := MakeDirectory(disk);
      }
    }

    method Open() returns (fault: Fault)
      modifies this
      ensures calls == old(calls) + [fault]
      ensures disk == OpenTemp(old(disk)) || (fault != Works && disk == old(disk))
    {
      fault := *;
      calls := calls + [fault];
      var took: bool := *;
      if fault == Works || took {
        disk := OpenTemp(disk);
      }
    }

    /** A write that fails may have left any part of the text behind. */
    method WriteAll(text: string) returns (fault: Fault)
      requires disk.temp.Some?
      modifies this
      ensures calls == old(calls) + [fault]
      ensures disk == if fault == Works then WriteTemp(old(disk), text) else old(disk).(temp := disk.temp)
      ensures disk.temp.Some?
    {
      fault := *;
      calls := calls + [fault];
      var done :| 0 <= done <= |text|;
      disk := WriteTemp(disk, if fault == Works then text else text[..done]);
    }

    method SyncFile() returns (fault: Fault)
      requires disk.temp.Some?
      modifies this
      ensures calls == old(calls) + [fault]
      ensures disk == SyncTemp(old(disk)) || (fault != Works && disk == old(disk))
    {
      fault := *;
      calls := calls + [fault];
      var took: bool := *;
      if fault == Works || took {
        disk := SyncTemp(disk);
      }
    }

    method Rename() returns (fault: Fault)
      requires disk.temp.Some?
      modifies this
      ensures calls == old(calls) + [fault]
      ensures disk == RenameTemp(old(disk)) || (fault != Works && disk == old(disk))
    {
      fault := *;
      calls := calls + [fault];
      var took: bool := *;
      if fault == Works || took {
        disk := RenameTemp(disk);
      }
    }

    method SyncParent() returns (fault: Fault)
      modifies this
      ensures calls == old(calls) + [fault]
      ensures disk == SyncDirectory(old(disk)) || (fault != Works && disk == old(disk))
    {
      fault := *;
      calls := calls + [fault];
      var took: bool := *;
      if fault == Works || took {
        disk := SyncDirectory(disk);
      }
    }
  }

  // ---------------------------------------------------------------- the store

  /** A missing file is the empty table. */
  function LoadFile(f: Option<File>): Result<Table> {
    match f
    case None => Ok(map[])
    case Some(file) => Load(file.text)
  }

  ghost function Saved(m: Table): Option<File> {
    Some(File(SavedText(m), true))
  }

  /** The process died in the call, or a file-system call reported an error. */
  predicate Faulted<T(==)>(r: Outcome<T>) {
    r == Died || r == Returned(Err(Io))
  }

  /** Every ending of `save_map`: on success the target is the new file and nothing older can come
      back as long as the directory is there; otherwise the target is the old file or the new one,
      never part of one. The directory may have been made, and has been if the new file landed. */
  ghost predicate SaveEffect(d: Disk, d': Disk, m: Table, r: Outcome<()>) {
    if r == Returned(Ok(())) then d' == Disk(Made(d.dir), Saved(m), None, {Saved(m)})
    else
      && Faulted(r)
      && (|| (d'.target == d.target && d'.past == d.past && (d'.dir == d.dir || d'.dir == Made(d.dir)))
          || (d'.target == Saved(m) && (d'.past == d.past + {Saved(m)} || d'.past == {Saved(m)}) &&
              d'.dir == Made(d.dir)))
  }

  /** Every ending of `commit`. A rejected offset or a file that does not parse leaves the disk
      alone and is reported as such. */
  ghost predicate CommitEffect(d: Disk, d': Disk, key: Key, offset: i64, r: Outcome<()>) {
    match (NextOffsetOf(offset), LoadFile(d.target))
    case (Err(e), _) => d' == d && r == Returned(Err(e))
    case (Ok(next), Err(e)) => d' == d && (Faulted(r) || r == Returned(Err(e)))
    case (Ok(next), Ok(m)) => SaveEffect(d, d', Raise(m, key, next), r)
  }

  /** What a commit with an accepted offset answers if every call works. */
  function SaveAnswer(loaded: Result<Table>): Result<()> {
    match loaded
    case Ok(_) => Ok(())
    case Err(e) => Err(e)
  }

  function ReadAnswer(loaded: Result<Table>, key: Key): Result<Option<i64>> {
    match loaded
    case Ok(m) => Ok(Lookup(m, key))
    case Err(e) => Err(e)
  }

  /** Every ending of `committed`: it answers from the file or reports why it cannot. */
  ghost predicate ReadEffect(d: Disk, key: Key, r: Outcome<Option<i64>>) {
    || Faulted(r)
    || match LoadFile(d.target)
       case Err(e) => r == Returned(Err(e))
       case Ok(m) => r == Returned(Ok(Lookup(m, key)))
  }

  class FileOffsetStore {
    const fs: FileSystem

    /** Reopening a path binds a new store to the same file. */
    constructor (fs: FileSystem)
      ensures this.fs == fs
    {
      this.fs := fs;
    }

    method LoadMap() returns (r: Outcome<Table>)
      modifies fs`calls
      ensures old(fs.calls) <= fs.calls
      ensures r == Outcomes(fs.calls[|old(fs.calls)|..], LoadFile(fs.disk.target))
    {
      var fault, text := fs.ReadTarget();
      OneMoreCall(old(fs.calls), old(fs.calls), fault);
      match fault {
        case Fails => return Returned(Err(Io));
        case Dies => return Died;
        case Works =>
      }
      if text.None? {
        return Returned(Ok(map[]));
      }
      var loaded := LoadText(text.value);
      return Returned(loaded);
    }

    method SaveMap(m: Table) returns (r: Outcome<()>)
      modifies fs
      ensures old(fs.calls) <= fs.calls
      ensures r == Outcomes(fs.calls[|old(fs.calls)|..], Ok(()))
      ensures SaveEffect(old(fs.disk), fs.disk, m, r)
    {
      ghost var was, before := fs.calls, fs.calls;
      var fault := fs.CreateParent();
      OneMoreCall(was, before, fault);
      if fault != Works {
        return Failure(fault);
      }
      var body := PrintTable(m);
      before := fs.calls;
      fault := fs.Open();
      OneMoreCall(was, before, fault);
      if fault != Works {
        return Failure(fault);
      }
      before := fs.calls;
      fault := fs.WriteAll(body);
      OneMoreCall(was, before, fault);
      if fault != Works {
        return Failure(fault);
      }
      before := fs.calls;
      fault := fs.SyncFile();
      OneMoreCall(was, before, fault);
      if fault != Works {
        return Failure(fault);
      }
      before := fs.calls;
      fault := fs.Rename();
      OneMoreCall(was, before, fault);
      if fault != Works {
        return Failure(fault);
      }
      before := fs.calls;
      fault := fs.SyncParent();
      OneMoreCall(was, before, fault);
      if fault != Works {
        return Failure(fault);
      }
      return Returned(Ok(()));
    }

    static function Failure(fault: Fault): (r: Outcome<()>)
      requires fault != Works
      ensures Faulted(r) && (fault == Dies <==> r == Died)
    {
      if fault == Dies then Died else Returned(Err(Io))
    }

    method Committed(topic: string, partition: i32) returns (r: Outcome<Option<i64>>)
      modifies fs`calls
      ensures old(fs.calls) <= fs.calls
      ensures r == Outcomes(fs.calls[|old(fs.calls)|..], ReadAnswer(LoadFile(fs.disk.target), Key(topic, partition)))
      ensures ReadEffect(fs.disk, Key(topic, partition), r)
    {
      var loaded := LoadMap();
      match loaded {
        case Died => return Died;
        case Returned(Err(e)) => return Returned(Err(e));
        case Returned(Ok(m)) => return Returned(Ok(Lookup(m, Key(topic, partition))));
      }
    }

    method Commit(topic: string, partition: i32, offset: i64) returns (r: Outcome<()>)
      modifies fs
      ensures old(fs.calls) <= fs.calls
      ensures offset < 0 ==> r == Returned(Err(Config(NegativeOffset))) && fs.calls == old(fs.calls)
      ensures offset == I64_MAX ==> r == Returned(Err(Config(OffsetOverflow))) && fs.calls == old(fs.calls)
      ensures 0 <= offset < I64_MAX ==>
        r == Outcomes(fs.calls[|old(fs.calls)|..], SaveAnswer(LoadFile(old(fs.disk).target)))
      ensures CommitEffect(old(fs.disk), fs.disk, Key(topic, partition), offset, r)
    {
      var next := NextOffsetOf(offset);
      if next.Err? {
        return Returned(Err(next.error));
      }
      var loaded := LoadMap();
      match loaded {
        case Died => r := Died;
        case Returned(Err(e)) => r := Returned(Err(e));
        case Returned(Ok(m)) =>
          var raised := m;
          var key := Key(topic, partition);
          if key !in raised {
            raised := raised[key := next.value];
          }
          if raised[key] < next.value {
            raised := raised[key := next.value];
          }
          assert raised == Raise(m, key, next.value);
          ghost var before := fs.calls;
          r := SaveMap(raised);
          MoreCalls(old(fs.calls), before, fs.calls);
      }
    }
  }

  // ---------------------------------------------------------------- one commit

  lemma SavedRereads(m: Table)
    ensures LoadFile(Saved(m)) == Reread(m)
  {
  }

  lemma RaisedIsClean(m: Table, key: Key, next: i64)
    requires CleanTable(m) && CleanTopic(key.topic)
    ensures LoadFile(Saved(Raise(m, key, next))) == Ok(Raise(m, key, next))
  {
    SaveThenLoad(Raise(m, key, next));
  }

  lemma LoadFileIsClean(f: Option<File>)
    ensures LoadFile(f).Ok? ==> CleanTable(LoadFile(f).value)
  {
    if f.Some? {
      LoadedIsClean(f.value.text);
    }
  }

  /** However a commit ends, the file reads as exactly the old table or as what the new table's text
      reads as, and as the latter if the commit reported success. For an accepted offset that is
      exactly the new table precisely when the topic is clean. */
  lemma CommitIsAtomic(d: Disk, d': Disk, key: Key, offset: i64, r: Outcome<()>, m: Table)
    requires CommitEffect(d, d', key, offset, r) && LoadFile(d.target) == Ok(m)
    ensures var m' := Apply(m, CommitCall(key, offset));
      && (LoadFile(d'.target) == Ok(m) || LoadFile(d'.target) == Reread(m'))
      && (r == Returned(Ok(())) ==> LoadFile(d'.target) == Reread(m') && 0 <= offset < I64_MAX)
      && (0 <= offset < I64_MAX ==> (Reread(m') == Ok(m') <==> CleanTopic(key.topic)))
  {
    LoadFileIsClean(d.target);
    var m' := Apply(m, CommitCall(key, offset));
    SavedRereads(m');
    SaveThenLoad(m');
  }

  lemma RejectedLeavesFile(d: Disk, d': Disk, key: Key, offset: i64, r: Outcome<()>, m: Table)
    requires CommitEffect(d, d', key, offset, r) && NextOffsetOf(offset).Err?
    ensures d' == d && r != Returned(Ok(())) && Apply(m, CommitCall(key, offset)) == m
  {
  }

  lemma AcceptedWritesFile(d: Disk, d': Disk, key: Key, next: i64, r: Outcome<()>, m: Table)
    requires SaveEffect(d, d', Raise(m, key, next), r)
    ensures d'.target == d.target || d'.target == Saved(Raise(m, key, next))
    ensures r == Returned(Ok(())) ==> d'.target == Saved(Raise(m, key, next))
  {
  }

  /** With a clean topic, that is exactly the old table or exactly the new one. */
  lemma CleanCommit(d: Disk, d': Disk, key: Key, offset: i64, r: Outcome<()>, m: Table)
    requires CommitEffect(d, d', key, offset, r) && LoadFile(d.target) == Ok(m) && CleanTopic(key.topic)
    ensures var m' := Apply(m, CommitCall(key, offset));
      && (LoadFile(d'.target) == Ok(m) || LoadFile(d'.target) == Ok(m'))
      && (r == Returned(Ok(())) ==> LoadFile(d'.target) == Ok(m') && 0 <= offset < I64_MAX)
  {
    var next := NextOffsetOf(offset);
    if next.Err? {
      RejectedLeavesFile(d, d', key, offset, r, m);
    } else {
      AcceptedWritesFile(d, d', key, next.value, r, m);
      LoadFileIsClean(d.target);
      RaisedIsClean(m, key, next.value);
    }
  }

  // ---------------------------------------------------------------- durability over whole runs

  datatype Event =
    | Tried(key: Key, offset: i64, outcome: Outcome<()>)
    | LostPower

  ghost predicate Step(d: Disk, e: Event, d': Disk) {
    match e
    case Tried(key, offset, r) => CommitEffect(d, d', key, offset, r)
    case LostPower => PowerLoss(d, d')
  }

  ghost predicate Run(ds: seq<Disk>, es: seq<Event>) {
    && |ds| == |es| + 1
    && forall i :: 0 <= i < |es| ==> Step(ds[i], es[i], ds[i + 1])
  }

  /** The commits that reported success. */
  function Acknowledged(es: seq<Event>): seq<Call> {
    if es == [] then []
    else
      var e := es[|es| - 1];
      Acknowledged(es[..|es| - 1]) +
      if e.Tried? && e.outcome == Returned(Ok(())) then [CommitCall(e.key, e.offset)] else []
  }

  /** The commits that were tried, whatever they reported. */
  function Attempted(es: seq<Event>): seq<Call> {
    if es == [] then []
    else
      var e := es[|es| - 1];
      Attempted(es[..|es| - 1]) + if e.Tried? then [CommitCall(e.key, e.offset)] else []
  }

  /** The file is intact and its value for `k` lies between the two tables. */
  ghost predicate Fits(f: Option<File>, low: Table, high: Table, k: Key) {
    && (f.Some? ==> f.value.synced)
    && LoadFile(f).Ok?
    && AtMostAt(low, LoadFile(f).value, k) && AtMostAt(LoadFile(f).value, high, k)
  }

  /** So is everything the target name may come to refer to. */
  ghost predicate Between(d: Disk, low: Table, high: Table, k: Key) {
    d.target in d.past && forall f :: f in d.past ==> Fits(f, low, high, k)
  }

  /** What the commit would write leaves `k` with the value it should have. */
  ghost predicate SparesInFile(f: Option<File>, key: Key, offset: i64, k: Key) {
    match (NextOffsetOf(offset), LoadFile(f))
    case (Ok(next), Ok(m)) => Spares(m, key, next, k)
    case (_, _) => true
  }

  lemma SavePast(d: Disk, d': Disk, m: Table, r: Outcome<()>)
    requires SaveEffect(d, d', m, r) && d.target in d.past
    ensures d'.target in d'.past
    ensures r == Returned(Ok(())) ==> d'.past == {Saved(m)}
    ensures forall f :: f in d'.past ==> f in d.past || f == Saved(m)
  {
  }

  lemma RaiseAtMost(a: Table, b: Table, key: Key, next: i64, k: Key)
    requires AtMostAt(a, b, k)
    ensures AtMostAt(a, Raise(b, key, next), k) && AtMostAt(Raise(a, key, next), Raise(b, key, next), k)
  {
  }

  lemma SavedFits(f: Option<File>, low: Table, high: Table, key: Key, next: i64, k: Key)
    requires Fits(f, low, high, k) && Spares(LoadFile(f).value, key, next, k)
    ensures var saved := Saved(Raise(LoadFile(f).value, key, next));
      && Fits(saved, low, Raise(high, key, next), k)
      && Fits(saved, Raise(low, key, next), Raise(high, key, next), k)
  {
    var m := LoadFile(f).value;
    LoadFileIsClean(f);
    SparedExactly(m, key, next, k);
    SavedRereads(Raise(m, key, next));
    RaiseAtMost(low, m, key, next, k);
    RaiseAtMost(m, high, key, next, k);
    assert Lookup(Reread(Raise(m, key, next)).value, k) == Lookup(Raise(m, key, next), k);
  }

  lemma FitsHigher(f: Option<File>, low: Table, high: Table, key: Key, next: i64, k: Key)
    requires Fits(f, low, high, k)
    ensures Fits(f, low, Raise(high, key, next), k)
  {
    RaiseAtMost(LoadFile(f).value, high, key, next, k);
  }

  lemma CommitBetween(d: Disk, key: Key, next: i64, r: Outcome<()>, d': Disk, low: Table, high: Table, k: Key)
    requires Between(d, low, high, k) && Spares(LoadFile(d.target).value, key, next, k)
    requires SaveEffect(d, d', Raise(LoadFile(d.target).value, key, next), r)
    ensures Between(d', if r == Returned(Ok(())) then Raise(low, key, next) else low, Raise(high, key, next), k)
  {
    var m := Raise(LoadFile(d.target).value, key, next);
    assert Fits(d.target, low, high, k);
    SavedFits(d.target, low, high, key, next, k);
    SavePast(d, d', m, r);
    if r != Returned(Ok(())) {
      forall f | f in d'.past ensures Fits(f, low, Raise(high, key, next), k) {
        if f in d.past {
          FitsHigher(f, low, high, key, next, k);
        }
      }
    }
  }

  /** A power loss cannot take anything acknowledged for `k` with the directory. */
  predicate Secure(d: Disk, low: Table, k: Key) {
    d.dir.KeptDirectory? || k !in low
  }

  lemma PowerLossBetween(d: Disk, d': Disk, low: Table, high: Table, k: Key)
    requires PowerLoss(d, d') && Between(d, low, high, k) && Secure(d, low, k)
    ensures Between(d', low, high, k)
  {
    if d' != NOWHERE {
      var f :| f in d.past && SurvivesAs(f, d'.target) && d'.past == {d'.target};
      assert Fits(f, low, high, k);
      assert d'.target == f;
    }
  }

  /** And only then: otherwise some power loss does. */
  lemma PowerLossKeepsExactly(d: Disk, low: Table, high: Table, k: Key)
    requires Between(d, low, high, k)
    ensures (forall d' :: PowerLoss(d, d') ==> Between(d', low, high, k)) <==> Secure(d, low, k)
  {
    if Secure(d, low, k) {
      forall d' | PowerLoss(d, d') ensures Between(d', low, high, k) {
        PowerLossBetween(d, d', low, high, k);
      }
    } else {
      assert PowerLoss(d, NOWHERE);
      assert !Fits(None, low, high, k);
    }
  }

  lemma StepBetween(d: Disk, e: Event, d': Disk, low: Table, high: Table, k: Key)
    requires Step(d, e, d') && Between(d, low, high, k)
    requires e.Tried? ==> SparesInFile(d.target, e.key, e.offset, k)
    requires e.LostPower? ==> Secure(d, low, k)
    ensures e.LostPower? ==> Between(d', low, high, k)
    ensures e.Tried? ==>
      var call := CommitCall(e.key, e.offset);
      Between(d', if e.outcome == Returned(Ok(())) then Apply(low, call) else low, Apply(high, call), k)
  {
    match e
    case LostPower => PowerLossBetween(d, d', low, high, k);
    case Tried(key, offset, r) =>
      assert Fits(d.target, low, high, k);
      var next := NextOffsetOf(offset);
      if next.Ok? {
        CommitBetween(d, key, next.value, r, d', low, high, k);
      }
  }

  lemma ApplyAllAppend(m: Table, calls: seq<Call>, call: Call)
    ensures ApplyAll(m, calls + [call]) == Apply(ApplyAll(m, calls), call)
  {
    assert (calls + [call])[..|calls|] == calls;
  }

  /** No commit of the run writes a text that says something wrong about `k`. Clean topics never
      do (`CleanSpares`); for the others `SparedExactly` shows the condition to be exact. */
  ghost predicate AllSpare(ds: seq<Disk>, es: seq<Event>, k: Key)
    requires |ds| == |es| + 1
  {
    forall i :: 0 <= i < |es| && es[i].Tried? ==> SparesInFile(ds[i].target, es[i].key, es[i].offset, k)
  }

  /** No power loss of the run finds something acknowledged for `k` in a directory that is not yet
      certain to be there. `PowerLossKeepsExactly` shows the condition to be exact. */
  ghost predicate AllSecure(ds: seq<Disk>, es: seq<Event>, initial: Table, k: Key)
    requires |ds| == |es| + 1
  {
    forall i :: 0 <= i < |es| && es[i].LostPower? ==> Secure(ds[i], ApplyAll(initial, Acknowledged(es[..i])), k)
  }

  lemma PrefixSecure(ds: seq<Disk>, es: seq<Event>, initial: Table, k: Key, n: nat)
    requires |ds| == |es| + 1 && n <= |es| && AllSecure(ds, es, initial, k)
    ensures AllSecure(ds[..n + 1], es[..n], initial, k)
  {
    forall i | 0 <= i < n && es[..n][i].LostPower?
      ensures Secure(ds[..n + 1][i], ApplyAll(initial, Acknowledged(es[..n][..i])), k)
    {
      assert es[..n][..i] == es[..i];
    }
  }

  /** Over any run of commits ending in any way, of crashes and of power losses, that spares `k` and
      whose power losses find it secure, the file always reads, and for `k` it holds at least every
      commit that reported success and at most what was ever asked for; and so does anything a later
      power loss can bring back. */
  lemma {:induction false} Durable(ds: seq<Disk>, es: seq<Event>, initial: Table, k: Key)
    requires Run(ds, es) && Between(ds[0], initial, initial, k)
    requires AllSpare(ds, es, k) && AllSecure(ds, es, initial, k)
    ensures Between(ds[|es|], ApplyAll(initial, Acknowledged(es)), ApplyAll(initial, Attempted(es)), k)
  {
    if es != [] {
      var n := |es| - 1;
      PrefixRun(ds, es, initial, k, n);
      Durable(ds[..n + 1], es[..n], initial, k);
      assert ds[..n + 1][n] == ds[n];
      DurableStep(ds[n], es, ds[n + 1], initial, k);
    }
  }

  lemma PrefixRun(ds: seq<Disk>, es: seq<Event>, initial: Table, k: Key, n: nat)
    requires Run(ds, es) && AllSpare(ds, es, k) && AllSecure(ds, es, initial, k) && n < |es|
    ensures Run(ds[..n + 1], es[..n]) && AllSpare(ds[..n + 1], es[..n], k)
    ensures AllSecure(ds[..n + 1], es[..n], initial, k)
    ensures Step(ds[n], es[n], ds[n + 1])
    ensures es[n].Tried? ==> SparesInFile(ds[n].target, es[n].key, es[n].offset, k)
    ensures es[n].LostPower? ==> Secure(ds[n], ApplyAll(initial, Acknowledged(es[..n])), k)
  {
    PrefixSecure(ds, es, initial, k, n);
    forall i | 0 <= i < n ensures Step(ds[..n + 1][i], es[..n][i], ds[..n + 1][i + 1]) {
      assert Step(ds[i], es[i], ds[i + 1]);
    }
  }

  lemma DurableStep(d: Disk, es: seq<Event>, d': Disk, initial: Table, k: Key)
    requires es != []
    requires var e, low := es[|es| - 1], ApplyAll(initial, Acknowledged(es[..|es| - 1]));
      && Step(d, e, d') && Between(d, low, ApplyAll(initial, Attempted(es[..|es| - 1])), k)
      && (e.Tried? ==> SparesInFile(d.target, e.key, e.offset, k))
      && (e.LostPower? ==> Secure(d, low, k))
    ensures Between(d', ApplyAll(initial, Acknowledged(es)), ApplyAll(initial, Attempted(es)), k)
  {
    var e, before := es[|es| - 1], es[..|es| - 1];
    StepBetween(d, e, d', ApplyAll(initial, Acknowledged(before)), ApplyAll(initial, Attempted(before)), k);
    LastEvent(initial, es);
  }

  lemma {:induction false} DirectoryStays(ds: seq<Disk>, es: seq<Event>, n: nat)
    requires Run(ds, es) && n <= |es| && ds[0].dir.KeptDirectory?
    ensures ds[n].dir.KeptDirectory?
  {
    if n > 0 {
      DirectoryStays(ds, es, n - 1);
      assert Step(ds[n - 1], es[n - 1], ds[n]);
    }
  }

  /** In a directory that was there from the start every power loss finds every key secure. */
  lemma KeptDirectorySecure(ds: seq<Disk>, es: seq<Event>, initial: Table, k: Key)
    requires Run(ds, es) && ds[0].dir.KeptDirectory?
    ensures AllSecure(ds, es, initial, k)
  {
    forall i | 0 <= i < |es| && es[i].LostPower?
      ensures Secure(ds[i], ApplyAll(initial, Acknowledged(es[..i])), k)
    {
      DirectoryStays(ds, es, i);
    }
  }

  lemma CleanRunSpares(ds: seq<Disk>, es: seq<Event>, k: Key)
    requires |ds| == |es| + 1
    requires forall i :: 0 <= i < |es| && es[i].Tried? ==> CleanTopic(es[i].key.topic)
    ensures AllSpare(ds, es, k)
  {
    forall i | 0 <= i < |es| && es[i].Tried? ensures SparesInFile(ds[i].target, es[i].key, es[i].offset, k) {
      if NextOffsetOf(es[i].offset).Ok? && LoadFile(ds[i].target).Ok? {
        CleanSpares(LoadFile(ds[i].target).value, es[i].key, NextOffsetOf(es[i].offset).value, k);
      }
    }
  }

  lemma LastEvent(m: Table, es: seq<Event>)
    requires es != []
    ensures var e, before := es[|es| - 1], es[..|es| - 1];
      var low, high := ApplyAll(m, Acknowledged(before)), ApplyAll(m, Attempted(before));
      if e.LostPower? then
        ApplyAll(m, Acknowledged(es)) == low && ApplyAll(m, Attempted(es)) == high
      else
        var call := CommitCall(e.key, e.offset);
        && ApplyAll(m, Acknowledged(es)) == (if e.outcome == Returned(Ok(())) then Apply(low, call) else low)
        && ApplyAll(m, Attempted(es)) == Apply(high, call)
  {
    var e, before := es[|es| - 1], es[..|es| - 1];
    assert Acknowledged(before) + [] == Acknowledged(before) && Attempted(before) + [] == Attempted(before);
    if e.Tried? {
      ApplyAllAppend(m, Acknowledged(before), CommitCall(e.key, e.offset));
      ApplyAllAppend(m, Attempted(before), CommitCall(e.key, e.offset));
    }
  }

  /** What `Durable` means for one acknowledged commit: from then on the stored value is past it, as
      long as no other commit writes a text that names its key and no power loss takes the
      directory. */
  lemma AcknowledgedStays(ds: seq<Disk>, es: seq<Event>, initial: Table, i: nat)
    requires i < |es| && es[i].Tried? && es[i].outcome == Returned(Ok(()))
    requires Run(ds, es) && Between(ds[0], initial, initial, es[i].key)
    requires AllSpare(ds, es, es[i].key) && AllSecure(ds, es, initial, es[i].key)
    ensures var m := LoadFile(ds[|es|].target);
      m.Ok? && es[i].key in m.value && m.value[es[i].key] > es[i].offset
  {
    Durable(ds, es, initial, es[i].key);
    var low := ApplyAll(initial, Acknowledged(es));
    assert Fits(ds[|es|].target, low, ApplyAll(initial, Attempted(es)), es[i].key);
    assert Step(ds[i], es[i], ds[i + 1]);
    CommitEffectAccepts(ds[i], ds[i + 1], es[i].key, es[i].offset, es[i].outcome);
    AcknowledgedContains(es, i);
    FloorHolds(initial, Acknowledged(es), es[i].key, es[i].offset);
  }

  lemma FloorHolds(m: Table, calls: seq<Call>, key: Key, offset: i64)
    requires CommitCall(key, offset) in calls && 0 <= offset < I64_MAX
    ensures key in ApplyAll(m, calls) && ApplyAll(m, calls)[key] > offset
  {
    StoredIsMaximum(m, calls);
    var next: i64 := offset + 1;
    assert Requested(CommitCall(key, offset)) == Ok(next);
    assert Attained(m, calls, key, next);
  }

  lemma CommitEffectAccepts(d: Disk, d': Disk, key: Key, offset: i64, r: Outcome<()>)
    requires CommitEffect(d, d', key, offset, r) && r == Returned(Ok(()))
    ensures 0 <= offset < I64_MAX
  {
  }

  lemma {:induction false} AcknowledgedContains(es: seq<Event>, i: nat)
    requires i < |es| && es[i].Tried? && es[i].outcome == Returned(Ok(()))
    ensures CommitCall(es[i].key, es[i].offset) in Acknowledged(es)
  {
    if i < |es| - 1 {
      AcknowledgedContains(es[..|es| - 1], i);
    }
  }

  // ---------------------------------------------------------------- where durability ends

  /** Nothing the file names can come back as anything but itself. */
  ghost predicate Settled(d: Disk) {
    d.past == {d.target} && (d.target.Some? ==> d.target.value.synced)
  }

  lemma RunOfTwo(d: Disk, e: Event, d': Disk, e': Event, d'': Disk)
    requires Step(d, e, d') && Step(d', e', d'')
    ensures Run([d, d', d''], [e, e'])
  {
    var ds, es := [d, d', d''], [e, e'];
    forall i | 0 <= i < |es| ensures Step(ds[i], es[i], ds[i + 1]) {
      assert i == 0 || i == 1;
    }
  }

  /** A commit that succeeds on a readable file. */
  lemma CommitSucceeds(d: Disk, m: Table, key: Key, offset: i64) returns (d': Disk)
    requires LoadFile(d.target) == Ok(m) && 0 <= offset < I64_MAX
    ensures Step(d, Tried(key, offset, Returned(Ok(()))), d')
    ensures LoadFile(d'.target) == Reread(Raise(m, key, offset + 1)) && Settled(d') && d'.dir == Made(d.dir)
  {
    var saved := Saved(Raise(m, key, offset + 1));
    SavedRereads(Raise(m, key, offset + 1));
    d' := Disk(Made(d.dir), saved, None, {saved});
  }

  const EMPTY := Disk(KeptDirectory, None, None, {None})

  /** The first commit into a directory it made itself can be lost although it reported success: the
      directory's own name is never forced out. */
  lemma FreshDirectoryLosesCommit(key: Key, offset: i64) returns (ds: seq<Disk>, es: seq<Event>)
    requires CleanTopic(key.topic) && 0 <= offset < I64_MAX
    ensures Run(ds, es) && ds[0] == NOWHERE
    ensures es == [Tried(key, offset, Returned(Ok(()))), LostPower]
    ensures LoadFile(ds[1].target) == Ok(map[key := offset + 1]) && LoadFile(ds[2].target) == Ok(map[])
  {
    assert Raise(map[], key, offset + 1) == map[key := offset + 1];
    SaveThenLoad(map[key := offset + 1]);
    var d1 := CommitSucceeds(NOWHERE, map[], key, offset);
    ds, es := [NOWHERE, d1, NOWHERE], [Tried(key, offset, Returned(Ok(()))), LostPower];
    RunOfTwo(NOWHERE, es[0], d1, es[1], NOWHERE);
  }

  /** An empty topic loses everything: after two commits that both reported success, the second of
      them with an empty topic, the file cannot be read and the first value is gone. */
  lemma EmptyTopicLosesAll(key: Key, offset: i64, partition: i32, later: i64)
    returns (ds: seq<Disk>, es: seq<Event>)
    requires CleanTopic(key.topic) && 0 <= offset < I64_MAX && 0 <= later < I64_MAX
    ensures Run(ds, es) && ds[0] == EMPTY
    ensures es == [Tried(key, offset, Returned(Ok(()))), Tried(Key("", partition), later, Returned(Ok(())))]
    ensures LoadFile(ds[1].target) == Ok(map[key := offset + 1])
    ensures LoadFile(ds[2].target).Err? && Settled(ds[2]) && ds[2].dir.KeptDirectory?
  {
    var odd := Key("", partition);
    var d1 := FirstCommit(key, offset);
    var d2 := UnreadableCommit(d1, map[key := offset + 1], odd, later);
    ds, es := [EMPTY, d1, d2], [Tried(key, offset, Returned(Ok(()))), Tried(odd, later, Returned(Ok(())))];
    RunOfTwo(EMPTY, es[0], d1, es[1], d2);
  }

  /** A commit on a topic that makes the file unreadable succeeds all the same. */
  lemma UnreadableCommit(d: Disk, m: Table, key: Key, offset: i64) returns (d': Disk)
    requires LoadFile(d.target) == Ok(m) && 0 <= offset < I64_MAX && !ReadableTopic(key.topic)
    ensures Step(d, Tried(key, offset, Returned(Ok(()))), d')
    ensures LoadFile(d'.target).Err? && Settled(d') && d'.dir == Made(d.dir)
  {
    LoadFileIsClean(d.target);
    d' := CommitSucceeds(d, m, key, offset);
    StillReadable(m, key, offset + 1);
  }

  lemma FirstCommit(key: Key, offset: i64) returns (d: Disk)
    requires CleanTopic(key.topic) && 0 <= offset < I64_MAX
    ensures Step(EMPTY, Tried(key, offset, Returned(Ok(()))), d) && LoadFile(d.target) == Ok(map[key := offset + 1])
    ensures d.dir.KeptDirectory? && Settled(d)
  {
    assert Raise(map[], key, offset + 1) == map[key := offset + 1];
    SaveThenLoad(map[key := offset + 1]);
    d := CommitSucceeds(EMPTY, map[], key, offset);
  }

  /** And it stays that way: a file that cannot be read is never written again, so no later commit
      succeeds and no read answers, whatever the key. */
  lemma {:induction false} UnreadableForever(ds: seq<Disk>, es: seq<Event>, n: nat)
    requires Run(ds, es) && n <= |es|
    requires LoadFile(ds[0].target).Err? && Settled(ds[0]) && ds[0].dir.KeptDirectory?
    ensures ds[n].target == ds[0].target && Settled(ds[n]) && ds[n].dir.KeptDirectory?
    ensures n < |es| && es[n].Tried? ==> es[n].outcome != Returned(Ok(()))
    ensures forall key, r :: ReadEffect(ds[n], key, r) ==> r.Died? || r.result.Err?
  {
    if n > 0 {
      UnreadableForever(ds, es, n - 1);
      assert Step(ds[n - 1], es[n - 1], ds[n]);
    }
    if n < |es| {
      assert Step(ds[n], es[n], ds[n + 1]);
    }
  }

  /** A commit on one topic can also overwrite what was acknowledged for another, taking it back or
      carrying it forward. The topic made of
      `t`, a tab and the numeral `q` speaks for partition `q` of `t` and gives it its own partition as
      value, if its line sorts after the one that was there. */
  lemma TabTopicOverwrites(t: string, q: i32, offset: i64, partition: i32, later: i64)
    returns (ds: seq<Disk>, es: seq<Event>)
    requires CleanTopic(t) && 0 <= offset < I64_MAX && 0 <= later < I64_MAX
    requires SortsAfter(partition, later + 1, offset + 1)
    ensures Run(ds, es) && ds[0] == EMPTY
    ensures es == [Tried(Key(t, q), offset, Returned(Ok(()))),
                   Tried(Key(t + ['\t'] + Decimal.Print(q), partition), later, Returned(Ok(())))]
    ensures LoadFile(ds[1].target) == Ok(map[Key(t, q) := offset + 1])
    ensures LoadFile(ds[2].target) == Ok(map[Key(t, q) := partition])
    ensures Settled(ds[1]) && ds[1].dir.KeptDirectory? && Settled(ds[2]) && ds[2].dir.KeptDirectory?
  {
    var k, odd := Key(t, q), Key(t + ['\t'] + Decimal.Print(q), partition);
    var d1 := FirstCommit(k, offset);
    var m: Table := map[k := offset + 1];
    var d2 := CommitSucceeds(d1, m, odd, later);
    assert odd !in m && Raise(m, odd, later + 1) == m[odd := later + 1];
    TabTopicReread(t, q, offset + 1, partition, later + 1);
    ds, es := [EMPTY, d1, d2], [Tried(k, offset, Returned(Ok(()))), Tried(odd, later, Returned(Ok(())))];
    RunOfTwo(EMPTY, es[0], d1, es[1], d2);
  }

  /** For example, partition 9 takes 10 back to 9, and partition 2 carries 1 forward to 2. */
  lemma NineSortsAfterTen(next: i64)
    ensures SortsAfter(9, next, 10)
  {
    assert Decimal.PrintNat(10) == Decimal.PrintNat(1) + [Decimal.DigitChar(0)];
  }

  lemma TwoSortsAfterOne(next: i64)
    ensures SortsAfter(2, next, 1)
  {
    assert Decimal.PrintNat(1) == [Decimal.DigitChar(1)];
  }

  // ---------------------------------------------------------------- refinement of the memory store

  datatype Request =
    | CommitRequest(key: Key, offset: i64)
    | Query(key: Key)
    | Reopen

  datatype Answer =
    | Acked(result: Result<()>)
    | Found(value: Result<Option<i64>>)
    | Reopened

  function CommitAnswer(offset: i64): Result<()> {
    match NextOffsetOf(offset)
    case Ok(_) => Ok(())
    case Err(e) => Err(e)
  }

  function MemoryNext(m: Table, q: Request): Table {
    if q.CommitRequest? then Apply(m, CommitCall(q.key, q.offset)) else m
  }

  function MemoryAnswer(m: Table, q: Request): Answer {
    match q
    case CommitRequest(_, offset) => Acked(CommitAnswer(offset))
    case Query(key) => Found(Ok(Lookup(m, key)))
    case Reopen => Reopened
  }

  function MemoryAnswers(m: Table, qs: seq<Request>): seq<Answer>
    decreases |qs|
  {
    if qs == [] then [] else [MemoryAnswer(m, qs[0])] + MemoryAnswers(MemoryNext(m, qs[0]), qs[1..])
  }

  function MemoryAfter(m: Table, qs: seq<Request>): Table
    decreases |qs|
  {
    if qs == [] then m else MemoryAfter(MemoryNext(m, qs[0]), qs[1..])
  }

  /** One request served by the file store with no file-system fault. */
  ghost predicate Served(d: Disk, q: Request, a: Answer, d': Disk) {
    match (q, a)
    case (CommitRequest(key, offset), Acked(r)) => r != Err(Io) && CommitEffect(d, d', key, offset, Returned(r))
    case (Query(key), Found(r)) => r != Err(Io) && d' == d && ReadEffect(d, key, Returned(r))
    case (Reopen, Reopened) => d' == d
    case (_, _) => false
  }

  ghost predicate ServedAt(ds: seq<Disk>, qs: seq<Request>, answers: seq<Answer>, i: int)
    requires 0 <= i < |qs| && |ds| == |qs| + 1 && |answers| == |qs|
  {
    Served(ds[i], qs[i], answers[i], ds[i + 1])
  }

  ghost predicate Trace(ds: seq<Disk>, qs: seq<Request>, answers: seq<Answer>) {
    && |ds| == |qs| + 1 && |answers| == |qs|
    && forall i :: 0 <= i < |qs| ==> ServedAt(ds, qs, answers, i)
  }

  /** A commit that meets no fault on a readable file does what the memory store does. */
  lemma CommitServed(d: Disk, key: Key, offset: i64, r: Result<()>, d': Disk, m: Table)
    requires CommitEffect(d, d', key, offset, Returned(r)) && r != Err(Io)
    requires LoadFile(d.target) == Ok(m) && CleanTopic(key.topic)
    ensures LoadFile(d'.target) == Ok(Apply(m, CommitCall(key, offset))) && r == CommitAnswer(offset)
  {
    var next := NextOffsetOf(offset);
    if next.Ok? {
      assert SaveEffect(d, d', Raise(m, key, next.value), Returned(r));
      assert r.Ok? && r.value == ();
      LoadFileIsClean(d.target);
      RaisedIsClean(m, key, next.value);
    }
  }

  lemma ServedRefines(d: Disk, q: Request, a: Answer, d': Disk, m: Table)
    requires Served(d, q, a, d') && LoadFile(d.target) == Ok(m)
    requires q.CommitRequest? ==> CleanTopic(q.key.topic)
    ensures LoadFile(d'.target) == Ok(MemoryNext(m, q)) && a == MemoryAnswer(m, q)
  {
    if q.CommitRequest? {
      CommitServed(d, q.key, q.offset, a.result, d', m);
    }
  }

  lemma TraceTail(ds: seq<Disk>, qs: seq<Request>, answers: seq<Answer>)
    requires Trace(ds, qs, answers) && qs != []
    ensures Served(ds[0], qs[0], answers[0], ds[1]) && Trace(ds[1..], qs[1..], answers[1..])
  {
    assert ServedAt(ds, qs, answers, 0);
    forall i | 0 <= i < |qs[1..]| ensures ServedAt(ds[1..], qs[1..], answers[1..], i) {
      assert ServedAt(ds, qs, answers, i + 1);
    }
  }

  lemma FirstServed(ds: seq<Disk>, qs: seq<Request>, answers: seq<Answer>, m: Table)
    requires Trace(ds, qs, answers) && qs != [] && LoadFile(ds[0].target) == Ok(m)
    requires qs[0].CommitRequest? ==> CleanTopic(qs[0].key.topic)
    ensures Trace(ds[1..], qs[1..], answers[1..])
    ensures LoadFile(ds[1].target) == Ok(MemoryNext(m, qs[0])) && answers[0] == MemoryAnswer(m, qs[0])
  {
    TraceTail(ds, qs, answers);
    ServedRefines(ds[0], qs[0], answers[0], ds[1], m);
  }

  ghost predicate CleanRequests(qs: seq<Request>) {
    forall i :: 0 <= i < |qs| && qs[i].CommitRequest? ==> CleanTopic(qs[i].key.topic)
  }

  /** As long as committed topics are clean, no sequence of commits, reads and reopenings that meets
      no fault can tell the file store from the memory store. */
  lemma {:induction false} FileRefinesMemory(ds: seq<Disk>, qs: seq<Request>, answers: seq<Answer>, m: Table)
    requires Trace(ds, qs, answers) && LoadFile(ds[0].target) == Ok(m) && CleanRequests(qs)
    ensures answers == MemoryAnswers(m, qs)
    ensures LoadFile(ds[|qs|].target) == Ok(MemoryAfter(m, qs))
    decreases |qs|
  {
    if qs != [] {
      var ds', qs', answers' := ds[1..], qs[1..], answers[1..];
      FirstServed(ds, qs, answers, m);
      assert ds'[0] == ds[1];
      FileRefinesMemory(ds', qs', answers', MemoryNext(m, qs[0]));
      assert answers == [answers[0]] + answers' && ds'[|qs'|] == ds[|qs|];
    }
  }

  /** The clean-topic condition is exact: after a commit that reported success, a read that meets no
      fault finds what the memory store would hold precisely when the topic is clean. */
  lemma ReadBackExactlyWhenClean(d: Disk, d': Disk, m: Table, key: Key, offset: i64, r: Result<Option<i64>>)
    requires LoadFile(d.target) == Ok(m)
    requires CommitEffect(d, d', key, offset, Returned(Ok(())))
    requires ReadEffect(d', key, Returned(r)) && r != Err(Io)
    ensures r == Ok(Lookup(Apply(m, CommitCall(key, offset)), key)) <==> CleanTopic(key.topic)
  {
    CommitIsAtomic(d, d', key, offset, Returned(Ok(())), m);
    LoadFileIsClean(d'.target);
  }
}
