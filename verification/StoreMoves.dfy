/** An offset store seen through one key: the value it holds, the values a power loss may leave, and the
    moves it can make. Both stores, over any run, make only these moves. */
module StoreMoves {
  import opened Common
  import opened OffsetTable
  import opened OffsetFile
  import opened OddTopics
  import opened FileStore

  /** What the value survives: nothing, for a store in memory; process crashes, for a file; power losses
      too, once the file's directory is certain to be there. */
  datatype Hold = InMemory | OnDisk(dir: Directory)

  datatype View = View(committed: Option<i64>, candidates: set<Option<i64>>, hold: Hold)

  datatype Move =
    | Stays
    | Makes                              // the file's directory is made
    | Lands(next: i64, synced: bool)     // a commit for the key, with or without its names forced out
    | Syncs                              // a commit for another key forces the names out
    | Survives(value: Option<i64>)       // a power loss
    | Forgets                            // a crash or power loss that leaves nothing

  predicate Safe(h: Hold) {
    h == OnDisk(KeptDirectory)
  }

  function Raised(committed: Option<i64>, next: i64): Option<i64> {
    if committed.Some? && committed.value > next then committed else Some(next)
  }

  function MadeHold(h: Hold): Hold {
    if h.OnDisk? then OnDisk(Made(h.dir)) else h
  }

  predicate Allowed(v: View, mv: Move) {
    match mv
    case Survives(value) => value in v.candidates && v.hold.OnDisk? && !v.hold.dir.NoDirectory?
    case Forgets => !Safe(v.hold)
    case _ => true
  }

  function Moved(v: View, mv: Move): View {
    match mv
    case Stays => v
    case Makes => v.(hold := MadeHold(v.hold))
    case Lands(next, synced) =>
      var value := Raised(v.committed, next);
      View(value, if synced then {value} else v.candidates + {value}, MadeHold(v.hold))
    case Syncs => View(v.committed, {v.committed}, MadeHold(v.hold))
    case Survives(value) => View(value, {value}, OnDisk(KeptDirectory))
    case Forgets => View(None, {None}, if v.hold.InMemory? then InMemory else OnDisk(NoDirectory))
  }

  // ---------------------------------------------------------------- the file store

  ghost function StoredIn(f: Option<File>, key: Key): Option<i64> {
    match LoadFile(f)
    case Ok(m) => Lookup(m, key)
    case Err(_) => None
  }

  ghost function Survivors(past: set<Option<File>>, key: Key): set<Option<i64>> {
    set f | f in past :: StoredIn(f, key)
  }

  ghost function FileView(d: Disk, key: Key): View {
    View(StoredIn(d.target, key), Survivors(d.past, key), OnDisk(d.dir))
  }

  /** Whatever the target name may come to refer to is intact and reads. */
  ghost predicate Sound(d: Disk) {
    && d.target in d.past
    && forall f :: f in d.past ==> (f.Some? ==> f.value.synced) && LoadFile(f).Ok?
  }

  lemma SurvivorsGrow(past: set<Option<File>>, f: Option<File>, key: Key)
    ensures Survivors(past + {f}, key) == Survivors(past, key) + {StoredIn(f, key)}
    ensures Survivors({f}, key) == {StoredIn(f, key)}
    ensures f in past ==> StoredIn(f, key) in Survivors(past, key)
  {
  }

  /** A topic the file cannot carry never shows: for its keys the store stays empty, whatever commits
      report. */
  lemma UncleanNeverShows(f: Option<File>, key: Key)
    requires !CleanTopic(key.topic)
    ensures StoredIn(f, key) == None
  {
    LoadFileIsClean(f);
  }

  /** What a written file holds for the key: the raised value if the commit was for it, and otherwise
      what it held before. */
  lemma SavedShows(f: Option<File>, tried: Key, next: i64, key: Key)
    requires LoadFile(f).Ok? && Spares(LoadFile(f).value, tried, next, key)
    ensures var saved := Saved(Raise(LoadFile(f).value, tried, next));
      && LoadFile(saved).Ok?
      && StoredIn(saved, key) == if tried == key then Raised(StoredIn(f, key), next) else StoredIn(f, key)
  {
    var m := LoadFile(f).value;
    LoadFileIsClean(f);
    SparedExactly(m, tried, next, key);
    SavedRereads(Raise(m, tried, next));
  }

  /** The move a landed file makes. */
  function LandingMove(tried: Key, key: Key, next: i64, synced: bool): Move {
    if tried == key then Lands(next, synced) else if synced then Syncs else Makes
  }

  /** Landing a file that holds `value` for the key. */
  lemma LandedView(d: Disk, d': Disk, key: Key, value: Option<i64>, synced: bool)
    requires d.target in d.past && StoredIn(d'.target, key) == value && d'.dir == Made(d.dir)
    requires d'.past == if synced then {d'.target} else d.past + {d'.target}
    ensures FileView(d', key) ==
      View(value, if synced then {value} else Survivors(d.past, key) + {value}, OnDisk(Made(d.dir)))
    ensures StoredIn(d.target, key) in Survivors(d.past, key)
  {
    SurvivorsGrow(d.past, d'.target, key);
    SurvivorsGrow(d.past, d.target, key);
  }

  lemma SoundWith(d: Disk, d': Disk, synced: bool)
    requires Sound(d) && LoadFile(d'.target).Ok? && (d'.target.Some? ==> d'.target.value.synced)
    requires d'.past == if synced then {d'.target} else d.past + {d'.target}
    ensures Sound(d')
  {
  }

  lemma ShownIsMove(d: Disk, d': Disk, tried: Key, next: i64, key: Key, synced: bool)
    requires d.target in d.past && d'.dir == Made(d.dir)
    requires d'.past == if synced then {d'.target} else d.past + {d'.target}
    requires StoredIn(d'.target, key) ==
      if tried == key then Raised(StoredIn(d.target, key), next) else StoredIn(d.target, key)
    ensures FileView(d', key) == Moved(FileView(d, key), LandingMove(tried, key, next, synced))
  {
    LandedView(d, d', key, StoredIn(d'.target, key), synced);
  }

  lemma LandingIsMove(d: Disk, d': Disk, tried: Key, next: i64, key: Key, synced: bool)
    requires Sound(d) && Spares(LoadFile(d.target).value, tried, next, key)
    requires d'.target == Saved(Raise(LoadFile(d.target).value, tried, next)) && d'.dir == Made(d.dir)
    requires d'.past == if synced then {d'.target} else d.past + {d'.target}
    ensures Sound(d') && FileView(d', key) == Moved(FileView(d, key), LandingMove(tried, key, next, synced))
  {
    SavedShows(d.target, tried, next, key);
    SoundWith(d, d', synced);
    ShownIsMove(d, d', tried, next, key, synced);
  }

  /** Every ending of every commit is a move. One that reports success for the key lands, forced out; no
      commit for another key lands. */
  lemma CommitIsMove(d: Disk, d': Disk, tried: Key, offset: i64, r: Outcome<()>, key: Key) returns (mv: Move)
    requires CommitEffect(d, d', tried, offset, r) && Sound(d) && SparesInFile(d.target, tried, offset, key)
    ensures Sound(d') && Allowed(FileView(d, key), mv) && FileView(d', key) == Moved(FileView(d, key), mv)
    ensures mv.Stays? || mv.Makes? || mv.Syncs? || (mv.Lands? && tried == key && mv.next == offset + 1)
    ensures tried == key && r == Returned(Ok(())) ==> mv.Lands? && mv.synced
  {
    var next := NextOffsetOf(offset);
    if d'.target == d.target && d'.past == d.past && d'.dir == d.dir && r != Returned(Ok(())) {
      mv := Stays;
    } else if d'.target == d.target && d'.past == d.past && r != Returned(Ok(())) {
      mv := Makes;
    } else {
      var synced := d'.past == {d'.target};
      mv := LandingMove(tried, key, next.value, synced);
      LandingIsMove(d, d', tried, next.value, key, synced);
    }
  }

  lemma LossIsMove(d: Disk, d': Disk, key: Key) returns (mv: Move)
    requires PowerLoss(d, d') && Sound(d)
    ensures Sound(d') && Allowed(FileView(d, key), mv) && FileView(d', key) == Moved(FileView(d, key), mv)
    ensures mv.Survives? || mv.Forgets?
  {
    if !d.dir.KeptDirectory? && d' == NOWHERE {
      SurvivorsGrow({}, None, key);
      mv := Forgets;
    } else {
      var f :| f in d.past && SurvivesAs(f, d'.target) && d'.past == {d'.target};
      assert d'.target == f;
      SurvivorsGrow(d.past, f, key);
      mv := Survives(StoredIn(f, key));
    }
  }

  /** The move of one event: a commit lands only for its own key, and with success it does; a power
      loss survives or forgets. */
  ghost predicate Matches(e: Event, key: Key, mv: Move) {
    match e
    case Tried(tried, offset, r) =>
      && (mv.Stays? || mv.Makes? || mv.Syncs? || (mv.Lands? && tried == key && mv.next == offset + 1))
      && (tried == key && r == Returned(Ok(())) ==> mv.Lands? && mv.synced)
    case LostPower => mv.Survives? || mv.Forgets?
  }

  ghost predicate Follows(d: Disk, e: Event, d': Disk, key: Key, mv: Move) {
    && Allowed(FileView(d, key), mv) && FileView(d', key) == Moved(FileView(d, key), mv)
    && Matches(e, key, mv)
  }

  lemma EventIsMove(d: Disk, e: Event, d': Disk, key: Key) returns (mv: Move)
    requires Step(d, e, d') && Sound(d) && (e.Tried? ==> SparesInFile(d.target, e.key, e.offset, key))
    ensures Sound(d') && Follows(d, e, d', key, mv)
  {
    match e
    case Tried(tried, offset, r) => mv := CommitIsMove(d, d', tried, offset, r, key);
    case LostPower => mv := LossIsMove(d, d', key);
  }

  ghost predicate FollowsAt(ds: seq<Disk>, es: seq<Event>, key: Key, mvs: seq<Move>, i: int)
    requires 0 <= i < |es| && |ds| == |es| + 1 && |mvs| == |es|
  {
    Follows(ds[i], es[i], ds[i + 1], key, mvs[i])
  }

  ghost predicate AllFollow(ds: seq<Disk>, es: seq<Event>, key: Key, mvs: seq<Move>) {
    && |ds| == |es| + 1 && |mvs| == |es|
    && forall i :: 0 <= i < |es| ==> FollowsAt(ds, es, key, mvs, i)
  }

  lemma PrefixFollows(ds: seq<Disk>, es: seq<Event>, key: Key, before: seq<Move>, mv: Move, i: nat)
    requires |ds| == |es| + 1 && |before| + 1 == |es| && i < |before|
    ensures FollowsAt(ds[..|es|], es[..|es| - 1], key, before, i) == FollowsAt(ds, es, key, before + [mv], i)
  {
    var n := |es| - 1;
    assert ds[..n + 1][i] == ds[i] && ds[..n + 1][i + 1] == ds[i + 1];
    assert es[..n][i] == es[i] && (before + [mv])[i] == before[i];
  }

  lemma FollowOneMore(ds: seq<Disk>, es: seq<Event>, key: Key, before: seq<Move>, mv: Move)
    requires es != [] && |ds| == |es| + 1
    requires AllFollow(ds[..|es|], es[..|es| - 1], key, before)
    requires Follows(ds[|es| - 1], es[|es| - 1], ds[|es|], key, mv)
    ensures AllFollow(ds, es, key, before + [mv])
  {
    forall i | 0 <= i < |es| ensures FollowsAt(ds, es, key, before + [mv], i) {
      if i < |es| - 1 {
        PrefixFollows(ds, es, key, before, mv, i);
        assert FollowsAt(ds[..|es|], es[..|es| - 1], key, before, i);
      }
    }
  }

  /** Over any run of commits for any keys, ending in any way, of crashes and of power losses, that
      spares the key, the file store seen through the key makes one move after another. */
  lemma {:induction false} FileRunMoves(ds: seq<Disk>, es: seq<Event>, key: Key) returns (mvs: seq<Move>)
    requires FileStore.Run(ds, es) && Sound(ds[0]) && AllSpare(ds, es, key)
    ensures AllFollow(ds, es, key, mvs) && Sound(ds[|es|])
  {
    mvs := [];
    if es != [] {
      var n := |es| - 1;
      var before := FileRunMoves(ds[..n + 1], es[..n], key);
      assert ds[..n + 1][n] == ds[n] && Step(ds[n], es[n], ds[n + 1]);
      var mv := EventIsMove(ds[n], es[n], ds[n + 1], key);
      FollowOneMore(ds, es, key, before, mv);
      mvs := before + [mv];
    }
  }

  // ---------------------------------------------------------------- the store in memory

  function MemoryView(m: Table, key: Key): View {
    View(Lookup(m, key), {Lookup(m, key)}, InMemory)
  }

  /** So does the store in memory: an accepted commit for the key lands, and a process crash forgets. */
  lemma MemoryMoves(m: Table, tried: Key, offset: i64, key: Key) returns (mv: Move)
    ensures MemoryView(Apply(m, CommitCall(tried, offset)), key) == Moved(MemoryView(m, key), mv)
    ensures mv == if tried == key && 0 <= offset < I64_MAX then Lands(offset + 1, true) else Stays
    ensures Allowed(MemoryView(m, key), Forgets) && Moved(MemoryView(m, key), Forgets) == MemoryView(map[], key)
  {
    mv := if tried == key && 0 <= offset < I64_MAX then Lands(offset + 1, true) else Stays;
  }
}
