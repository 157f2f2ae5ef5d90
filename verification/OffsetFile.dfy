/** The tab-separated form of an offset table: reading a text line by line and printing a table
    as sorted lines. */
module OffsetFile {
  import opened Common
  import opened OffsetTable
  import Decimal
  import Text

  datatype Entry = Entry(key: Key, next: i64)

  // ---------------------------------------------------------------- reading

  function ParseField(raw: Option<string>, line: nat, field: Field, lo: int, hi: int): (r: Result<int>)
    ensures r.Ok? ==> lo <= r.value <= hi
  {
    match raw
    case None => Err(Config(MissingField(line, field)))
    case Some(text) =>
      match Decimal.Parse(Text.Trim(text), lo, hi)
      case None => Err(Config(MalformedField(line, field)))
      case Some(n) => Ok(n)
  }

  function ParsePartition(raw: Option<string>, line: nat): Result<i32> {
    match ParseField(raw, line, PartitionField, I32_MIN, I32_MAX)
    case Err(error) => Err(error)
    case Ok(n) => Ok(n)
  }

  function ParseNext(raw: Option<string>, line: nat): Result<i64> {
    match ParseField(raw, line, NextOffsetField, I64_MIN, I64_MAX)
    case Err(error) => Err(error)
    case Ok(n) => Ok(n)
  }

  function Part(parts: seq<string>, i: nat): Option<string> {
    if i < |parts| then Some(parts[i]) else None
  }

  function ParseParts(parts: seq<string>, number: nat): Result<Entry>
    requires parts != []
  {
    match ParsePartition(Part(parts, 1), number)
    case Err(error) => Err(error)
    case Ok(partition) =>
      match ParseNext(Part(parts, 2), number)
      case Err(error) => Err(error)
      case Ok(next) => Ok(Entry(Key(parts[0], partition), next))
  }

  /** One line: blank lines and comments carry nothing; fields after the third are ignored. */
  function ParseLine(raw: string, number: nat): Result<Option<Entry>> {
    var line := Text.Trim(raw);
    if line == [] || line[0] == '#' then Ok(None)
    else
      match ParseParts(Text.Split(line, '\t'), number)
      case Err(error) => Err(error)
      case Ok(e) => Ok(Some(e))
  }

  /** What a trimmed line that is neither blank nor a comment says, if it says anything: its first piece
      is the topic, the next two are numerals in range. */
  predicate Says(line: string, e: Entry) {
    var ps := Text.Split(line, '\t');
    && |ps| >= 3 && e.key.topic == ps[0]
    && Decimal.Spells(Text.Trim(ps[1]), e.key.partition) && Decimal.Spells(Text.Trim(ps[2]), e.next)
  }

  /** The first thing wrong with a line that says nothing. */
  function Complaint(line: string, number: nat): ConfigFault {
    var ps := Text.Split(line, '\t');
    if |ps| == 1 then MissingField(number, PartitionField)
    else if Decimal.Parse(Text.Trim(ps[1]), I32_MIN, I32_MAX).None? then MalformedField(number, PartitionField)
    else if |ps| == 2 then MissingField(number, NextOffsetField)
    else MalformedField(number, NextOffsetField)
  }

  predicate CarriesNothing(line: string) {
    line == [] || line[0] == '#'
  }

  lemma PartsSay(line: string, number: nat, e: Entry)
    ensures ParseParts(Text.Split(line, '\t'), number) == Ok(e) <==> Says(line, e)
  {
    var ps := Text.Split(line, '\t');
    if |ps| >= 3 {
      Decimal.ParsesDecimal(Text.Trim(ps[1]), I32_MIN, I32_MAX, e.key.partition);
      Decimal.ParsesDecimal(Text.Trim(ps[2]), I64_MIN, I64_MAX, e.next);
    }
  }

  /** A line is blank or a comment, or gives an entry, or is reported with its number and what is wrong. */
  lemma LineMeaning(raw: string, number: nat)
    ensures var line, r := Text.Trim(raw), ParseLine(raw, number);
      && (r == Ok(None) <==> CarriesNothing(line))
      && (forall e :: r == Ok(Some(e)) <==> !CarriesNothing(line) && Says(line, e))
      && (r.Err? ==> r.error == Config(Complaint(line, number)))
  {
    var line := Text.Trim(raw);
    forall e ensures ParseLine(raw, number) == Ok(Some(e)) <==> !CarriesNothing(line) && Says(line, e) {
      PartsSay(line, number, e);
    }
  }

  function LoadLines(lines: seq<string>, done: nat, m: Table): Result<Table> {
    if lines == [] then Ok(m)
    else
      match ParseLine(lines[0], done + 1)
      case Err(error) => Err(error)
      case Ok(None) => LoadLines(lines[1..], done + 1, m)
      case Ok(Some(e)) => LoadLines(lines[1..], done + 1, m[e.key := e.next])
  }

  function Load(text: string): Result<Table> {
    LoadLines(Text.Lines(text), 0, map[])
  }

  /** The line loop of `load_map`. */
  method LoadText(text: string) returns (r: Result<Table>)
    ensures r == Load(text)
  {
    var lines := Text.Lines(text);
    var m: Table := map[];
    for i := 0 to |lines|
      invariant Load(text) == LoadLines(lines[i..], i, m)
    {
      assert lines[i..][1..] == lines[i + 1..];
      var parsed := ParseLine(lines[i], i + 1);
      match parsed {
        case Err(error) => return Err(error);
        case Ok(None) =>
        case Ok(Some(e)) => m := m[e.key := e.next];
      }
    }
    return Ok(m);
  }

  /** What a line contributes, apart from the line number its errors mention. */
  function EntryOf(line: string): Option<Entry> {
    match ParseLine(line, 0)
    case Ok(e) => e
    case Err(_) => None
  }

  function EntriesOf(lines: seq<string>): (r: seq<Option<Entry>>)
    ensures |r| == |lines| && forall i :: 0 <= i < |lines| ==> r[i] == EntryOf(lines[i])
  {
    Map(EntryOf, lines)
  }

  function Inserted(item: Option<Entry>, m: Table): Table {
    if item.Some? then m[item.value.key := item.value.next] else m
  }

  function InsertAll(items: seq<Option<Entry>>, m: Table): Table {
    if items == [] then m
    else InsertAll(items[1..], Inserted(items[0], m))
  }

  predicate Names(item: Option<Entry>, k: Key) {
    item.Some? && item.value.key == k
  }

  /** Item `i` sets `e` and no later item names the same key. */
  ghost predicate Wins(items: seq<Option<Entry>>, i: int, e: Entry) {
    && 0 <= i < |items|
    && items[i] == Some(e)
    && forall j :: i < j < |items| ==> !Names(items[j], e.key)
  }

  ghost predicate Mentions(items: seq<Option<Entry>>, k: Key) {
    exists i :: 0 <= i < |items| && Names(items[i], k)
  }

  lemma WinsShift(items: seq<Option<Entry>>, e: Entry)
    requires items != []
    ensures (exists i :: Wins(items, i, e)) <==>
            (exists i :: Wins(items[1..], i, e)) || (items[0] == Some(e) && !Mentions(items[1..], e.key))
    ensures Mentions(items, e.key) <==> Mentions(items[1..], e.key) || Names(items[0], e.key)
  {
    var rest := items[1..];
    if i :| Wins(items, i, e) && i > 0 {
      assert Wins(rest, i - 1, e);
    }
    if i :| Wins(rest, i, e) {
      assert Wins(items, i + 1, e);
    }
    if items[0] == Some(e) && !Mentions(rest, e.key) {
      assert Wins(items, 0, e);
    }
    if i :| 0 <= i < |rest| && Names(rest[i], e.key) {
      assert Names(items[i + 1], e.key);
    }
  }

  /** What `k` ends up with: the last item naming it says `v`, or none does and `m` had `v`. */
  ghost predicate Settles(items: seq<Option<Entry>>, m: Table, k: Key, v: i64) {
    || (exists i :: Wins(items, i, Entry(k, v)))
    || (k in m && m[k] == v && !Mentions(items, k))
  }

  predicate Holds(m: Table, k: Key, v: i64) {
    k in m && m[k] == v
  }

  /** Inserting in order leaves, for each key, what the last item naming it says. */
  lemma {:induction false} InsertMeaning(items: seq<Option<Entry>>, m: Table)
    ensures forall k, v :: Holds(InsertAll(items, m), k, v) <==> Settles(items, m, k, v)
  {
    if items != [] {
      var next := Inserted(items[0], m);
      InsertMeaning(items[1..], next);
      forall k, v ensures Holds(InsertAll(items, m), k, v) <==> Settles(items, m, k, v) {
        WinsShift(items, Entry(k, v));
        assert Holds(InsertAll(items[1..], next), k, v) <==> Settles(items[1..], next, k, v);
      }
    }
  }

  /** Whether a line parses does not depend on the number its errors mention. */
  predicate Parses(line: string) {
    ParseLine(line, 0).Ok?
  }

  ghost predicate AllParse(lines: seq<string>) {
    forall l :: l in lines ==> Parses(l)
  }

  /** Line `i` is the first that does not parse, and this is its error. */
  ghost predicate FirstFailure(lines: seq<string>, done: nat, i: int, error: KafkaError) {
    && 0 <= i < |lines|
    && ParseLine(lines[i], done + i + 1) == Err(error)
    && !Parses(lines[i])
    && forall j :: 0 <= j < i ==> Parses(lines[j])
  }

  lemma NumberOnlyInErrors(line: string, number: nat)
    ensures ParseLine(line, number).Ok? <==> Parses(line)
    ensures Parses(line) ==> EntryOf(line) == ParseLine(line, number).value
  {
  }

  lemma LoadStep(lines: seq<string>, done: nat, m: Table)
    requires lines != []
    ensures Parses(lines[0]) ==>
      LoadLines(lines, done, m) == LoadLines(lines[1..], done + 1, Inserted(EntryOf(lines[0]), m))
    ensures !Parses(lines[0]) ==>
      LoadLines(lines, done, m).Err? && LoadLines(lines, done, m).error == ParseLine(lines[0], done + 1).error
  {
    NumberOnlyInErrors(lines[0], done + 1);
  }

  lemma {:induction false} LoadIsInsert(lines: seq<string>, done: nat, m: Table)
    requires AllParse(lines)
    ensures LoadLines(lines, done, m) == Ok(InsertAll(EntriesOf(lines), m))
  {
    if lines != [] {
      assert Parses(lines[0]);
      LoadStep(lines, done, m);
      LoadIsInsert(lines[1..], done + 1, Inserted(EntryOf(lines[0]), m));
      assert EntriesOf(lines)[1..] == EntriesOf(lines[1..]);
    }
  }

  lemma LaterFailure(lines: seq<string>, done: nat, i: int, error: KafkaError)
    requires lines != [] && Parses(lines[0]) && FirstFailure(lines[1..], done + 1, i, error)
    ensures FirstFailure(lines, done, i + 1, error)
  {
    forall j | 0 <= j < i + 1 ensures Parses(lines[j]) {
      if j > 0 { assert lines[j] == lines[1..][j - 1]; }
    }
  }

  lemma {:induction false} LoadFails(lines: seq<string>, done: nat, m: Table) returns (i: int)
    requires !AllParse(lines)
    ensures LoadLines(lines, done, m).Err?
    ensures FirstFailure(lines, done, i, LoadLines(lines, done, m).error)
  {
    LoadStep(lines, done, m);
    if Parses(lines[0]) {
      assert !AllParse(lines[1..]) by {
        assert lines == [lines[0]] + lines[1..];
      }
      var m' := Inserted(EntryOf(lines[0]), m);
      var k := LoadFails(lines[1..], done + 1, m');
      LaterFailure(lines, done, k, LoadLines(lines, done, m).error);
      i := k + 1;
    } else {
      NumberOnlyInErrors(lines[0], done + 1);
      i := 0;
    }
  }

  /** A text loads exactly when every line parses, the first bad line is the one reported, and
      the table holds, for each key, what the last line naming it says. */
  lemma LoadMeaning(text: string)
    ensures var lines, r := Text.Lines(text), Load(text);
      && (r.Ok? <==> AllParse(lines))
      && (r.Err? ==> exists i :: FirstFailure(lines, 0, i, r.error))
      && (r.Ok? ==> forall k, v :: Holds(r.value, k, v) <==> Settles(EntriesOf(lines), map[], k, v))
  {
    var lines := Text.Lines(text);
    if AllParse(lines) {
      LoadIsInsert(lines, 0, map[]);
      InsertMeaning(EntriesOf(lines), map[]);
    } else {
      var i := LoadFails(lines, 0, map[]);
    }
  }

  // ---------------------------------------------------------------- topics the form can carry

  /** Topics the tab-separated form carries unchanged. */
  predicate CleanTopic(t: string) {
    && t != []
    && '\t' !in t && '\n' !in t
    && !Text.IsWhitespace(t[0]) && t[0] != '#'
  }

  ghost predicate CleanTable(m: Table) {
    forall k :: k in m ==> CleanTopic(k.topic)
  }

  lemma EntryIsClean(line: string)
    requires '\n' !in line && EntryOf(line).Some?
    ensures CleanTopic(EntryOf(line).value.key.topic)
  {
    var trimmed := Text.Trim(line);
    Text.TrimShape(line);
    Text.SplitFirst(trimmed, '\t');
  }

  /** Whatever a file holds, the topics read from it are clean. */
  lemma LoadedIsClean(text: string)
    ensures Load(text).Ok? ==> CleanTable(Load(text).value)
  {
    if Load(text).Ok? {
      LoadMeaning(text);
      Text.LinesShape(text);
      var lines, m := Text.Lines(text), Load(text).value;
      forall k | k in m ensures CleanTopic(k.topic) {
        assert Holds(m, k, m[k]);
        var i :| Wins(EntriesOf(lines), i, Entry(k, m[k]));
        assert lines[i] in lines;
        EntryIsClean(lines[i]);
      }
    }
  }

  // ---------------------------------------------------------------- printing

  function Fields(topic: string, partition: string, next: string): string {
    topic + ['\t'] + partition + ['\t'] + next
  }

  function Line(e: Entry): string {
    Fields(e.key.topic, Decimal.Print(e.key.partition), Decimal.Print(e.next))
  }

  function LinesOf(es: seq<Entry>): seq<string> {
    Map(Line, es)
  }

  /** The body written for the entries in the order the hash map happens to yield them. */
  function Body(es: seq<Entry>): string {
    Text.Join(Text.Sort(LinesOf(es)))
  }

  /** `es` lists the table, each key once, in some order. */
  ghost predicate Enumerates(es: seq<Entry>, m: Table) {
    && (forall i, j :: 0 <= i < j < |es| ==> es[i].key != es[j].key)
    && (forall i :: 0 <= i < |es| ==> es[i].key in m && m[es[i].key] == es[i].next)
    && (forall k :: k in m ==> Entry(k, m[k]) in es)
  }

  lemma NumeralHasNoSpace(n: int)
    ensures var s := Decimal.Print(n);
      && '\t' !in s && '\n' !in s && s != []
      && !Text.IsWhitespace(s[0]) && !Text.IsWhitespace(s[|s| - 1]) && Text.Trim(s) == s
  {
    Decimal.PrintShape(n);
    Text.TrimFixpoint(Decimal.Print(n));
  }

  lemma FieldsShape(topic: string, a: string, b: string)
    requires CleanTopic(topic)
    requires '\t' !in a && '\n' !in a && '\t' !in b && '\n' !in b
    requires b != [] && !Text.IsWhitespace(b[|b| - 1])
    ensures var l := Fields(topic, a, b);
      && Text.IsClosed(l) && '\n' !in l && Text.Trim(l) == l && l[0] == topic[0]
      && Text.Split(l, '\t') == [topic, a, b]
  {
    var l := Fields(topic, a, b);
    assert l[|l| - 1] == b[|b| - 1];
    Text.TrimFixpoint(l);
    Text.SplitThree(topic, a, b, '\t');
  }

  lemma PrintedPartsParse(e: Entry, number: nat)
    ensures ParseParts([e.key.topic, Decimal.Print(e.key.partition), Decimal.Print(e.next)], number) == Ok(e)
  {
    NumeralHasNoSpace(e.key.partition);
    NumeralHasNoSpace(e.next);
    Decimal.PrintThenParse(e.key.partition, I32_MIN, I32_MAX);
    Decimal.PrintThenParse(e.next, I64_MIN, I64_MAX);
  }

  lemma FieldsParse(topic: string, a: string, b: string, number: nat)
    requires Text.Trim(Fields(topic, a, b)) == Fields(topic, a, b) && CleanTopic(topic)
    requires Text.Split(Fields(topic, a, b), '\t') == [topic, a, b]
    ensures ParseParts([topic, a, b], number).Ok? ==>
      ParseLine(Fields(topic, a, b), number) == Ok(Some(ParseParts([topic, a, b], number).value))
  {
    assert Fields(topic, a, b)[0] == topic[0];
  }

  lemma PrintedLineParses(e: Entry, number: nat)
    requires CleanTopic(e.key.topic)
    ensures ParseLine(Line(e), number) == Ok(Some(e)) && '\n' !in Line(e)
  {
    var a, b := Decimal.Print(e.key.partition), Decimal.Print(e.next);
    NumeralHasNoSpace(e.key.partition);
    NumeralHasNoSpace(e.next);
    FieldsShape(e.key.topic, a, b);
    PrintedPartsParse(e, number);
    FieldsParse(e.key.topic, a, b, number);
  }

  // ---------------------------------------------------------------- what a printed table says

  /** What the text of one entry loads as when it stands alone. A topic the form cannot carry may
      make it unreadable, or make it say something about other keys. */
  function Own(e: Entry): Result<Table> {
    Load(Line(e))
  }

  lemma OneLine(l: string)
    requires l != [] && '\n' !in l && Parses(l)
    ensures Load(l) == Ok(Inserted(EntryOf(l), map[]))
  {
    assert Text.Lines(l) == [l];
    LoadStep([l], 0, map[]);
    assert [l][1..] == [];
  }

  lemma CleanOwn(e: Entry)
    requires CleanTopic(e.key.topic)
    ensures Own(e) == Ok(map[e.key := e.next])
  {
    PrintedLineParses(e, 0);
    LineIsClosed(e);
    OneLine(Line(e));
  }

  lemma LineIsClosed(e: Entry)
    ensures Text.IsClosed(Line(e))
  {
    var b := Decimal.Print(e.next);
    NumeralHasNoSpace(e.next);
    assert Line(e)[|Line(e)| - 1] == b[|b| - 1];
  }

  lemma InsertAllConcat(a: seq<Option<Entry>>, b: seq<Option<Entry>>, m: Table)
    ensures InsertAll(a + b, m) == InsertAll(b, InsertAll(a, m))
    decreases |a|
  {
    if a == [] {
      assert a + b == b;
    } else {
      assert (a + b)[1..] == a[1..] + b;
      InsertAllConcat(a[1..], b, Inserted(a[0], m));
    }
  }

  /** Inserting overrides what was there. */
  lemma {:induction false} InsertAllOver(items: seq<Option<Entry>>, m: Table)
    ensures InsertAll(items, m) == m + InsertAll(items, map[])
  {
    if items != [] {
      InsertAllOver(items[1..], Inserted(items[0], m));
      InsertAllOver(items[1..], Inserted(items[0], map[]));
    }
  }

  lemma EntriesConcat(a: seq<string>, b: seq<string>)
    ensures EntriesOf(a + b) == EntriesOf(a) + EntriesOf(b)
  {
  }

  ghost predicate EachLoads(ls: seq<string>) {
    forall l :: l in ls ==> Load(l).Ok?
  }

  /** Loading texts one over the other; later ones override. */
  ghost function Overlaid(ls: seq<string>): Table
    requires EachLoads(ls)
  {
    if ls == [] then map[]
    else
      assert Load(ls[0]).Ok?;
      Load(ls[0]).value + Overlaid(ls[1..])
  }

  lemma AllParseConcat(a: seq<string>, b: seq<string>)
    ensures AllParse(a + b) <==> AllParse(a) && AllParse(b)
  {
  }

  lemma EachLoadsCons(ls: seq<string>)
    requires ls != []
    ensures EachLoads(ls) <==> Load(ls[0]).Ok? && EachLoads(ls[1..])
  {
    assert ls == [ls[0]] + ls[1..];
  }

  lemma LoadsWhenAllParse(text: string)
    ensures Load(text).Ok? <==> AllParse(Text.Lines(text))
  {
    LoadMeaning(text);
  }

  lemma {:induction false} AllParseOfAll(ls: seq<string>)
    ensures AllParse(Text.LinesOfAll(ls)) <==> EachLoads(ls)
  {
    if ls != [] {
      AllParseOfAll(ls[1..]);
      AllParseConcat(Text.Lines(ls[0]), Text.LinesOfAll(ls[1..]));
      LoadsWhenAllParse(ls[0]);
      EachLoadsCons(ls);
    }
  }

  lemma {:induction false} LinesOfAllInsert(ls: seq<string>)
    requires EachLoads(ls)
    ensures InsertAll(EntriesOf(Text.LinesOfAll(ls)), map[]) == Overlaid(ls)
  {
    if ls != [] {
      var first, rest := Text.Lines(ls[0]), Text.LinesOfAll(ls[1..]);
      EachLoadsCons(ls);
      LoadsWhenAllParse(ls[0]);
      LoadIsInsert(first, 0, map[]);
      LinesOfAllInsert(ls[1..]);
      EntriesConcat(first, rest);
      InsertAllConcat(EntriesOf(first), EntriesOf(rest), map[]);
      InsertAllOver(EntriesOf(rest), Load(ls[0]).value);
    }
  }

  /** Joined texts load as their tables laid over each other. */
  lemma LoadJoined(ls: seq<string>)
    requires forall l :: l in ls ==> Text.IsClosed(l)
    ensures Load(Text.Join(ls)).Ok? <==> EachLoads(ls)
    ensures EachLoads(ls) ==> Load(Text.Join(ls)).value == Overlaid(ls)
  {
    Text.LinesOfJoin(ls);
    AllParseOfAll(ls);
    LoadsWhenAllParse(Text.Join(ls));
    if EachLoads(ls) {
      LinesOfAllInsert(ls);
      LoadIsInsert(Text.LinesOfAll(ls), 0, map[]);
    }
  }

  /** Among the texts that name `k`, `l` is the last in sorting order. */
  ghost predicate Decides(ls: seq<string>, l: string, k: Key)
    requires EachLoads(ls)
  {
    && l in ls && k in Load(l).value
    && forall l' :: l' in ls && k in Load(l').value ==> Text.Le(l', l)
  }

  lemma {:induction false} DecidedAtMost(ls: seq<string>, k: Key) returns (l: string)
    requires EachLoads(ls) && Text.Sorted(ls) && k in Overlaid(ls)
    ensures Decides(ls, l, k) && Overlaid(ls)[k] == Load(l).value[k]
  {
    var rest := ls[1..];
    assert forall l' :: l' in ls <==> l' == ls[0] || l' in rest by {
      assert ls == [ls[0]] + rest;
    }
    if k in Overlaid(rest) {
      l := DecidedAtMost(rest, k);
      var i :| 0 <= i < |rest| && rest[i] == l;
      assert Text.Le(ls[0], ls[i + 1]);
    } else {
      l := ls[0];
      Text.LeTotal(l, l);
      forall l' | l' in rest && k in Load(l').value ensures false {
        NamedIsOverlaid(rest, l', k);
      }
    }
  }

  lemma {:induction false} NamedIsOverlaid(ls: seq<string>, l: string, k: Key)
    requires EachLoads(ls) && l in ls && k in Load(l).value
    ensures k in Overlaid(ls)
  {
    if l != ls[0] {
      NamedIsOverlaid(ls[1..], l, k);
    }
  }

  lemma DecisionsAgree(ls: seq<string>, l: string, k: Key)
    requires EachLoads(ls) && Text.Sorted(ls) && Decides(ls, l, k)
    ensures k in Overlaid(ls) && Overlaid(ls)[k] == Load(l).value[k]
  {
    NamedIsOverlaid(ls, l, k);
    var l' := DecidedAtMost(ls, k);
    Text.LeAntisymmetric(l, l');
  }

  /** Among the entries whose own text names `k`, `e` comes last in the file. */
  ghost predicate Last(es: seq<Entry>, e: Entry, k: Key) {
    && e in es && Own(e).Ok? && k in Own(e).value
    && forall f :: f in es && Own(f).Ok? && k in Own(f).value ==> Text.Le(Line(f), Line(e))
  }

  ghost predicate EachOwnLoads(es: seq<Entry>) {
    forall e :: e in es ==> Own(e).Ok?
  }

  lemma LinesOfContains(es: seq<Entry>, l: string)
    ensures l in LinesOf(es) <==> exists e :: e in es && Line(e) == l
  {
    if e :| e in es && Line(e) == l {
      var j :| 0 <= j < |es| && es[j] == e;
      assert LinesOf(es)[j] == l;
    }
  }

  lemma SortedLines(es: seq<Entry>)
    ensures var ls := Text.Sort(LinesOf(es));
      && (forall e :: e in es ==> Line(e) in ls)
      && (forall l :: l in ls ==> exists e :: e in es && Line(e) == l)
      && (forall l :: l in ls ==> Text.IsClosed(l))
      && (EachLoads(ls) <==> EachOwnLoads(es))
  {
    var ls := Text.Sort(LinesOf(es));
    Text.SortKeeps(LinesOf(es));
    forall e | e in es ensures Line(e) in ls {
      LinesOfContains(es, Line(e));
    }
    forall l | l in ls ensures Text.IsClosed(l) && exists e :: e in es && Line(e) == l {
      LinesOfContains(es, l);
      var e :| e in es && Line(e) == l;
      LineIsClosed(e);
    }
    forall e | e in es && EachLoads(ls) ensures Own(e).Ok? {
      assert Line(e) in ls;
    }
  }

  /** `r` gives `k` what the last entry naming it says, or nothing if none does. */
  ghost predicate ToldAt(es: seq<Entry>, r: Table, k: Key) {
    && (k in r <==> exists e :: Last(es, e, k))
    && (forall e :: Last(es, e, k) ==> k in r && r[k] == Own(e).value[k])
  }

  ghost predicate Told(es: seq<Entry>, r: Table) {
    forall k :: ToldAt(es, r, k)
  }

  /** What a printed table says, whatever its topics: it loads exactly when the text of each entry
      loads on its own, and a key gets what the last entry whose text names it says. */
  lemma SavedMeaning(es: seq<Entry>)
    ensures Load(Body(es)).Ok? <==> EachOwnLoads(es)
    ensures EachOwnLoads(es) ==> Told(es, Load(Body(es)).value)
  {
    var ls := Text.Sort(LinesOf(es));
    SortedLines(es);
    LoadJoined(ls);
    if EachOwnLoads(es) {
      forall k ensures ToldAt(es, Overlaid(ls), k) {
        OverlaidTells(es, ls, k);
      }
    }
  }

  lemma LastDecides(es: seq<Entry>, ls: seq<string>, e: Entry, k: Key)
    requires ls == Text.Sort(LinesOf(es)) && EachLoads(ls) && Last(es, e, k)
    ensures k in Overlaid(ls) && Overlaid(ls)[k] == Own(e).value[k]
  {
    SortedLines(es);
    forall l | l in ls && k in Load(l).value ensures Text.Le(l, Line(e)) {
      var f :| f in es && Line(f) == l;
      assert Own(f) == Load(l);
    }
    DecisionsAgree(ls, Line(e), k);
  }

  lemma OverlaidTells(es: seq<Entry>, ls: seq<string>, k: Key)
    requires ls == Text.Sort(LinesOf(es)) && EachLoads(ls)
    ensures ToldAt(es, Overlaid(ls), k)
  {
    forall e | Last(es, e, k) ensures k in Overlaid(ls) && Overlaid(ls)[k] == Own(e).value[k] {
      LastDecides(es, ls, e, k);
    }
    if k in Overlaid(ls) {
      LastExists(es, ls, k);
    }
  }

  lemma LastExists(es: seq<Entry>, ls: seq<string>, k: Key)
    requires ls == Text.Sort(LinesOf(es)) && EachLoads(ls) && k in Overlaid(ls)
    ensures exists e :: Last(es, e, k)
  {
    SortedLines(es);
    var l := DecidedAtMost(ls, k);
    var e :| e in es && Line(e) == l;
    forall f | f in es && Own(f).Ok? && k in Own(f).value ensures Text.Le(Line(f), Line(e)) {
      assert Line(f) in ls;
    }
    assert Last(es, e, k);
  }

  lemma Enumerated(es: seq<Entry>, m: Table, e: Entry)
    requires Enumerates(es, m)
    ensures e in es <==> e.key in m && e.next == m[e.key]
  {
    if e in es {
      var i :| 0 <= i < |es| && es[i] == e;
    }
  }

  lemma CleanEntries(es: seq<Entry>, m: Table)
    requires Enumerates(es, m) && CleanTable(m)
    ensures forall e :: e in es ==> Own(e) == Ok(map[e.key := e.next]) && e.key in m && e.next == m[e.key]
  {
    forall e | e in es ensures Own(e) == Ok(map[e.key := e.next]) && e.key in m && e.next == m[e.key] {
      Enumerated(es, m, e);
      CleanOwn(e);
    }
  }

  lemma CleanLast(es: seq<Entry>, m: Table, k: Key)
    requires Enumerates(es, m) && CleanTable(m)
    ensures (exists e :: Last(es, e, k)) <==> k in m
    ensures k in m ==> Last(es, Entry(k, m[k]), k)
  {
    CleanEntries(es, m);
    if k in m {
      var e := Entry(k, m[k]);
      assert e in es;
      Text.LeTotal(Line(e), Line(e));
      assert Last(es, e, k);
    }
  }

  lemma CleanToldAt(es: seq<Entry>, m: Table, r: Table, k: Key)
    requires Enumerates(es, m) && CleanTable(m) && ToldAt(es, r, k)
    ensures k in r <==> k in m
    ensures k in m ==> r[k] == m[k]
  {
    CleanLast(es, m, k);
    if k in m {
      var e := Entry(k, m[k]);
      assert Last(es, e, k);
      CleanOwn(e);
      assert Own(e).value[k] == m[k];
    }
  }

  lemma CleanTold(es: seq<Entry>, m: Table, r: Table)
    requires Enumerates(es, m) && CleanTable(m) && Told(es, r)
    ensures r == m
  {
    forall k ensures (k in r <==> k in m) && (k in m ==> r[k] == m[k]) {
      assert ToldAt(es, r, k);
      CleanToldAt(es, m, r, k);
    }
  }

  lemma LoadBody(es: seq<Entry>, m: Table)
    requires Enumerates(es, m) && CleanTable(m)
    ensures Load(Body(es)) == Ok(m)
  {
    CleanEntries(es, m);
    SavedMeaning(es);
    CleanTold(es, m, Load(Body(es)).value);
  }

  /** The round trip, for every table and every order its entries come in: the printed table
      reads back as itself exactly when every topic is clean. */
  lemma RoundTrip(es: seq<Entry>, m: Table)
    requires Enumerates(es, m)
    ensures Load(Body(es)) == Ok(m) <==> CleanTable(m)
  {
    if CleanTable(m) {
      LoadBody(es, m);
    }
    LoadedIsClean(Body(es));
  }

  // ---------------------------------------------------------------- the body is a function of the table

  lemma EmptyEnumeration(es: seq<Entry>, m: Table)
    requires Enumerates(es, m)
    ensures es == [] <==> m == map[]
  {
    if es != [] {
      assert es[0].key in m;
    }
    if m != map[] {
      var k :| k in m;
      assert Entry(k, m[k]) in es;
    }
  }

  lemma {:induction false} EnumerationsAgree(a: seq<Entry>, b: seq<Entry>, m: Table)
    requires Enumerates(a, m) && Enumerates(b, m)
    ensures multiset(LinesOf(a)) == multiset(LinesOf(b))
    decreases |a|
  {
    EmptyEnumeration(a, m);
    EmptyEnumeration(b, m);
    if a != [] {
      var e := a[0];
      assert Entry(e.key, m[e.key]) in b;
      var j :| 0 <= j < |b| && b[j] == e;
      var m' := m - {e.key};
      var a', b' := RemoveAt(a, 0), RemoveAt(b, j);
      RemoveEnumerates(a, 0, m);
      RemoveEnumerates(b, j, m);
      EnumerationsAgree(a', b', m');
      MapWithout(Line, a, 0);
      MapWithout(Line, b, j);
    }
  }

  lemma RemoveEnumerates(es: seq<Entry>, j: nat, m: Table)
    requires Enumerates(es, m) && j < |es|
    ensures Enumerates(RemoveAt(es, j), m - {es[j].key})
  {
    var r, m' := RemoveAt(es, j), m - {es[j].key};
    assert forall i :: 0 <= i < |r| ==> r[i] == es[if i < j then i else i + 1];
    forall k | k in m' ensures Entry(k, m'[k]) in r {
      assert Entry(k, m[k]) in es;
      var i :| 0 <= i < |es| && es[i] == Entry(k, m[k]);
      assert r[if i < j then i else i - 1] == es[i];
    }
  }

  /** The bytes written do not depend on the order the hash map yields its entries in. */
  lemma BodyIsCanonical(a: seq<Entry>, b: seq<Entry>, m: Table)
    requires Enumerates(a, m) && Enumerates(b, m)
    ensures Body(a) == Body(b)
  {
    EnumerationsAgree(a, b, m);
    Text.SortedUnique(Text.Sort(LinesOf(a)), Text.Sort(LinesOf(b)));
  }

  lemma {:induction false} SomeEnumeration(m: Table, keys: set<Key>) returns (es: seq<Entry>)
    requires keys <= m.Keys
    ensures Enumerates(es, m - keys)
    decreases |m.Keys - keys|
  {
    if m.Keys == keys {
      es := [];
    } else {
      assert m.Keys - keys != {} by {
        assert m.Keys == (m.Keys - keys) + keys;
      }
      var k :| k in m.Keys - keys;
      assert m.Keys - (keys + {k}) < m.Keys - keys;
      SubsetSmaller(m.Keys - (keys + {k}), m.Keys - keys);
      var rest := SomeEnumeration(m, keys + {k});
      ExtendEnumeration(rest, m, keys + {k}, k);
      assert keys + {k} - {k} == keys;
      es := rest + [Entry(k, m[k])];
    }
  }

  lemma SubsetSmaller(a: set<Key>, b: set<Key>)
    requires a < b
    ensures |a| < |b|
  {
    assert b == a + (b - a);
    assert b - a != {};
  }

  /** The text `save_map` writes for a table. */
  ghost function SavedText(m: Table): string {
    var es := SomeEntries(m);
    Body(es)
  }

  ghost function SomeEntries(m: Table): (es: seq<Entry>)
    ensures Enumerates(es, m)
  {
    assert exists es :: Enumerates(es, m) by {
      var es := SomeEnumeration(m, {});
      assert m - {} == m;
    }
    var es :| Enumerates(es, m);
    es
  }

  /** The printing half of `save_map`: format each entry as the map yields it, sort, join. */
  method PrintTable(m: Table) returns (body: string)
    ensures body == SavedText(m)
  {
    var lines: seq<string> := [];
    ghost var es: seq<Entry> := [];
    var keys := m.Keys;
    while keys != {}
      invariant keys <= m.Keys
      invariant lines == LinesOf(es)
      invariant Enumerates(es, m - keys)
      decreases |keys|
    {
      var k :| k in keys;
      lines := lines + [Line(Entry(k, m[k]))];
      ExtendEnumeration(es, m, keys, k);
      es := es + [Entry(k, m[k])];
      keys := keys - {k};
    }
    assert m - keys == m;
    BodyIsCanonical(es, SomeEntries(m), m);
    body := Text.Join(Text.Sort(lines));
  }

  lemma ExtendedHolds(es: seq<Entry>, m: Table, keys: set<Key>, k: Key, k': Key)
    requires keys <= m.Keys && k in keys && Enumerates(es, m - keys) && k' in m - (keys - {k})
    ensures Entry(k', m[k']) in es + [Entry(k, m[k])]
  {
    if k' != k {
      assert k' in m - keys;
      assert Entry(k', (m - keys)[k']) in es;
    }
  }

  lemma ExtendEnumeration(es: seq<Entry>, m: Table, keys: set<Key>, k: Key)
    requires keys <= m.Keys && k in keys && Enumerates(es, m - keys)
    ensures Enumerates(es + [Entry(k, m[k])], m - (keys - {k}))
    ensures LinesOf(es + [Entry(k, m[k])]) == LinesOf(es) + [Line(Entry(k, m[k]))]
  {
    var e := Entry(k, m[k]);
    var m' := m - (keys - {k});
    MapAppend(Line, es, e);
    forall k' | k' in m' ensures Entry(k', m'[k']) in es + [e] {
      ExtendedHolds(es, m, keys, k, k');
    }
  }

  /** What is saved reads back unchanged exactly when every topic is clean. */
  lemma SaveThenLoad(m: Table)
    ensures Load(SavedText(m)) == Ok(m) <==> CleanTable(m)
  {
    RoundTrip(SomeEntries(m), m);
  }

  /** Saving a loaded text normalises it: comments, blank lines, padding and duplicate keys are
      gone, and the table is the same. */
  lemma SaveNormalises(text: string)
    requires Load(text).Ok?
    ensures Load(SavedText(Load(text).value)) == Load(text)
  {
    LoadedIsClean(text);
    SaveThenLoad(Load(text).value);
  }

  /** What the file holds once `m` has been written to it. */
  ghost function Reread(m: Table): Result<Table> {
    Load(SavedText(m))
  }

  /** The bytes of the file: one line for each entry, topic, partition and next offset in that order with
      tabs between them, sorted, with line feeds between the lines. */
  lemma SavedForm(m: Table) returns (es: seq<Entry>, ls: seq<string>)
    ensures SavedText(m) == Text.Glue(ls, '\n') && Text.Sorted(ls) && multiset(ls) == multiset(LinesOf(es))
    ensures Enumerates(es, m)
    ensures forall i :: 0 <= i < |es| ==>
      LinesOf(es)[i] ==
      es[i].key.topic + "\t" + Decimal.Print(es[i].key.partition) + "\t" + Decimal.Print(es[i].next)
  {
    es := SomeEntries(m);
    ls := Text.Sort(LinesOf(es));
    Text.JoinIsGlue(ls);
  }
}
