/** What a commit does to an offset file when its topic is one the file's form cannot carry: the store
    accepts any topic. */
module OddTopics {
  import opened Common
  import opened OffsetTable
  import opened OffsetFile
  import Decimal
  import Text

  /** The text of `e` names `k` and comes after what the clean table `b` says about it. */
  ghost predicate Overrides(b: Table, e: Entry, k: Key)
    requires Own(e).Ok?
  {
    k in Own(e).value && (k in b ==> Text.Le(Line(Entry(k, b[k])), Line(e)))
  }

  lemma ExtendedEntries(es: seq<Entry>, b: Table, e: Entry)
    requires CleanTable(b) && e.key !in b && Enumerates(es, b[e.key := e.next])
    ensures e in es
    ensures forall k :: k in b ==> Entry(k, b[k]) in es
    ensures forall f :: f in es && f != e ==> f.key in b && f.next == b[f.key] && Own(f) == Ok(map[f.key := f.next])
  {
    var m := b[e.key := e.next];
    Enumerated(es, m, e);
    forall k | k in b ensures Entry(k, b[k]) in es {
      Enumerated(es, m, Entry(k, b[k]));
    }
    forall f | f in es && f != e ensures f.key in b && f.next == b[f.key] && Own(f) == Ok(map[f.key := f.next]) {
      Enumerated(es, m, f);
      assert f.key == e.key ==> f == e;
      CleanOwn(f);
    }
  }

  lemma OverridesIsLast(es: seq<Entry>, b: Table, e: Entry, k: Key)
    requires CleanTable(b) && e.key !in b && Enumerates(es, b[e.key := e.next])
    requires Own(e).Ok? && Overrides(b, e, k)
    ensures Last(es, e, k)
  {
    ExtendedEntries(es, b, e);
    Text.LeTotal(Line(e), Line(e));
  }

  lemma KeptIsLast(es: seq<Entry>, b: Table, e: Entry, k: Key)
    requires CleanTable(b) && e.key !in b && Enumerates(es, b[e.key := e.next])
    requires Own(e).Ok? && !Overrides(b, e, k)
    ensures k in b ==> Last(es, Entry(k, b[k]), k) && Own(Entry(k, b[k])) == Ok(map[k := b[k]])
    ensures k !in b ==> forall f :: !Last(es, f, k)
  {
    ExtendedEntries(es, b, e);
    if k in b {
      var c := Entry(k, b[k]);
      Text.LeTotal(Line(c), Line(c));
      Text.LeTotal(Line(c), Line(e));
    }
  }

  lemma EachOfExtended(es: seq<Entry>, b: Table, e: Entry)
    requires CleanTable(b) && e.key !in b && Enumerates(es, b[e.key := e.next])
    ensures EachOwnLoads(es) <==> Own(e).Ok?
  {
    ExtendedEntries(es, b, e);
  }

  /** A clean table with one more entry, of any topic: it can be read back exactly when the new
      entry's own text can, and then every key is either overridden by that text or as before. */
  lemma RereadExtended(b: Table, e: Entry, k: Key)
    requires CleanTable(b) && e.key !in b
    ensures var r := Reread(b[e.key := e.next]);
      && (r.Ok? <==> Own(e).Ok?)
      && (r.Ok? ==> Lookup(r.value, k) == if Overrides(b, e, k) then Some(Own(e).value[k]) else Lookup(b, k))
  {
    var es := SomeEntries(b[e.key := e.next]);
    EachOfExtended(es, b, e);
    SavedMeaning(es);
    if Own(e).Ok? {
      assert ToldAt(es, Load(Body(es)).value, k);
      if Overrides(b, e, k) {
        OverridesIsLast(es, b, e, k);
      } else {
        KeptIsLast(es, b, e, k);
      }
    }
  }

  // ---------------------------------------------------------------- which topics can be read at all

  predicate IsField(s: string) {
    s != [] && '\t' !in s && '\n' !in s && s[0] != '#' && !Text.IsWhitespace(s[0]) && !Text.IsWhitespace(s[|s| - 1])
  }

  lemma NumeralIsField(n: int)
    ensures IsField(Decimal.Print(n))
  {
    NumeralHasNoSpace(n);
    Decimal.PrintShape(n);
  }

  /** The pieces a topic's last line falls into take the place of the fields that follow the topic. */
  predicate PiecesRead(pieces: seq<string>) {
    && (|pieces| > 1 ==> Decimal.Parse(Text.Trim(pieces[1]), I32_MIN, I32_MAX).Some?)
    && (|pieces| > 2 ==> Decimal.Parse(Text.Trim(pieces[2]), I64_MIN, I64_MAX).Some?)
  }

  /** The last line of a topic: something must be left of it, and what is left starts a comment or has
      pieces that read as the fields they displace. */
  predicate ReadableEnd(line: string) {
    var kept := Text.TrimStart(line);
    kept != [] && (kept[0] == '#' || PiecesRead(Text.Split(kept, '\t')))
  }

  /** Every line of the topic but the last parses as it stands, and the last one is readable. */
  predicate ReadableTopic(topic: string)
    decreases |topic|
  {
    match Text.Find(topic, '\n')
    case None => ReadableEnd(topic)
    case Some(i) => Parses(Text.StripCarriageReturn(topic[..i])) && ReadableTopic(topic[i + 1..])
  }

  /** Numerals fit for a partition, and so for either field. */
  predicate AreNumerals(a: string, b: string) {
    && IsField(a) && IsField(b) && Text.Trim(a) == a && Text.Trim(b) == b
    && Decimal.Parse(a, I32_MIN, I32_MAX).Some? && Decimal.Parse(a, I64_MIN, I64_MAX).Some?
    && Decimal.Parse(b, I64_MIN, I64_MAX).Some?
  }

  lemma PrintedAreNumerals(partition: i32, next: i64)
    ensures AreNumerals(Decimal.Print(partition), Decimal.Print(next))
  {
    NumeralIsField(partition);
    NumeralIsField(next);
    NumeralHasNoSpace(partition);
    NumeralHasNoSpace(next);
    Decimal.PrintThenParse(partition, I32_MIN, I32_MAX);
    Decimal.PrintThenParse(partition, I64_MIN, I64_MAX);
    Decimal.PrintThenParse(next, I64_MIN, I64_MAX);
  }

  lemma PiecesParse(pieces: seq<string>, a: string, b: string)
    requires pieces != [] && AreNumerals(a, b)
    ensures ParseParts(pieces + [a] + [b], 0).Ok? <==> PiecesRead(pieces)
  {
    var parts := pieces + [a] + [b];
    if |pieces| == 1 {
      assert parts[1] == a && parts[2] == b;
    } else if |pieces| == 2 {
      assert parts[1] == pieces[1] && parts[2] == a;
    } else {
      assert parts[1] == pieces[1] && parts[2] == pieces[2];
    }
  }

  lemma TwoPiecesFail(a: string, b: string)
    ensures ParseParts([a, b], 0).Err?
  {
  }

  /** Whether a line parses depends on what trimming leaves of it. */
  lemma ParsesTrimmed(line: string, kept: string)
    requires Text.Trim(line) == kept
    ensures Parses(line) <==> kept == [] || kept[0] == '#' || ParseParts(Text.Split(kept, '\t'), 0).Ok?
  {
  }

  /** What is appended to the topic. */
  function Tail(a: string, b: string): string {
    ['\t'] + (a + ['\t'] + b)
  }

  lemma FieldsIsTail(line: string, a: string, b: string)
    ensures Fields(line, a, b) == line + Tail(a, b)
  {
    Text.Regroup(line, a, b, '\t');
    Text.Associative(line, ['\t'], a + ['\t'] + b);
  }

  lemma TailShape(a: string, b: string)
    requires AreNumerals(a, b)
    ensures var t := Tail(a, b); t != [] && !Text.IsWhitespace(t[|t| - 1])
    ensures Text.TrimStart(Tail(a, b)) == a + ['\t'] + b
  {
    var kept := a + ['\t'] + b;
    assert Tail(a, b)[1..] == kept;
    assert kept[0] == a[0] && kept[|kept| - 1] == b[|b| - 1];
  }

  lemma TwoPieces(a: string, b: string)
    requires AreNumerals(a, b)
    ensures Text.Split(a + ['\t'] + b, '\t') == [a, b] && (a + ['\t'] + b)[0] != '#'
  {
    Text.SplitSnoc(a, '\t', b);
    assert Text.Split(a, '\t') == [a];
  }

  /** Nothing is left of the topic: the partition is taken for it, and a field is missing. */
  lemma BlankEndFails(line: string, a: string, b: string)
    requires AreNumerals(a, b) && Text.TrimStart(line) == []
    ensures !Parses(line + Tail(a, b))
  {
    TailShape(a, b);
    Text.TrimConcat(line, Tail(a, b));
    TwoPieces(a, b);
    TwoPiecesFail(a, b);
    ParsesTrimmed(line + Tail(a, b), a + ['\t'] + b);
  }

  lemma MorePieces(kept: string, a: string, b: string)
    requires AreNumerals(a, b)
    ensures Text.Split(kept + Tail(a, b), '\t') == Text.Split(kept, '\t') + [a] + [b]
  {
    FieldsIsTail(kept, a, b);
    Text.SplitSnoc(kept + ['\t'] + a, '\t', b);
    Text.SplitSnoc(kept, '\t', a);
  }

  lemma KeptEndParses(line: string, a: string, b: string)
    requires AreNumerals(a, b) && Text.TrimStart(line) != []
    ensures Parses(line + Tail(a, b)) <==> ReadableEnd(line)
  {
    var kept := Text.TrimStart(line);
    TailShape(a, b);
    Text.TrimConcat(line, Tail(a, b));
    MorePieces(kept, a, b);
    PiecesParse(Text.Split(kept, '\t'), a, b);
    ParsesTrimmed(line + Tail(a, b), kept + Tail(a, b));
  }

  lemma EndParses(line: string, a: string, b: string)
    requires AreNumerals(a, b)
    ensures Parses(Fields(line, a, b)) <==> ReadableEnd(line)
  {
    FieldsIsTail(line, a, b);
    if Text.TrimStart(line) == [] {
      BlankEndFails(line, a, b);
    } else {
      KeptEndParses(line, a, b);
    }
  }

  lemma LoadsOneLine(line: string)
    requires '\n' !in line && line != []
    ensures Load(line).Ok? <==> Parses(line)
  {
    assert Text.Lines(line) == [line];
    LoadsWhenAllParse(line);
    assert AllParse([line]) <==> Parses(line) by {
      assert line in [line];
    }
  }

  lemma LoadsAfterLine(h: string, rest: string)
    requires '\n' !in h
    ensures Load(h + ['\n'] + rest).Ok? <==> Parses(Text.StripCarriageReturn(h)) && Load(rest).Ok?
  {
    Text.LinesCons(h, rest);
    LoadsWhenAllParse(h + ['\n'] + rest);
    LoadsWhenAllParse(rest);
    AllParseConcat([Text.StripCarriageReturn(h)], Text.Lines(rest));
    assert Text.StripCarriageReturn(h) in [Text.StripCarriageReturn(h)];
  }

  lemma OneLineReads(topic: string, a: string, b: string)
    requires AreNumerals(a, b) && '\n' !in topic
    ensures Load(Fields(topic, a, b)).Ok? <==> ReadableEnd(topic)
  {
    LoadsOneLine(Fields(topic, a, b));
    EndParses(topic, a, b);
  }

  lemma FieldsAfterLine(h: string, t: string, a: string, b: string)
    ensures Fields(h + ['\n'] + t, a, b) == h + ['\n'] + Fields(t, a, b)
  {
    FieldsIsTail(h + ['\n'] + t, a, b);
    FieldsIsTail(t, a, b);
    Text.Associative(h + ['\n'], t, Tail(a, b));
  }

  lemma LaterLineReads(h: string, t: string, a: string, b: string)
    requires '\n' !in h
    ensures Load(Fields(h + ['\n'] + t, a, b)).Ok? <==>
            Parses(Text.StripCarriageReturn(h)) && Load(Fields(t, a, b)).Ok?
  {
    FieldsAfterLine(h, t, a, b);
    LoadsAfterLine(h, Fields(t, a, b));
  }

  lemma {:induction false} FieldsReadExactly(topic: string, a: string, b: string)
    requires AreNumerals(a, b)
    ensures Load(Fields(topic, a, b)).Ok? <==> ReadableTopic(topic)
    decreases |topic|
  {
    match Text.Find(topic, '\n')
    case None => OneLineReads(topic, a, b);
    case Some(i) =>
      assert topic == topic[..i] + ['\n'] + topic[i + 1..];
      LaterLineReads(topic[..i], topic[i + 1..], a, b);
      FieldsReadExactly(topic[i + 1..], a, b);
  }

  /** Whether the text of an entry can be read back depends on its topic alone. */
  lemma OwnReadsExactly(e: Entry)
    ensures Own(e).Ok? <==> ReadableTopic(e.key.topic)
  {
    PrintedAreNumerals(e.key.partition, e.next);
    FieldsReadExactly(e.key.topic, Decimal.Print(e.key.partition), Decimal.Print(e.next));
  }

  // ---------------------------------------------------------------- one commit

  /** The entry a commit of `next` writes for `key`. */
  function Written(m: Table, key: Key, next: i64): Entry {
    Entry(key, Raise(m, key, next)[key])
  }

  /** The text written for `key` leaves what the file says about `k` alone; for `k` itself, it says
      what was asked. */
  ghost predicate Spares(m: Table, key: Key, next: i64, k: Key) {
    var e := Written(m, key, next);
    && Own(e).Ok?
    && if k == key then CleanTopic(k.topic)
       else Overrides(m - {key}, e, k) ==> k in m && Own(e).value[k] == m[k]
  }

  lemma RaisedIsExtended(m: Table, key: Key, next: i64)
    ensures Raise(m, key, next) == (m - {key})[key := Written(m, key, next).next]
  {
  }

  /** After a commit on any topic the file can still be read exactly when the topic is readable. */
  lemma StillReadable(m: Table, key: Key, next: i64)
    requires CleanTable(m)
    ensures Reread(Raise(m, key, next)).Ok? <==> ReadableTopic(key.topic)
  {
    OwnReadsExactly(Written(m, key, next));
    RaisedIsExtended(m, key, next);
    RereadExtended(m - {key}, Written(m, key, next), key);
  }

  /** And it gives `k` the value it should have exactly when the new entry's text spares `k`. */
  lemma SparedExactly(m: Table, key: Key, next: i64, k: Key)
    requires CleanTable(m)
    ensures var m' := Raise(m, key, next);
      Reread(m').Ok? && Lookup(Reread(m').value, k) == Lookup(m', k) <==> Spares(m, key, next, k)
  {
    var m', e := Raise(m, key, next), Written(m, key, next);
    RaisedIsExtended(m, key, next);
    RereadExtended(m - {key}, e, k);
    if k == key {
      LoadedIsClean(SavedText(m'));
      if CleanTopic(k.topic) {
        CleanOwn(e);
      }
    }
  }

  /** A clean topic spares every key. */
  lemma CleanSpares(m: Table, key: Key, next: i64, k: Key)
    requires CleanTopic(key.topic)
    ensures Spares(m, key, next, k)
  {
    CleanOwn(Written(m, key, next));
  }

  lemma FieldsDecide(l: string, parts: seq<string>, e: Entry)
    requires l != [] && l[0] != '#' && Text.Trim(l) == l && Text.Split(l, '\t') == parts
    requires parts != [] && ParseParts(parts, 0) == Ok(e)
    ensures Parses(l) && EntryOf(l) == Some(e)
  {
  }

  lemma FourFieldsParse(t: string, a: string, b: string, c: string, number: nat)
    requires ParseParts([t, a, b], number).Ok?
    ensures ParseParts([t, a, b, c], number) == ParseParts([t, a, b], number)
  {
  }

  lemma FourthFieldIgnored(t: string, a: string, b: string, c: string, e: Entry)
    requires CleanTopic(t) && IsField(a) && IsField(b) && IsField(c)
    requires ParseParts([t, a, b], 0) == Ok(e)
    ensures Load(Fields(t, a, b) + ['\t'] + c) == Ok(map[e.key := e.next])
  {
    FieldsShape(t, a, b);
    var l := Fields(t, a, b) + ['\t'] + c;
    assert l[|l| - 1] == c[|c| - 1] && l[0] == t[0];
    Text.TrimFixpoint(l);
    Text.SplitSnoc(Fields(t, a, b), '\t', c);
    FourFieldsParse(t, a, b, c, 0);
    FieldsDecide(l, [t, a, b, c], e);
    OneLine(l);
  }

  /** A topic with a tab and a numeral after a clean start writes to another key: its partition is
      read as that key's value. */
  lemma TabTopicSpeaksFor(t: string, q: i32, partition: i32, next: i64)
    requires CleanTopic(t)
    ensures Own(Entry(Key(t + ['\t'] + Decimal.Print(q), partition), next)) == Ok(map[Key(t, q) := partition])
  {
    var e := Entry(Key(t, q), partition);
    NumeralIsField(q);
    NumeralIsField(partition);
    NumeralIsField(next);
    PrintedPartsParse(e, 0);
    FourthFieldIgnored(t, Decimal.Print(q), Decimal.Print(partition), Decimal.Print(next), e);
  }

  /** The line of a tabbed topic sorts after the line giving `v` to the key it speaks for. */
  predicate SortsAfter(partition: i32, next: i64, v: i64) {
    Text.Le(Decimal.Print(v), Decimal.Print(partition) + ['\t'] + Decimal.Print(next))
  }

  lemma TabTopicOrder(t: string, q: i32, v: i64, partition: i32, next: i64)
    ensures Text.Le(Line(Entry(Key(t, q), v)), Line(Entry(Key(t + ['\t'] + Decimal.Print(q), partition), next)))
            <==> SortsAfter(partition, next, v)
  {
    var common := t + ['\t'] + Decimal.Print(q) + ['\t'];
    Text.LePrefix(common, Decimal.Print(v), Decimal.Print(partition) + ['\t'] + Decimal.Print(next));
    Text.Associative(common, Decimal.Print(partition), ['\t']);
    Text.Associative(common, Decimal.Print(partition) + ['\t'], Decimal.Print(next));
  }

  lemma TabTopicReread(t: string, q: i32, v: i64, partition: i32, next: i64)
    requires CleanTopic(t) && SortsAfter(partition, next, v)
    ensures var odd := Key(t + ['\t'] + Decimal.Print(q), partition);
      Reread(map[Key(t, q) := v][odd := next]) == Ok(map[Key(t, q) := partition])
  {
    var k, e := Key(t, q), Entry(Key(t + ['\t'] + Decimal.Print(q), partition), next);
    var b: Table, after: Table := map[k := v], map[k := partition];
    TabTopicSpeaksFor(t, q, partition, next);
    TabTopicOrder(t, q, v, partition, next);
    assert '\t' in e.key.topic;
    var r := Reread(b[e.key := e.next]);
    RereadExtended(b, e, k);
    forall j ensures Lookup(r.value, j) == Lookup(after, j) {
      RereadExtended(b, e, j);
    }
    SameLookups(r.value, after);
  }
}
