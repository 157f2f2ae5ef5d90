/** The stable text form of a message's location, `topic/partition/offset`. */
module BusId {
  import opened Common
  import Decimal

  datatype Location = Location(topic: string, partition: i32, offset: i64)

  function Join(topic: string, partition: string, offset: string): string {
    topic + ['/'] + partition + ['/'] + offset
  }

  function Encode(l: Location): string {
    Join(l.topic, Decimal.Print(l.partition), Decimal.Print(l.offset))
  }

  lemma LastBefore(s: string, i: nat)
    requires i < |s| - 1
    ensures s[i + 1..] == s[..|s| - 1][i + 1..] + [s[|s| - 1]]
  {
  }

  /** The last position of `c`. */
  function FindLast(s: string, c: char): (r: Option<nat>)
    ensures r.None? <==> c !in s
    ensures r.Some? ==> r.value < |s| && s[r.value] == c && c !in s[r.value + 1..]
  {
    if s == [] then None
    else if s[|s| - 1] == c then Some(|s| - 1)
    else
      var r := FindLast(s[..|s| - 1], c);
      assert s == s[..|s| - 1] + [s[|s| - 1]];
      if r.None? then None
      else
        LastBefore(s, r.value);
        r
  }

  datatype Cut = NoSlash | Parts(front: string, tail: string)

  /** One step of `rsplitn`: what precedes the last slash and what follows it. */
  function CutLast(s: string): (r: Cut)
    ensures r.NoSlash? <==> '/' !in s
    ensures r.Parts? ==> s == r.front + ['/'] + r.tail && '/' !in r.tail
  {
    match FindLast(s, '/')
    case None => NoSlash
    case Some(i) => Parts(s[..i], s[i + 1..])
  }

  /** Splits from the right at most twice, so the topic may contain slashes. */
  function Parse(id: string): Option<Location> {
    match CutLast(id)
    case NoSlash => None
    case Parts(front, tail) =>
      match Decimal.ParseI64(tail)
      case None => None
      case Some(offset) => ParseFront(front, offset)
  }

  function ParseFront(front: string, offset: i64): Option<Location> {
    match CutLast(front)
    case NoSlash => None
    case Parts(topic, tail) =>
      match Decimal.ParseI32(tail)
      case None => None
      case Some(partition) => if topic == [] then None else Some(Location(topic, partition, offset))
  }

  lemma {:induction false} FindLastInConcat(a: string, c: char, b: string)
    requires c !in b
    ensures FindLast(a + [c] + b, c) == Some(|a|)
  {
    var s := a + [c] + b;
    if b == [] {
      assert s[|s| - 1] == c;
    } else {
      assert s[..|s| - 1] == a + [c] + b[..|b| - 1];
      FindLastInConcat(a, c, b[..|b| - 1]);
    }
  }

  lemma CutConcat(front: string, tail: string)
    requires '/' !in tail
    ensures CutLast(front + ['/'] + tail) == Parts(front, tail)
  {
    FindLastInConcat(front, '/', tail);
    var s := front + ['/'] + tail;
    assert s[..|front|] == front && s[|front| + 1..] == tail;
  }

  /** A joined text is taken apart at its two separators. */
  lemma JoinSplits(topic: string, partition: string, offset: string)
    requires '/' !in partition && '/' !in offset
    ensures Parse(Join(topic, partition, offset)) ==
      match (Decimal.ParseI64(offset), Decimal.ParseI32(partition))
      case (Some(o), Some(p)) => if topic == [] then None else Some(Location(topic, p, o))
      case (_, _) => None
  {
    CutConcat(topic + ['/'] + partition, offset);
    CutConcat(topic, partition);
  }

  lemma NumeralHasNoSlash(n: int)
    ensures '/' !in Decimal.Print(n)
  {
    Decimal.PrintShape(n);
  }

  /** The round trip: every location with a non-empty topic comes back, slashes in the topic
      included; one with an empty topic is rejected. */
  lemma EncodeThenParse(l: Location)
    ensures Encode(l) == l.topic + "/" + Decimal.Print(l.partition) + "/" + Decimal.Print(l.offset)
    ensures Parse(Encode(l)) == if l.topic == [] then None else Some(l)
  {
    NumeralHasNoSlash(l.partition);
    NumeralHasNoSlash(l.offset);
    JoinSplits(l.topic, Decimal.Print(l.partition), Decimal.Print(l.offset));
    Decimal.PrintThenParse(l.partition, I32_MIN, I32_MAX);
    Decimal.PrintThenParse(l.offset, I64_MIN, I64_MAX);
  }

  lemma JoinCancel(l: Location, k: Location)
    requires Encode(l) == Encode(k)
    ensures ['/'] + l.topic == ['/'] + k.topic && l.partition == k.partition && l.offset == k.offset
  {
    var l', k' := l.(topic := ['/'] + l.topic), k.(topic := ['/'] + k.topic);
    assert Encode(l') == ['/'] + Encode(l) && Encode(k') == ['/'] + Encode(k);
    EncodeThenParse(l');
    EncodeThenParse(k');
  }

  /** Different locations have different texts, even with empty topics. */
  lemma EncodeInjective(l: Location, k: Location)
    requires Encode(l) == Encode(k)
    ensures l == k
  {
    JoinCancel(l, k);
    assert l.topic == (['/'] + l.topic)[1..];
  }

  /** `id` is the topic and two numerals, with slashes between them. */
  predicate Composes(id: string, l: Location, partition: string, offset: string) {
    && id == l.topic + "/" + partition + "/" + offset && l.topic != []
    && Decimal.Spells(partition, l.partition) && Decimal.Spells(offset, l.offset)
  }

  lemma SpelledHasNoSlash(s: string, v: int)
    requires Decimal.Spells(s, v)
    ensures '/' !in s
  {
    var digits := if Decimal.IsDigits(s) then s else s[1..];
    assert s == digits || s == [s[0]] + digits;
  }

  lemma Reads32(s: string, v: i32)
    ensures Decimal.ParseI32(s) == Some(v) <==> Decimal.Spells(s, v)
  {
    Decimal.ParsesDecimal(s, I32_MIN, I32_MAX, v);
  }

  lemma Reads64(s: string, v: i64)
    ensures Decimal.ParseI64(s) == Some(v) <==> Decimal.Spells(s, v)
  {
    Decimal.ParsesDecimal(s, I64_MIN, I64_MAX, v);
  }

  lemma ParseCuts(id: string) returns (partition: string, offset: string)
    requires Parse(id).Some?
    ensures var l := Parse(id).value;
      && id == Join(l.topic, partition, offset) && l.topic != []
      && Decimal.ParseI32(partition) == Some(l.partition) && Decimal.ParseI64(offset) == Some(l.offset)
  {
    var outer := CutLast(id);
    var inner := CutLast(outer.front);
    partition, offset := inner.tail, outer.tail;
    assert id == Join(inner.front, partition, offset);
  }

  lemma ComposedParses(id: string, l: Location, partition: string, offset: string)
    requires Composes(id, l, partition, offset)
    ensures Parse(id) == Some(l)
  {
    SpelledHasNoSlash(partition, l.partition);
    SpelledHasNoSlash(offset, l.offset);
    Reads32(partition, l.partition);
    Reads64(offset, l.offset);
    JoinSplits(l.topic, partition, offset);
    assert id == Join(l.topic, partition, offset);
  }

  /** What is accepted: exactly the texts made of a non-empty topic and two numerals in range. */
  lemma ParseAcceptsExactly(id: string, l: Location)
    ensures Parse(id) == Some(l) <==> exists p, o :: Composes(id, l, p, o)
  {
    if Parse(id) == Some(l) {
      var p, o := ParseCuts(id);
      Reads32(p, l.partition);
      Reads64(o, l.offset);
      assert Composes(id, l, p, o);
    }
    if p, o :| Composes(id, l, p, o) {
      ComposedParses(id, l, p, o);
    }
  }

  /** Re-encoding an accepted text normalises its numerals and keeps its meaning. */
  lemma ParseThenEncode(id: string)
    ensures Parse(id).Some? ==> Parse(Encode(Parse(id).value)) == Parse(id)
  {
    if Parse(id).Some? {
      var p, o := ParseCuts(id);
      EncodeThenParse(Parse(id).value);
    }
  }
}
