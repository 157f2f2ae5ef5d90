/** The string operations the offset file relies on: lines, trimming, splitting, joining and
    the lexicographic sort. */
module Text {
  import opened Common

  /** Unicode White_Space, the class `str::trim` removes. */
  predicate IsWhitespace(c: char) {
    || '\t' <= c <= '\r'
    || c == ' '
    || c == '\U{85}'
    || c == '\U{A0}'
    || c == '\U{1680}'
    || '\U{2000}' <= c <= '\U{200A}'
    || c == '\U{2028}' || c == '\U{2029}' || c == '\U{202F}'
    || c == '\U{205F}' || c == '\U{3000}'
  }

  /** The code points with that property. */
  lemma WhitespaceIs(c: char)
    ensures IsWhitespace(c) <==>
      || c as int in {0x09, 0x0A, 0x0B, 0x0C, 0x0D, 0x20, 0x85, 0xA0, 0x1680, 0x2028, 0x2029, 0x202F, 0x205F, 0x3000}
      || 0x2000 <= c as int <= 0x200A
  {
  }

  function TrimStart(s: string): string {
    if s != [] && IsWhitespace(s[0]) then TrimStart(s[1..]) else s
  }

  function TrimEnd(s: string): string {
    if s != [] && IsWhitespace(s[|s| - 1]) then TrimEnd(s[..|s| - 1]) else s
  }

  function Trim(s: string): string {
    TrimEnd(TrimStart(s))
  }

  lemma TrimStartShape(s: string)
    ensures var r := TrimStart(s);
      && |r| <= |s| && r == s[|s| - |r|..]
      && (r == [] || !IsWhitespace(r[0]))
  {
  }

  lemma TrimEndShape(s: string)
    ensures var r := TrimEnd(s); r <= s && (r == [] || !IsWhitespace(r[|r| - 1]))
  {
  }

  /** Trimming yields a piece of the text that neither starts nor ends in whitespace. */
  lemma TrimShape(s: string)
    ensures var r := Trim(s);
      && (r == [] || (!IsWhitespace(r[0]) && !IsWhitespace(r[|r| - 1])))
      && (forall c :: c in r ==> c in s)
  {
    TrimStartShape(s);
    TrimEndShape(TrimStart(s));
  }

  predicate AllWhitespace(s: string) {
    forall i :: 0 <= i < |s| ==> IsWhitespace(s[i])
  }

  lemma {:induction false} TrimStartCuts(s: string) returns (pre: string)
    ensures s == pre + TrimStart(s) && AllWhitespace(pre)
  {
    if s != [] && IsWhitespace(s[0]) {
      var rest := TrimStartCuts(s[1..]);
      pre := [s[0]] + rest;
      Associative([s[0]], rest, TrimStart(s[1..]));
      assert s == [s[0]] + s[1..];
    } else {
      pre := [];
    }
  }

  lemma {:induction false} TrimEndCuts(s: string) returns (post: string)
    ensures s == TrimEnd(s) + post && AllWhitespace(post)
  {
    if s != [] && IsWhitespace(s[|s| - 1]) {
      var rest := TrimEndCuts(s[..|s| - 1]);
      post := rest + [s[|s| - 1]];
      assert s == s[..|s| - 1] + [s[|s| - 1]];
    } else {
      post := [];
    }
  }

  /** Trimming cuts whitespace off both ends, all of it and nothing else. */
  lemma TrimMeaning(s: string) returns (pre: string, post: string)
    ensures s == pre + Trim(s) + post && AllWhitespace(pre) && AllWhitespace(post)
    ensures Trim(s) != [] ==> !IsWhitespace(Trim(s)[0]) && !IsWhitespace(Trim(s)[|Trim(s)| - 1])
  {
    pre := TrimStartCuts(s);
    post := TrimEndCuts(TrimStart(s));
    TrimShape(s);
    Associative(pre, Trim(s), post);
  }

  /** Trimming leaves exactly the text that neither starts nor ends in whitespace. */
  lemma TrimFixpoint(s: string)
    ensures Trim(s) == s <==> s == [] || (!IsWhitespace(s[0]) && !IsWhitespace(s[|s| - 1]))
  {
    TrimShape(s);
  }

  lemma TrimStartConcat(s: string, rest: string)
    ensures TrimStart(s + rest) == if TrimStart(s) == [] then TrimStart(rest) else TrimStart(s) + rest
  {
    if s == [] {
      assert s + rest == rest;
    } else if IsWhitespace(s[0]) {
      TrimStartConcat(s[1..], rest);
      assert (s + rest)[1..] == s[1..] + rest;
    }
  }

  lemma TrimStartKeepsEnd(s: string)
    requires s != [] && !IsWhitespace(s[|s| - 1])
    ensures TrimStart(s) != [] && TrimStart(s)[|TrimStart(s)| - 1] == s[|s| - 1]
  {
    if IsWhitespace(s[0]) {
      assert s[1..] != [] && s[1..][|s[1..]| - 1] == s[|s| - 1];
      TrimStartKeepsEnd(s[1..]);
    }
  }

  /** Trimming a text that does not end in whitespace only looks at its start. */
  lemma TrimConcat(s: string, rest: string)
    requires rest != [] && !IsWhitespace(rest[|rest| - 1])
    ensures Trim(s + rest) == if TrimStart(s) == [] then TrimStart(rest) else TrimStart(s) + rest
  {
    TrimStartConcat(s, rest);
    TrimStartKeepsEnd(rest);
  }

  /** The first position of `c`. */
  function Find(s: string, c: char): (r: Option<nat>)
    ensures r.None? <==> c !in s
    ensures r.Some? ==> r.value < |s| && s[r.value] == c && c !in s[..r.value]
  {
    if s == [] then None
    else if s[0] == c then Some(0)
    else
      match Find(s[1..], c)
      case None => None
      case Some(i) =>
        assert s[..i + 1] == [s[0]] + s[1..][..i];
        Some(i + 1)
  }

  lemma {:induction false} FindInConcat(a: string, c: char, b: string)
    requires c !in a
    ensures Find(a + [c] + b, c) == Some(|a|)
  {
    if a == [] {
      assert a + [c] + b == [c] + b;
    } else {
      FindInConcat(a[1..], c, b);
      assert (a + [c] + b)[1..] == a[1..] + [c] + b;
    }
  }

  /** `str::split` on one character: the pieces between its occurrences, at least one piece. */
  function Split(s: string, c: char): (r: seq<string>)
    ensures r != []
    decreases |s|
  {
    match Find(s, c)
    case None => [s]
    case Some(i) => [s[..i]] + Split(s[i + 1..], c)
  }

  lemma SplitFirst(s: string, c: char)
    ensures Split(s, c)[0] <= s && c !in Split(s, c)[0]
    ensures s != [] && s[0] != c ==> Split(s, c)[0] != []
  {
  }

  lemma {:induction false} SplitConcat(a: string, c: char, b: string)
    requires c !in a
    ensures Split(a + [c] + b, c) == [a] + Split(b, c)
  {
    var s := a + [c] + b;
    FindInConcat(a, c, b);
    assert s[..|a|] == a && s[|a| + 1..] == b;
  }

  lemma Associative<T>(a: seq<T>, b: seq<T>, d: seq<T>)
    ensures (a + b) + d == a + (b + d)
  {
  }

  lemma Regroup(h: string, t: string, rest: string, c: char)
    ensures h + [c] + t + [c] + rest == h + [c] + (t + [c] + rest)
  {
    Associative(h + [c], t, [c]);
    Associative(h + [c], t + [c], rest);
  }

  lemma SplitThree(a: string, b: string, d: string, c: char)
    requires c !in a && c !in b && c !in d
    ensures Split(a + [c] + b + [c] + d, c) == [a, b, d]
  {
    Regroup(a, b, d, c);
    SplitConcat(a, c, b + [c] + d);
    SplitConcat(b, c, d);
    assert Split(d, c) == [d];
  }

  /** What follows the last separator is the last piece. */
  lemma {:induction false} SplitSnoc(s: string, c: char, d: string)
    requires c !in d
    ensures Split(s + [c] + d, c) == Split(s, c) + [d]
    decreases |s|
  {
    match Find(s, c)
    case None =>
      SplitConcat(s, c, d);
      assert Split(d, c) == [d];
    case Some(i) =>
      var h, t := s[..i], s[i + 1..];
      assert s == h + [c] + t;
      Regroup(h, t, d, c);
      SplitConcat(h, c, t + [c] + d);
      SplitSnoc(t, c, d);
      Associative([h], Split(t, c), [d]);
  }

  /** The pieces with separators between them again. */
  function Glue(pieces: seq<string>, c: char): string {
    if pieces == [] then "" else if |pieces| == 1 then pieces[0] else pieces[0] + [c] + Glue(pieces[1..], c)
  }

  /** Splitting takes out the separators and nothing else. */
  lemma {:induction false} SplitMeaning(s: string, c: char)
    ensures Glue(Split(s, c), c) == s && forall p :: p in Split(s, c) ==> c !in p
    decreases |s|
  {
    match Find(s, c)
    case None =>
    case Some(i) =>
      SplitMeaning(s[i + 1..], c);
      assert s == s[..i] + [c] + s[i + 1..];
      assert Split(s, c)[1..] == Split(s[i + 1..], c);
  }

  /** One carriage return goes, if there is one at the end. */
  function StripCarriageReturn(s: string): (r: string)
    ensures s == r + "\r" || (s == r && (s == [] || s[|s| - 1] != '\r'))
  {
    if s != [] && s[|s| - 1] == '\r' then s[..|s| - 1] else s
  }

  /** `str::lines`: the final line needs no terminator, and a terminated line also loses a
      carriage return. */
  function Lines(s: string): seq<string>
    decreases |s|
  {
    match Find(s, '\n')
    case None => if s == [] then [] else [s]
    case Some(i) => [StripCarriageReturn(s[..i])] + Lines(s[i + 1..])
  }

  lemma LinesShape(s: string)
    ensures forall l :: l in Lines(s) ==> '\n' !in l
    decreases |s|
  {
    match Find(s, '\n')
    case None =>
    case Some(i) => LinesShape(s[i + 1..]);
  }

  /** The lines the pieces between line feeds make: a terminated one loses a carriage return, and
      nothing follows the last terminator but a line that is not empty. */
  function AsLines(ps: seq<string>): seq<string>
    requires ps != []
  {
    var last := ps[|ps| - 1];
    Map(StripCarriageReturn, ps[..|ps| - 1]) + if last == [] then [] else [last]
  }

  lemma AsLinesCons(h: string, rest: seq<string>)
    requires rest != []
    ensures AsLines([h] + rest) == [StripCarriageReturn(h)] + AsLines(rest)
  {
    var ps := [h] + rest;
    assert ps[..|ps| - 1] == [h] + rest[..|rest| - 1];
    assert ([h] + rest[..|rest| - 1])[1..] == rest[..|rest| - 1];
    assert Map(StripCarriageReturn, ps[..|ps| - 1]) ==
           [StripCarriageReturn(h)] + Map(StripCarriageReturn, rest[..|rest| - 1]);
  }

  lemma OneMoreLine(h: string, t: string, s: string)
    requires '\n' !in h && s == h + ['\n'] + t && Lines(t) == AsLines(Split(t, '\n'))
    ensures Lines(s) == AsLines(Split(s, '\n'))
  {
    LinesCons(h, t);
    SplitConcat(h, '\n', t);
    AsLinesCons(h, Split(t, '\n'));
  }

  lemma LastLine(s: string)
    requires '\n' !in s
    ensures Lines(s) == AsLines(Split(s, '\n'))
  {
    assert Split(s, '\n') == [s] && [s][..0] == [];
  }

  lemma CutFirst(s: string, c: char) returns (h: string, t: string)
    requires c in s
    ensures s == h + [c] + t && c !in h && |t| < |s|
  {
    var i := Find(s, c).value;
    h, t := s[..i], s[i + 1..];
  }

  lemma {:induction false} LinesAreSplit(s: string)
    ensures Lines(s) == AsLines(Split(s, '\n'))
    decreases |s|
  {
    if '\n' in s {
      var h, t := CutFirst(s, '\n');
      LinesAreSplit(t);
      OneMoreLine(h, t, s);
    } else {
      LastLine(s);
    }
  }

  function Join(ls: seq<string>): string {
    if ls == [] then ""
    else if |ls| == 1 then ls[0]
    else ls[0] + ['\n'] + Join(ls[1..])
  }

  /** A text whose last line is not empty and does not lose a carriage return when it is terminated. */
  predicate IsClosed(s: string) {
    s != [] && s[|s| - 1] != '\n' && s[|s| - 1] != '\r'
  }

  lemma CutAt(h: string, c: char, t: string)
    requires c !in h
    ensures Find(h + [c] + t, c) == Some(|h|)
    ensures (h + [c] + t)[..|h|] == h && (h + [c] + t)[|h| + 1..] == t
  {
    FindInConcat(h, c, t);
  }

  lemma LinesCons(h: string, t: string)
    requires '\n' !in h
    ensures Lines(h + ['\n'] + t) == [StripCarriageReturn(h)] + Lines(t)
  {
    CutAt(h, '\n', t);
  }

  /** A terminated text followed by another has the lines of both. */
  lemma {:induction false} LinesConcat(l: string, rest: string)
    requires IsClosed(l)
    ensures Lines(l + ['\n'] + rest) == Lines(l) + Lines(rest)
    decreases |l|
  {
    match Find(l, '\n')
    case None => LinesCons(l, rest);
    case Some(i) => LinesConcatAt(l, l[..i], l[i + 1..], rest);
  }

  lemma {:induction false} LinesConcatAt(l: string, h: string, t: string, rest: string)
    requires IsClosed(l) && l == h + ['\n'] + t && '\n' !in h
    ensures Lines(l + ['\n'] + rest) == Lines(l) + Lines(rest)
    decreases |l|, 0
  {
    assert t != [] && t[|t| - 1] == l[|l| - 1];
    calc {
      Lines(l + ['\n'] + rest);
      { Regroup(h, t, rest, '\n'); }
      Lines(h + ['\n'] + (t + ['\n'] + rest));
      { LinesCons(h, t + ['\n'] + rest); }
      [StripCarriageReturn(h)] + Lines(t + ['\n'] + rest);
      { LinesConcat(t, rest); }
      [StripCarriageReturn(h)] + (Lines(t) + Lines(rest));
      { Associative([StripCarriageReturn(h)], Lines(t), Lines(rest)); }
      [StripCarriageReturn(h)] + Lines(t) + Lines(rest);
      { LinesCons(h, t); }
      Lines(l) + Lines(rest);
    }
  }

  /** The lines of several texts, in order. */
  function LinesOfAll(ls: seq<string>): seq<string> {
    if ls == [] then [] else Lines(ls[0]) + LinesOfAll(ls[1..])
  }

  /** Joined texts are separated by line feeds, with none at the end. */
  lemma {:induction false} JoinIsGlue(ls: seq<string>)
    ensures Join(ls) == Glue(ls, '\n')
  {
    if |ls| > 1 {
      JoinIsGlue(ls[1..]);
    }
  }

  /** Joining texts and splitting the result gives the lines of each of them, in order; for texts
      without a line feed, the texts themselves. */
  lemma {:induction false} LinesOfJoin(ls: seq<string>)
    requires forall l :: l in ls ==> IsClosed(l)
    ensures Lines(Join(ls)) == LinesOfAll(ls)
    ensures (forall l :: l in ls ==> '\n' !in l) ==> Lines(Join(ls)) == ls
  {
    LinesOfJoined(ls);
    if forall l :: l in ls ==> '\n' !in l {
      LinesOfSingles(ls);
    }
  }

  lemma {:induction false} LinesOfJoined(ls: seq<string>)
    requires forall l :: l in ls ==> IsClosed(l)
    ensures Lines(Join(ls)) == LinesOfAll(ls)
  {
    if |ls| == 1 {
      assert LinesOfAll(ls[1..]) == [];
    } else if |ls| > 1 {
      assert ls[0] in ls;
      LinesConcat(ls[0], Join(ls[1..]));
      LinesOfJoined(ls[1..]);
    }
  }

  lemma {:induction false} LinesOfSingles(ls: seq<string>)
    requires forall l :: l in ls ==> l != [] && '\n' !in l
    ensures LinesOfAll(ls) == ls
  {
    if ls != [] {
      assert ls[0] in ls && Lines(ls[0]) == [ls[0]];
      assert forall l :: l in ls[1..] ==> l in ls;
      LinesOfSingles(ls[1..]);
    }
  }

  /** The order `Vec<String>::sort` uses; UTF-8 byte order is code point order. */
  predicate Le(a: string, b: string) {
    if a == [] then true
    else if b == [] then false
    else if a[0] != b[0] then a[0] < b[0]
    else Le(a[1..], b[1..])
  }

  /** The first place where two texts differ decides, and a text comes before its extensions. */
  lemma {:induction false} LeMeaning(a: string, b: string)
    ensures Le(a, b) <==> a <= b || exists i :: DiffersAt(a, b, i) && a[i] < b[i]
  {
    if a != [] && b != [] && a[0] == b[0] {
      LeMeaning(a[1..], b[1..]);
      assert a == [a[0]] + a[1..] && b == [b[0]] + b[1..];
      if i :| DiffersAt(a[1..], b[1..], i) && a[1..][i] < b[1..][i] {
        assert a[..i + 1] == [a[0]] + a[1..][..i] && b[..i + 1] == [b[0]] + b[1..][..i];
        assert DiffersAt(a, b, i + 1);
      }
      if i :| DiffersAt(a, b, i) && a[i] < b[i] {
        assert a[1..][..i - 1] == a[..i][1..] && b[1..][..i - 1] == b[..i][1..];
        assert DiffersAt(a[1..], b[1..], i - 1);
      }
    } else if a != [] && b != [] {
      assert DiffersAt(a, b, 0);
    }
  }

  predicate DiffersAt(a: string, b: string, i: int) {
    0 <= i < |a| && i < |b| && a[..i] == b[..i] && a[i] != b[i]
  }

  predicate Sorted(ls: seq<string>) {
    forall i, j :: 0 <= i < j < |ls| ==> Le(ls[i], ls[j])
  }

  lemma LeTotal(a: string, b: string)
    ensures Le(a, b) || Le(b, a)
  {
  }

  lemma {:induction false} LeAntisymmetric(a: string, b: string)
    requires Le(a, b) && Le(b, a)
    ensures a == b
  {
    if a != [] && b != [] {
      LeAntisymmetric(a[1..], b[1..]);
      assert a == [a[0]] + a[1..] && b == [b[0]] + b[1..];
    }
  }

  lemma {:induction false} LeTransitive(a: string, b: string, c: string)
    requires Le(a, b) && Le(b, c)
    ensures Le(a, c)
  {
    if a != [] && a[0] == b[0] == c[0] {
      LeTransitive(a[1..], b[1..], c[1..]);
    }
  }

  lemma SortedCons(l: string, ls: seq<string>)
    requires Sorted(ls) && forall x :: x in ls ==> Le(l, x)
    ensures Sorted([l] + ls)
  {
  }

  /** A text at most the first of a sorted list is at most all of it. */
  lemma AtMostAll(l: string, ls: seq<string>)
    requires Sorted(ls) && ls != [] && Le(l, ls[0])
    ensures forall x :: x in ls ==> Le(l, x)
  {
    forall j | 0 <= j < |ls| ensures Le(l, ls[j]) {
      if j > 0 { LeTransitive(l, ls[0], ls[j]); }
    }
  }

  lemma {:induction false} LePrefix(p: string, a: string, b: string)
    ensures Le(p + a, p + b) <==> Le(a, b)
  {
    if p == [] {
      assert p + a == a && p + b == b;
    } else {
      LePrefix(p[1..], a, b);
      assert (p + a)[1..] == p[1..] + a && (p + b)[1..] == p[1..] + b;
    }
  }

  function Insert(l: string, ls: seq<string>): (r: seq<string>)
    requires Sorted(ls)
    ensures Sorted(r) && multiset(r) == multiset(ls) + multiset{l}
    ensures forall x :: x in r <==> x == l || x in ls
  {
    if ls == [] then [l]
    else if Le(l, ls[0]) then
      AtMostAll(l, ls);
      SortedCons(l, ls);
      [l] + ls
    else
      var r := Insert(l, ls[1..]);
      assert ls == [ls[0]] + ls[1..];
      LeTotal(l, ls[0]);
      SortedCons(ls[0], r);
      [ls[0]] + r
  }

  function Sort(ls: seq<string>): (r: seq<string>)
    ensures Sorted(r) && multiset(r) == multiset(ls)
  {
    if ls == [] then []
    else
      assert ls == [ls[0]] + ls[1..];
      Insert(ls[0], Sort(ls[1..]))
  }

  lemma SortedFirst(a: seq<string>, l: string)
    requires Sorted(a) && l in a
    ensures Le(a[0], l)
  {
    LeTotal(l, l);
  }

  lemma MultisetTail(a: seq<string>)
    requires a != []
    ensures multiset(a[1..]) == multiset(a) - multiset{a[0]}
  {
    assert a == [a[0]] + a[1..];
  }

  lemma SortKeeps(ls: seq<string>)
    ensures |Sort(ls)| == |ls| && forall l :: l in Sort(ls) <==> l in ls
  {
    assert |multiset(Sort(ls))| == |multiset(ls)|;
    forall l ensures l in Sort(ls) <==> l in ls {
      assert l in multiset(Sort(ls)) <==> l in multiset(ls);
    }
  }

  /** A sorted list is determined by its contents. */
  lemma {:induction false} SortedUnique(a: seq<string>, b: seq<string>)
    requires Sorted(a) && Sorted(b) && multiset(a) == multiset(b)
    ensures a == b
  {
    if a == [] {
      assert |multiset(b)| == 0;
    } else {
      FirstsAgree(a, b);
      MultisetTail(a);
      MultisetTail(b);
      SortedUnique(a[1..], b[1..]);
      assert a == [a[0]] + a[1..] && b == [b[0]] + b[1..];
    }
  }

  lemma FirstsAgree(a: seq<string>, b: seq<string>)
    requires Sorted(a) && Sorted(b) && multiset(a) == multiset(b) && a != []
    ensures b != [] && a[0] == b[0]
  {
    assert a[0] in multiset(b);
    assert b[0] in multiset(a);
    SortedFirst(a, b[0]);
    SortedFirst(b, a[0]);
    LeAntisymmetric(a[0], b[0]);
  }
}
