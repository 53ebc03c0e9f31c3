/**
 The text form of an array as section 8.15.6 of the PostgreSQL documentation (Array
 Input and Output Syntax) describes it, and the proof that the parser undoes it.
 */
module PgArrayPrinting {
  import opened PgArray
  import opened PgArrayInput

  datatype Element = Null | Str(bytes: Bytes)

  /** Each level holds either elements or arrays; arrays of one level may differ in depth. */
  datatype Array = Row(items: seq<Element>) | Nest(rows: seq<Array>)

  // ---- printing ----

  predicate EqualsIgnoringCase(ch: Byte, letter: Byte) {
    ch == letter || ch as int == letter as int + 32
  }

  predicate IsNullWord(s: Bytes) {
    && |s| == 4
    && EqualsIgnoringCase(s[0], CAP_N) && EqualsIgnoringCase(s[1], CAP_U)
    && EqualsIgnoringCase(s[2], CAP_L) && EqualsIgnoringCase(s[3], CAP_L)
  }

  /** Braces, the delimiter, quotes, backslashes and white space force quotes. */
  predicate Special(ch: Byte, delim: Byte) {
    ch == OPEN || ch == CLOSE || ch == delim || ch == QUOTE || ch == BACKSLASH || IsSpace(ch)
  }

  predicate NeedsQuotes(s: Bytes, delim: Byte) {
    s == [] || IsNullWord(s) || exists i | 0 <= i < |s| :: Special(s[i], delim)
  }

  function Escaped(s: Bytes): Bytes {
    if s == [] then [] else EscapedByte(s[0]) + Escaped(s[1..])
  }

  function EscapedByte(ch: Byte): Bytes {
    if ch == QUOTE || ch == BACKSLASH then [BACKSLASH, ch] else [ch]
  }

  function PrintElement(e: Element, delim: Byte): Bytes {
    match e
    case Null => [CAP_N, CAP_U, CAP_L, CAP_L]
    case Str(s) => if NeedsQuotes(s, delim) then [QUOTE] + Escaped(s) + [QUOTE] else s
  }

  function PrintItems(items: seq<Element>, delim: Byte): Bytes {
    if items == [] then []
    else if |items| == 1 then PrintElement(items[0], delim)
    else PrintElement(items[0], delim) + [delim] + PrintItems(items[1..], delim)
  }

  function Print(a: Array, delim: Byte): Bytes
    decreases a, 1
  {
    match a
    case Row(items) => [OPEN] + PrintItems(items, delim) + [CLOSE]
    case Nest(rows) => [OPEN] + PrintRows(rows, delim) + [CLOSE]
  }

  function PrintRows(rows: seq<Array>, delim: Byte): Bytes
    decreases rows, 0
  {
    if rows == [] then []
    else if |rows| == 1 then Print(rows[0], delim)
    else Print(rows[0], delim) + [delim] + PrintRows(rows[1..], delim)
  }

  // ---- what the parser should return ----

  /** Row-major order, a NULL as the empty string. */
  function Flatten(a: Array): seq<Bytes>
    decreases a, 1
  {
    match a
    case Row(items) => Values(items)
    case Nest(rows) => FlattenRows(rows)
  }

  function FlattenRows(rows: seq<Array>): seq<Bytes>
    decreases rows, 0
  {
    if rows == [] then [] else Flatten(rows[0]) + FlattenRows(rows[1..])
  }

  function Value(e: Element): Bytes {
    if e.Null? then [] else e.bytes
  }

  function Values(items: seq<Element>): seq<Bytes> {
    if items == [] then [] else [Value(items[0])] + Values(items[1..])
  }

  // ---- one element ----

  /** The bytes a delimiter must not be. White space is fine. */
  predicate GoodDelim(delim: Byte) {
    delim !in {OPEN, CLOSE, QUOTE, BACKSLASH, CAP_N, CAP_U, CAP_L}
  }

  // Printing is one way of writing: an element is all bare or one quoted stretch.

  function QuotedBytes(s: Bytes): seq<QuotedByte> {
    seq(|s|, i requires 0 <= i < |s| => if s[i] == QUOTE || s[i] == BACKSLASH then Masked(s[i]) else Plain(s[i]))
  }

  function BareBytes(s: Bytes): seq<Piece> {
    seq(|s|, i requires 0 <= i < |s| => Bare(s[i]))
  }

  function PiecesOf(e: Element, delim: Byte): seq<Piece> {
    match e
    case Null => BareBytes(NULL)
    case Str(s) => if NeedsQuotes(s, delim) then [Quote(QuotedBytes(s))] else BareBytes(s)
  }

  lemma {:induction false} QuotedWritten(s: Bytes)
    ensures WriteInner(QuotedBytes(s)) == Escaped(s)
    decreases |s|
  {
    if s != [] {
      QuotedWritten(s[1..]);
      assert QuotedBytes(s)[1..] == QuotedBytes(s[1..]);
    }
  }

  lemma {:induction false} BareWritten(s: Bytes)
    ensures WritePieces(BareBytes(s)) == s && Text(BareBytes(s)) == s
    decreases |s|
  {
    if s != [] {
      BareWritten(s[1..]);
      assert BareBytes(s)[1..] == BareBytes(s[1..]);
      assert s == [s[0]] + s[1..];
    }
  }

  lemma QuoteWritten(s: Bytes)
    ensures var pieces := [Quote(QuotedBytes(s))];
      WritePieces(pieces) == [QUOTE] + Escaped(s) + [QUOTE] && Text(pieces) == s && !AllBare(pieces)
  {
    var pieces := [Quote(QuotedBytes(s))];
    QuotedWritten(s);
    assert pieces[1..] == [];
    assert WritePieces(pieces) == WritePiece(pieces[0]) + [];
    assert InnerText(QuotedBytes(s)) == s;
    assert Text(pieces) == InnerText(QuotedBytes(s)) + [];
    assert !pieces[0].Bare?;
  }

  lemma ElementWritten(e: Element, delim: Byte)
    requires GoodDelim(delim)
    ensures var pieces := PiecesOf(e, delim);
      && pieces != [] && ValidItem(Item([], pieces), delim)
      && WritePieces(pieces) == PrintElement(e, delim) && Meaning(pieces) == Value(e)
  {
    match e
    case Null => BareWritten(NULL);
    case Str(s) =>
      if NeedsQuotes(s, delim) {
        QuoteWritten(s);
      } else {
        BareWritten(s);
        assert !Special(s[0], delim);
      }
  }

  /** Every printed element, N, NUL, NULLS and a quoted "NULL" included, is read back. */
  lemma RunElement(delim: Byte, done: seq<Bytes>, e: Element, end: Byte)
    requires GoodDelim(delim) && (end == delim || end == CLOSE)
    ensures Run(delim, Machine(Search, [], done), PrintElement(e, delim) + [end])
         == Machine(AfterElement(end), [], done + [Value(e)])
  {
    ElementWritten(e, delim);
    RunWritten(delim, done, PiecesOf(e, delim), end);
  }

  // ---- whole arrays ----

  lemma {:induction false} ValuesHead(done: seq<Bytes>, items: seq<Element>)
    requires items != []
    ensures done + [Value(items[0])] + Values(items[1..]) == done + Values(items)
    ensures |items| == 1 ==> Values(items) == [Value(items[0])]
  {
    Attach(done, [Value(items[0])], Values(items[1..]));
    assert |items| == 1 ==> items[1..] == [] && Values(items[1..]) == [];
  }

  lemma {:induction false} RunRow(delim: Byte, done: seq<Bytes>, items: seq<Element>)
    requires GoodDelim(delim) && items != []
    ensures Run(delim, Machine(Search, [], done), PrintItems(items, delim) + [CLOSE])
         == Machine(Search2, [], done + Values(items))
    decreases |items|
  {
    var first := PrintElement(items[0], delim);
    ValuesHead(done, items);
    if |items| == 1 {
      RunElement(delim, done, items[0], CLOSE);
    } else {
      var rest, done' := PrintItems(items[1..], delim), done + [Value(items[0])];
      Regroup(first, delim, rest);
      RunSplit(delim, Machine(Search, [], done), first + [delim], rest + [CLOSE]);
      RunElement(delim, done, items[0], delim);
      RunRow(delim, done', items[1..]);
    }
  }

  lemma {:induction false} RunArray(delim: Byte, ps: Ps, done: seq<Bytes>, a: Array)
    requires GoodDelim(delim) && (ps.Search? || ps.Search2?)
    ensures Run(delim, Machine(ps, [], done), Print(a, delim)) == Machine(Search2, [], done + Flatten(a))
    decreases a, 1
  {
    var m, inside := Machine(ps, [], done), Machine(Search, [], done);
    var body := if a.Row? then PrintItems(a.items, delim) else PrintRows(a.rows, delim);
    assert Print(a, delim) == [OPEN] + (body + [CLOSE]);
    RunCons(delim, m, OPEN, body + [CLOSE]);
    if body == [] {
      assert body + [CLOSE] == [CLOSE];
      RunOne(delim, inside, CLOSE);
    }
    match a
    case Row(items) =>
      if items == [] {
        assert done + Values(items) == done;
      } else {
        RunRow(delim, done, items);
      }
    case Nest(rows) =>
      if rows == [] {
        assert done + FlattenRows(rows) == done;
      } else {
        RunSplit(delim, inside, body, [CLOSE]);
        RunRows(delim, Search, done, rows);
        RunOne(delim, Machine(Search2, [], done + FlattenRows(rows)), CLOSE);
      }
  }

  lemma {:induction false} RunRows(delim: Byte, ps: Ps, done: seq<Bytes>, rows: seq<Array>)
    requires GoodDelim(delim) && (ps.Search? || ps.Search2?) && rows != []
    ensures Run(delim, Machine(ps, [], done), PrintRows(rows, delim)) == Machine(Search2, [], done + FlattenRows(rows))
    decreases rows, 0
  {
    var m := Machine(ps, [], done);
    var first, done' := Print(rows[0], delim), done + Flatten(rows[0]);
    RunArray(delim, ps, done, rows[0]);
    if |rows| == 1 {
      assert FlattenRows(rows) == Flatten(rows[0]) + [];
    } else {
      var rest := PrintRows(rows[1..], delim);
      Regroup(first, delim, rest);
      RunSplit(delim, m, first, [delim] + rest);
      RunCons(delim, Machine(Search2, [], done'), delim, rest);
      RunRows(delim, Search2, done', rows[1..]);
      Attach(done, Flatten(rows[0]), FlattenRows(rows[1..]));
    }
  }

  /** Parsing a printed array, after any decoration without '{', gives its elements in row-major order. */
  lemma RoundTrip(prefix: Bytes, a: Array, delim: Byte)
    requires GoodDelim(delim) && OPEN !in prefix
    ensures Parse(prefix + Print(a, delim), delim) == Flatten(a)
  {
    RunSplit(delim, Start, prefix, Print(a, delim));
    RunBetween(delim, [], prefix);
    RunArray(delim, Search2, [], a);
    assert [] + Flatten(a) == Flatten(a);
  }

  // ---- the other delimiters ----

  /** A row of two elements that print unquoted. */
  lemma PrintPair(s: Bytes, t: Bytes, delim: Byte)
    requires !NeedsQuotes(s, delim) && !NeedsQuotes(t, delim)
    ensures Print(Row([Str(s), Str(t)]), delim) == [OPEN] + s + [delim] + t + [CLOSE]
    ensures Flatten(Row([Str(s), Str(t)])) == [s, t]
  {
    var items := [Str(s), Str(t)];
    assert items[1..] == [Str(t)] && items[1..][1..] == [];
    assert PrintItems(items, delim) == s + [delim] + t;
    assert Values(items[1..]) == [t];
    assert Values(items) == [s] + [t];
  }

  /** An array that is not read back, for each delimiter that is not good. */
  function Counterexample(delim: Byte): Array {
    if delim == OPEN then Nest([Row([])])
    else if delim == CAP_N then Row([Null])
    else if delim == CAP_L then Row([Str([CAP_N, CAP_U]), Str([X])])
    else Row([Str([CAP_N]), Str([X])])
  }

  lemma PairLost(delim: Byte)
    requires delim in {CLOSE, QUOTE, BACKSLASH, CAP_U}
    ensures Parse(Print(Counterexample(delim), delim), delim) != Flatten(Counterexample(delim))
  {
    PrintPair([CAP_N], [X], delim);
    assert [OPEN] + [CAP_N] + [delim] + [X] + [CLOSE] == [OPEN, CAP_N, delim, X, CLOSE];
    PairMisread(delim);
  }

  lemma NuLost()
    ensures Parse(Print(Counterexample(CAP_L), CAP_L), CAP_L) != Flatten(Counterexample(CAP_L))
  {
    PrintPair([CAP_N, CAP_U], [X], CAP_L);
    assert [OPEN] + [CAP_N, CAP_U] + [CAP_L] + [X] + [CLOSE] == [OPEN, CAP_N, CAP_U, CAP_L, X] + [CLOSE];
    NulMisread();
  }

  lemma NullSplit()
    ensures Parse(Print(Counterexample(CAP_N), CAP_N), CAP_N) != Flatten(Counterexample(CAP_N))
  {
    var five := [OPEN, CAP_N, CAP_U, CAP_L, CAP_L];
    assert Print(Row([Null]), CAP_N) == five + [CLOSE];
    assert Values([Null]) == [[]] + Values([Null][1..]);
    RunFive(CAP_N, OPEN, CAP_N, CAP_U, CAP_L, CAP_L);
    RunSplit(CAP_N, Start, five, [CLOSE]);
    RunOne(CAP_N, Run(CAP_N, Start, five), CLOSE);
    assert |Parse(five + [CLOSE], CAP_N)| == 2;
  }

  lemma NestGains()
    ensures Parse(Print(Counterexample(OPEN), OPEN), OPEN) != Flatten(Counterexample(OPEN))
  {
    var rows := [Row([])];
    assert PrintRows(rows, OPEN) == Print(Row([]), OPEN) == [OPEN, CLOSE];
    assert Print(Nest(rows), OPEN) == [OPEN] + ([OPEN] + ([CLOSE] + [CLOSE]));
    assert FlattenRows(rows) == Flatten(Row([])) + FlattenRows(rows[1..]);
    assert Flatten(Nest(rows)) == [];
    var m := Step(OPEN, Step(OPEN, Start, OPEN), OPEN);
    RunCons(OPEN, Start, OPEN, [OPEN] + ([CLOSE] + [CLOSE]));
    RunCons(OPEN, Step(OPEN, Start, OPEN), OPEN, [CLOSE] + [CLOSE]);
    RunCons(OPEN, m, CLOSE, [CLOSE]);
    RunOne(OPEN, Step(OPEN, m, CLOSE), CLOSE);
    assert |Parse(Print(Nest(rows), OPEN), OPEN)| == 1;
  }

  /** The parser undoes the printer for every array exactly when the delimiter is good. */
  lemma RoundTripExactly(delim: Byte)
    ensures (forall prefix: Bytes, a: Array | OPEN !in prefix :: Parse(prefix + Print(a, delim), delim) == Flatten(a))
        <==> GoodDelim(delim)
  {
    if GoodDelim(delim) {
      forall prefix: Bytes, a: Array | OPEN !in prefix
        ensures Parse(prefix + Print(a, delim), delim) == Flatten(a)
      {
        RoundTrip(prefix, a, delim);
      }
    } else {
      if delim == OPEN {
        NestGains();
      } else if delim == CAP_N {
        NullSplit();
      } else if delim == CAP_L {
        NuLost();
      } else {
        PairLost(delim);
      }
      var a := Counterexample(delim);
      assert [] + Print(a, delim) == Print(a, delim);
      var none: Bytes := [];
      assert OPEN !in none && Parse(none + Print(a, delim), delim) != Flatten(a);
    }
  }
}
