/**
 What the parser accepts: the input syntax of section 8.15.6 of the PostgreSQL
 documentation (Array Input and Output Syntax) as the code reads it, and the proof that
 it reads every text of that syntax for what it says.
 */
module PgArrayInput {
  import opened PgArray

  // ---- items ----

  /** A byte between quotes: any but a quote or backslash, or any after a backslash. */
  datatype QuotedByte = Plain(ch: Byte) | Masked(ch: Byte)

  /** An item is written as bare bytes, bytes after a backslash and quoted stretches, in any mix. */
  datatype Piece = Bare(ch: Byte) | Escape(ch: Byte) | Quote(inner: seq<QuotedByte>)

  /** `skip` is the white space and opening braces in front. Without a piece nothing is written. */
  datatype Item = Item(skip: Bytes, pieces: seq<Piece>)

  predicate Skippable(ch: Byte) {
    ch == OPEN || IsSpace(ch)
  }

  predicate ValidPiece(p: Piece, delim: Byte) {
    match p
    case Bare(ch) => ch != delim && ch != CLOSE && ch != QUOTE && ch != BACKSLASH
    case Escape(_) => true
    case Quote(inner) =>
      forall i | 0 <= i < |inner| :: inner[i].Plain? ==> inner[i].ch != QUOTE && inner[i].ch != BACKSLASH
  }

  predicate ValidPieces(pieces: seq<Piece>, delim: Byte) {
    forall i | 0 <= i < |pieces| :: ValidPiece(pieces[i], delim)
  }

  predicate ValidSkip(skip: Bytes, delim: Byte) {
    forall i | 0 <= i < |skip| :: Skippable(skip[i]) && skip[i] != delim
  }

  predicate ValidItem(item: Item, delim: Byte) {
    && ValidSkip(item.skip, delim)
    && ValidPieces(item.pieces, delim)
    && (item.pieces != [] && item.pieces[0].Bare? ==> !Skippable(item.pieces[0].ch))
  }

  function WriteInner(inner: seq<QuotedByte>): Bytes {
    if inner == [] then []
    else (if inner[0].Plain? then [inner[0].ch] else [BACKSLASH, inner[0].ch]) + WriteInner(inner[1..])
  }

  function WritePiece(p: Piece): Bytes {
    match p
    case Bare(ch) => [ch]
    case Escape(ch) => [BACKSLASH, ch]
    case Quote(inner) => [QUOTE] + WriteInner(inner) + [QUOTE]
  }

  function WritePieces(pieces: seq<Piece>): Bytes {
    if pieces == [] then [] else WritePiece(pieces[0]) + WritePieces(pieces[1..])
  }

  function WriteItem(item: Item): Bytes {
    item.skip + WritePieces(item.pieces)
  }

  // ---- what they say ----

  function InnerText(inner: seq<QuotedByte>): Bytes {
    seq(|inner|, i requires 0 <= i < |inner| => inner[i].ch)
  }

  function PieceText(p: Piece): Bytes {
    if p.Quote? then InnerText(p.inner) else [p.ch]
  }

  function Text(pieces: seq<Piece>): Bytes {
    if pieces == [] then [] else PieceText(pieces[0]) + Text(pieces[1..])
  }

  predicate AllBare(pieces: seq<Piece>) {
    forall i | 0 <= i < |pieces| :: pieces[i].Bare?
  }

  const NULL: Bytes := [CAP_N, CAP_U, CAP_L, CAP_L]

  /** The text, but a bare NULL means the empty string. */
  function Meaning(pieces: seq<Piece>): Bytes {
    if AllBare(pieces) && Text(pieces) == NULL then [] else Text(pieces)
  }

  /** What an item adds; nothing written is an empty element only before a delimiter. */
  function Elements(item: Item, last: bool): seq<Bytes> {
    if item.pieces != [] then [Meaning(item.pieces)] else if last then [] else [[]]
  }

  // ---- reading one item ----

  /** The bytes a delimiter must not be for these items to be told apart. */
  predicate Separates(delim: Byte) {
    delim !in {CLOSE, QUOTE, BACKSLASH, CAP_U, CAP_L}
  }

  /** Within an item of which `text` was read; `bare` if it was all bare. */
  function Amid(text: Bytes, bare: bool, done: seq<Bytes>): Machine {
    if bare && text == NULL[..1] then Machine(SawN, [], done)
    else if bare && text == NULL[..2] then Machine(SawNU, [], done)
    else if bare && text == NULL[..3] then Machine(SawNUL, [], done)
    else if bare && text == NULL then Machine(SawNULL, [], done)
    else Machine(Unquoted, text, done)
  }

  /** Before anything of the item was read, or amid it. */
  function From(text: Bytes, bare: bool, done: seq<Bytes>): Machine {
    if text == [] && bare then Machine(Search, [], done) else Amid(text, bare, done)
  }

  lemma RunCons(delim: Byte, m: Machine, ch: Byte, rest: Bytes)
    ensures Run(delim, m, [ch] + rest) == Run(delim, Step(delim, m, ch), rest)
  {
    assert ([ch] + rest)[1..] == rest;
  }

  /** White space and opening braces in front of an item are skipped. */
  lemma {:induction false} RunSkip(delim: Byte, done: seq<Bytes>, skip: Bytes, rest: Bytes)
    requires ValidSkip(skip, delim)
    ensures Run(delim, Machine(Search, [], done), skip + rest) == Run(delim, Machine(Search, [], done), rest)
    decreases |skip|
  {
    if skip == [] {
      assert skip + rest == rest;
    } else {
      assert skip + rest == [skip[0]] + (skip[1..] + rest);
      RunCons(delim, Machine(Search, [], done), skip[0], skip[1..] + rest);
      RunSkip(delim, done, skip[1..], rest);
    }
  }

  lemma NullLetters()
    ensures NULL[..1] == [CAP_N] && NULL[..2] == [CAP_N, CAP_U] && NULL[..3] == [CAP_N, CAP_U, CAP_L]
    ensures NULL[..1] + [CAP_U] == NULL[..2] && NULL[..2] + [CAP_L] == NULL[..3] && NULL[..3] + [CAP_L] == NULL
  {
  }

  /** The first byte of an item. */
  lemma RunFirst(delim: Byte, done: seq<Bytes>, ch: Byte)
    requires ValidPiece(Bare(ch), delim) && !Skippable(ch)
    ensures Step(delim, Machine(Search, [], done), ch) == Amid([ch], true, done)
  {
    assert NULL[..1] == [CAP_N];
  }

  /** Another letter of NULL, when all before it were. */
  lemma RunLetter(delim: Byte, text: Bytes, done: seq<Bytes>)
    requires text == NULL[..1] || text == NULL[..2] || text == NULL[..3]
    ensures Step(delim, Amid(text, true, done), NULL[|text|]) == Amid(text + [NULL[|text|]], true, done)
  {
    NullLetters();
  }

  /** Any other byte of an item. */
  lemma RunLater(delim: Byte, text: Bytes, bare: bool, done: seq<Bytes>, ch: Byte)
    requires ValidPiece(Bare(ch), delim)
    requires bare && text != [] && text <= NULL ==> text == NULL || ch != NULL[|text|]
    ensures Step(delim, Amid(text, bare, done), ch) == Machine(Unquoted, text + [ch], done)
  {
    NullLetters();
    var m := Amid(text, bare, done);
    assert m.sb + Pending(m.ps) == text;
  }

  lemma RunBare(delim: Byte, text: Bytes, bare: bool, done: seq<Bytes>, ch: Byte)
    requires ValidPiece(Bare(ch), delim) && (text == [] && bare ==> !Skippable(ch))
    ensures Step(delim, From(text, bare, done), ch) == Amid(text + [ch], bare, done)
  {
    NullLetters();
    if text == [] && bare {
      assert text + [ch] == [ch];
      RunFirst(delim, done, ch);
    } else if bare && text < NULL && ch == NULL[|text|] {
      assert text == NULL[..|text|];
      RunLetter(delim, text, done);
    } else {
      RunLater(delim, text, bare, done, ch);
      assert (text + [ch])[..|text|] == text && (text + [ch])[|text|] == ch;
    }
  }

  /** What the machine holds inside an item. */
  lemma AmidHolds(text: Bytes, bare: bool, done: seq<Bytes>)
    ensures var m := From(text, bare, done);
      m.sb + Pending(m.ps) == text && m.result == done && !m.ps.Search2? && !m.ps.Quoted?
      && !m.ps.QuotedEscape? && !m.ps.UnquotedEscape?
  {
    NullLetters();
  }

  /** A backslash or quote inside or at the start of an item ends any hope of a NULL. */
  lemma StepSpecial(delim: Byte, text: Bytes, bare: bool, done: seq<Bytes>)
    requires Separates(delim)
    ensures Step(delim, From(text, bare, done), BACKSLASH) == Machine(UnquotedEscape, text, done)
    ensures Step(delim, From(text, bare, done), QUOTE) == Machine(Quoted, text, done)
  {
    AmidHolds(text, bare, done);
  }

  lemma {:induction false} RunInner(delim: Byte, text: Bytes, done: seq<Bytes>, inner: seq<QuotedByte>)
    requires ValidPiece(Quote(inner), delim)
    ensures Run(delim, Machine(Quoted, text, done), WriteInner(inner)) == Machine(Quoted, text + InnerText(inner), done)
    decreases |inner|
  {
    var m := Machine(Quoted, text, done);
    if inner == [] {
      assert text + InnerText(inner) == text;
    } else {
      var ch, rest := inner[0].ch, WriteInner(inner[1..]);
      if inner[0].Plain? {
        RunCons(delim, m, ch, rest);
      } else {
        assert [BACKSLASH, ch] + rest == [BACKSLASH] + ([ch] + rest);
        RunCons(delim, m, BACKSLASH, [ch] + rest);
        RunCons(delim, m.(ps := QuotedEscape), ch, rest);
      }
      RunInner(delim, text + [ch], done, inner[1..]);
      assert text + [ch] + InnerText(inner[1..]) == text + InnerText(inner);
    }
  }

  lemma RunEscape(delim: Byte, text: Bytes, bare: bool, done: seq<Bytes>, ch: Byte)
    requires Separates(delim)
    ensures Run(delim, From(text, bare, done), [BACKSLASH, ch]) == Machine(Unquoted, text + [ch], done)
  {
    assert [BACKSLASH, ch] == [BACKSLASH] + [ch];
    RunCons(delim, From(text, bare, done), BACKSLASH, [ch]);
    StepSpecial(delim, text, bare, done);
    RunOne(delim, Machine(UnquotedEscape, text, done), ch);
  }

  lemma RunQuote(delim: Byte, text: Bytes, bare: bool, done: seq<Bytes>, inner: seq<QuotedByte>)
    requires Separates(delim) && ValidPiece(Quote(inner), delim)
    ensures Run(delim, From(text, bare, done), WritePiece(Quote(inner)))
         == Machine(Unquoted, text + InnerText(inner), done)
  {
    assert WritePiece(Quote(inner)) == [QUOTE] + (WriteInner(inner) + [QUOTE]);
    RunCons(delim, From(text, bare, done), QUOTE, WriteInner(inner) + [QUOTE]);
    StepSpecial(delim, text, bare, done);
    RunSplit(delim, Machine(Quoted, text, done), WriteInner(inner), [QUOTE]);
    RunInner(delim, text, done, inner);
    RunOne(delim, Machine(Quoted, text + InnerText(inner), done), QUOTE);
  }

  /** One piece, read at the start of an item or within it. */
  lemma RunPiece(delim: Byte, text: Bytes, bare: bool, done: seq<Bytes>, p: Piece)
    requires Separates(delim) && ValidPiece(p, delim)
    requires text == [] && bare && p.Bare? ==> !Skippable(p.ch)
    ensures Run(delim, From(text, bare, done), WritePiece(p)) == Amid(text + PieceText(p), bare && p.Bare?, done)
  {
    match p
    case Bare(ch) =>
      RunOne(delim, From(text, bare, done), ch);
      RunBare(delim, text, bare, done, ch);
    case Escape(ch) => RunEscape(delim, text, bare, done, ch);
    case Quote(inner) => RunQuote(delim, text, bare, done, inner);
  }

  lemma TextHead(text: Bytes, pieces: seq<Piece>)
    requires pieces != []
    ensures text + PieceText(pieces[0]) + Text(pieces[1..]) == text + Text(pieces)
    ensures AllBare(pieces) <==> pieces[0].Bare? && AllBare(pieces[1..])
    ensures pieces[0].Bare? ==> text + PieceText(pieces[0]) != []
  {
    assert forall i | 0 < i < |pieces| :: pieces[i] == pieces[1..][i - 1];
  }

  lemma {:induction false} RunPieces(delim: Byte, text: Bytes, bare: bool, done: seq<Bytes>, pieces: seq<Piece>)
    requires Separates(delim) && ValidPieces(pieces, delim) && (bare ==> text != [])
    ensures Run(delim, Amid(text, bare, done), WritePieces(pieces))
         == Amid(text + Text(pieces), bare && AllBare(pieces), done)
    decreases |pieces|
  {
    if pieces == [] {
      assert text + Text(pieces) == text;
    } else {
      var p, rest := pieces[0], pieces[1..];
      TextHead(text, pieces);
      RunSplit(delim, Amid(text, bare, done), WritePiece(p), WritePieces(rest));
      RunPiece(delim, text, bare, done, p);
      RunPieces(delim, text + PieceText(p), bare && p.Bare?, done, rest);
    }
  }

  /** The end of an item. */
  lemma StepEnd(delim: Byte, text: Bytes, bare: bool, done: seq<Bytes>, end: Byte)
    requires Separates(delim) && (end == delim || end == CLOSE)
    ensures Step(delim, Amid(text, bare, done), end)
         == Machine(AfterElement(end), [], done + [if bare && text == NULL then [] else text])
  {
    NullLetters();
    var m := Amid(text, bare, done);
    assert m.sb + Pending(m.ps) == text;
    assert m.ps.SawNULL? <==> bare && text == NULL;
  }

  /** An item with a piece, from its first byte to the delimiter or brace that ends it. */
  lemma RunWritten(delim: Byte, done: seq<Bytes>, pieces: seq<Piece>, end: Byte)
    requires Separates(delim) && (end == delim || end == CLOSE)
    requires pieces != [] && ValidItem(Item([], pieces), delim)
    ensures Run(delim, Machine(Search, [], done), WritePieces(pieces) + [end])
         == Machine(AfterElement(end), [], done + [Meaning(pieces)])
  {
    var m, p, rest := Machine(Search, [], done), pieces[0], pieces[1..];
    RunSplit(delim, m, WritePieces(pieces), [end]);
    RunOne(delim, Run(delim, m, WritePieces(pieces)), end);
    assert Run(delim, m, WritePieces(pieces)) == Amid(Text(pieces), AllBare(pieces), done) by {
      RunSplit(delim, m, WritePiece(p), WritePieces(rest));
      RunPiece(delim, [], true, done, p);
      assert [] + PieceText(p) == PieceText(p);
      assert [] + Text(pieces) == Text(pieces);
      TextHead([], pieces);
      RunPieces(delim, PieceText(p), p.Bare?, done, rest);
    }
    StepEnd(delim, Text(pieces), AllBare(pieces), done, end);
  }

  lemma RunItem(delim: Byte, done: seq<Bytes>, item: Item, end: Byte)
    requires Separates(delim) && (end == delim || end == CLOSE) && ValidItem(item, delim)
    ensures Run(delim, Machine(Search, [], done), WriteItem(item) + [end])
         == Machine(AfterElement(end), [], done + Elements(item, end != delim))
  {
    var written := WritePieces(item.pieces);
    assert WriteItem(item) + [end] == item.skip + (written + [end]);
    RunSkip(delim, done, item.skip, written + [end]);
    if item.pieces == [] {
      assert written + [end] == [end];
      RunOne(delim, Machine(Search, [], done), end);
      assert done + [] == done;
    } else {
      RunWritten(delim, done, item.pieces, end);
    }
  }

  // ---- whole texts ----

  /**
   A group runs from an opening brace to the closing one that ends its last item; `before` is
   whatever stands between groups. Nested arrays are groups too: the inner opening braces are
   in front of items, the inner delimiters and the other closing braces between groups.
   */
  datatype Group = Group(before: Bytes, items: seq<Item>)

  predicate ValidGroup(g: Group, delim: Byte) {
    OPEN !in g.before && g.items != [] && forall i | 0 <= i < |g.items| :: ValidItem(g.items[i], delim)
  }

  function WriteItems(items: seq<Item>, delim: Byte): Bytes
    requires items != []
  {
    if |items| == 1 then WriteItem(items[0]) else WriteItem(items[0]) + [delim] + WriteItems(items[1..], delim)
  }

  function ItemElements(items: seq<Item>): seq<Bytes>
    requires items != []
  {
    if |items| == 1 then Elements(items[0], true) else Elements(items[0], false) + ItemElements(items[1..])
  }

  lemma Regroup(first: Bytes, delim: Byte, rest: Bytes)
    ensures (first + [delim] + rest) + [CLOSE] == (first + [delim]) + (rest + [CLOSE])
    ensures first + [delim] + rest == first + ([delim] + rest)
  {
  }

  lemma Attach(a: seq<Bytes>, b: seq<Bytes>, c: seq<Bytes>)
    ensures a + b + c == a + (b + c)
  {
  }

  lemma {:induction false} RunItems(delim: Byte, done: seq<Bytes>, items: seq<Item>)
    requires Separates(delim) && items != [] && forall i | 0 <= i < |items| :: ValidItem(items[i], delim)
    ensures Run(delim, Machine(Search, [], done), WriteItems(items, delim) + [CLOSE])
         == Machine(Search2, [], done + ItemElements(items))
    decreases |items|
  {
    if |items| == 1 {
      RunItem(delim, done, items[0], CLOSE);
    } else {
      var first, rest := WriteItem(items[0]), WriteItems(items[1..], delim);
      Regroup(first, delim, rest);
      RunSplit(delim, Machine(Search, [], done), first + [delim], rest + [CLOSE]);
      RunItem(delim, done, items[0], delim);
      RunItems(delim, done + Elements(items[0], false), items[1..]);
      Attach(done, Elements(items[0], false), ItemElements(items[1..]));
    }
  }

  /** Outside groups everything up to the next opening brace is skipped. */
  lemma {:induction false} RunBetween(delim: Byte, done: seq<Bytes>, before: Bytes)
    requires OPEN !in before
    ensures Run(delim, Machine(Search2, [], done), before) == Machine(Search2, [], done)
    decreases |before|
  {
    if before != [] {
      assert before[0] != OPEN;
      RunBetween(delim, done, before[1..]);
    }
  }

  function WriteGroup(g: Group, delim: Byte): Bytes
    requires g.items != []
  {
    g.before + ([OPEN] + (WriteItems(g.items, delim) + [CLOSE]))
  }

  lemma RunGroup(delim: Byte, done: seq<Bytes>, g: Group)
    requires Separates(delim) && ValidGroup(g, delim)
    ensures Run(delim, Machine(Search2, [], done), WriteGroup(g, delim))
         == Machine(Search2, [], done + ItemElements(g.items))
  {
    var body := WriteItems(g.items, delim) + [CLOSE];
    RunSplit(delim, Machine(Search2, [], done), g.before, [OPEN] + body);
    RunBetween(delim, done, g.before);
    RunCons(delim, Machine(Search2, [], done), OPEN, body);
    RunItems(delim, done, g.items);
  }

  predicate ValidGroups(groups: seq<Group>, delim: Byte) {
    forall i | 0 <= i < |groups| :: ValidGroup(groups[i], delim)
  }

  function WriteGroups(groups: seq<Group>, delim: Byte): Bytes
    requires ValidGroups(groups, delim)
  {
    if groups == [] then [] else WriteGroup(groups[0], delim) + WriteGroups(groups[1..], delim)
  }

  function GroupElements(groups: seq<Group>, delim: Byte): seq<Bytes>
    requires ValidGroups(groups, delim)
  {
    if groups == [] then [] else ItemElements(groups[0].items) + GroupElements(groups[1..], delim)
  }

  lemma {:induction false} RunGroups(delim: Byte, done: seq<Bytes>, groups: seq<Group>)
    requires Separates(delim) && ValidGroups(groups, delim)
    ensures Run(delim, Machine(Search2, [], done), WriteGroups(groups, delim))
         == Machine(Search2, [], done + GroupElements(groups, delim))
    decreases |groups|
  {
    if groups == [] {
      assert done + GroupElements(groups, delim) == done;
    } else {
      var g, rest := groups[0], groups[1..];
      RunSplit(delim, Machine(Search2, [], done), WriteGroup(g, delim), WriteGroups(rest, delim));
      RunGroup(delim, done, g);
      RunGroups(delim, done + ItemElements(g.items), rest);
      Attach(done, ItemElements(g.items), GroupElements(rest, delim));
    }
  }

  /** Every text of the syntax is read for exactly the elements it writes, in order. */
  lemma ReadsInput(groups: seq<Group>, after: Bytes, delim: Byte)
    requires Separates(delim) && ValidGroups(groups, delim) && OPEN !in after
    ensures Parse(WriteGroups(groups, delim) + after, delim) == GroupElements(groups, delim)
  {
    RunSplit(delim, Start, WriteGroups(groups, delim), after);
    RunGroups(delim, [], groups);
    assert [] + GroupElements(groups, delim) == GroupElements(groups, delim);
    RunBetween(delim, GroupElements(groups, delim), after);
  }

  // ---- the other delimiters ----

  lemma RunFive(delim: Byte, a: Byte, b: Byte, c: Byte, d: Byte, e: Byte)
    ensures Run(delim, Start, [a, b, c, d, e])
         == Step(delim, Step(delim, Step(delim, Step(delim, Step(delim, Start, a), b), c), d), e)
  {
    assert [a, b, c, d, e] == [a] + ([b] + ([c] + ([d] + [e])));
    RunCons(delim, Start, a, [b] + ([c] + ([d] + [e])));
    RunCons(delim, Step(delim, Start, a), b, [c] + ([d] + [e]));
    RunCons(delim, Step(delim, Step(delim, Start, a), b), c, [d] + [e]);
    RunCons(delim, Step(delim, Step(delim, Step(delim, Start, a), b), c), d, [e]);
    RunOne(delim, Step(delim, Step(delim, Step(delim, Step(delim, Start, a), b), c), d), e);
  }

  const X: Byte := 120

  lemma PairMisread(delim: Byte)
    requires delim in {CLOSE, QUOTE, BACKSLASH, CAP_U}
    ensures |Parse([OPEN, CAP_N, delim, X, CLOSE], delim)| <= 1
  {
    RunFive(delim, OPEN, CAP_N, delim, X, CLOSE);
  }

  lemma NulMisread()
    ensures |Parse([OPEN, CAP_N, CAP_U, CAP_L, X] + [CLOSE], CAP_L)| == 1
  {
    var five := [OPEN, CAP_N, CAP_U, CAP_L, X];
    RunFive(CAP_L, OPEN, CAP_N, CAP_U, CAP_L, X);
    RunSplit(CAP_L, Start, five, [CLOSE]);
    RunOne(CAP_L, Run(CAP_L, Start, five), CLOSE);
  }

  /** A text of two items, misread with each other delimiter. */
  function TwoItems(delim: Byte): Group {
    Group([], [Item([], if delim == CAP_L then [Bare(CAP_N), Bare(CAP_U)] else [Bare(CAP_N)]), Item([], [Bare(X)])])
  }

  lemma TwoItemsValid(delim: Byte)
    requires !Separates(delim)
    ensures ValidGroup(TwoItems(delim), delim)
  {
  }

  lemma OneBare(ch: Byte)
    ensures WritePieces([Bare(ch)]) == Text([Bare(ch)]) == [ch]
    ensures Elements(Item([], [Bare(ch)]), true) == Elements(Item([], [Bare(ch)]), false) == [[ch]]
    ensures WriteItem(Item([], [Bare(ch)])) == [ch]
  {
    assert [Bare(ch)][1..] == [];
  }

  lemma ItemsTwo(a: Item, b: Item, delim: Byte)
    ensures WriteItems([a, b], delim) == WriteItem(a) + [delim] + WriteItem(b)
    ensures |ItemElements([a, b])| == |Elements(a, false)| + |Elements(b, true)|
    ensures WriteGroup(Group([], [a, b]), delim) == [OPEN] + (WriteItem(a) + [delim] + WriteItem(b)) + [CLOSE]
  {
    assert [a, b][1..] == [b];
  }

  lemma TwoItemsMisread(delim: Byte)
    requires delim in {CLOSE, QUOTE, BACKSLASH, CAP_U}
    ensures |Parse(WriteGroup(TwoItems(delim), delim), delim)| < |ItemElements(TwoItems(delim).items)|
  {
    var a, b := Item([], [Bare(CAP_N)]), Item([], [Bare(X)]);
    OneBare(CAP_N);
    OneBare(X);
    ItemsTwo(a, b, delim);
    assert [OPEN] + ([CAP_N] + [delim] + [X]) + [CLOSE] == [OPEN, CAP_N, delim, X, CLOSE];
    PairMisread(delim);
  }

  lemma TwoItemsMisreadL()
    ensures |Parse(WriteGroup(TwoItems(CAP_L), CAP_L), CAP_L)| < |ItemElements(TwoItems(CAP_L).items)|
  {
    var a, b := Item([], [Bare(CAP_N), Bare(CAP_U)]), Item([], [Bare(X)]);
    OneBare(CAP_U);
    OneBare(X);
    assert a.pieces[1..] == [Bare(CAP_U)];
    ItemsTwo(a, b, CAP_L);
    assert WriteGroup(TwoItems(CAP_L), CAP_L) == [OPEN, CAP_N, CAP_U, CAP_L, X] + [CLOSE];
    NulMisread();
  }

  /** The parser reads every text of the syntax exactly for the delimiters that separate. */
  lemma ReadsInputExactly(delim: Byte)
    ensures (forall groups: seq<Group>, after: Bytes | ValidGroups(groups, delim) && OPEN !in after ::
               Parse(WriteGroups(groups, delim) + after, delim) == GroupElements(groups, delim))
        <==> Separates(delim)
  {
    if Separates(delim) {
      forall groups: seq<Group>, after: Bytes | ValidGroups(groups, delim) && OPEN !in after
        ensures Parse(WriteGroups(groups, delim) + after, delim) == GroupElements(groups, delim)
      {
        ReadsInput(groups, after, delim);
      }
    } else {
      TwoItemsValid(delim);
      if delim == CAP_L {
        TwoItemsMisreadL();
      } else {
        TwoItemsMisread(delim);
      }
      var groups, none: Bytes := [TwoItems(delim)], [];
      assert groups[1..] == [] && ValidGroups(groups, delim) && OPEN !in none;
      assert WriteGroups(groups, delim) + none == WriteGroup(TwoItems(delim), delim);
      assert GroupElements(groups, delim) == ItemElements(TwoItems(delim).items) + [];
      assert Parse(WriteGroups(groups, delim) + none, delim) != GroupElements(groups, delim);
    }
  }
}
