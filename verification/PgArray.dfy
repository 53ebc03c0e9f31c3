/**
 `ParsePgArrayToStringSlice` of flow/shared/postgres.go: the byte machine that
 flattens the text form of a Postgres array.
 */
module PgArray {
  import opened Subsequences

  newtype Byte = x: int | 0 <= x < 256

  type Bytes = seq<Byte>

  const QUOTE: Byte := '"' as int as Byte
  const CAP_L: Byte := 'L' as int as Byte
  const CAP_N: Byte := 'N' as int as Byte
  const CAP_U: Byte := 'U' as int as Byte
  const BACKSLASH: Byte := '\\' as int as Byte
  const OPEN: Byte := '{' as int as Byte
  const CLOSE: Byte := '}' as int as Byte

  /** Space, tab, newline, vertical tab, form feed or carriage return. */
  predicate IsSpace(ch: Byte) {
    ch as int as char in " \t\n\U{0B}\U{0C}\r"
  }

  lemma SpacesAre(ch: Byte)
    ensures IsSpace(ch) <==> ch in {9, 10, 11, 12, 13, 32}
  {
    var spaces := " \t\n\U{0B}\U{0C}\r";
    assert spaces[0] as int == 32 && spaces[1] as int == 9 && spaces[2] as int == 10;
    assert spaces[3] as int == 11 && spaces[4] as int == 12 && spaces[5] as int == 13;
    assert ch as int as char in spaces ==> exists i | 0 <= i < 6 :: spaces[i] == ch as int as char;
  }

  datatype Ps =
    | Search | Search2 | Quoted | QuotedEscape | Unquoted | UnquotedEscape
    | SawN | SawNU | SawNUL | SawNULL

  /** The loop's variables: the state, the element under construction and the finished elements. */
  datatype Machine = Machine(ps: Ps, sb: Bytes, result: seq<Bytes>)

  const Start := Machine(Search2, [], [])

  /** Letters recognised as a possible NULL and not yet in `sb`. */
  function Pending(ps: Ps): Bytes {
    match ps
    case SawN => [CAP_N]
    case SawNU => [CAP_N, CAP_U]
    case SawNUL => [CAP_N, CAP_U, CAP_L]
    case SawNULL => [CAP_N, CAP_U, CAP_L, CAP_L]
    case _ => []
  }

  function AfterElement(ch: Byte): Ps {
    if ch == CLOSE then Search2 else Search
  }

  /** The byte that continues NULL from here, if any. */
  function NextLetter(ps: Ps): Byte
    requires ps.SawN? || ps.SawNU? || ps.SawNUL?
  {
    if ps.SawN? then CAP_U else CAP_L
  }

  /** What one byte does to the machine, the jump back into the switch included. */
  function Step(delim: Byte, m: Machine, ch: Byte): Machine {
    match m.ps
    case Search =>
      if ch == delim then m.(result := m.result + [[]])
      else if ch == CLOSE then m.(ps := Search2)
      else if ch == QUOTE then m.(ps := Quoted)
      else if ch == BACKSLASH then m.(ps := UnquotedEscape)
      else if ch == CAP_N then m.(ps := SawN)
      else if ch != OPEN && !IsSpace(ch) then m.(ps := Unquoted, sb := m.sb + [ch])
      else m
    case Search2 => if ch == OPEN then m.(ps := Search) else m
    case Quoted =>
      if ch == BACKSLASH then m.(ps := QuotedEscape)
      else if ch == QUOTE then m.(ps := Unquoted)
      else m.(sb := m.sb + [ch])
    case QuotedEscape => m.(ps := Quoted, sb := m.sb + [ch])
    case UnquotedEscape => m.(ps := Unquoted, sb := m.sb + [ch])
    case Unquoted => StepUnquoted(delim, m, ch)
    case SawNULL =>
      if ch == delim || ch == CLOSE then m.(ps := AfterElement(ch), result := m.result + [[]])
      else StepUnquoted(delim, m.(sb := m.sb + Pending(m.ps)), ch)
    case _ =>
      if ch == NextLetter(m.ps) then
        m.(ps := if m.ps.SawN? then SawNU else if m.ps.SawNU? then SawNUL else SawNULL)
      else StepUnquoted(delim, m.(sb := m.sb + Pending(m.ps)), ch)
  }

  function StepUnquoted(delim: Byte, m: Machine, ch: Byte): Machine {
    if ch == BACKSLASH then m.(ps := UnquotedEscape)
    else if ch == QUOTE then m.(ps := Quoted)
    else if ch == delim || ch == CLOSE then Machine(AfterElement(ch), [], m.result + [m.sb])
    else m.(ps := Unquoted, sb := m.sb + [ch])
  }

  function Run(delim: Byte, m: Machine, data: Bytes): Machine
    decreases |data|
  {
    if data == [] then m else Run(delim, Step(delim, m, data[0]), data[1..])
  }

  function Parse(data: Bytes, delim: Byte): seq<Bytes> {
    Run(delim, Start, data).result
  }

  lemma {:induction false} RunSplit(delim: Byte, m: Machine, a: Bytes, b: Bytes)
    ensures Run(delim, m, a + b) == Run(delim, Run(delim, m, a), b)
    decreases |a|
  {
    if a == [] {
      assert a + b == b;
    } else {
      assert (a + b)[1..] == a[1..] + b;
      RunSplit(delim, Step(delim, m, a[0]), a[1..], b);
    }
  }

  lemma RunOne(delim: Byte, m: Machine, ch: Byte)
    ensures Run(delim, m, [ch]) == Step(delim, m, ch)
  {
    assert Run(delim, Step(delim, m, ch), [ch][1..]) == Step(delim, m, ch);
  }

  /**
   The loop itself. `goto retry` is the inner loop; the switch is entered at most
   twice for a byte.
   */
  method ParsePgArrayToStringSlice(data: Bytes, delim: Byte) returns (result: seq<Bytes>, ghost passes: nat)
    ensures result == Parse(data, delim)
    ensures |data| <= passes <= 2 * |data|
  {
    result, passes := [], 0;
    var sb: Bytes := [];
    var ps := Search2;
    for i := 0 to |data|
      invariant Machine(ps, sb, result) == Run(delim, Start, data[..i])
      invariant i <= passes <= 2 * i
    {
      var ch := data[i];
      ghost var before := Machine(ps, sb, result);
      ghost var entered := 0;
      var retry := true;
      while retry
        invariant retry ==> Step(delim, Machine(ps, sb, result), ch) == Step(delim, before, ch)
        invariant !retry ==> Machine(ps, sb, result) == Step(delim, before, ch)
        invariant entered <= 2 && (retry ==> entered <= 1 && (entered == 1 ==> ps.Unquoted?))
        invariant !retry ==> entered >= 1
        decreases retry, 2 - entered
      {
        entered := entered + 1;
        retry := false;
        match ps
        case Search =>
          if ch == delim {
            result := result + [[]];
          } else if ch == CLOSE {
            ps := Search2;
          } else if ch == QUOTE {
            ps := Quoted;
          } else if ch == BACKSLASH {
            ps := UnquotedEscape;
          } else if ch == CAP_N {
            ps := SawN;
          } else if ch != OPEN && !IsSpace(ch) {
            sb := sb + [ch];
            ps := Unquoted;
          }
        case Search2 =>
          if ch == OPEN {
            ps := Search;
          }
        case Quoted =>
          if ch == BACKSLASH {
            ps := QuotedEscape;
          } else if ch == QUOTE {
            ps := Unquoted;
          } else {
            sb := sb + [ch];
          }
        case Unquoted =>
          if ch == BACKSLASH {
            ps := UnquotedEscape;
          } else if ch == QUOTE {
            ps := Quoted;
          } else if ch == delim || ch == CLOSE {
            result := result + [sb];
            sb := [];
            ps := if ch == CLOSE then Search2 else Search;
          } else {
            sb := sb + [ch];
          }
        case QuotedEscape =>
          sb := sb + [ch];
          ps := Quoted;
        case UnquotedEscape =>
          sb := sb + [ch];
          ps := Unquoted;
        case SawN =>
          if ch == CAP_U {
            ps := SawNU;
          } else {
            sb := sb + [CAP_N];
            ps, retry := Unquoted, true;
          }
        case SawNU =>
          if ch == CAP_L {
            ps := SawNUL;
          } else {
            sb := sb + [CAP_N, CAP_U];
            ps, retry := Unquoted, true;
          }
        case SawNUL =>
          if ch == CAP_L {
            ps := SawNULL;
          } else {
            sb := sb + [CAP_N, CAP_U, CAP_L];
            ps, retry := Unquoted, true;
          }
        case SawNULL =>
          if ch == delim || ch == CLOSE {
            result := result + [[]];
            ps := if ch == CLOSE then Search2 else Search;
          } else {
            sb := sb + [CAP_N, CAP_U, CAP_L, CAP_L];
            ps, retry := Unquoted, true;
          }
      }
      passes := passes + entered;
      assert data[..i + 1] == data[..i] + [ch];
      RunSplit(delim, Start, data[..i], [ch]);
      RunOne(delim, before, ch);
    }
    assert data[..|data|] == data;
  }

  // ---- nothing is invented, whatever the input ----

  function Flat(parts: seq<Bytes>): Bytes {
    if parts == [] then [] else Flat(parts[..|parts| - 1]) + parts[|parts| - 1]
  }

  /** The element under construction, letters of a possible NULL included. */
  function Open(m: Machine): Bytes {
    m.sb + Pending(m.ps)
  }

  /** Every byte the machine holds. */
  function Held(m: Machine): Bytes {
    Flat(m.result) + Open(m)
  }

  lemma FlatAppend(parts: seq<Bytes>, part: Bytes)
    ensures Flat(parts + [part]) == Flat(parts) + part
  {
    assert (parts + [part])[..|parts|] == parts;
  }

  /** A byte is left out or added to the open element, or ends it; a completed NULL gives an empty element. */
  ghost predicate Moves(m: Machine, ch: Byte, m': Machine) {
    || (m'.result == m.result && (Open(m') == Open(m) || Open(m') == Open(m) + [ch]))
    || (m'.result == m.result + [Open(m)] && Open(m') == [])
    || (m'.result == m.result + [[]] && (Open(m') == Open(m) || Open(m') == m.sb))
  }

  lemma UnquotedMoves(delim: Byte, m: Machine, ch: Byte)
    ensures Moves(m, ch, StepUnquoted(delim, m.(sb := Open(m)), ch))
  {
    var m' := StepUnquoted(delim, m.(sb := Open(m)), ch);
    assert Open(m') == m'.sb;
  }

  lemma StepMoves(delim: Byte, m: Machine, ch: Byte)
    ensures Moves(m, ch, Step(delim, m, ch))
  {
    var m' := Step(delim, m, ch);
    if m.ps.Unquoted? {
      assert m.sb == Open(m);
      UnquotedMoves(delim, m, ch);
    } else if Pending(m.ps) != [] {
      LettersMove(delim, m, ch);
    } else {
      assert Open(m) == m.sb;
      assert m'.ps.SawN? ==> ch == CAP_N && Open(m') == Open(m) + [ch];
      assert !m'.ps.SawN? ==> Open(m') == m'.sb;
    }
  }

  lemma LettersMove(delim: Byte, m: Machine, ch: Byte)
    requires Pending(m.ps) != []
    ensures Moves(m, ch, Step(delim, m, ch))
  {
    var m' := Step(delim, m, ch);
    if !m.ps.SawNULL? && ch == NextLetter(m.ps) {
      assert Pending(m'.ps) == Pending(m.ps) + [ch];
      assert m.sb + (Pending(m.ps) + [ch]) == Open(m) + [ch];
    } else if m.ps.SawNULL? && (ch == delim || ch == CLOSE) {
      assert Open(m') == m.sb;
    } else {
      UnquotedMoves(delim, m, ch);
    }
  }

  /** Each byte is kept at the end of what is held or left out; a completed NULL is dropped. */
  lemma StepHolds(delim: Byte, m: Machine, ch: Byte)
    ensures var held := Held(Step(delim, m, ch));
      held == Held(m) || held == Held(m) + [ch] || held == Flat(m.result) + m.sb
  {
    var m' := Step(delim, m, ch);
    StepMoves(delim, m, ch);
    FlatAppend(m.result, []);
    FlatAppend(m.result, Open(m));
    assert Flat(m.result) + (Open(m) + [ch]) == Held(m) + [ch];
  }

  function Terminators(data: Bytes, delim: Byte): nat {
    if data == [] then 0
    else
      var last := data[|data| - 1];
      Terminators(data[..|data| - 1], delim) + if last == delim || last == CLOSE then 1 else 0
  }

  lemma RunLast(data: Bytes, delim: Byte)
    requires data != []
    ensures Run(delim, Start, data) == Step(delim, Run(delim, Start, data[..|data| - 1]), data[|data| - 1])
  {
    assert data == data[..|data| - 1] + [data[|data| - 1]];
    RunSplit(delim, Start, data[..|data| - 1], [data[|data| - 1]]);
    RunOne(delim, Run(delim, Start, data[..|data| - 1]), data[|data| - 1]);
  }

  lemma {:induction false} RunHolds(data: Bytes, delim: Byte)
    ensures Subsequence(Held(Run(delim, Start, data)), data)
  {
    if data != [] {
      var init, ch := data[..|data| - 1], data[|data| - 1];
      RunHolds(init, delim);
      RunLast(data, delim);
      assert data == init + [ch];
      var m := Run(delim, Start, init);
      StepHolds(delim, m, ch);
      var kept := Flat(m.result) + m.sb;
      assert Held(m) == kept + Pending(m.ps);
      SubsequencePrefix(Held(m), |kept|, init);
      SubsequenceGrows(Held(m), init, ch);
      SubsequenceGrows(kept, init, ch);
    }
  }

  lemma {:induction false} ElementsBounded(data: Bytes, delim: Byte)
    ensures |Parse(data, delim)| <= Terminators(data, delim)
  {
    if data != [] {
      ElementsBounded(data[..|data| - 1], delim);
      RunLast(data, delim);
    }
  }

  /**
   For every input, malformed ones included, the elements put together are the input
   with some bytes left out, so no byte is invented, repeated or moved, and there are
   no more elements than delimiters and closing braces.
   */
  lemma ParseInventsNothing(data: Bytes, delim: Byte)
    ensures Subsequence(Flat(Parse(data, delim)), data)
    ensures |Held(Run(delim, Start, data))| <= |data|
    ensures |Parse(data, delim)| <= Terminators(data, delim)
  {
    RunHolds(data, delim);
    ElementsBounded(data, delim);
    var m := Run(delim, Start, data);
    SubsequenceSize(Held(m), data);
    SubsequencePrefix(Held(m), |Flat(m.result)|, data);
    assert Held(m)[..|Flat(m.result)|] == Flat(m.result);
  }
}
