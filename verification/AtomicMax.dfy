/**
 `AtomicInt64Max` of flow/shared/atomic.go with any number of concurrent callers,
 interleaved at every load and compare-and-swap.
 */
module AtomicMax {
  datatype Pc =
    | Called                 // before the first load
    | Loaded(last: int)      // loop condition next
    | Lost(last: int)        // the swap failed, load again
    | Returned

  /** Caller `i` runs AtomicInt64Max(a, args[i]); `start` is the cell's first value. */
  datatype State = State(start: int, cell: int, args: seq<int>, callers: seq<Pc>)

  predicate Valid(s: State) {
    |s.callers| == |s.args|
  }

  function Initial(start: int, args: seq<int>): State {
    State(start, start, args, seq(|args|, i => Called))
  }

  predicate Enabled(s: State, i: nat) {
    Valid(s) && i < |s.callers| && !s.callers[i].Returned?
  }

  /** The next atomic action of caller `i`. */
  function After(s: State, i: nat): State
    requires Enabled(s, i)
  {
    var v := s.args[i];
    match s.callers[i]
    case Called => s.(callers := s.callers[i := Loaded(s.cell)])
    case Lost(_) => s.(callers := s.callers[i := Loaded(s.cell)])
    case Loaded(last) =>
      if last >= v then s.(callers := s.callers[i := Returned])
      else if s.cell == last then s.(cell := v, callers := s.callers[i := Returned])
      else s.(callers := s.callers[i := Lost(last)])
    case Returned => s
  }

  predicate IsRun(s: State, turns: seq<nat>)
    decreases |turns|
  {
    turns == [] || (Enabled(s, turns[0]) && IsRun(After(s, turns[0]), turns[1..]))
  }

  function Final(s: State, turns: seq<nat>): State
    requires IsRun(s, turns)
    decreases |turns|
  {
    if turns == [] then s else Final(After(s, turns[0]), turns[1..])
  }

  // ---- invariant ----

  ghost predicate CallerOk(s: State, i: nat)
    requires Valid(s) && i < |s.args|
  {
    match s.callers[i]
    case Called => true
    case Loaded(last) => last <= s.cell
    case Lost(last) => last < s.cell && last < s.args[i]
    case Returned => s.args[i] <= s.cell
  }

  ghost predicate Ok(s: State) {
    && Valid(s)
    && s.start <= s.cell
    && (s.cell == s.start || s.cell in s.args)
    && forall i: nat | i < |s.args| :: CallerOk(s, i)
  }

  lemma StepKeeps(s: State, i: nat)
    requires Ok(s) && Enabled(s, i)
    ensures Ok(After(s, i)) && s.cell <= After(s, i).cell
    ensures After(s, i).args == s.args && After(s, i).start == s.start
  {
    var s' := After(s, i);
    assert CallerOk(s, i);
    assert s.args[i] in s.args;
    assert CallerOk(s', i);
    forall j: nat | j < |s.args|
      ensures CallerOk(s', j)
    {
      if j != i {
        assert CallerOk(s, j) && s'.callers[j] == s.callers[j];
      }
    }
  }

  /** In every run the cell never decreases, and a caller that returned stays returned. */
  lemma {:induction false} RunKeeps(s: State, turns: seq<nat>)
    requires Ok(s) && IsRun(s, turns)
    ensures Ok(Final(s, turns)) && s.cell <= Final(s, turns).cell
    ensures Final(s, turns).args == s.args && Final(s, turns).start == s.start
    ensures forall i: nat | i < |s.args| && s.callers[i].Returned? :: Final(s, turns).callers[i].Returned?
    decreases |turns|
  {
    if turns != [] {
      StepKeeps(s, turns[0]);
      RunKeeps(After(s, turns[0]), turns[1..]);
    }
  }

  ghost predicate IsMax(m: int, start: int, args: seq<int>) {
    start <= m && (forall i | 0 <= i < |args| :: args[i] <= m) && (m == start || m in args)
  }

  /**
   In every interleaving the cell is at least v from the moment a call with v returned,
   and once all calls have returned it is the maximum of its first value and all arguments.
   */
  lemma EndsAsMaximum(start: int, args: seq<int>, turns: seq<nat>)
    requires IsRun(Initial(start, args), turns)
    ensures var s := Final(Initial(start, args), turns);
      && |s.callers| == |args|
      && (forall i: nat | i < |args| && s.callers[i].Returned? :: args[i] <= s.cell)
      && ((forall i: nat | i < |args| :: s.callers[i].Returned?) ==> IsMax(s.cell, start, args))
  {
    RunKeeps(Initial(start, args), turns);
    var s := Final(Initial(start, args), turns);
    forall i: nat | i < |args| && s.callers[i].Returned?
      ensures args[i] <= s.cell
    {
      assert CallerOk(s, i);
    }
  }

  // ---- termination ----

  /** A bound on the actions caller `i` still takes: two per unit between what it last saw and its argument. */
  function Fuel(s: State, i: nat): nat
    requires Valid(s) && i < |s.args|
  {
    var v := s.args[i];
    match s.callers[i]
    case Called => 2 + if s.cell < v then 2 * (v - s.cell) else 0
    case Loaded(last) => 1 + if last < v then 2 * (v - last) else 0
    case Lost(last) => if last < v then 2 * (v - last) else 2
    case Returned => 0
  }

  lemma StepBurns(s: State, i: nat, j: nat)
    requires Ok(s) && Enabled(s, i) && j < |s.args|
    ensures Fuel(After(s, i), j) <= Fuel(s, j)
    ensures i == j ==> Fuel(After(s, i), j) < Fuel(s, j)
  {
    assert CallerOk(s, j) && CallerOk(s, i);
    StepKeeps(s, i);
  }

  function Turns(turns: seq<nat>, i: nat): nat {
    if turns == [] then 0 else (if turns[0] == i then 1 else 0) + Turns(turns[1..], i)
  }

  /** However the others interfere, a call takes at most 2 + 2 * (v - cell) actions of its own. */
  lemma {:induction false} CallTerminates(s: State, turns: seq<nat>, i: nat)
    requires Ok(s) && IsRun(s, turns) && i < |s.args|
    ensures Turns(turns, i) <= Fuel(s, i)
    decreases |turns|
  {
    if turns != [] {
      StepKeeps(s, turns[0]);
      StepBurns(s, turns[0], i);
      CallTerminates(After(s, turns[0]), turns[1..], i);
    }
  }
}
