/**
 Shutdown: from the moment syncDone is closed, the activity ends after a bounded
 number of steps of its own, whatever the schedule, and the normalizer begins at
 most two more attempts.
 */
module CdcShutdown {
  import opened Changes
  import opened Options
  import opened CdcProtocol
  import opened CdcDelivery
  import opened CdcBackpressure
  import opened CdcWakeup

  // ---- attempts still to come ----

  function One(b: bool): nat {
    if b then 1 else 0
  }

  /** How many more `startNormalize` calls the normalizer can begin once no request comes in. */
  function StartsLeft(r: Run): nat {
    match r.norm
    case Compare(req) =>
      if req > r.normalizing then 1 + One(req < r.requests.val) else One(r.normalizing < r.requests.val)
    case Begin(req) => 1 + One(req < r.requests.val)
    case Retrying => 1
    case Failed(_) => 0
    case Returned => 0
    case _ => One(r.normalizing < r.requests.val)
  }

  ghost predicate LateBounded(r: Run) {
    if r.syncDone then r.lateStarts + StartsLeft(r) <= 2 else r.lateStarts == 0
  }

  lemma SyncKeepsLate(c: Config, d: Durable, r: Run, step: SyncStep)
    requires SyncEnabled(c, d, r, step) && LateBounded(r) && (r.syncDone <==> Closing(r.sync))
    ensures var s' := AfterSync(c, d, r, step); s'.run.Some? ==> LateBounded(s'.run.value)
  {
    var s' := AfterSync(c, d, r, step);
    assert r.syncDone && s'.run.Some? ==> s'.run.value.requests.val == r.requests.val && s'.run.value.norm == r.norm;
  }

  lemma NormKeepsLate(c: Config, d: Durable, r: Run, step: NormStep)
    requires NormEnabled(c, d, r, step) && LateBounded(r) && NormMarks(c, d, r)
    ensures LateBounded(AfterNorm(c, d, r, step).run.value)
  {
  }

  lemma StepKeepsLate(c: Config, s: State, step: Step)
    requires Wired(c, s) && Enabled(c, s, step) && (s.run.Some? ==> LateBounded(s.run.value))
    ensures var s' := After(c, s, step); s'.run.Some? ==> LateBounded(s'.run.value)
  {
    match step
    case Sync(y) => SyncKeepsLate(c, s.d, s.run.value, y);
    case Norm(n) => NormKeepsLate(c, s.d, s.run.value, n);
    case _ =>
  }

  lemma {:induction false} RunKeepsLate(c: Config, s: State, steps: seq<Step>)
    requires c.bufferSize >= 2 && Wired(c, s) && IsRun(c, s, steps)
    requires s.run.Some? ==> LateBounded(s.run.value)
    ensures var s' := Final(c, s, steps); s'.run.Some? ==> LateBounded(s'.run.value)
    decreases |steps|
  {
    if steps != [] {
      StepKeepsLate(c, s, steps[0]);
      StepKeepsWired(c, s, steps[0]);
      RunKeepsLate(c, After(c, s, steps[0]), steps[1..]);
    }
  }

  /** In every run at most two `startNormalize` calls begin after syncDone is closed. */
  lemma AtMostTwoLateStarts(c: Config, s: State)
    requires c.bufferSize >= 2 && Reachable(c, s) && s.run.Some?
    ensures s.run.value.lateStarts <= 2
  {
    var steps :| IsRun(c, Fresh, steps) && Final(c, Fresh, steps) == s;
    RunKeepsLate(c, Fresh, steps);
  }

  // ---- how long it can take ----

  /** How many more times the normalizer can be woken, when nobody makes request channels any more. */
  function HearsLeft(r: Run): nat {
    if r.requests.cond.Some? then
      if r.norm.Dozing? && r.norm.ch.id != r.requests.cond.value.id then 2 else 1
    else One(r.norm.Dozing?)
  }

  /** Steps inside one attempt at `req`, at most one round per batch still to merge. */
  function CallFuel(merged: nat, req: int): nat {
    5 + if req > merged then 5 * (req - merged) else 0
  }

  function HeadFuel(merged: nat, r: Run, done: int): nat {
    5 + 5 * HearsLeft(r) + if done < r.requests.val then 7 + CallFuel(merged, r.requests.val) else 0
  }

  function RoundFuel(merged: nat, req: int, end: int): nat {
    if end >= req then 0 else CallFuel(merged, req)
  }

  function NormFuel(merged: nat, r: Run): nat {
    match r.norm
    case Head => HeadFuel(merged, r, r.normalizing)
    case Compare(req) =>
      if req > r.normalizing then 3 + CallFuel(merged, req) + HeadFuel(merged, r, req)
      else HeadFuel(merged, r, r.normalizing) - 1
    case ArmRequests(_) => HeadFuel(merged, r, r.normalizing) - 2
    case Dozing(_, _) => HeadFuel(merged, r, r.normalizing) - 3
    case Begin(req) => 2 + CallFuel(merged, req) + HeadFuel(merged, r, req)
    case Connect(req) => 1 + CallFuel(merged, req) + HeadFuel(merged, r, req)
    case Call(req) => CallFuel(merged, req) + HeadFuel(merged, r, req)
    case Respond(req, end) => 4 + RoundFuel(merged, req, end) + HeadFuel(merged, r, req)
    case RespondSwap(req, end) => 3 + RoundFuel(merged, req, end) + HeadFuel(merged, r, req)
    case RespondWake(req, end, _) => 2 + RoundFuel(merged, req, end) + HeadFuel(merged, r, req)
    case Answered(req, end) => 1 + RoundFuel(merged, req, end) + HeadFuel(merged, r, req)
    case Failed(_) => 1
    case Retrying => 3 + CallFuel(merged, r.requests.val) + HeadFuel(merged, r, r.requests.val)
    case Returned => 0
  }

  function CloseFuel(sync: SyncPc): nat {
    match sync
    case CloseRequests => 5
    case CloseRequestsWake(_) => 4
    case CloseResponses => 3
    case CloseResponsesWake(_) => 2
    case Join => 1
    case _ => 0
  }

  function Fuel(s: State): nat {
    if s.run.Some? then NormFuel(s.d.normId, s.run.value) + CloseFuel(s.run.value.sync) else 0
  }

  /** Between attempts each step comes closer to an attempt or to the end. */
  lemma SettledBurns(c: Config, d: Durable, r: Run, step: NormStep)
    requires NormEnabled(c, d, r, step) && r.requests.Valid() && Settled(r.norm) && r.syncDone
    requires r.norm.Compare? ==> r.norm.req <= r.requests.val
    ensures var s' := AfterNorm(c, d, r, step); NormFuel(s'.d.normId, s'.run.value) < NormFuel(d.normId, r)
  {
  }

  /** A call that makes progress uses up the rounds of the batches it merged. */
  lemma CallBurns(c: Config, d: Durable, r: Run, step: NormStep)
    requires NormEnabled(c, d, r, step) && r.norm.Call? && r.syncDone
    ensures var s' := AfterNorm(c, d, r, step); NormFuel(s'.d.normId, s'.run.value) < NormFuel(d.normId, r)
  {
    var s' := AfterNorm(c, d, r, step);
    var req := r.norm.req;
    assert HearsLeft(s'.run.value) == HearsLeft(r);
    assert d.normId <= s'.d.normId && CallFuel(s'.d.normId, r.requests.val) <= CallFuel(d.normId, r.requests.val);
    assert HeadFuel(s'.d.normId, s'.run.value, req) <= HeadFuel(d.normId, r, req);
  }

  lemma AnswerBurns(c: Config, d: Durable, r: Run, step: NormStep)
    requires NormEnabled(c, d, r, step) && Answering(r.norm) && r.norm.req == r.normalizing
    ensures var s' := AfterNorm(c, d, r, step); NormFuel(s'.d.normId, s'.run.value) < NormFuel(d.normId, r)
  {
    var s' := AfterNorm(c, d, r, step);
    assert s'.d == d && s'.run.value.requests == r.requests && s'.run.value.normalizing == r.normalizing;
    assert HearsLeft(s'.run.value) == HearsLeft(r);
  }

  lemma AttemptBurns(c: Config, d: Durable, r: Run, step: NormStep)
    requires NormEnabled(c, d, r, step) && !Settled(r.norm) && !r.norm.Call? && !Answering(r.norm) && r.syncDone
    ensures var s' := AfterNorm(c, d, r, step); NormFuel(s'.d.normId, s'.run.value) < NormFuel(d.normId, r)
  {
    var s' := AfterNorm(c, d, r, step);
    assert s'.d == d && s'.run.value.requests == r.requests;
    assert !s'.run.value.norm.Dozing?;
    assert HearsLeft(s'.run.value) == HearsLeft(r);
  }

  lemma NormBurns(c: Config, d: Durable, r: Run, step: NormStep)
    requires NormEnabled(c, d, r, step) && Wires(c, r) && NormMarks(c, d, r) && NormConsistent(r) && r.syncDone
    ensures var s' := AfterNorm(c, d, r, step); NormFuel(s'.d.normId, s'.run.value) < NormFuel(d.normId, r)
  {
    if Settled(r.norm) {
      SettledBurns(c, d, r, step);
    } else if r.norm.Call? {
      CallBurns(c, d, r, step);
    } else if Answering(r.norm) {
      AnswerBurns(c, d, r, step);
    } else {
      AttemptBurns(c, d, r, step);
    }
  }

  /** Taking the channel away, or closing it, leaves the normalizer nothing more to hear. */
  lemma FewerHears(merged: nat, r: Run, r': Run)
    requires r'.norm == r.norm && r'.normalizing == r.normalizing && r'.requests.val == r.requests.val
    requires HearsLeft(r') <= HearsLeft(r)
    ensures NormFuel(merged, r') <= NormFuel(merged, r)
  {
    assert forall done :: HeadFuel(merged, r', done) <= HeadFuel(merged, r, done);
  }

  lemma CloseBurns(c: Config, d: Durable, r: Run, step: SyncStep)
    requires SyncEnabled(c, d, r, step) && Closing(r.sync) && r.syncDone
    ensures Fuel(AfterSync(c, d, r, step)) < Fuel(State(d, Some(r)))
    ensures AfterSync(c, d, r, step).run.Some? ==> AfterSync(c, d, r, step).run.value.syncDone
  {
    var s' := AfterSync(c, d, r, step);
    if s'.run.Some? {
      FewerHears(d.normId, r, s'.run.value);
    }
  }

  /** Nothing the environment does gives the goroutines more to do. */
  lemma OthersBurnNothing(c: Config, s: State, step: Step)
    requires s.run.Some? && s.run.value.syncDone && Enabled(c, s, step) && !IsWork(step)
    ensures Fuel(After(c, s, step)) <= Fuel(s)
    ensures After(c, s, step).run.Some? ==> After(c, s, step).run.value.syncDone
  {
    if step.Cancel? {
      FewerHears(s.d.normId, s.run.value, s.run.value.(cancelled := true));
    }
  }

  lemma WorkBurns(c: Config, s: State, step: Step)
    requires s.run.Some? && s.run.value.syncDone && Enabled(c, s, step)
    requires Wires(c, s.run.value) && NormMarks(c, s.d, s.run.value) && NormConsistent(s.run.value)
    ensures Fuel(After(c, s, step)) <= Fuel(s)
    ensures IsWork(step) ==> Fuel(After(c, s, step)) < Fuel(s)
    ensures After(c, s, step).run.Some? ==> After(c, s, step).run.value.syncDone
  {
    if step.Sync? {
      CloseBurns(c, s.d, s.run.value, step.sync);
    } else if step.Norm? {
      NormBurns(c, s.d, s.run.value, step.norm);
      assert After(c, s, step).run.value.sync == s.run.value.sync;
    } else {
      OthersBurnNothing(c, s, step);
    }
  }

  function Work(steps: seq<Step>): nat {
    if steps == [] then 0 else One(IsWork(steps[0])) + Work(steps[1..])
  }

  /**
   Once syncDone is closed, every run without a new activity takes at most `Fuel`
   steps of the two goroutines, however it is scheduled, cancelled or killed, and
   after that many `SyncFlow` is over.
   */
  lemma {:induction false} ShutdownBounded(c: Config, s: State, steps: seq<Step>)
    requires c.bufferSize >= 2 && Wired(c, s) && s.run.Some? && s.run.value.syncDone
    requires IsRun(c, s, steps) && Start !in steps
    ensures Work(steps) <= Fuel(s)
    ensures Work(steps) == Fuel(s) ==> Final(c, s, steps).run.None?
    decreases |steps|
  {
    if steps != [] {
      var s1 := After(c, s, steps[0]);
      WorkBurns(c, s, steps[0]);
      StepKeepsWired(c, s, steps[0]);
      if s1.run.Some? {
        ShutdownBounded(c, s1, steps[1..]);
      } else {
        NoWorkWithoutRun(c, s1, steps[1..]);
      }
    }
  }

  lemma {:induction false} NoWorkWithoutRun(c: Config, s: State, steps: seq<Step>)
    requires s.run.None? && IsRun(c, s, steps) && Start !in steps
    ensures Work(steps) == 0 && Final(c, s, steps).run.None?
    decreases |steps|
  {
    if steps != [] {
      assert steps[0] in steps;
      NoWorkWithoutRun(c, After(c, s, steps[0]), steps[1..]);
    }
  }

  /** Until it has returned, a closing activity is never stuck: with ShutdownBounded it always returns. */
  lemma ShutdownNeverStuck(c: Config, s: State)
    requires c.bufferSize >= 2 && Reachable(c, s) && s.run.Some? && s.run.value.syncDone
    ensures !s.run.value.norm.Returned? ==> Enabled(c, s, Norm(NextNorm(c, s.d, s.run.value)))
    ensures s.run.value.norm.Returned? ==> Enabled(c, s, Sync(NextSync(c, s.run.value)))
  {
    ReachableWired(c, s);
  }

  /** Without a new activity a closing one stays closing until it is over, and then nothing starts. */
  lemma {:induction false} StaysClosing(c: Config, s: State, steps: seq<Step>)
    requires s.run.Some? ==> s.run.value.syncDone
    requires IsRun(c, s, steps) && Start !in steps
    ensures var s' := Final(c, s, steps); s'.run.Some? ==> s'.run.value.syncDone
    decreases |steps|
  {
    if steps != [] {
      assert steps[0] in steps;
      StaysClosing(c, After(c, s, steps[0]), steps[1..]);
    }
  }

  /**
   Every run of a closing activity, whatever its schedule, that goes on as long as some
   goroutine can take a step ends with `SyncFlow` over; ShutdownBounded says that it ends.
   */
  lemma ShutdownReturns(c: Config, s: State, steps: seq<Step>)
    requires c.bufferSize >= 2 && Reachable(c, s) && s.run.Some? && s.run.value.syncDone
    requires IsRun(c, s, steps) && Start !in steps
    requires forall step :: Enabled(c, Final(c, s, steps), step) ==> !IsWork(step)
    ensures Final(c, s, steps).run.None?
  {
    var s' := Final(c, s, steps);
    StaysClosing(c, s, steps);
    ReachableRun(c, s, steps);
    if s'.run.Some? {
      ShutdownNeverStuck(c, s');
      assert IsWork(Norm(NextNorm(c, s'.d, s'.run.value))) && IsWork(Sync(NextSync(c, s'.run.value)));
    }
  }

  /**
   `SyncFlow` returns only after the normalizer did and after it closed everything:
   no request channel is left open.
   */
  lemma ReturnsLast(c: Config, s: State)
    requires c.bufferSize >= 2 && Reachable(c, s) && Enabled(c, s, Sync(Return))
    ensures s.run.value.norm.Returned? && s.run.value.syncDone
    ensures s.run.value.requests.cond.None?
  {
    ReachableWires(c, s);
  }

  // ---- everything is closed once ----

  /** How many of its closing steps SyncFlow has taken. */
  function Phase(sync: SyncPc): nat {
    match sync
    case CloseRequests => 1
    case CloseRequestsWake(_) => 2
    case CloseResponses => 3
    case CloseResponsesWake(_) => 4
    case Join => 5
    case _ => 0
  }

  /** `close(syncDone)` and the two actions of `normRequests.Close()` and of `normResponses.Close()`. */
  const ClosingSteps := [SignalDone, DropRequests, WakeRequests, DropResponses, WakeResponses]

  function Times(step: Step, steps: seq<Step>): nat {
    if steps == [] then 0 else One(steps[0] == step) + Times(step, steps[1..])
  }

  lemma PhaseStep(c: Config, d: Durable, r: Run, step: SyncStep, k: nat)
    requires SyncEnabled(c, d, r, step) && !step.Return? && k < 5
    ensures var s' := AfterSync(c, d, r, step);
      s'.run.Some? && One(Phase(s'.run.value.sync) > k) == One(Phase(r.sync) > k) + One(step == ClosingSteps[k])
  {
  }

  lemma {:induction false} ClosedAsOften(c: Config, s: State, steps: seq<Step>, k: nat)
    requires s.run.Some? && IsRun(c, s, steps) && OneActivity(steps) && k < 5
    ensures Final(c, s, steps).run.Some?
    ensures Times(Sync(ClosingSteps[k]), steps) + One(Phase(s.run.value.sync) > k)
         == One(Phase(Final(c, s, steps).run.value.sync) > k)
    decreases |steps|
  {
    if steps != [] {
      var step := steps[0];
      assert step in steps;
      if step.Sync? {
        PhaseStep(c, s.d, s.run.value, step.sync, k);
      }
      ClosedAsOften(c, After(c, s, step), steps[1..], k);
    }
  }

  /**
   From its start to its return an activity closes syncDone once and closes each LastChan
   once, whichever way it ends; up to any other point it has done each of these at most once.
   */
  lemma ClosedExactlyOnce(c: Config, d: Durable, steps: seq<Step>, k: nat)
    requires IsRun(c, State(d, Some(StartedRun(d))), steps) && OneActivity(steps) && k < 5
    ensures Times(Sync(ClosingSteps[k]), steps) <= 1
    ensures Enabled(c, Final(c, State(d, Some(StartedRun(d))), steps), Sync(Return)) ==>
      Times(Sync(ClosingSteps[k]), steps) == 1
  {
    ClosedAsOften(c, State(d, Some(StartedRun(d))), steps, k);
  }

  // ---- a closed LastChan may be opened again ----

  /** After `DropResponses` only an answer of the normalizer puts a channel back. */
  lemma {:induction false} ReopenedOnlyByAnswer(c: Config, s: State, steps: seq<Step>)
    requires s.run.Some? && !ResponsesOpen(s.run.value.sync) && IsRun(c, s, steps) && OneActivity(steps)
    ensures var s' := Final(c, s, steps);
      s'.run.Some? &&
      (s'.run.value.responses.cond.Some? <==> s.run.value.responses.cond.Some? || Norm(SwapResponse) in steps)
    decreases |steps|
  {
    if steps != [] {
      assert steps == [steps[0]] + steps[1..];
      assert steps[0] in steps;
      ReopenedOnlyByAnswer(c, After(c, s, steps[0]), steps[1..]);
    }
  }

  lemma {:induction false} SplitRun(c: Config, s: State, a: seq<Step>, b: seq<Step>)
    requires IsRun(c, s, a + b)
    ensures IsRun(c, s, a) && IsRun(c, Final(c, s, a), b)
    ensures Final(c, s, a + b) == Final(c, Final(c, s, a), b)
    decreases |a|
  {
    if a == [] {
      assert a + b == b;
    } else {
      assert (a + b)[1..] == a[1..] + b;
      SplitRun(c, After(c, s, a[0]), a[1..], b);
    }
  }

  /**
   When an activity returns its response channel is gone exactly when the normalizer put no
   answer after `DropResponses`, the `i`-th step, which there is exactly one of.
   */
  lemma ResponsesGoneExactly(c: Config, d: Durable, steps: seq<Step>, i: nat)
    requires IsRun(c, State(d, Some(StartedRun(d))), steps) && OneActivity(steps)
    requires Enabled(c, Final(c, State(d, Some(StartedRun(d))), steps), Sync(Return))
    requires i < |steps| && steps[i] == Sync(DropResponses)
    ensures Final(c, State(d, Some(StartedRun(d))), steps).run.value.responses.cond.None? <==>
      Norm(SwapResponse) !in steps[i + 1..]
  {
    var s := State(d, Some(StartedRun(d)));
    assert steps == steps[..i] + steps[i..];
    SplitRun(c, s, steps[..i], steps[i..]);
    assert steps[i..][1..] == steps[i + 1..];
    var s1 := After(c, Final(c, s, steps[..i]), steps[i]);
    ReopenedOnlyByAnswer(c, s1, steps[i + 1..]);
  }

  // ---- runs that get there ----

  /** Sync leaves its loop, cancelled if backpressure holds it, while the normalizer does nothing. */
  lemma LeaveLoop(c: Config, s: State) returns (t: State)
    requires Reachable(c, s) && s.run.Some? && s.run.value.sync.Check? && !s.run.value.cancelled
    ensures Reachable(c, t) && t.d == s.d && t.run.Some?
    ensures t.run.value == s.run.value.(sync := CloseDone, cancelled := t.run.value.cancelled)
  {
    if s.run.value.responses.val > s.run.value.sync.id - c.bufferSize {
      t := Take(c, s, Sync(PassCheck));
      t := Take(c, t, Sync(Leave));
    } else {
      t := Take(c, s, Sync(FailCheck));
      t := Take(c, t, Sync(WaitResponse));
      t := Take(c, t, Cancel);
      t := Take(c, t, Sync(Fail));
    }
  }

  /** Then it closes syncDone. */
  lemma StopSync(c: Config, s: State) returns (t: State)
    requires Reachable(c, s) && s.run.Some? && s.run.value.sync.Check? && !s.run.value.cancelled
    ensures Reachable(c, t) && t.d == s.d && t.run.Some?
    ensures t.run.value == s.run.value.(sync := CloseRequests, syncDone := true, cancelled := t.run.value.cancelled)
  {
    t := LeaveLoop(c, s);
    t := Take(c, t, Sync(SignalDone));
  }

  /** The normalizer has decided on batch 1 when sync requests batch 2 and stops. */
  lemma StoppedWithTwoPending(c: Config) returns (s: State)
    requires c.bufferSize >= 2
    ensures Reachable(c, s) && s.run.Some? && s.d.normId == 0
    ensures s.run.value.norm == Begin(1) && s.run.value.normalizing == 0 && s.run.value.requests.val == 2
    ensures s.run.value.syncDone && s.run.value.lateStarts == 0
  {
    s := RowsRequested(c, 1, false);
    s := Take(c, s, Norm(LoadRequest));
    s := Take(c, s, Norm(CompareRequest));
    s := Take(c, s, Sync(PassCheck));
    s := SyncOneRow(c, s, Record(2, true));
    s := StopSync(c, s);
  }

  /** One attempt at the pending batch `req`, then back to the head. */
  lemma LateAttempt(c: Config, s: State, req: nat) returns (t: State)
    requires Reachable(c, s) && s.run.Some? && s.run.value.norm == Begin(req) && s.run.value.syncDone
    requires s.d.normId < req
    ensures Reachable(c, t) && t.run.Some? && t.d.normId <= req
    ensures t.run.value == s.run.value.(norm := Head, normalizing := req,
                                        responses := s.run.value.responses.Update(req),
                                        lateStarts := s.run.value.lateStarts + 1)
  {
    t := Take(c, s, Norm(StartNormalize));
    t := Take(c, t, Norm(GetConnector));
    if c.normalizes {
      t := Take(c, t, Norm(CallOk(req)));
    }
    t := Answer(c, t, req);
  }

  /** In every configuration some run begins two attempts after syncDone is closed. */
  lemma TwoLateStartsHappen(c: Config) returns (s: State)
    requires c.bufferSize >= 2
    ensures Reachable(c, s) && s.run.Some? && s.run.value.lateStarts == 2
  {
    s := StoppedWithTwoPending(c);
    s := LateAttempt(c, s, 1);
    s := Take(c, s, Norm(LoadRequest));
    s := Take(c, s, Norm(CompareRequest));
    s := LateAttempt(c, s, 2);
  }

  /** Sync requests batch 1, stops and closes everything; then the normalizer sees the request. */
  lemma ClosedWithOnePending(c: Config) returns (s: State)
    requires c.bufferSize >= 2
    ensures Reachable(c, s) && s.run.Some? && s.d.normId == 0 && s.run.value.syncDone
    ensures s.run.value.sync.Join? && s.run.value.norm == Begin(1)
    ensures s.run.value.requests.cond.None? && s.run.value.requests.val == 1
  {
    s := RowsRequested(c, 1, false);
    s := StopSync(c, s);
    s := CloseAll(c, s);
    s := Take(c, s, Norm(LoadRequest));
    s := Take(c, s, Norm(CompareRequest));
  }

  /** In every configuration an activity can return with its response channel open again. */
  lemma ResponsesLeftOpen(c: Config) returns (s: State)
    requires c.bufferSize >= 2
    ensures Reachable(c, s) && Enabled(c, s, Sync(Return)) && s.run.value.responses.cond.Some?
  {
    s := ClosedWithOnePending(c);
    s := LateAttempt(c, s, 1);
    s := Take(c, s, Norm(LoadRequest));
    s := Take(c, s, Norm(CompareRequest));
    s := Take(c, s, Norm(WaitRequest));
  }
}
