/**
 Sleeping and waking. Both goroutines call `Load` and then `Wait`, so an Update
 that falls between the two leaves the sleeper on a channel younger than the
 value it looked at. This module says exactly when a wake-up is lost that way,
 exactly which states neither goroutine can leave, that such a state takes a lost
 wake-up, and that either kind of it stops the mirror in every configuration.
 */
module CdcWakeup {
  import opened Changes
  import opened Options
  import opened LastChans
  import opened CdcProtocol
  import opened CdcDelivery
  import opened CdcBackpressure

  // ---- channels ----

  /** The request channel sync has taken out and not yet closed. */
  function TakenRequest(sync: SyncPc): Option<Chan> {
    match sync
    case RequestWake(_, prev) => prev
    case CloseRequestsWake(prev) => prev
    case _ => None
  }

  function TakenBySync(sync: SyncPc): Option<Chan> {
    if sync.CloseResponsesWake? then sync.prev else None
  }

  function TakenByNorm(norm: NormPc): Option<Chan> {
    if norm.RespondWake? then norm.prev else None
  }

  /** SyncFlow has not reached the end of `normRequests.Close()`'s swap. */
  predicate RequestsOpen(sync: SyncPc) {
    !(sync.CloseRequestsWake? || sync.CloseResponses? || sync.CloseResponsesWake? || sync.Join?)
  }

  /** SyncFlow has closed syncDone and not returned. */
  predicate Closing(sync: SyncPc) {
    || sync.CloseRequests? || sync.CloseRequestsWake?
    || sync.CloseResponses? || sync.CloseResponsesWake? || sync.Join?
  }

  predicate ResponsesOpen(sync: SyncPc) {
    !(sync.CloseResponsesWake? || sync.Join?)
  }

  ghost predicate RequestChans(r: Run) {
    && r.requests.Valid()
    && (r.requests.cond.Some? <==> RequestsOpen(r.sync))
    && (r.requests.cond.Some? && !r.sync.RequestSwap? ==> r.requests.cond.value.born == r.requests.val)
    && (TakenRequest(r.sync).Some? ==> r.requests.Taken(TakenRequest(r.sync).value))
    && (r.norm.Dozing? ==>
          && r.norm.ch.id < r.requests.made
          && r.norm.req <= r.normalizing
          && (r.requests.IsOpen(r.norm.ch) ==>
                r.requests.cond == Some(r.norm.ch) || TakenRequest(r.sync) == Some(r.norm.ch)))
    && (r.norm.ArmRequests? ==> r.norm.req <= r.normalizing)
  }

  ghost predicate ResponseChans(c: Config, r: Run) {
    && r.responses.Valid()
    && (ResponsesOpen(r.sync) ==> r.responses.cond.Some?)
    && (r.responses.cond.Some? && !r.norm.RespondSwap? ==> r.responses.cond.value.born == r.responses.val)
    && (TakenByNorm(r.norm).Some? ==> r.responses.Taken(TakenByNorm(r.norm).value))
    && (TakenBySync(r.sync).Some? ==> r.responses.Taken(TakenBySync(r.sync).value))
    && (TakenByNorm(r.norm).Some? && TakenBySync(r.sync).Some? ==>
          TakenByNorm(r.norm).value.id != TakenBySync(r.sync).value.id)
    && (r.sync.Arm? ==> r.sync.seen <= r.sync.id - c.bufferSize)
    && (r.sync.Asleep? ==>
          && r.sync.seen <= r.sync.id - c.bufferSize
          && r.sync.ch.Some? && r.sync.ch.value.id < r.responses.made
          && (r.responses.IsOpen(r.sync.ch.value) ==>
                r.responses.cond == r.sync.ch || TakenByNorm(r.norm) == r.sync.ch))
  }

  /**
   What the normalizer looked at before dozing: either still the latest request,
   or sync has made a later one, which no attempt has covered yet.
   */
  ghost predicate LookedAt(r: Run) {
    match r.norm
    case Compare(req) => r.requests.val == req || r.requests.val > r.normalizing
    case ArmRequests(req) => r.requests.val == req || r.requests.val > r.normalizing
    case Dozing(req, _) => r.requests.val == req || r.requests.val > r.normalizing
    case _ => true
  }

  /** The normalizer returns only after it was told to. */
  predicate Ended(r: Run) {
    (r.syncDone <==> Closing(r.sync)) && (r.norm.Returned? ==> r.cancelled || r.syncDone)
  }

  ghost predicate Wires(c: Config, r: Run) {
    RequestChans(r) && ResponseChans(c, r) && LookedAt(r) && Ended(r)
  }

  ghost predicate Wired(c: Config, s: State) {
    Marked(c, s) && (s.run.Some? ==> Wires(c, s.run.value))
  }

  predicate TouchesRequests(step: SyncStep) {
    || step.StoreRequest? || step.SwapRequest? || step.WakeNormalizer?
    || step.DropRequests? || step.WakeRequests?
  }

  lemma RequestStepKeeps(c: Config, d: Durable, r: Run, step: SyncStep)
    requires SyncEnabled(c, d, r, step) && RequestChans(r) && SyncMarks(d, r) && TouchesRequests(step)
    ensures RequestChans(AfterSync(c, d, r, step).run.value)
  {
  }

  /** The other steps of sync leave the requests and every request channel alone. */
  lemma SyncLeavesRequests(c: Config, d: Durable, r: Run, step: SyncStep)
    requires SyncEnabled(c, d, r, step) && RequestChans(r) && !TouchesRequests(step)
    ensures var s' := AfterSync(c, d, r, step); s'.run.Some? ==>
      && s'.run.value.requests == r.requests && s'.run.value.norm == r.norm && s'.run.value.normalizing == r.normalizing
      && TakenRequest(s'.run.value.sync) == TakenRequest(r.sync) == None
      && (RequestsOpen(s'.run.value.sync) <==> RequestsOpen(r.sync)) && !r.sync.RequestSwap?
  {
  }

  lemma SyncKeepsRequestChans(c: Config, d: Durable, r: Run, step: SyncStep)
    requires SyncEnabled(c, d, r, step) && RequestChans(r) && SyncMarks(d, r)
    ensures var s' := AfterSync(c, d, r, step); s'.run.Some? ==> RequestChans(s'.run.value)
  {
    if TouchesRequests(step) {
      RequestStepKeeps(c, d, r, step);
    } else {
      SyncLeavesRequests(c, d, r, step);
    }
  }

  predicate TouchesResponses(step: SyncStep) {
    step.FailCheck? || step.WaitResponse? || step.DropResponses? || step.WakeResponses?
  }

  lemma ResponseStepKeeps(c: Config, d: Durable, r: Run, step: SyncStep)
    requires SyncEnabled(c, d, r, step) && ResponseChans(c, r) && TouchesResponses(step)
    ensures ResponseChans(c, AfterSync(c, d, r, step).run.value)
  {
  }

  lemma SyncLeavesResponses(c: Config, d: Durable, r: Run, step: SyncStep)
    requires SyncEnabled(c, d, r, step) && ResponseChans(c, r) && !TouchesResponses(step)
    ensures var s' := AfterSync(c, d, r, step); s'.run.Some? ==>
      && s'.run.value.responses == r.responses && s'.run.value.norm == r.norm
      && !s'.run.value.sync.Arm? && !s'.run.value.sync.Asleep?
      && TakenBySync(s'.run.value.sync) == TakenBySync(r.sync) == None
      && (ResponsesOpen(s'.run.value.sync) <==> ResponsesOpen(r.sync))
  {
  }

  lemma SyncKeepsResponseChans(c: Config, d: Durable, r: Run, step: SyncStep)
    requires SyncEnabled(c, d, r, step) && ResponseChans(c, r)
    ensures var s' := AfterSync(c, d, r, step); s'.run.Some? ==> ResponseChans(c, s'.run.value)
  {
    if TouchesResponses(step) {
      ResponseStepKeeps(c, d, r, step);
    } else {
      SyncLeavesResponses(c, d, r, step);
    }
  }

  /** Only its request changes what the normalizer may have looked at. */
  lemma SyncKeepsLookedAt(c: Config, d: Durable, r: Run, step: SyncStep)
    requires SyncEnabled(c, d, r, step) && LookedAt(r) && SyncMarks(d, r)
    ensures var s' := AfterSync(c, d, r, step); s'.run.Some? ==> LookedAt(s'.run.value)
  {
    var s' := AfterSync(c, d, r, step);
    if s'.run.Some? && !step.StoreRequest? {
      assert s'.run.value.norm == r.norm && s'.run.value.normalizing == r.normalizing;
      assert s'.run.value.requests.val == r.requests.val;
    }
  }

  lemma SyncKeepsEnded(c: Config, d: Durable, r: Run, step: SyncStep)
    requires SyncEnabled(c, d, r, step) && Ended(r)
    ensures var s' := AfterSync(c, d, r, step); s'.run.Some? ==> Ended(s'.run.value)
  {
  }

  lemma NormKeepsRequestChans(c: Config, d: Durable, r: Run, step: NormStep)
    requires NormEnabled(c, d, r, step) && RequestChans(r)
    ensures RequestChans(AfterNorm(c, d, r, step).run.value)
  {
  }

  predicate TouchesAnswer(step: NormStep) {
    step.StoreResponse? || step.SwapResponse? || step.WakeSync?
  }

  lemma AnswerKeepsResponseChans(c: Config, d: Durable, r: Run, step: NormStep)
    requires NormEnabled(c, d, r, step) && ResponseChans(c, r) && NormMarks(c, d, r) && TouchesAnswer(step)
    ensures ResponseChans(c, AfterNorm(c, d, r, step).run.value)
  {
  }

  /** The other steps of the normalizer leave the responses and every response channel alone. */
  lemma NormLeavesResponses(c: Config, d: Durable, r: Run, step: NormStep)
    requires NormEnabled(c, d, r, step) && !TouchesAnswer(step)
    ensures var r' := AfterNorm(c, d, r, step).run.value;
      && r'.responses == r.responses && r'.sync == r.sync
      && !r.norm.RespondSwap? && !r'.norm.RespondSwap?
      && TakenByNorm(r.norm) == TakenByNorm(r'.norm) == None
  {
  }

  lemma NormKeepsResponseChans(c: Config, d: Durable, r: Run, step: NormStep)
    requires NormEnabled(c, d, r, step) && ResponseChans(c, r) && NormMarks(c, d, r)
    ensures ResponseChans(c, AfterNorm(c, d, r, step).run.value)
  {
    if TouchesAnswer(step) {
      AnswerKeepsResponseChans(c, d, r, step);
    } else {
      NormLeavesResponses(c, d, r, step);
    }
  }

  lemma NormKeepsLookedAt(c: Config, d: Durable, r: Run, step: NormStep)
    requires NormEnabled(c, d, r, step) && LookedAt(r) && Ended(r) && RequestChans(r) && NormMarks(c, d, r)
    ensures LookedAt(AfterNorm(c, d, r, step).run.value) && Ended(AfterNorm(c, d, r, step).run.value)
  {
  }

  lemma StepKeepsWires(c: Config, s: State, step: Step)
    requires Marked(c, s) && (s.run.Some? ==> Wires(c, s.run.value)) && Enabled(c, s, step)
    ensures var s' := After(c, s, step); s'.run.Some? ==> Wires(c, s'.run.value)
  {
    match step
    case Sync(y) =>
      SyncKeepsRequestChans(c, s.d, s.run.value, y);
      SyncKeepsResponseChans(c, s.d, s.run.value, y);
      SyncKeepsLookedAt(c, s.d, s.run.value, y);
      SyncKeepsEnded(c, s.d, s.run.value, y);
    case Norm(n) =>
      NormKeepsRequestChans(c, s.d, s.run.value, n);
      NormKeepsResponseChans(c, s.d, s.run.value, n);
      NormKeepsLookedAt(c, s.d, s.run.value, n);
    case _ =>
  }

  lemma StepKeepsWired(c: Config, s: State, step: Step)
    requires c.bufferSize >= 2 && Wired(c, s) && Enabled(c, s, step)
    ensures Wired(c, After(c, s, step))
  {
    StepKeepsMarks(c, s, step);
    StepKeepsWires(c, s, step);
  }

  lemma {:induction false} RunKeepsWired(c: Config, s: State, steps: seq<Step>)
    requires c.bufferSize >= 2 && Wired(c, s) && IsRun(c, s, steps)
    ensures Wired(c, Final(c, s, steps))
    decreases |steps|
  {
    if steps != [] {
      StepKeepsWired(c, s, steps[0]);
      RunKeepsWired(c, After(c, s, steps[0]), steps[1..]);
    }
  }

  lemma ReachableWired(c: Config, s: State)
    requires c.bufferSize >= 2 && Reachable(c, s)
    ensures Wired(c, s)
  {
    var steps :| IsRun(c, Fresh, steps) && Final(c, Fresh, steps) == s;
    RunKeepsWired(c, Fresh, steps);
  }

  lemma ReachableWires(c: Config, s: State)
    requires c.bufferSize >= 2 && Reachable(c, s) && s.run.Some?
    ensures Wires(c, s.run.value)
  {
    ReachableWired(c, s);
  }

  /** No channel is closed twice, which would panic: neither syncDone nor any channel of the two LastChans. */
  lemma NoDoubleClose(c: Config, s: State)
    requires c.bufferSize >= 2 && Reachable(c, s) && s.run.Some?
    ensures s.run.value.sync.CloseDone? ==> !s.run.value.syncDone
    ensures TakenRequest(s.run.value.sync).Some? ==> s.run.value.requests.IsOpen(TakenRequest(s.run.value.sync).value)
    ensures TakenBySync(s.run.value.sync).Some? ==> s.run.value.responses.IsOpen(TakenBySync(s.run.value.sync).value)
    ensures TakenByNorm(s.run.value.norm).Some? ==> s.run.value.responses.IsOpen(TakenByNorm(s.run.value.norm).value)
    ensures TakenBySync(s.run.value.sync).Some? && TakenByNorm(s.run.value.norm).Some? ==>
      TakenBySync(s.run.value.sync).value.id != TakenByNorm(s.run.value.norm).value.id
  {
    ReachableWired(c, s);
  }

  // ---- lost wake-ups ----

  predicate RequestInFlight(sync: SyncPc) {
    sync.RequestSwap? || sync.RequestWake? || sync.CloseRequestsWake?
  }

  predicate ResponseInFlight(norm: NormPc) {
    norm.RespondSwap? || norm.RespondWake?
  }

  /** The normalizer sleeps on a channel nobody has closed or is about to close. */
  predicate DozesUnheard(r: Run) {
    r.norm.Dozing? && r.requests.IsOpen(r.norm.ch) && !RequestInFlight(r.sync)
  }

  predicate SleepsUnheard(r: Run) {
    r.sync.Asleep? && r.sync.ch.Some? && r.responses.IsOpen(r.sync.ch.value) && !ResponseInFlight(r.norm)
  }

  /**
   The normalizer sleeps through a pending request exactly when the channel it got
   from `Wait` was made by an Update it had not seen in `Load`, that is, when a
   whole Update ran between the two calls.
   */
  lemma RequestWakeupLost(c: Config, s: State)
    requires c.bufferSize >= 2 && Reachable(c, s) && s.run.Some? && DozesUnheard(s.run.value)
    ensures s.run.value.requests.val > s.run.value.normalizing <==> s.run.value.norm.ch.born != s.run.value.norm.req
  {
    ReachableWired(c, s);
  }

  /** Likewise for sync waiting out backpressure. */
  lemma ResponseWakeupLost(c: Config, s: State)
    requires c.bufferSize >= 2 && Reachable(c, s) && s.run.Some? && SleepsUnheard(s.run.value)
    ensures var r := s.run.value;
      && r.sync.seen <= r.sync.id - c.bufferSize
      && (r.responses.val > r.sync.id - c.bufferSize <==> r.sync.ch.value.born > r.sync.id - c.bufferSize)
  {
    ReachableWired(c, s);
  }

  // ---- the stopped mirror ----

  /** Both goroutines sleep on open channels and nobody has cancelled the activity. */
  predicate Stopped(s: State) {
    && s.run.Some? && !s.run.value.cancelled
    && s.run.value.sync.Asleep? && s.run.value.sync.ch.Some?
    && s.run.value.responses.IsOpen(s.run.value.sync.ch.value)
    && s.run.value.norm.Dozing? && s.run.value.requests.IsOpen(s.run.value.norm.ch)
  }

  /** A step of one of the two goroutines. */
  predicate IsWork(step: Step) {
    step.Sync? || step.Norm?
  }

  /** A next step of the normalizer: the destination keeps up and nothing fails. */
  function NextNorm(c: Config, d: Durable, r: Run): NormStep {
    match r.norm
    case Head => LoadRequest
    case Compare(_) => CompareRequest
    case ArmRequests(_) => WaitRequest
    case Dozing(_, ch) => if r.requests.IsOpen(ch) then Quit else HearRequest
    case Begin(_) => StartNormalize
    case Connect(_) => GetConnector
    case Call(req) => if req >= 0 then CallOk(req) else CallFails(d.normId)
    case Respond(_, _) => StoreResponse
    case RespondSwap(_, _) => SwapResponse
    case RespondWake(_, _, _) => WakeSync
    case Answered(_, _) => NextRound
    case Failed(_) => if r.syncDone || r.cancelled then Quit else Sleep
    case Retrying => ReloadRequest
    case Returned => ReloadRequest
  }

  /** A next step of SyncFlow: from a pull it goes back with nothing. */
  function NextSync(c: Config, r: Run): SyncStep {
    match r.sync
    case Idle => Leave
    case GotOffset(_) => ReadBatchId
    case Pulling(_, _) => PullNothing
    case Staged(_, _, _) => FinishBatch
    case PartStaged(_, _, _) => FinishPart
    case Finished(_, _, _) => ConfirmBatch
    case Bookkeeping(_, _) => FinishBookkeeping
    case Request(_) => StoreRequest
    case RequestSwap(_) => SwapRequest
    case RequestWake(_, _) => WakeNormalizer
    case Check(id) => if r.responses.val > id - c.bufferSize then PassCheck else FailCheck
    case Arm(_, _) => WaitResponse
    case Asleep(_, _, ch) => if r.cancelled then Fail else WakeUp
    case CloseDone => SignalDone
    case CloseRequests => DropRequests
    case CloseRequestsWake(_) => WakeRequests
    case CloseResponses => DropResponses
    case CloseResponsesWake(_) => WakeResponses
    case Join => Return
  }

  /** The normalizer is held up only asleep, with nothing to hear and not told to end, or after its end. */
  lemma NormCanMove(c: Config, d: Durable, r: Run)
    requires NormConsistent(r) && !r.norm.Returned?
    requires r.norm.Dozing? ==> !r.requests.IsOpen(r.norm.ch) || r.syncDone || r.cancelled
    ensures NormEnabled(c, d, r, NextNorm(c, d, r))
  {
  }

  lemma SyncCanMove(c: Config, d: Durable, r: Run)
    requires r.sync.Asleep? ==> r.cancelled || (r.sync.ch.Some? && !r.responses.IsOpen(r.sync.ch.value))
    requires r.sync.Join? ==> r.norm.Returned?
    ensures SyncEnabled(c, d, r, NextSync(c, r))
  {
  }

  /** The states with a worker that neither goroutine can leave are exactly the stopped ones. */
  lemma StuckExactly(c: Config, s: State)
    requires c.bufferSize >= 2 && Reachable(c, s) && s.run.Some?
    ensures (forall step :: Enabled(c, s, step) ==> !IsWork(step)) <==> Stopped(s)
  {
    ReachableWired(c, s);
    var r := s.run.value;
    if Stopped(s) {
      assert !r.syncDone;
    } else if !r.norm.Returned? && (r.norm.Dozing? ==> !r.requests.IsOpen(r.norm.ch) || r.syncDone || r.cancelled) {
      NormCanMove(c, s.d, r);
      assert Enabled(c, s, Norm(NextNorm(c, s.d, r)));
    } else {
      SyncCanMove(c, s.d, r);
      assert Enabled(c, s, Sync(NextSync(c, r)));
    }
  }

  /** The mirror stops only if one side got a channel younger than the value it looked at. */
  lemma StoppedOnlyByLostWakeup(c: Config, s: State)
    requires c.bufferSize >= 2 && Reachable(c, s) && Stopped(s)
    ensures var r := s.run.value;
      r.norm.ch.born != r.norm.req || r.sync.ch.value.born > r.sync.id - c.bufferSize
  {
    ReachableWired(c, s);
  }

  /** Once stopped it stays stopped: until someone cancels or kills the worker, neither goroutine can move. */
  lemma {:induction false} StoppedStays(c: Config, s: State, steps: seq<Step>)
    requires c.bufferSize >= 2 && Wired(c, s) && Stopped(s) && IsRun(c, s, steps)
    requires Cancel !in steps && Crash !in steps
    ensures forall step <- steps :: step.GrowLog? || step.Trim?
    ensures Stopped(Final(c, s, steps))
    decreases |steps|
  {
    if steps != [] {
      var step := steps[0];
      assert step in steps;
      StepKeepsWired(c, s, step);
      StoppedStays(c, After(c, s, step), steps[1..]);
    }
  }

  // ---- it happens ----

  /** A row is published and sync starts pulling from the end of the log before it. */
  lemma PullOneRow(c: Config, s: State, row: Record) returns (t: State)
    requires Reachable(c, s) && s.run.Some? && s.run.value.sync.Idle? && !s.run.value.cancelled
    requires s.d.offset == |s.d.log|
    ensures Reachable(c, t) && t.d == s.d.(log := s.d.log + [Published(row)])
    ensures t.run == Some(s.run.value.(sync := Pulling(|s.d.log|, s.d.syncId + 1)))
  {
    t := Take(c, s, GrowLog(Published(row)));
    t := Take(c, t, Sync(ReadOffset));
    t := Take(c, t, Sync(ReadBatchId));
  }

  lemma LastRecord(log: seq<Entry>, row: Record)
    ensures Records((log + [Published(row)])[|log|..|log| + 1]) == [row]
  {
    assert (log + [Published(row)])[|log|..|log| + 1] == [Published(row)];
    assert [Published(row)][..0] == [];
  }

  /** Sync stages what it pulled up to the end of the log. */
  lemma StageRow(c: Config, s: State, row: Record) returns (t: State)
    requires Reachable(c, s) && s.d.log != [] && s.run.Some?
    requires s.run.value.sync == Pulling(|s.d.log| - 1, s.d.syncId + 1)
    requires s.d.trimmed < |s.d.log| && row.isRow
    requires Records(s.d.log[|s.d.log| - 1..|s.d.log|]) == [row]
    ensures Reachable(c, t) && t.d == s.d.(stage := s.d.stage[s.d.syncId + 1 := [row]])
    ensures t.run == Some(s.run.value.(sync := Staged(s.d.syncId + 1, |s.d.log|, true)))
  {
    assert row in [row];
    t := Take(c, s, Sync(StageBatch(|s.d.log|)));
  }

  /** Sync takes one more row from the log and finishes its batch. */
  lemma FinishOneRow(c: Config, s: State, row: Record) returns (t: State)
    requires Reachable(c, s) && s.run.Some? && s.run.value.sync.Idle? && !s.run.value.cancelled
    requires s.d.offset == |s.d.log| && row.isRow
    ensures Reachable(c, t) && t.run == Some(s.run.value.(sync := Finished(s.d.syncId + 1, |t.d.log|, true)))
    ensures t.d.offset == |t.d.log| && t.d.syncId == s.d.syncId + 1 && t.d.normId == s.d.normId
  {
    assert s.d.trimmed <= |s.d.log| by {
      ReachableConsistent(c, s);
    }
    t := PullOneRow(c, s, row);
    LastRecord(s.d.log, row);
    t := StageRow(c, t, row);
    t := Take(c, t, Sync(FinishBatch));
  }

  /** Then it requests that batch. */
  lemma SyncOneRow(c: Config, s: State, row: Record) returns (t: State)
    requires Reachable(c, s) && s.run.Some? && s.run.value.sync.Idle? && !s.run.value.cancelled
    requires s.d.offset == |s.d.log| && row.isRow
    ensures Reachable(c, t)
    ensures t.run == Some(s.run.value.(sync := Check(s.d.syncId + 1),
                                       requests := s.run.value.requests.Update(s.d.syncId + 1),
                                       requested := s.run.value.requested + {s.d.syncId + 1}))
    ensures t.d.offset == |t.d.log| && t.d.syncId == s.d.syncId + 1 && t.d.normId == s.d.normId
  {
    t := FinishOneRow(c, s, row);
    t := Take(c, t, Sync(ConfirmBatch));
    t := Take(c, t, Sync(FinishBookkeeping));
    t := Take(c, t, Sync(StoreRequest));
    t := Take(c, t, Sync(SwapRequest));
    t := Take(c, t, Sync(WakeNormalizer));
  }

  /** The normalizer covers everything requested in one attempt. */
  lemma CoverOnce(c: Config, s: State) returns (t: State)
    requires Reachable(c, s) && s.run.Some? && s.run.value.norm.Head? && !s.run.value.syncDone
    requires s.d.normId < s.run.value.requests.val && s.run.value.normalizing < s.run.value.requests.val
    ensures Reachable(c, t)
    ensures var v := s.run.value.requests.val; t.run == Some(s.run.value.(norm := Respond(v, v), normalizing := v))
  {
    t := Take(c, s, Norm(LoadRequest));
    t := Take(c, t, Norm(CompareRequest));
    t := Take(c, t, Norm(StartNormalize));
    t := Take(c, t, Norm(GetConnector));
    if c.normalizes {
      t := Take(c, t, Norm(CallOk(s.run.value.requests.val)));
    }
  }

  /** It answers for the whole request and comes back to its head. */
  lemma Answer(c: Config, s: State, req: int) returns (t: State)
    requires Reachable(c, s) && s.run.Some? && s.run.value.norm == Respond(req, req)
    ensures Reachable(c, t) && t.d == s.d
    ensures t.run == Some(s.run.value.(norm := Head, responses := s.run.value.responses.Update(req)))
  {
    t := Take(c, s, Norm(StoreResponse));
    t := Take(c, t, Norm(SwapResponse));
    t := Take(c, t, Norm(WakeSync));
    t := Take(c, t, Norm(NextRound));
  }

  lemma NormalizeOnce(c: Config, s: State) returns (t: State)
    requires Reachable(c, s) && s.run.Some? && s.run.value.norm.Head? && !s.run.value.syncDone
    requires s.d.normId < s.run.value.requests.val && s.run.value.normalizing < s.run.value.requests.val
    ensures Reachable(c, t)
    ensures var v := s.run.value.requests.val;
      t.run == Some(s.run.value.(normalizing := v, responses := s.run.value.responses.Update(v)))
  {
    t := CoverOnce(c, s);
    t := Answer(c, t, s.run.value.requests.val);
  }

  /**
   Until the buffer is full sync needs no answer, so `n` rows can be requested before the
   normalizer moves, or, if `looked`, after it found no request and before it called `Wait`.
   */
  lemma {:induction false} RowsRequested(c: Config, n: nat, looked: bool) returns (s: State)
    requires 1 <= n <= c.bufferSize
    ensures Reachable(c, s) && s.d.offset == |s.d.log| && s.d.syncId == n && s.d.normId == 0 && s.run.Some?
    ensures s.run.value == StartedRun(Fresh.d).(sync := Check(n), norm := if looked then ArmRequests(0) else Head,
                                                requests := s.run.value.requests, requested := s.run.value.requested)
    ensures s.run.value.requests.val == n
  {
    if n == 1 {
      s := StartAndLook(c, looked);
    } else {
      s := RowsRequested(c, n - 1, looked);
      s := Take(c, s, Sync(PassCheck));
    }
    s := SyncOneRow(c, s, Record(n, true));
  }

  lemma StartAndLook(c: Config, looked: bool) returns (s: State)
    ensures Reachable(c, s) && s.d == Fresh.d
    ensures s.run == Some(StartedRun(Fresh.d).(norm := if looked then ArmRequests(0) else Head))
  {
    assert IsRun(c, Fresh, []);
    s := Take(c, Fresh, Start);
    if looked {
      s := Take(c, s, Norm(LoadRequest));
      s := Take(c, s, Norm(CompareRequest));
    }
  }

  /**
   Every configuration can stop on a lost response: when the buffer is full sync loads the
   response 0, the normalizer serves everything and answers, and only then does sync call `Wait`.
   */
  lemma MirrorCanStop(c: Config) returns (s: State)
    requires c.bufferSize >= 2
    ensures Reachable(c, s) && Stopped(s)
    ensures s.run.value.responses.val == s.run.value.sync.id == s.run.value.requests.val == s.d.syncId
  {
    s := RowsRequested(c, c.bufferSize, false);
    s := Take(c, s, Sync(FailCheck));
    s := NormalizeOnce(c, s);
    s := Take(c, s, Sync(WaitResponse));
    s := Take(c, s, Norm(LoadRequest));
    s := Take(c, s, Norm(CompareRequest));
    ReachableWired(c, s);
    s := Take(c, s, Norm(WaitRequest));
  }

  /**
   And on a lost request: the normalizer finds no request, sync fills the buffer and sleeps,
   and only then does the normalizer call `Wait`. Nothing has been merged, nothing will be.
   */
  lemma MirrorCanStopUnserved(c: Config) returns (s: State)
    requires c.bufferSize >= 2
    ensures Reachable(c, s) && Stopped(s)
    ensures s.run.value.requests.val == s.d.syncId == c.bufferSize
    ensures s.run.value.normalizing == s.run.value.responses.val == 0 && s.d.normId == 0 && s.d.merged == []
  {
    s := RowsRequested(c, c.bufferSize, true);
    s := Take(c, s, Sync(FailCheck));
    s := Take(c, s, Sync(WaitResponse));
    ReachableWired(c, s);
    s := Take(c, s, Norm(WaitRequest));
    NothingLost(c, s);
  }
}
