/**
 What the adapter hands on, told by what the producer and the script did: every statement
 here reads the run's steps alone and not the records kept beside the streams.
 */
module AdapterDelivery {
  import opened Changes
  import opened CdcStreams
  import opened StreamAdapter

  lemma Attach<T>(a: seq<T>, b: seq<T>, c: seq<T>)
    ensures a + (b + c) == (a + b) + c
    ensures a + [] == a
  {
  }

  // ---- what the steps say ----

  /** The records the script left, in the order it was called. */
  function Scripted(steps: seq<Step>): seq<Record> {
    if steps == [] then [] else ScriptedBy(steps[0]) + Scripted(steps[1..])
  }

  function ScriptedBy(step: Step): seq<Record> {
    if step.Adapt? && step.adapt.ScriptOk? then [step.adapt.out] else []
  }

  /** The records the producer called AddRecord with. */
  function Offered(steps: seq<Step>): seq<Record> {
    if steps == [] then [] else OfferedBy(steps[0]) + Offered(steps[1..])
  }

  function OfferedBy(step: Step): seq<Record> {
    if step.Produce? && step.produce.BeginAdd? then [step.produce.record] else []
  }

  function Deltas(steps: seq<Step>): seq<string> {
    if steps == [] then [] else DeltasBy(steps[0]) + Deltas(steps[1..])
  }

  function DeltasBy(step: Step): seq<string> {
    if step.Produce? && step.produce.AddDelta? then [step.produce.delta] else []
  }

  /** The calls by which the producer moved its checkpoint. */
  function Moves(steps: seq<Step>): seq<Call> {
    if steps == [] then [] else MovesBy(steps[0]) + Moves(steps[1..])
  }

  function MovesBy(step: Step): seq<Call> {
    if step.Produce? && step.produce.MoveId? then [UpdateId(step.produce.id)]
    else if step.Produce? && step.produce.MoveText? then [UpdateText(step.produce.text)]
    else []
  }

  // ---- the script's records reach the consumer ----

  function Outs(passed: seq<Passed>): seq<Record> {
    seq(|passed|, i requires 0 <= i < |passed| => passed[i].out)
  }

  function OutInHand(adapter: AdapterPc): seq<Record> {
    match adapter
    case Noting(passed) => [passed.out]
    case Sending(passed) => [passed.out]
    case _ => []
  }

  function AllOuts(s: State): seq<Record> {
    Outs(s.consumed) + OutInHand(s.adapter) + Outs(s.abandoned)
  }

  lemma OutsAppend(passed: seq<Passed>, p: Passed)
    ensures Outs(passed + [p]) == Outs(passed) + [p.out]
  {
  }

  lemma OutsMove(a: seq<Record>, x: Record)
    ensures a + [] + [] == a && a + [x] + [] == a + [x] && (a + [x]) + [] + [] == a + [x] + []
    ensures a + [] + ([] + [x]) == a + [x] + []
  {
  }

  predicate MovesOut(step: AdapterStep) {
    step.ScriptOk? || step.Deliver? || step.GiveUpSend?
  }

  lemma AdaptOuts(s: State, step: AdapterStep)
    requires RecordsOk(s) && CanAdapt(s, step) && MovesOut(step)
    ensures AllOuts(AfterAdapt(s, step)) == AllOuts(s) + ScriptedBy(Adapt(step))
  {
    assert s.abandoned == [];
    assert Outs([]) == [];
    if step.ScriptOk? {
      OutsMove(Outs(s.consumed), step.out);
    } else {
      OutsMove(Outs(s.consumed), s.adapter.passed.out);
      OutsAppend(s.consumed, s.adapter.passed);
      OutsAppend(s.abandoned, s.adapter.passed);
    }
  }

  lemma OthersMoveNoOut(s: State, step: Step)
    requires Enabled(s, step) && !(step.Adapt? && MovesOut(step.adapt))
    ensures var s' := After(s, step);
      s'.consumed == s.consumed && s'.abandoned == s.abandoned && OutInHand(s'.adapter) == OutInHand(s.adapter)
  {
    if step.Adapt? && step.adapt.Finish? {
      FinishMovesNothing(s);
    }
  }

  lemma StepOuts(s: State, step: Step)
    requires RecordsOk(s) && Enabled(s, step)
    ensures AllOuts(After(s, step)) == AllOuts(s) + ScriptedBy(step)
  {
    if step.Adapt? && MovesOut(step.adapt) {
      AdaptOuts(s, step.adapt);
    } else {
      OthersMoveNoOut(s, step);
      Attach(AllOuts(s), [], []);
    }
  }

  lemma {:induction false} RunOuts(buffer: nat, s: State, steps: seq<Step>)
    requires Ok(buffer, s) && IsRun(s, steps)
    ensures AllOuts(Final(s, steps)) == AllOuts(s) + Scripted(steps)
    decreases |steps|
  {
    if steps == [] {
      Attach(AllOuts(s), [], []);
    } else {
      Attach(AllOuts(s), ScriptedBy(steps[0]), Scripted(steps[1..]));
      StepOuts(s, steps[0]);
      StepKeeps(buffer, s, steps[0]);
      RunOuts(buffer, After(s, steps[0]), steps[1..]);
    }
  }

  /**
   The consumer gets the records as the script left them, in the order it was called: what it
   got, what the adapter is sending and what was given up are together all of them. An output
   closed without a cancellation has delivered them all, one for each record sent.
   */
  lemma ScriptDelivered(buffer: nat, steps: seq<Step>)
    requires IsRun(Initial(buffer), steps)
    ensures var s := Final(Initial(buffer), steps);
      && Outs(s.consumed) + OutInHand(s.adapter) + Outs(s.abandoned) == Scripted(steps)
      && (s.output.closed && !s.cancelled ==> Outs(s.consumed) == Scripted(steps) && |Scripted(steps)| == |s.sent|)
  {
    var s := Final(Initial(buffer), steps);
    RunOuts(buffer, Initial(buffer), steps);
    assert AllOuts(Initial(buffer)) == [];
    RunKeeps(buffer, Initial(buffer), steps);
    if s.output.closed && !s.cancelled {
      assert s.drained == [] && s.abandoned == [] && s.input.records == [];
      assert |Reads(s.consumed)| == |s.consumed| == |s.sent|;
    }
  }

  // ---- what the producer offers is what is sent ----

  /** `offered` is what was sent, or that and one record being sent or given up. */
  ghost predicate OfferedOk(s: State, offered: seq<Record>) {
    match s.producer
    case Producing => offered == s.sent
    case FirstAdded => offered == s.sent
    case Adding(record) => offered == s.sent + [record]
    case _ => s.sent <= offered && |offered| <= |s.sent| + 1
  }

  lemma StepOffers(s: State, step: Step, offered: seq<Record>)
    requires Enabled(s, step) && OfferedOk(s, offered)
    ensures OfferedOk(After(s, step), offered + OfferedBy(step))
  {
    assert offered + [] == offered;
  }

  lemma {:induction false} RunOffers(s: State, steps: seq<Step>, offered: seq<Record>)
    requires IsRun(s, steps) && OfferedOk(s, offered)
    ensures OfferedOk(Final(s, steps), offered + Offered(steps))
    decreases |steps|
  {
    if steps == [] {
      Attach(offered, [], []);
    } else {
      Attach(offered, OfferedBy(steps[0]), Offered(steps[1..]));
      StepOffers(s, steps[0], offered);
      RunOffers(After(s, steps[0]), steps[1..], offered + OfferedBy(steps[0]));
    }
  }

  /** Everything the producer offers is sent, in order, but for a last record being sent or given up. */
  lemma OfferedIsSent(buffer: nat, steps: seq<Step>)
    requires IsRun(Initial(buffer), steps)
    ensures var s := Final(Initial(buffer), steps);
      && s.sent <= Offered(steps) && |Offered(steps)| <= |s.sent| + 1
      && (s.producer.Producing? ==> s.sent == Offered(steps))
  {
    RunOffers(Initial(buffer), steps, []);
    assert [] + Offered(steps) == Offered(steps);
  }

  // ---- checkpoint and deltas ----

  ghost predicate CheckpointOk(cp: Checkpoint, calls: seq<Call>) {
    IsLargestId(cp.id, calls) && IsLastText(cp.text, calls)
  }

  /** The checkpoint after such a call. */
  function Moved(cp: Checkpoint, call: Call): Checkpoint {
    match call
    case UpdateId(id) => if id > cp.id then cp.(id := id) else cp
    case UpdateText(text) => cp.(text := text)
    case _ => cp
  }

  lemma ProduceMoves(s: State, step: ProducerStep)
    requires CanProduce(s, step)
    ensures var cp, moves := s.input.checkpoint, MovesBy(Produce(step));
      AfterProduce(s, step).input.checkpoint == if moves == [] then cp else Moved(cp, moves[0])
  {
    match step
    case MoveId(id) => assert MovesBy(Produce(step)) == [UpdateId(id)];
    case MoveText(text) => assert MovesBy(Produce(step)) == [UpdateText(text)];
    case CloseInput => assert MovesBy(Produce(step)) == [];
    case _ => assert MovesBy(Produce(step)) == [];
  }

  lemma ProduceAddsDeltas(s: State, step: ProducerStep)
    requires CanProduce(s, step)
    ensures AfterProduce(s, step).input.deltas == s.input.deltas + DeltasBy(Produce(step))
  {
    if !step.AddDelta? {
      assert DeltasBy(Produce(step)) == [];
      assert AfterProduce(s, step).input.deltas == s.input.deltas;
      Attach(s.input.deltas, [], []);
    }
  }

  /** The adapter takes records from the input and changes nothing else of it. */
  lemma AdaptLeavesInput(s: State, step: AdapterStep)
    requires CanAdapt(s, step)
    ensures var input := AfterAdapt(s, step).input;
      && input.checkpoint == s.input.checkpoint && input.deltas == s.input.deltas
      && input.needsNormalize == s.input.needsNormalize
  {
    if step.Finish? {
      FinishMovesNothing(s);
    } else if !Takes(step) {
      assert AfterAdapt(s, step).input == s.input;
    }
  }

  lemma OthersMoveNothing(s: State, step: Step)
    requires Enabled(s, step) && !step.Produce?
    ensures After(s, step).input.checkpoint == s.input.checkpoint && After(s, step).input.deltas == s.input.deltas
  {
    if step.Adapt? {
      AdaptLeavesInput(s, step.adapt);
    }
  }

  lemma StepMoves(s: State, step: Step)
    requires Enabled(s, step)
    ensures var cp, moves := s.input.checkpoint, MovesBy(step);
      After(s, step).input.checkpoint == if moves == [] then cp else Moved(cp, moves[0])
    ensures After(s, step).input.deltas == s.input.deltas + DeltasBy(step)
  {
    if step.Produce? {
      ProduceMoves(s, step.produce);
      ProduceAddsDeltas(s, step.produce);
    } else {
      OthersMoveNothing(s, step);
      Attach(s.input.deltas, [], []);
    }
  }

  lemma MovedOk(cp: Checkpoint, calls: seq<Call>, moves: seq<Call>)
    requires CheckpointOk(cp, calls) && |moves| <= 1
    requires moves != [] ==> moves[0].UpdateId? || moves[0].UpdateText?
    ensures CheckpointOk(if moves == [] then cp else Moved(cp, moves[0]), calls + moves)
  {
    if moves == [] {
      Attach(calls, [], []);
    } else {
      assert moves == [moves[0]];
      LargestIdGrows(cp.id, calls, moves[0]);
      LastTextStays(cp.text, calls, moves[0]);
    }
  }

  lemma {:induction false} RunMoves(s: State, steps: seq<Step>, calls: seq<Call>)
    requires IsRun(s, steps) && CheckpointOk(s.input.checkpoint, calls)
    ensures CheckpointOk(Final(s, steps).input.checkpoint, calls + Moves(steps))
    ensures Final(s, steps).input.deltas == s.input.deltas + Deltas(steps)
    decreases |steps|
  {
    if steps == [] {
      Attach(calls, [], []);
      Attach(s.input.deltas, [], []);
    } else {
      Attach(calls, MovesBy(steps[0]), Moves(steps[1..]));
      Attach(s.input.deltas, DeltasBy(steps[0]), Deltas(steps[1..]));
      StepMoves(s, steps[0]);
      MovedOk(s.input.checkpoint, calls, MovesBy(steps[0]));
      RunMoves(After(s, steps[0]), steps[1..], calls + MovesBy(steps[0]));
    }
  }

  /**
   A closed output carries the largest checkpoint id and the last checkpoint text the producer
   set, and exactly the schema deltas it added, in order.
   */
  lemma HandedOver(buffer: nat, steps: seq<Step>)
    requires IsRun(Initial(buffer), steps) && Final(Initial(buffer), steps).output.closed
    ensures var output := Final(Initial(buffer), steps).output;
      && IsLargestId(output.checkpoint.id, Moves(steps)) && IsLastText(output.checkpoint.text, Moves(steps))
      && output.deltas == Deltas(steps)
  {
    RunMoves(Initial(buffer), steps, []);
    assert [] + Moves(steps) == Moves(steps) && [] + Deltas(steps) == Deltas(steps);
    RunKeeps(buffer, Initial(buffer), steps);
  }

  // ---- an empty stream ----

  /** Until the adapter has told the consumer, the output counts as empty; then it is if nothing was sent. */
  ghost predicate EmptyOk(s: State) {
    && (!s.output.signalled ==> s.output.empty)
    && (s.output.signalled ==> (s.output.empty <==> s.sent == []))
    && (s.consumer.Consuming? ==> s.output.signalled && !s.output.empty)
  }

  lemma AdaptKeepsEmpty(s: State, step: AdapterStep)
    requires ProducerOk(s) && AdapterOk(s) && EmptyOk(s) && CanAdapt(s, step)
    ensures EmptyOk(AfterAdapt(s, step))
  {
    if OnEmptyPath(s.adapter) {
      NothingOnEmptyPath(s);
    }
    if step.Finish? {
      FinishKeepsEmpty(s);
    }
  }

  lemma FinishKeepsEmpty(s: State)
    requires PastInput(s.adapter) && !s.adapter.AdapterDone? && s.output.emptySet
    ensures AfterFinish(s).output.signalled == s.output.signalled && AfterFinish(s).output.empty == s.output.empty
  {
    var output := AfterFinish(s).output;
    match s.adapter
    case CopyDeltas => assert output == s.output.(deltas := s.input.deltas);
    case ReadCheckpoint => assert output == s.output;
    case SetId(cp) => assert output == s.output.UpdatingId(cp.id);
    case SetText(cp) => assert output == s.output.UpdatingText(cp.text);
    case Closing => assert output == s.output.SettingCheckpoint();
    case ClosingOut => assert output == s.output.ClosingRecords();
    case ClosingOutSignal => assert output == s.output;
  }

  lemma ProduceKeepsEmpty(s: State, step: ProducerStep)
    requires ProducerOk(s) && AdapterOk(s) && EmptyOk(s) && CanProduce(s, step)
    ensures EmptyOk(AfterProduce(s, step))
  {
    if OnEmptyPath(s.adapter) {
      NothingOnEmptyPath(s);
    }
    assert AfterProduce(s, step).sent != s.sent ==> step.FinishAdd? && !PastInput(s.adapter);
  }

  lemma StepKeepsEmpty(s: State, step: Step)
    requires ProducerOk(s) && AdapterOk(s) && EmptyOk(s) && Enabled(s, step)
    ensures EmptyOk(After(s, step))
  {
    match step
    case Produce(p) => ProduceKeepsEmpty(s, p);
    case Adapt(a) => AdaptKeepsEmpty(s, a);
    case _ =>
  }

  lemma {:induction false} RunKeepsEmpty(buffer: nat, s: State, steps: seq<Step>)
    requires Ok(buffer, s) && EmptyOk(s) && IsRun(s, steps)
    ensures EmptyOk(Final(s, steps))
    decreases |steps|
  {
    if steps != [] {
      StepKeepsEmpty(s, steps[0]);
      StepKeeps(buffer, s, steps[0]);
      RunKeepsEmpty(buffer, After(s, steps[0]), steps[1..]);
    }
  }

  /** The consumer is told that there are records exactly if one was sent, and only then does it receive. */
  lemma ToldExactly(buffer: nat, s: State)
    requires Reachable(buffer, s)
    ensures s.output.signalled ==> (s.output.empty <==> s.sent == [])
    ensures s.consumer.Consuming? ==> s.sent != []
    ensures Enabled(s, Consume(CheckEmpty)) ==>
      (After(s, Consume(CheckEmpty)).consumer == if s.sent == [] then ConsumerDone else Consuming)
  {
    var steps :| IsRun(Initial(buffer), steps) && Final(Initial(buffer), steps) == s;
    RunKeepsEmpty(buffer, Initial(buffer), steps);
  }

  // ---- the row flag of the input ----

  ghost predicate AnyRow(records: seq<Record>) {
    exists i | 0 <= i < |records| :: records[i].isRow
  }

  lemma AnyRowSplit(a: seq<Record>, b: seq<Record>)
    ensures AnyRow(a + b) <==> AnyRow(a) || AnyRow(b)
  {
    assert forall i | 0 <= i < |a| :: (a + b)[i] == a[i];
    assert forall i | 0 <= i < |b| :: (a + b)[|a| + i] == b[i];
  }

  lemma ProduceRaisesNothing(s: State, step: ProducerStep)
    requires CanProduce(s, step) && !step.BeginAdd?
    ensures AfterProduce(s, step).input.needsNormalize == s.input.needsNormalize
  {
    var input := AfterProduce(s, step).input;
    match step
    case AddDelta(delta) => assert input == s.input.(deltas := s.input.deltas + [delta]);
    case MoveId(id) => assert input == s.input.UpdatingId(id);
    case MoveText(text) => assert input == s.input.UpdatingText(text);
    case FinishAdd => assert input == s.input.Sending(s.producer.record);
    case GiveUpAdd => assert input == s.input;
    case SignalFirst => assert input == s.input.SignallingNotEmpty();
    case StopProducing => assert input == s.input;
    case SignalEnd(_) => assert input == s.input || input == s.input.SignallingEmpty();
    case CloseInput =>
      assert input in {s.input.SettingCheckpoint(), s.input.ClosingRecords(), s.input.ClosingSignal()};
  }

  lemma OthersRaiseNothing(s: State, step: Step)
    requires Enabled(s, step) && !(step.Produce? && step.produce.BeginAdd?)
    ensures After(s, step).input.needsNormalize == s.input.needsNormalize
  {
    match step
    case Produce(p) => ProduceRaisesNothing(s, p);
    case Adapt(a) => AdaptLeavesInput(s, a);
    case _ =>
  }

  lemma StepFlags(s: State, step: Step)
    requires Enabled(s, step)
    ensures After(s, step).input.needsNormalize <==> s.input.needsNormalize || AnyRow(OfferedBy(step))
  {
    if step.Produce? && step.produce.BeginAdd? {
      assert OfferedBy(step) == [step.produce.record] && OfferedBy(step)[0] == step.produce.record;
    } else {
      assert OfferedBy(step) == [];
      OthersRaiseNothing(s, step);
    }
  }

  lemma {:induction false} RunFlags(s: State, steps: seq<Step>)
    requires IsRun(s, steps)
    ensures Final(s, steps).input.needsNormalize <==> s.input.needsNormalize || AnyRow(Offered(steps))
    decreases |steps|
  {
    if steps != [] {
      AnyRowSplit(OfferedBy(steps[0]), Offered(steps[1..]));
      StepFlags(s, steps[0]);
      RunFlags(After(s, steps[0]), steps[1..]);
    }
  }

  /** The input's row flag is up exactly if the producer offered a row, sent or given up. */
  lemma InputFlagExactly(buffer: nat, steps: seq<Step>)
    requires IsRun(Initial(buffer), steps)
    ensures Final(Initial(buffer), steps).input.needsNormalize <==> AnyRow(Offered(steps))
  {
    RunFlags(Initial(buffer), steps);
  }

  /** A producer that offered nothing says so on its way out, before it closes the stream. */
  lemma EndTells(s: State)
    requires CanProduce(s, SignalEnd(true)) && ProducerOk(s)
    ensures var s' := AfterProduce(s, SignalEnd(true));
      s'.input.signalled && (s'.input.empty <==> s.sent == []) && !s'.input.checkpointSet && !s'.input.closed
  {
  }
}
