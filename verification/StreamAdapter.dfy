/**
 `AttachToCdcStream` of flow/pua/stream_adapter.go: producer, adapter and consumer as
 a machine interleaved at every channel operation and field update.
 */
module StreamAdapter {
  import opened Changes
  import opened CdcStreams

  /** A record as read from the input and as the script left it. */
  datatype Passed = Passed(read: Record, out: Record)

  /** The pull connector: it signals once after its first record, and closes on every exit. */
  datatype ProducerPc =
    | Producing
    | Adding(record: Record)      // in AddRecord, the row flag raised
    | FirstAdded                  // about to signal not empty
    | Ending                      // about to signal empty if nothing was added
    | SettingCheckpoint
    | ClosingRecords
    | ClosingSignal
    | ProducerDone

  datatype AdapterPc =
    | AwaitSignal
    | TellEmpty
    | AwaitClose                  // <-stream.GetRecords()
    | TellNotEmpty
    | Receive                     // range over the input
    | Script(record: Record)
    | Noting(passed: Passed)      // AddRecord raising the row flag
    | Sending(passed: Passed)     // AddRecord blocked on the unbuffered output
    | Cancelling                  // onErr
    | AwaitCancel                 // <-ctx.Done()
    | Draining
    | CopyDeltas
    | ReadCheckpoint
    | SetId(cp: Checkpoint)
    | SetText(cp: Checkpoint)
    | Closing                     // outstream.Close()
    | ClosingOut
    | ClosingOutSignal
    | AdapterDone

  datatype ConsumerPc = AwaitEmpty | Consuming | ConsumerDone

  /**
   `sent` lists what entered the input channel and `consumed` what left the output;
   `drained` and `abandoned` are records the error path gave up. `cancelled` is the
   adapter's context.
   */
  datatype State = State(input: Stream, output: Stream,
                         producer: ProducerPc, adapter: AdapterPc, consumer: ConsumerPc,
                         cancelled: bool,
                         sent: seq<Record>, consumed: seq<Passed>, abandoned: seq<Passed>, drained: seq<Record>)

  function Initial(channelBuffer: nat): State {
    State(NewStream(channelBuffer), NewStream(0), Producing, AwaitSignal, AwaitEmpty, false, [], [], [], [])
  }

  datatype ProducerStep =
    | AddDelta(delta: string)
    | MoveId(id: int)
    | MoveText(text: string)
    | BeginAdd(record: Record)
    | FinishAdd
    | GiveUpAdd                       // its context was cancelled
    | SignalFirst
    | StopProducing                   // done or failed
    | SignalEnd(tell: bool)           // a connector that failed early may not tell
    | CloseInput

  datatype AdapterStep =
    | SeeSignal
    | TellConsumer
    | HearClose
    | ReceiveRecord
    | HandOver                        // producer and adapter meet on an unbuffered input
    | EndOfInput
    | ScriptOk(out: Record)
    | ScriptFails
    | NoteRow
    | Deliver                         // adapter and consumer meet on the unbuffered output
    | GiveUpSend
    | CancelContext
    | SeeCancel
    | Finish

  datatype ConsumerStep = CheckEmpty | EndOfOutput | StopConsuming

  datatype Step =
    | Produce(produce: ProducerStep)
    | Adapt(adapt: AdapterStep)
    | Consume(consume: ConsumerStep)
    | CancelFromOutside

  /** The adapter is ready to take a record from the input. */
  predicate Taking(adapter: AdapterPc) {
    adapter.AwaitClose? || adapter.Receive? || adapter.Draining?
  }

  predicate CanProduce(s: State, step: ProducerStep) {
    match step
    case AddDelta(_) => s.producer.Producing?
    case MoveId(_) => s.producer.Producing?
    case MoveText(_) => s.producer.Producing?
    case BeginAdd(_) => s.producer.Producing?
    case FinishAdd => s.producer.Adding? && s.input.HasRoom()
    case GiveUpAdd => s.producer.Adding?
    case SignalFirst => s.producer.FirstAdded?
    case StopProducing => s.producer.Producing?
    case SignalEnd(_) => s.producer.Ending?
    case CloseInput => s.producer.SettingCheckpoint? || s.producer.ClosingRecords? || s.producer.ClosingSignal?
  }

  /** Where AddRecord leaves the producer: after its first record it signals. */
  function Added(s: State): ProducerPc {
    if s.sent == [] then FirstAdded else Producing
  }

  function AfterProduce(s: State, step: ProducerStep): State
    requires CanProduce(s, step)
  {
    match step
    case AddDelta(delta) => s.(input := s.input.(deltas := s.input.deltas + [delta]))
    case MoveId(id) => s.(input := s.input.UpdatingId(id))
    case MoveText(text) => s.(input := s.input.UpdatingText(text))
    case BeginAdd(record) => s.(producer := Adding(record), input := s.input.Noting(record))
    case FinishAdd =>
      s.(producer := Added(s), input := s.input.Sending(s.producer.record), sent := s.sent + [s.producer.record])
    case GiveUpAdd => s.(producer := Ending)
    case SignalFirst => s.(producer := Producing, input := s.input.SignallingNotEmpty())
    case StopProducing => s.(producer := Ending)
    case SignalEnd(tell) =>
      s.(producer := SettingCheckpoint, input := if s.sent == [] && tell then s.input.SignallingEmpty() else s.input)
    case CloseInput =>
      if s.producer.SettingCheckpoint? then s.(producer := ClosingRecords, input := s.input.SettingCheckpoint())
      else if s.producer.ClosingRecords? then s.(producer := ClosingSignal, input := s.input.ClosingRecords())
      else s.(producer := ProducerDone, input := s.input.ClosingSignal())
  }

  predicate CanAdapt(s: State, step: AdapterStep) {
    match step
    case SeeSignal => s.adapter.AwaitSignal? && s.input.signalled
    case TellConsumer => s.adapter.TellEmpty? || s.adapter.TellNotEmpty?
    case HearClose => s.adapter.AwaitClose? && s.input.closed && s.input.records == []
    case ReceiveRecord => Taking(s.adapter) && s.input.records != []
    case HandOver => Taking(s.adapter) && s.producer.Adding? && s.input.records == []
    case EndOfInput => (s.adapter.Receive? || s.adapter.Draining?) && s.input.closed && s.input.records == []
    case ScriptOk(out) => s.adapter.Script? && out.isRow == s.adapter.record.isRow
    case ScriptFails => s.adapter.Script?
    case NoteRow => s.adapter.Noting?
    case Deliver => s.adapter.Sending? && s.consumer.Consuming?
    case GiveUpSend => s.adapter.Sending? && s.cancelled
    case CancelContext => s.adapter.Cancelling?
    case SeeCancel => s.adapter.AwaitCancel? && s.cancelled
    case Finish => PastInput(s.adapter) && !s.adapter.AdapterDone?
  }

  /** The record just taken from the input goes to the script, or is dropped. */
  function Taken(s: State, record: Record): State
    requires Taking(s.adapter)
  {
    match s.adapter
    case Receive => s.(adapter := Script(record))
    case Draining => s.(drained := s.drained + [record])
    case _ => s.(adapter := CopyDeltas, drained := s.drained + [record])
  }

  function AfterAdapt(s: State, step: AdapterStep): State
    requires CanAdapt(s, step)
  {
    match step
    case SeeSignal => s.(adapter := if s.input.empty then TellEmpty else TellNotEmpty)
    case TellConsumer =>
      if s.adapter.TellEmpty? then s.(adapter := AwaitClose, output := s.output.SignallingEmpty())
      else s.(adapter := Receive, output := s.output.SignallingNotEmpty())
    case HearClose => s.(adapter := CopyDeltas)
    case ReceiveRecord => Taken(s.(input := s.input.Receiving()), s.input.records[0])
    case HandOver => Taken(s.(producer := Added(s), sent := s.sent + [s.producer.record]), s.producer.record)
    case EndOfInput => s.(adapter := CopyDeltas)
    case ScriptOk(out) => s.(adapter := Noting(Passed(s.adapter.record, out)))
    case ScriptFails => s.(adapter := Cancelling, drained := s.drained + [s.adapter.record])
    case NoteRow => s.(adapter := Sending(s.adapter.passed), output := s.output.Noting(s.adapter.passed.out))
    case Deliver => s.(adapter := Receive, consumed := s.consumed + [s.adapter.passed])
    case GiveUpSend =>
      s.(adapter := Cancelling, abandoned := s.abandoned + [s.adapter.passed],
         drained := s.drained + [s.adapter.passed.read])
    case CancelContext => s.(adapter := AwaitCancel, cancelled := true)
    case SeeCancel => s.(adapter := Draining)
    case Finish => AfterFinish(s)
  }

  /** The adapter past the end of the input, one statement at a time. */
  function AfterFinish(s: State): State
    requires PastInput(s.adapter) && !s.adapter.AdapterDone?
  {
    match s.adapter
    case CopyDeltas => s.(adapter := ReadCheckpoint, output := s.output.(deltas := s.input.deltas))
    case ReadCheckpoint => s.(adapter := SetId(s.input.checkpoint))
    case SetId(cp) => s.(adapter := SetText(cp), output := s.output.UpdatingId(cp.id))
    case SetText(cp) => s.(adapter := Closing, output := s.output.UpdatingText(cp.text))
    case Closing => s.(adapter := ClosingOut, output := s.output.SettingCheckpoint())
    case ClosingOut => s.(adapter := ClosingOutSignal, output := s.output.ClosingRecords())
    case _ => s.(adapter := AdapterDone, output := s.output.ClosingSignal())
  }

  predicate Enabled(s: State, step: Step) {
    match step
    case Produce(p) => CanProduce(s, p)
    case Adapt(a) => CanAdapt(s, a)
    case Consume(CheckEmpty) => s.consumer.AwaitEmpty? && s.output.signalled
    case Consume(EndOfOutput) => s.consumer.Consuming? && s.output.closed
    case Consume(StopConsuming) => s.consumer.Consuming?
    case CancelFromOutside => true
  }

  function After(s: State, step: Step): State
    requires Enabled(s, step)
  {
    match step
    case Produce(p) => AfterProduce(s, p)
    case Adapt(a) => AfterAdapt(s, a)
    case Consume(CheckEmpty) => s.(consumer := if s.output.empty then ConsumerDone else Consuming)
    case Consume(_) => s.(consumer := ConsumerDone)
    case CancelFromOutside => s.(cancelled := true)
  }

  predicate IsRun(s: State, steps: seq<Step>)
    decreases |steps|
  {
    steps == [] || (Enabled(s, steps[0]) && IsRun(After(s, steps[0]), steps[1..]))
  }

  function Final(s: State, steps: seq<Step>): State
    requires IsRun(s, steps)
    decreases |steps|
  {
    if steps == [] then s else Final(After(s, steps[0]), steps[1..])
  }

  ghost predicate Reachable(buffer: nat, s: State) {
    exists steps :: IsRun(Initial(buffer), steps) && Final(Initial(buffer), steps) == s
  }

  // ---- invariants ----

  /** The record the adapter holds. */
  function InHand(adapter: AdapterPc): seq<Record> {
    match adapter
    case Script(record) => [record]
    case Noting(passed) => [passed.read]
    case Sending(passed) => [passed.read]
    case _ => []
  }

  function Reads(passed: seq<Passed>): seq<Record> {
    seq(|passed|, i requires 0 <= i < |passed| => passed[i].read)
  }

  ghost predicate HasRow(passed: seq<Passed>) {
    exists i | 0 <= i < |passed| :: passed[i].out.isRow
  }

  /** The adapter is on its way out after seeing the end of the input. */
  predicate PastInput(adapter: AdapterPc) {
    || adapter.CopyDeltas? || adapter.ReadCheckpoint? || adapter.SetId? || adapter.SetText?
    || adapter.Closing? || adapter.ClosingOut? || adapter.ClosingOutSignal? || adapter.AdapterDone?
  }

  predicate FailurePath(adapter: AdapterPc) {
    adapter.Cancelling? || adapter.AwaitCancel? || adapter.Draining?
  }

  predicate OnEmptyPath(adapter: AdapterPc) {
    adapter.TellEmpty? || adapter.AwaitClose?
  }

  ghost predicate ProducerOk(s: State) {
    && (s.input.checkpointSet <==> s.producer.ClosingRecords? || s.producer.ClosingSignal? || s.producer.ProducerDone?)
    && (s.input.closed <==> s.producer.ClosingSignal? || s.producer.ProducerDone?)
    && (s.input.empty <==> s.sent == [] || s.producer.FirstAdded?)
    && s.input.signalled == s.input.emptySet
    && (s.sent == [] && !s.producer.SettingCheckpoint? && !s.input.checkpointSet ==> !s.input.signalled)
    && (s.producer.ProducerDone? ==> s.input.signalled)
    && (s.producer.FirstAdded? ==> !s.input.signalled && s.sent != [])
    && (s.sent != [] && !s.producer.FirstAdded? ==> s.input.signalled && !s.input.empty)
    && s.input.checkpoint.id >= 0
    && |s.input.records| <= |s.sent|
    && |s.input.records| <= s.input.capacity
  }

  ghost predicate AdapterOk(s: State) {
    && s.output.capacity == 0
    && (PastInput(s.adapter) ==> s.input.closed && s.input.records == [])
    && (OnEmptyPath(s.adapter) ==> s.input.signalled && s.input.empty)
    && (!s.adapter.AwaitSignal? && !OnEmptyPath(s.adapter) && !PastInput(s.adapter) ==> !s.input.empty)
    && (s.output.signalled <==> !(s.adapter.AwaitSignal? || s.adapter.TellEmpty? || s.adapter.TellNotEmpty?))
    && s.output.emptySet == s.output.signalled
    && (s.output.closed <==> s.adapter.ClosingOutSignal? || s.adapter.AdapterDone?)
    && (s.output.checkpointSet <==> s.adapter.ClosingOut? || s.adapter.ClosingOutSignal? || s.adapter.AdapterDone?)
    && s.output.records == []
  }

  ghost predicate HandoverOk(s: State) {
    && (PastInput(s.adapter) && !s.adapter.CopyDeltas? ==> s.output.deltas == s.input.deltas)
    && (s.adapter.SetId? ==> s.adapter.cp == s.input.checkpoint)
    && (s.adapter.SetText? ==> s.adapter.cp == s.input.checkpoint && s.output.checkpoint.id == s.input.checkpoint.id)
    && (s.adapter.Closing? || s.output.checkpointSet ==> s.output.checkpoint == s.input.checkpoint)
    && (!s.adapter.SetText? && !s.adapter.Closing? && !s.output.checkpointSet ==> s.output.checkpoint.id == 0)
  }

  ghost predicate RecordsOk(s: State) {
    && s.sent == Reads(s.consumed) + InHand(s.adapter) + s.drained + s.input.records
    && (s.adapter.AwaitCancel? || s.adapter.Draining? ==> s.cancelled)
    && (s.drained != [] ==> (s.adapter.Cancelling? || s.cancelled) && (FailurePath(s.adapter) || PastInput(s.adapter)))
    && (s.abandoned != [] ==> s.drained != [])
    && (s.output.needsNormalize <==>
          HasRow(s.consumed) || HasRow(s.abandoned) || (s.adapter.Sending? && s.adapter.passed.out.isRow))
    && (forall i | 0 <= i < |s.consumed| :: s.consumed[i].read.isRow == s.consumed[i].out.isRow)
    && (s.adapter.Noting? || s.adapter.Sending? ==> s.adapter.passed.read.isRow == s.adapter.passed.out.isRow)
  }

  ghost predicate Ok(buffer: nat, s: State) {
    ProducerOk(s) && AdapterOk(s) && HandoverOk(s) && RecordsOk(s) && s.input.capacity == buffer
  }

  lemma ReadsAppend(passed: seq<Passed>, p: Passed)
    ensures Reads(passed + [p]) == Reads(passed) + [p.read]
    ensures HasRow(passed + [p]) <==> HasRow(passed) || p.out.isRow
  {
    var all := passed + [p];
    assert all[|passed|] == p;
    assert forall i | 0 <= i < |passed| :: all[i] == passed[i];
  }

  /** On the empty path nothing was sent and the producer will not send. */
  lemma NothingOnEmptyPath(s: State)
    requires ProducerOk(s) && AdapterOk(s) && OnEmptyPath(s.adapter)
    ensures s.sent == [] && s.input.records == [] && !s.producer.Adding?
  {
  }

  lemma ProduceKeeps(s: State, step: ProducerStep)
    requires ProducerOk(s) && AdapterOk(s) && HandoverOk(s) && CanProduce(s, step)
    ensures var s' := AfterProduce(s, step);
      ProducerOk(s') && AdapterOk(s') && HandoverOk(s') && s'.input.capacity == s.input.capacity
  {
  }

  lemma ProduceKeepsRecords(s: State, step: ProducerStep)
    requires RecordsOk(s) && CanProduce(s, step)
    ensures RecordsOk(AfterProduce(s, step))
  {
  }

  lemma FinishKeeps(s: State)
    requires ProducerOk(s) && AdapterOk(s) && HandoverOk(s) && CanAdapt(s, Finish)
    ensures var s' := AfterFinish(s);
      ProducerOk(s') && AdapterOk(s') && HandoverOk(s') && s'.input.capacity == s.input.capacity
  {
  }

  predicate Takes(step: AdapterStep) {
    step.ReceiveRecord? || step.HandOver?
  }

  lemma TakeKeeps(s: State, step: AdapterStep)
    requires ProducerOk(s) && AdapterOk(s) && HandoverOk(s) && CanAdapt(s, step) && Takes(step)
    ensures var s' := AfterAdapt(s, step);
      ProducerOk(s') && AdapterOk(s') && HandoverOk(s') && s'.input.capacity == s.input.capacity
  {
    if OnEmptyPath(s.adapter) {
      NothingOnEmptyPath(s);
    }
    assert s.sent != [] && !s.producer.FirstAdded?;
  }

  lemma AdaptKeeps(s: State, step: AdapterStep)
    requires ProducerOk(s) && AdapterOk(s) && HandoverOk(s) && CanAdapt(s, step)
    ensures var s' := AfterAdapt(s, step);
      ProducerOk(s') && AdapterOk(s') && HandoverOk(s') && s'.input.capacity == s.input.capacity
  {
    if step.Finish? {
      FinishKeeps(s);
    } else if Takes(step) {
      TakeKeeps(s, step);
    } else {
      assert AfterAdapt(s, step).input == s.input && AfterAdapt(s, step).producer == s.producer;
    }
  }

  lemma Regroup(passed: seq<Record>, dropped: seq<Record>, r: Record, rest: seq<Record>)
    ensures passed + [] + dropped + ([r] + rest) == passed + [] + (dropped + [r]) + rest
    ensures dropped == [] ==> passed + [] + dropped + ([r] + rest) == passed + [r] + dropped + rest
    ensures (passed + [] + dropped + []) + [r] == passed + [] + (dropped + [r]) + []
    ensures dropped == [] ==> (passed + [] + dropped + []) + [r] == passed + [r] + dropped + []
  {
  }

  /** A taken record moves from the input to the adapter's hand or to the drain. */
  lemma TakenAccounted(s: State, step: AdapterStep)
    requires RecordsOk(s) && CanAdapt(s, step) && Takes(step) && !s.adapter.AwaitClose?
    ensures var s' := AfterAdapt(s, step);
      s'.sent == Reads(s'.consumed) + InHand(s'.adapter) + s'.drained + s'.input.records
  {
    var r := if step.ReceiveRecord? then s.input.records[0] else s.producer.record;
    var s' := AfterAdapt(s, step);
    Regroup(Reads(s.consumed), s.drained, r, s'.input.records);
    if step.ReceiveRecord? {
      assert s.input.records == [r] + s'.input.records;
    }
  }

  lemma TakeKeepsRecords(s: State, step: AdapterStep)
    requires ProducerOk(s) && AdapterOk(s) && RecordsOk(s) && CanAdapt(s, step) && Takes(step)
    ensures RecordsOk(AfterAdapt(s, step))
  {
    if OnEmptyPath(s.adapter) {
      NothingOnEmptyPath(s);
    } else {
      TakenAccounted(s, step);
    }
  }

  lemma SendKeepsRecords(s: State, step: AdapterStep)
    requires RecordsOk(s) && CanAdapt(s, step) && s.adapter.Sending?
    ensures RecordsOk(AfterAdapt(s, step))
  {
    ReadsAppend(s.consumed, s.adapter.passed);
    ReadsAppend(s.abandoned, s.adapter.passed);
  }

  lemma ScriptKeepsRecords(s: State, step: AdapterStep)
    requires RecordsOk(s) && CanAdapt(s, step) && s.adapter.Script?
    ensures RecordsOk(AfterAdapt(s, step))
  {
  }

  lemma NoteKeepsRecords(s: State)
    requires RecordsOk(s) && CanAdapt(s, NoteRow)
    ensures RecordsOk(AfterAdapt(s, NoteRow))
  {
  }

  /** Nothing the adapter does past the input touches the records or the row flag. */
  lemma FinishMovesNothing(s: State)
    requires PastInput(s.adapter) && !s.adapter.AdapterDone?
    ensures var s' := AfterFinish(s);
      && s'.consumed == s.consumed && s'.abandoned == s.abandoned && s'.drained == s.drained
      && s'.sent == s.sent && s'.input == s.input && s'.cancelled == s.cancelled && PastInput(s'.adapter)
      && s'.output.needsNormalize == s.output.needsNormalize
  {
  }

  /** The other steps move no record and raise no flag. */
  lemma MovesNothing(s: State, step: AdapterStep)
    requires CanAdapt(s, step) && !Takes(step) && !s.adapter.Sending? && !s.adapter.Script? && !step.NoteRow?
    ensures var s' := AfterAdapt(s, step);
      && s'.consumed == s.consumed && s'.abandoned == s.abandoned && s'.drained == s.drained
      && s'.sent == s.sent && s'.input == s.input && InHand(s'.adapter) == InHand(s.adapter) == []
      && s'.output.needsNormalize == s.output.needsNormalize
      && !s'.adapter.Noting? && !s'.adapter.Sending?
      && (s'.cancelled <==> s.cancelled || step.CancelContext?)
      && (FailurePath(s.adapter) || PastInput(s.adapter) ==> FailurePath(s'.adapter) || PastInput(s'.adapter))
  {
    if step.Finish? {
      FinishMovesNothing(s);
    } else {
      assert !PastInput(s.adapter);
    }
  }

  lemma MoveKeepsRecords(s: State, step: AdapterStep)
    requires RecordsOk(s) && CanAdapt(s, step)
    requires !Takes(step) && !s.adapter.Sending? && !s.adapter.Script? && !step.NoteRow?
    ensures RecordsOk(AfterAdapt(s, step))
  {
    MovesNothing(s, step);
  }

  lemma AdaptKeepsRecords(s: State, step: AdapterStep)
    requires ProducerOk(s) && AdapterOk(s) && RecordsOk(s) && CanAdapt(s, step)
    ensures RecordsOk(AfterAdapt(s, step))
  {
    if Takes(step) {
      TakeKeepsRecords(s, step);
    } else if s.adapter.Sending? {
      SendKeepsRecords(s, step);
    } else if s.adapter.Script? {
      ScriptKeepsRecords(s, step);
    } else if step.NoteRow? {
      NoteKeepsRecords(s);
    } else {
      MoveKeepsRecords(s, step);
    }
  }

  lemma OthersKeep(buffer: nat, s: State, step: Step)
    requires Ok(buffer, s) && Enabled(s, step) && (step.Consume? || step.CancelFromOutside?)
    ensures Ok(buffer, After(s, step))
  {
  }

  lemma StepKeeps(buffer: nat, s: State, step: Step)
    requires Ok(buffer, s) && Enabled(s, step)
    ensures Ok(buffer, After(s, step))
  {
    match step
    case Produce(p) =>
      ProduceKeeps(s, p);
      ProduceKeepsRecords(s, p);
    case Adapt(a) =>
      AdaptKeeps(s, a);
      AdaptKeepsRecords(s, a);
    case _ => OthersKeep(buffer, s, step);
  }

  lemma {:induction false} RunKeeps(buffer: nat, s: State, steps: seq<Step>)
    requires Ok(buffer, s) && IsRun(s, steps)
    ensures Ok(buffer, Final(s, steps))
    decreases |steps|
  {
    if steps != [] {
      StepKeeps(buffer, s, steps[0]);
      RunKeeps(buffer, After(s, steps[0]), steps[1..]);
    }
  }

  lemma ReachableOk(buffer: nat, s: State)
    requires Reachable(buffer, s)
    ensures Ok(buffer, s)
  {
    var steps :| IsRun(Initial(buffer), steps) && Final(Initial(buffer), steps) == s;
    RunKeeps(buffer, Initial(buffer), steps);
  }

  // ---- what holds in every interleaving ----

  /**
   Consumed, in the adapter's hand, dropped by the error path and still buffered: in this
   order they are exactly what the producer sent. Nothing is dropped before the script
   failed or the context was cancelled.
   */
  lemma RecordsConserved(buffer: nat, s: State)
    requires Reachable(buffer, s)
    ensures s.sent == Reads(s.consumed) + InHand(s.adapter) + s.drained + s.input.records
    ensures !s.cancelled && !s.adapter.Cancelling? ==> s.drained == [] && s.abandoned == []
  {
    ReachableOk(buffer, s);
  }

  ghost predicate SentRow(sent: seq<Record>) {
    exists i | 0 <= i < |sent| :: sent[i].isRow
  }

  lemma RowsAgree(consumed: seq<Passed>)
    requires forall i | 0 <= i < |consumed| :: consumed[i].read.isRow == consumed[i].out.isRow
    ensures HasRow(consumed) <==> SentRow(Reads(consumed))
  {
    assert forall i | 0 <= i < |consumed| :: Reads(consumed)[i] == consumed[i].read;
  }

  /**
   A closed output has the input's checkpoint and schema deltas, and the input is closed
   and empty. It closes with fewer records than were sent only after a cancellation;
   otherwise the consumer got them all and the row flag says whether one was a row.
   */
  lemma OutputComplete(buffer: nat, s: State)
    requires Reachable(buffer, s) && s.output.closed
    ensures s.input.closed && s.input.records == []
    ensures s.output.checkpoint == s.input.checkpoint && s.output.deltas == s.input.deltas
    ensures !s.cancelled ==> Reads(s.consumed) == s.sent && (s.output.needsNormalize <==> SentRow(s.sent))
    ensures |s.consumed| < |s.sent| ==> s.cancelled
    ensures s.output.needsNormalize <==> HasRow(s.consumed) || HasRow(s.abandoned)
  {
    ReachableOk(buffer, s);
    RowsAgree(s.consumed);
    assert s.sent == Reads(s.consumed) + s.drained;
  }

  /**
   On every path, script failures included, the checkpoint is read only after the input
   was closed; no signal is given twice, no channel closed twice and nothing is sent on a
   closed channel, on either stream.
   */
  lemma NeverPanics(buffer: nat, s: State)
    requires Reachable(buffer, s)
    ensures s.adapter.ReadCheckpoint? ==> !Panics(s.input, GetCheckpoint) && s.input.closed
    ensures s.adapter.TellEmpty? ==> !Panics(s.output, SignalEmpty)
    ensures s.adapter.TellNotEmpty? ==> !Panics(s.output, SignalNotEmpty)
    ensures s.adapter.Sending? ==> !Panics(s.output, Add(s.adapter.passed.out, true))
    ensures s.adapter.Closing? ==> !Panics(s.output, CloseStream)
    ensures s.adapter.Closing? || s.adapter.ClosingOut? ==> !s.output.closed
    ensures s.producer.FirstAdded? ==> !Panics(s.input, SignalNotEmpty)
    ensures s.producer.Ending? && s.sent == [] ==> !Panics(s.input, SignalEmpty)
    ensures s.producer.Adding? ==> !Panics(s.input, Add(s.producer.record, true))
    ensures s.producer.SettingCheckpoint? ==> !Panics(s.input, CloseStream)
    ensures s.producer.SettingCheckpoint? || s.producer.ClosingRecords? ==> !s.input.closed
    ensures s.input.emptySet == s.input.signalled && s.output.emptySet == s.output.signalled
    ensures s.consumer.ConsumerDone? && s.output.closed ==> s.output.checkpointSet
  {
    ReachableOk(buffer, s);
  }

  // ---- the adapter ends ----

  /** How many steps the adapter can still take once the input is closed. */
  function AdapterFuel(s: State): nat {
    var n := |s.input.records|;
    match s.adapter
    case AwaitSignal => 13 + 4 * n
    case TellEmpty => 12 + 4 * n
    case TellNotEmpty => 12 + 4 * n
    case AwaitClose => 8 + 4 * n
    case Receive => 11 + 4 * n
    case Script(_) => 14 + 4 * n
    case Noting(_) => 13 + 4 * n
    case Sending(_) => 12 + 4 * n
    case Cancelling => 10 + n
    case AwaitCancel => 9 + n
    case Draining => 8 + n
    case CopyDeltas => 7
    case ReadCheckpoint => 6
    case SetId(_) => 5
    case SetText(_) => 4
    case Closing => 3
    case ClosingOut => 2
    case ClosingOutSignal => 1
    case AdapterDone => 0
  }

  lemma AdaptBurns(s: State, step: AdapterStep)
    requires ProducerOk(s) && s.input.closed && CanAdapt(s, step)
    ensures AdapterFuel(AfterAdapt(s, step)) < AdapterFuel(s)
  {
  }

  lemma OthersBurnNothing(s: State, step: Step)
    requires ProducerOk(s) && s.input.closed && Enabled(s, step) && !step.Adapt?
    ensures AdapterFuel(After(s, step)) == AdapterFuel(s) && After(s, step).input.closed
  {
  }

  function AdapterWork(steps: seq<Step>): nat {
    if steps == [] then 0 else (if steps[0].Adapt? then 1 else 0) + AdapterWork(steps[1..])
  }

  /** Once the input is closed the adapter takes at most `AdapterFuel` more steps, in any interleaving. */
  lemma {:induction false} AdapterBounded(buffer: nat, s: State, steps: seq<Step>)
    requires Ok(buffer, s) && s.input.closed && IsRun(s, steps)
    ensures AdapterWork(steps) <= AdapterFuel(s)
    decreases |steps|
  {
    if steps != [] {
      StepKeeps(buffer, s, steps[0]);
      if steps[0].Adapt? {
        AdaptBurns(s, steps[0].adapt);
        assert After(s, steps[0]).input.closed;
      } else {
        OthersBurnNothing(s, steps[0]);
      }
      AdapterBounded(buffer, After(s, steps[0]), steps[1..]);
    }
  }

  /** What the adapter does next when the script and the consumer cooperate. */
  function NextAdapt(s: State): AdapterStep {
    match s.adapter
    case AwaitSignal => SeeSignal
    case TellEmpty => TellConsumer
    case TellNotEmpty => TellConsumer
    case AwaitClose => HearClose
    case Receive => if s.input.records == [] then EndOfInput else ReceiveRecord
    case Script(record) => ScriptOk(record)
    case Noting(_) => NoteRow
    case Sending(_) => if s.cancelled then GiveUpSend else Deliver
    case Cancelling => CancelContext
    case AwaitCancel => SeeCancel
    case Draining => if s.input.records == [] then EndOfInput else ReceiveRecord
    case _ => Finish
  }

  /** The adapter sends while its context is alive and the consumer has not begun, or has stopped, to receive. */
  predicate HeldUp(s: State) {
    s.adapter.Sending? && !s.cancelled && !s.consumer.Consuming?
  }

  /** After the producer is done this is the only way the adapter can be held up. */
  lemma HeldUpExactly(buffer: nat, s: State)
    requires Reachable(buffer, s) && s.producer.ProducerDone? && !s.adapter.AdapterDone?
    ensures (forall step :: !CanAdapt(s, step)) <==> HeldUp(s)
  {
    ReachableOk(buffer, s);
    if OnEmptyPath(s.adapter) {
      NothingOnEmptyPath(s);
    }
    assert CanAdapt(s, NextAdapt(s)) || HeldUp(s);
  }

  /** Once producer and consumer are gone nothing but a cancellation from outside can happen to it. */
  lemma {:induction false} HeldUpStays(s: State, steps: seq<Step>)
    requires HeldUp(s) && s.producer.ProducerDone? && s.consumer.ConsumerDone? && IsRun(s, steps)
    ensures CancelFromOutside in steps || steps == []
  {
    if steps != [] {
      assert steps[0] in steps;
    }
  }

  // ---- an unbuffered input lets nothing through ----

  lemma {:induction false} ExtendRun(s: State, steps: seq<Step>, step: Step)
    requires IsRun(s, steps) && Enabled(Final(s, steps), step)
    ensures IsRun(s, steps + [step]) && Final(s, steps + [step]) == After(Final(s, steps), step)
    decreases |steps|
  {
    if steps == [] {
      assert IsRun(After(s, step), []);
    } else {
      assert (steps + [step])[1..] == steps[1..] + [step];
      ExtendRun(After(s, steps[0]), steps[1..], step);
    }
  }

  lemma Take(buffer: nat, s: State, step: Step) returns (t: State)
    requires Reachable(buffer, s) && Enabled(s, step)
    ensures t == After(s, step) && Reachable(buffer, t)
  {
    var steps :| IsRun(Initial(buffer), steps) && Final(Initial(buffer), steps) == s;
    ExtendRun(Initial(buffer), steps, step);
    t := After(s, step);
  }

  lemma SendsNothing(s: State, step: Step)
    requires Ok(0, s) && s.sent == [] && Enabled(s, step)
    ensures After(s, step).sent == []
  {
    if s.adapter.AwaitClose? {
      NothingOnEmptyPath(s);
    }
    match step
    case Produce(p) => assert !p.FinishAdd?;
    case Adapt(a) => assert !a.HandOver?;
    case _ =>
  }

  lemma {:induction false} NeverSends(s: State, steps: seq<Step>)
    requires Ok(0, s) && s.sent == [] && IsRun(s, steps)
    ensures Final(s, steps).sent == []
    decreases |steps|
  {
    if steps != [] {
      SendsNothing(s, steps[0]);
      StepKeeps(0, s, steps[0]);
      NeverSends(After(s, steps[0]), steps[1..]);
    }
  }

  lemma FirstRecordSent(buffer: nat, record: Record) returns (s: State)
    requires buffer >= 1
    ensures Reachable(buffer, s)
    ensures s == Initial(buffer).(producer := Producing, input := s.input, sent := [record])
    ensures s.input.records == [record] && s.input.signalled && !s.input.empty
  {
    assert IsRun(Initial(buffer), []);
    s := Take(buffer, Initial(buffer), Produce(BeginAdd(record)));
    s := Take(buffer, s, Produce(FinishAdd));
    s := Take(buffer, s, Produce(SignalFirst));
  }

  /** The adapter has read the record and sends it to a consumer that is ready. */
  lemma FirstRecordOffered(buffer: nat, record: Record) returns (s: State)
    requires buffer >= 1
    ensures Reachable(buffer, s) && !s.cancelled && s.consumed == [] && s.sent == [record]
    ensures s.producer.Producing? && s.consumer.Consuming? && s.adapter == Sending(Passed(record, record))
  {
    s := FirstRecordSent(buffer, record);
    s := Take(buffer, s, Adapt(SeeSignal));
    s := Take(buffer, s, Adapt(TellConsumer));
    s := Take(buffer, s, Consume(CheckEmpty));
    s := Take(buffer, s, Adapt(ReceiveRecord));
    s := Take(buffer, s, Adapt(ScriptOk(record)));
    s := Take(buffer, s, Adapt(NoteRow));
  }

  lemma FirstRecordConsumed(buffer: nat) returns (s: State)
    requires buffer >= 1
    ensures Reachable(buffer, s) && |s.consumed| == 1
  {
    s := FirstRecordOffered(buffer, Record(0, true));
    s := Take(buffer, s, Adapt(Deliver));
  }

  /** The consumer stops after the adapter read a record, as a failing sync does, and the producer closes. */
  lemma AdapterCanLeak(buffer: nat) returns (s: State)
    requires buffer >= 1
    ensures Reachable(buffer, s) && HeldUp(s) && s.producer.ProducerDone? && s.consumer.ConsumerDone?
  {
    s := FirstRecordOffered(buffer, Record(0, true));
    s := Take(buffer, s, Consume(StopConsuming));
    s := Take(buffer, s, Produce(StopProducing));
    s := Take(buffer, s, Produce(SignalEnd(true)));
    s := Take(buffer, s, Produce(CloseInput));
    s := Take(buffer, s, Produce(CloseInput));
    s := Take(buffer, s, Produce(CloseInput));
  }

  /**
   The producer signals after its first record and the adapter receives after the signal,
   so a record can get through exactly when the channel buffer holds at least one.
   */
  lemma BufferNeeded(buffer: nat)
    ensures (exists s :: Reachable(buffer, s) && s.consumed != []) <==> buffer >= 1
  {
    if buffer >= 1 {
      var s := FirstRecordConsumed(buffer);
    } else {
      forall s | Reachable(0, s)
        ensures s.consumed == []
      {
        var steps :| IsRun(Initial(0), steps) && Final(Initial(0), steps) == s;
        NeverSends(Initial(0), steps);
        ReachableOk(0, s);
        assert |Reads(s.consumed)| == |s.consumed|;
      }
    }
  }
}
