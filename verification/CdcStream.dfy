/** `CDCStream` of flow/model/cdc_stream.go. */
module CdcStreams {
  import opened Changes

  datatype Checkpoint = Checkpoint(id: int, text: string)

  /**
   The fields of a stream as a value. `records` is what its channel buffers and
   `closed` whether that channel is closed; `signalled` says the same of emptySignal.
   */
  datatype Stream = Stream(records: seq<Record>, capacity: nat, closed: bool,
                           signalled: bool, empty: bool, emptySet: bool,
                           deltas: seq<string>, checkpoint: Checkpoint, checkpointSet: bool,
                           needsNormalize: bool)
  {
    /** The first thing AddRecord does, before it can block. */
    function Noting(record: Record): Stream {
      this.(needsNormalize := needsNormalize || record.isRow)
    }

    predicate HasRoom() {
      |records| < capacity
    }

    function Sending(record: Record): Stream {
      this.(records := records + [record])
    }

    function Receiving(): Stream
      requires records != []
    {
      this.(records := records[1..])
    }

    function UpdatingId(id: int): Stream {
      this.(checkpoint := checkpoint.(id := if checkpoint.id < id then id else checkpoint.id))
    }

    function UpdatingText(text: string): Stream {
      this.(checkpoint := checkpoint.(text := text))
    }

    function SignallingEmpty(): Stream {
      this.(emptySet := true, signalled := true)
    }

    function SignallingNotEmpty(): Stream {
      this.(empty := false, emptySet := true, signalled := true)
    }

    // The three things Close does, in order.

    function SettingCheckpoint(): Stream {
      this.(checkpointSet := true)
    }

    function ClosingRecords(): Stream {
      this.(closed := true)
    }

    function ClosingSignal(): Stream {
      if emptySet then this else this.(emptySet := true, signalled := true)
    }

    function Closing(): Stream {
      if checkpointSet then this else SettingCheckpoint().ClosingRecords().ClosingSignal()
    }
  }

  function NewStream(capacity: nat): Stream {
    Stream([], capacity, false, false, true, false, [], Checkpoint(0, ""), false, false)
  }

  // ---- sequences of calls ----

  /** A call on a stream. `sent` is false if the record was given up; ReceiveOne is the consumer's. */
  datatype Call =
    | UpdateId(id: int)
    | UpdateText(text: string)
    | GetCheckpoint
    | Add(record: Record, sent: bool)
    | ReceiveOne
    | SignalEmpty
    | SignalNotEmpty
    | CloseStream

  predicate IsSignal(call: Call) {
    call.SignalEmpty? || call.SignalNotEmpty?
  }

  /** Reading the checkpoint of an active stream, sending on or closing a closed channel. */
  predicate Panics(s: Stream, call: Call) {
    match call
    case GetCheckpoint => !s.checkpointSet
    case Add(_, _) => s.closed
    case SignalEmpty => s.signalled
    case SignalNotEmpty => s.signalled
    case CloseStream => !s.checkpointSet && (s.closed || (!s.emptySet && s.signalled))
    case _ => false
  }

  /** The call does not block: a send finds room, a receive finds a record. */
  predicate Proceeds(s: Stream, call: Call) {
    match call
    case Add(_, sent) => sent ==> s.HasRoom()
    case ReceiveOne => s.records != []
    case _ => true
  }

  function AfterCall(s: Stream, call: Call): Stream
    requires Proceeds(s, call)
  {
    match call
    case UpdateId(id) => s.UpdatingId(id)
    case UpdateText(text) => s.UpdatingText(text)
    case GetCheckpoint => s
    case Add(record, sent) => if sent then s.Noting(record).Sending(record) else s.Noting(record)
    case ReceiveOne => s.Receiving()
    case SignalEmpty => s.SignallingEmpty()
    case SignalNotEmpty => s.SignallingNotEmpty()
    case CloseStream => s.Closing()
  }

  /** No call blocks for ever. */
  predicate Proceed(capacity: nat, calls: seq<Call>)
    decreases |calls|, 0
  {
    calls == [] ||
    (var before := calls[..|calls| - 1];
     Proceed(capacity, before) && Proceeds(AfterCalls(capacity, before), calls[|calls| - 1]))
  }

  function AfterCalls(capacity: nat, calls: seq<Call>): Stream
    requires Proceed(capacity, calls)
    decreases |calls|, 1
  {
    if calls == [] then NewStream(capacity)
    else AfterCall(AfterCalls(capacity, calls[..|calls| - 1]), calls[|calls| - 1])
  }

  /** None of the calls on a new stream panics. */
  predicate Safe(capacity: nat, calls: seq<Call>)
    requires Proceed(capacity, calls)
    decreases |calls|
  {
    calls == [] ||
    (var before := calls[..|calls| - 1];
     Safe(capacity, before) && !Panics(AfterCalls(capacity, before), calls[|calls| - 1]))
  }

  lemma Append(capacity: nat, calls: seq<Call>, call: Call)
    requires Proceed(capacity, calls) && Proceeds(AfterCalls(capacity, calls), call)
    ensures Proceed(capacity, calls + [call])
    ensures AfterCalls(capacity, calls + [call]) == AfterCall(AfterCalls(capacity, calls), call)
    ensures Safe(capacity, calls + [call]) <==> Safe(capacity, calls) && !Panics(AfterCalls(capacity, calls), call)
  {
    assert (calls + [call])[..|calls|] == calls;
  }

  // ---- which calls panic ----

  /** What a caller can tell from the calls so far. */
  predicate WasClosed(calls: seq<Call>) {
    CloseStream in calls
  }

  predicate WasSignalled(calls: seq<Call>) {
    SignalEmpty in calls || SignalNotEmpty in calls || CloseStream in calls
  }

  /** `call` may follow `before`: one signal at most, before Close; no record after it, no checkpoint before. */
  predicate MayFollow(before: seq<Call>, call: Call) {
    match call
    case GetCheckpoint => WasClosed(before)
    case Add(_, _) => !WasClosed(before)
    case SignalEmpty => !WasSignalled(before)
    case SignalNotEmpty => !WasSignalled(before)
    case _ => true
  }

  ghost predicate WellOrdered(calls: seq<Call>) {
    forall i | 0 <= i < |calls| :: MayFollow(calls[..i], calls[i])
  }

  lemma WellOrderedAppend(calls: seq<Call>)
    requires calls != []
    ensures var before, last := calls[..|calls| - 1], calls[|calls| - 1];
      WellOrdered(calls) <==> WellOrdered(before) && MayFollow(before, last)
  {
    var before := calls[..|calls| - 1];
    assert forall i | 0 <= i < |before| :: calls[..i] == before[..i] && calls[i] == before[i];
  }

  /** What the flags of a stream mean after calls that did not panic. */
  ghost predicate Flags(s: Stream, calls: seq<Call>) {
    && s.closed == s.checkpointSet == WasClosed(calls)
    && s.signalled == s.emptySet == WasSignalled(calls)
    && (s.empty <==> SignalNotEmpty !in calls)
  }

  lemma {:induction false} FlagsHold(capacity: nat, calls: seq<Call>)
    requires Proceed(capacity, calls) && Safe(capacity, calls)
    ensures Flags(AfterCalls(capacity, calls), calls)
    decreases |calls|
  {
    if calls != [] {
      var before, last := calls[..|calls| - 1], calls[|calls| - 1];
      FlagsHold(capacity, before);
      assert calls == before + [last];
    }
  }

  /**
   Whatever is called in whatever order, a panic comes exactly of a second signal, a signal
   or record after Close, or asking for the checkpoint before it. Close itself never panics.
   */
  lemma {:induction false} PanicsExactly(capacity: nat, calls: seq<Call>)
    requires Proceed(capacity, calls)
    ensures Safe(capacity, calls) <==> WellOrdered(calls)
    decreases |calls|
  {
    if calls != [] {
      PanicsExactly(capacity, calls[..|calls| - 1]);
      WellOrderedAppend(calls);
      if Safe(capacity, calls[..|calls| - 1]) {
        FlagsHold(capacity, calls[..|calls| - 1]);
      }
    }
  }

  // ---- what a stream holds ----

  /** The largest id ever passed, or zero. */
  ghost predicate IsLargestId(id: int, calls: seq<Call>) {
    && (id == 0 || UpdateId(id) in calls) && id >= 0
    && forall call <- calls :: call.UpdateId? ==> call.id <= id
  }

  /** The text passed last, or none. */
  ghost predicate IsLastText(text: string, calls: seq<Call>) {
    || (text == "" && forall call <- calls :: !call.UpdateText?)
    || exists i | 0 <= i < |calls| ::
         calls[i] == UpdateText(text) && forall j | i < j < |calls| :: !calls[j].UpdateText?
  }

  ghost predicate RowOffered(calls: seq<Call>) {
    exists call <- calls :: call.Add? && call.record.isRow
  }

  function Sent(calls: seq<Call>): seq<Record> {
    if calls == [] then []
    else
      var last := calls[|calls| - 1];
      Sent(calls[..|calls| - 1]) + if last.Add? && last.sent then [last.record] else []
  }

  function Receives(calls: seq<Call>): nat {
    if calls == [] then 0 else Receives(calls[..|calls| - 1]) + if calls[|calls| - 1].ReceiveOne? then 1 else 0
  }

  /** After any calls the checkpoint is the largest id with the last text. */
  lemma {:induction false} CheckpointMeans(capacity: nat, calls: seq<Call>)
    requires Proceed(capacity, calls)
    ensures IsLargestId(AfterCalls(capacity, calls).checkpoint.id, calls)
    ensures IsLastText(AfterCalls(capacity, calls).checkpoint.text, calls)
    decreases |calls|
  {
    if calls != [] {
      var before, last := calls[..|calls| - 1], calls[|calls| - 1];
      CheckpointMeans(capacity, before);
      assert calls == before + [last];
      assert last in calls;
      LastTextStays(AfterCalls(capacity, before).checkpoint.text, before, last);
    }
  }

  lemma LargestIdGrows(id: int, calls: seq<Call>, call: Call)
    requires IsLargestId(id, calls)
    ensures IsLargestId(if call.UpdateId? && call.id > id then call.id else id, calls + [call])
  {
    assert call in calls + [call];
    assert forall other :: other in calls + [call] <==> other in calls || other == call;
  }

  lemma LastTextStays(text: string, calls: seq<Call>, call: Call)
    requires IsLastText(text, calls)
    ensures IsLastText(if call.UpdateText? then call.text else text, calls + [call])
  {
    var all := calls + [call];
    assert all[|calls|] == call;
    if !call.UpdateText? && !(text == "" && forall c <- calls :: !c.UpdateText?) {
      var i :| 0 <= i < |calls| && calls[i] == UpdateText(text) && forall j | i < j < |calls| :: !calls[j].UpdateText?;
      assert all[i] == UpdateText(text);
    }
  }

  lemma RowOfferedAppend(calls: seq<Call>, call: Call)
    ensures RowOffered(calls + [call]) <==> RowOffered(calls) || (call.Add? && call.record.isRow)
  {
    assert call in calls + [call];
    assert forall other :: other in calls + [call] <==> other in calls || other == call;
  }

  /** The row flag is up exactly if a row was offered, sent or not. */
  lemma {:induction false} RowFlagMeans(capacity: nat, calls: seq<Call>)
    requires Proceed(capacity, calls)
    ensures AfterCalls(capacity, calls).needsNormalize <==> RowOffered(calls)
    decreases |calls|
  {
    if calls != [] {
      var before, last := calls[..|calls| - 1], calls[|calls| - 1];
      RowFlagMeans(capacity, before);
      assert calls == before + [last];
      RowOfferedAppend(before, last);
    }
  }

  /** The channel is a bounded queue: it buffers what was sent and not yet received, in order. */
  lemma {:induction false} BufferMeans(capacity: nat, calls: seq<Call>)
    requires Proceed(capacity, calls)
    ensures Receives(calls) <= |Sent(calls)|
    ensures AfterCalls(capacity, calls).records == Sent(calls)[Receives(calls)..]
    ensures |AfterCalls(capacity, calls).records| <= capacity == AfterCalls(capacity, calls).capacity
    decreases |calls|
  {
    if calls != [] {
      var before, last := calls[..|calls| - 1], calls[|calls| - 1];
      BufferMeans(capacity, before);
      var sent, taken := Sent(before), Receives(before);
      match last
      case Add(record, true) => assert (sent + [record])[taken..] == sent[taken..] + [record];
      case ReceiveOne => assert sent[taken..][1..] == sent[taken + 1..];
      case _ =>
        assert AfterCalls(capacity, calls).records == AfterCalls(capacity, before).records;
        assert Sent(calls) == sent && Receives(calls) == taken;
    }
  }

  // ---- the object ----

  class CdcStream {
    var records: seq<Record>
    const capacity: nat
    var recordsClosed: bool
    var emptySignalClosed: bool
    var lastCheckpointText: string
    var schemaDeltas: seq<string>
    var lastCheckpointID: int
    var lastCheckpointSet: bool
    var needsNormalize: bool
    var empty: bool
    var emptySet: bool
    /** The calls so far that changed something. */
    ghost var calls: seq<Call>

    ghost function View(): Stream
      reads this
    {
      Stream(records, capacity, recordsClosed, emptySignalClosed, empty, emptySet, [],
             Checkpoint(lastCheckpointID, lastCheckpointText), lastCheckpointSet, needsNormalize)
    }

    ghost predicate Valid()
      reads this
    {
      Proceed(capacity, calls) && Safe(capacity, calls) && View() == AfterCalls(capacity, calls)
    }

    constructor (channelBuffer: nat)
      ensures Valid() && calls == [] && capacity == channelBuffer && schemaDeltas == []
    {
      records, capacity, recordsClosed, emptySignalClosed := [], channelBuffer, false, false;
      lastCheckpointText, schemaDeltas, lastCheckpointID, lastCheckpointSet := "", [], 0, false;
      needsNormalize, empty, emptySet, calls := false, true, false, [];
    }

    method UpdateLatestCheckpointID(val: int)
      requires Valid()
      modifies this
      ensures Valid() && calls == old(calls) + [UpdateId(val)] && schemaDeltas == old(schemaDeltas)
    {
      Append(capacity, calls, UpdateId(val));
      lastCheckpointID := if lastCheckpointID < val then val else lastCheckpointID;
      calls := calls + [UpdateId(val)];
    }

    method UpdateLatestCheckpointText(val: string)
      requires Valid()
      modifies this
      ensures Valid() && calls == old(calls) + [UpdateText(val)] && schemaDeltas == old(schemaDeltas)
    {
      Append(capacity, calls, UpdateText(val));
      lastCheckpointText := val;
      calls := calls + [UpdateText(val)];
    }

    /** Panics unless the stream was closed; otherwise the largest id with the last text. */
    method GetLastCheckpoint() returns (c: Checkpoint)
      requires Valid() && MayFollow(calls, GetCheckpoint)
      ensures IsLargestId(c.id, calls) && IsLastText(c.text, calls)
    {
      CheckpointMeans(capacity, calls);
      c := Checkpoint(lastCheckpointID, lastCheckpointText);
    }

    /**
     The call blocks while the channel is full and the context alive, and panics on a closed
     one. It gives up only when the channel is full.
     */
    method AddRecord(record: Record, cancelled: bool) returns (ok: bool)
      requires Valid() && MayFollow(calls, Add(record, true))
      requires |records| < capacity || cancelled
      modifies this
      ensures Valid() && calls == old(calls) + [Add(record, ok)] && schemaDeltas == old(schemaDeltas)
      ensures ok <==> |old(records)| < capacity
    {
      FlagsHold(capacity, calls);
      ok := |records| < capacity;
      Append(capacity, calls, Add(record, ok));
      if !needsNormalize {
        needsNormalize := record.isRow;
      }
      if ok {
        records := records + [record];
      }
      calls := calls + [Add(record, ok)];
    }

    /** The consumer takes the oldest record it has not received yet. */
    method ReceiveRecord() returns (record: Record)
      requires Valid() && records != []
      modifies this
      ensures Valid() && calls == old(calls) + [ReceiveOne] && schemaDeltas == old(schemaDeltas)
      ensures Receives(old(calls)) < |Sent(old(calls))| && record == Sent(old(calls))[Receives(old(calls))]
    {
      BufferMeans(capacity, calls);
      Append(capacity, calls, ReceiveOne);
      record := records[0];
      records := records[1..];
      calls := calls + [ReceiveOne];
    }

    /** Panics if the signal was already given. */
    method SignalAsEmpty()
      requires Valid() && MayFollow(calls, SignalEmpty)
      modifies this
      ensures Valid() && calls == old(calls) + [SignalEmpty] && schemaDeltas == old(schemaDeltas)
      ensures empty
    {
      FlagsHold(capacity, calls);
      Append(capacity, calls, SignalEmpty);
      emptySet := true;
      emptySignalClosed := true;
      calls := calls + [SignalEmpty];
    }

    method SignalAsNotEmpty()
      requires Valid() && MayFollow(calls, SignalNotEmpty)
      modifies this
      ensures Valid() && calls == old(calls) + [SignalNotEmpty] && schemaDeltas == old(schemaDeltas)
    {
      FlagsHold(capacity, calls);
      Append(capacity, calls, SignalNotEmpty);
      empty, emptySet := false, true;
      emptySignalClosed := true;
      calls := calls + [SignalNotEmpty];
    }

    /** Blocks until a signal or Close; a stream is empty unless someone said otherwise. */
    method WaitAndCheckEmpty() returns (isEmpty: bool)
      requires Valid() && WasSignalled(calls)
      ensures isEmpty <==> SignalNotEmpty !in calls
    {
      FlagsHold(capacity, calls);
      isEmpty := empty;
    }

    /** Never panics, and a second call changes nothing. */
    method Close()
      requires Valid()
      modifies this
      ensures Valid() && calls == old(calls) + [CloseStream] && schemaDeltas == old(schemaDeltas)
      ensures WasClosed(old(calls)) ==> View() == old(View())
    {
      FlagsHold(capacity, calls);
      Append(capacity, calls, CloseStream);
      if !lastCheckpointSet {
        lastCheckpointSet := true;
        recordsClosed := true;
        if !emptySet {
          emptySet := true;
          emptySignalClosed := true;
        }
      }
      calls := calls + [CloseStream];
    }

    /** The row flag tells whether a row was offered, given up or not. */
    method NeedsNormalize() returns (needs: bool)
      requires Valid()
      ensures needs <==> RowOffered(calls)
    {
      RowFlagMeans(capacity, calls);
      needs := needsNormalize;
    }
  }
}
