/** `startNormalize` of flow/activities/flowable_core.go as the loop it is. */
module StartNormalizes {
  import opened CdcProtocol
  import opened CdcDelivery

  /** A destination peer; `normalizes` is false when it has no normalize connector. */
  class Destination {
    var d: Durable
    const normalizes: bool

    constructor (d: Durable, normalizes: bool)
      ensures this.d == d && this.normalizes == normalizes
    {
      this.d := d;
      this.normalizes := normalizes;
    }

    /**
     What every connector's NormalizeRecords does: nothing if `batchID` is already
     merged, otherwise merge from the batch after the last one, not necessarily
     all the way. A failing call, `ok` false, may have merged some batches too.
     */
    method NormalizeRecords(batchID: int, ok: bool) returns (end: int)
      modifies this
      ensures old(d).normId <= d.normId
      ensures d.normId == old(d).normId || d.normId <= batchID
      ensures d == MergeUpTo(old(d), d.normId)
      ensures ok ==> if old(d).normId >= batchID then end == batchID && d == old(d)
                     else old(d).normId < end == d.normId
    {
      end := batchID;
      if d.normId < batchID {
        var reached: nat :| d.normId < reached <= batchID;
        if !ok {
          reached := *;
          if !(d.normId <= reached <= batchID) {
            reached := d.normId;
          }
        }
        end := reached;
        d := MergeUpTo(d, reached);
      }
    }
  }

  /** The ids passed to normalizeResponses.Update, oldest first. */
  class Responses {
    var sent: seq<int>

    constructor ()
      ensures sent == []
    {
      sent := [];
    }

    method Update(v: int)
      modifies this
      ensures sent == old(sent) + [v]
    {
      sent := sent + [v];
    }
  }

  ghost predicate Ascending(ids: seq<int>) {
    forall i, j | 0 <= i < j < |ids| :: ids[i] < ids[j]
  }

  lemma AscendingAppend(ids: seq<int>, id: int)
    requires Ascending(ids) && forall i <- ids :: i < id
    ensures Ascending(ids + [id])
  {
    assert forall k | 0 <= k < |ids| :: ids[k] in ids;
  }

  lemma MergeTwice(d: Durable, a: nat, b: nat)
    requires d.normId <= a <= b
    ensures MergeUpTo(MergeUpTo(d, a), b) == MergeUpTo(d, b)
  {
    BatchesSplit(d.stage, d.normId, a, b);
    assert d.merged + (Batches(d.stage, d.normId, a) + Batches(d.stage, a, b))
        == (d.merged + Batches(d.stage, d.normId, a)) + Batches(d.stage, a, b);
  }

  /**
   What can fail: getting the connector or the table schemas, and in each round the call of
   NormalizeRecords or the bookkeeping write after it.
   */
  datatype Faults = Faults(connected: bool, called: nat -> bool, written: nat -> bool)

  predicate RoundWorks(f: Faults, normalizes: bool, round: nat) {
    (normalizes ==> f.called(round)) && f.written(round)
  }

  /**
   Whatever happens the destination has merged a consecutive range, each batch once,
   and never past `batchID`; on success everything up to `batchID` is merged and the
   answers ascended to exactly `batchID`. It fails exactly if connecting or its last round
   did; every round before that worked and was answered.
   */
  method StartNormalize(dest: Destination, batchID: int, responses: Responses, f: Faults)
    returns (ok: bool, rounds: nat)
    modifies dest, responses
    ensures old(dest.d).normId <= dest.d.normId
    ensures dest.d.normId == old(dest.d).normId || dest.d.normId <= batchID
    ensures dest.d == MergeUpTo(old(dest.d), dest.d.normId)
    ensures !dest.normalizes ==> dest.d == old(dest.d)
    ensures old(responses.sent) <= responses.sent
    ensures Ascending(responses.sent[|old(responses.sent)|..])
    ensures forall id <- responses.sent[|old(responses.sent)|..] ::
              id <= batchID && (dest.normalizes ==> id <= dest.d.normId)
    ensures ok ==>
      && (dest.normalizes ==> batchID <= dest.d.normId)
      && |responses.sent| > |old(responses.sent)| && responses.sent[|responses.sent| - 1] == batchID
    ensures f.connected <==> rounds > 0
    ensures ok <==> f.connected && RoundWorks(f, dest.normalizes, rounds - 1)
    ensures forall i | 0 <= i < rounds - 1 :: RoundWorks(f, dest.normalizes, i)
    ensures !f.connected ==> dest.d == old(dest.d) && responses.sent == old(responses.sent)
    ensures f.connected ==>
      |responses.sent| - |old(responses.sent)| == if dest.normalizes && !ok then rounds - 1 else rounds
  {
    rounds := 0;
    if !f.connected {
      return false, rounds;
    }
    if !dest.normalizes {
      responses.Update(batchID);
      return f.written(0), 1;
    }
    ghost var first := |responses.sent|;
    var end := dest.d.normId;
    while true
      invariant old(dest.d).normId <= dest.d.normId && dest.d == MergeUpTo(old(dest.d), dest.d.normId)
      invariant dest.d.normId == old(dest.d).normId || dest.d.normId <= batchID
      invariant first == |old(responses.sent)| && old(responses.sent) <= responses.sent
      invariant Ascending(responses.sent[first..]) && |responses.sent| == first + rounds
      invariant forall id <- responses.sent[first..] :: id <= dest.d.normId && id < batchID
      invariant forall i | 0 <= i < rounds :: RoundWorks(f, true, i)
      invariant end == dest.d.normId
      decreases batchID - end
    {
      ghost var before := dest.d;
      end := dest.NormalizeRecords(batchID, f.called(rounds));
      MergeTwice(old(dest.d), before.normId, dest.d.normId);
      rounds := rounds + 1;
      if !f.called(rounds - 1) || !f.written(rounds - 1) {
        return false, rounds;
      }
      ghost var sent := responses.sent;
      responses.Update(end);
      assert responses.sent[first..] == sent[first..] + [end];
      AscendingAppend(sent[first..], end);
      if end >= batchID {
        return true, rounds;
      }
    }
  }
}
