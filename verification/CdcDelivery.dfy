/**
 Delivery: in every run, with crashes, failures and restarts at any step, the finished
 batches hold what the source published up to the stored offset, in order and with nothing
 lost, and the destination holds a prefix of them. They hold it exactly once unless a
 batch was finished whose pull had failed past its checkpoint; this module says exactly
 what is repeated then.
 */
module CdcDelivery {
  import opened Changes
  import opened Options
  import opened CdcProtocol
  import opened Subsequences

  // ---- logs and batches ----

  /** The source published nothing between positions `a` and `b`. */
  ghost predicate Quiet(log: seq<Entry>, a: nat, b: nat) {
    forall i :: a <= i < b && i < |log| ==> log[i].Unpublished?
  }

  lemma {:induction false} RecordsSplit(a: seq<Entry>, b: seq<Entry>)
    ensures Records(a + b) == Records(a) + Records(b)
  {
    if b == [] {
      assert a + b == a;
    } else {
      var rest := b[..|b| - 1];
      assert (a + b)[..|a + b| - 1] == a + rest;
      RecordsSplit(a, rest);
    }
  }

  lemma {:induction false} RecordsEmpty(es: seq<Entry>)
    ensures Records(es) == [] <==> forall i | 0 <= i < |es| :: es[i].Unpublished?
  {
    if es != [] {
      RecordsEmpty(es[..|es| - 1]);
    }
  }

  lemma RecordsAcross(log: seq<Entry>, a: nat, b: nat)
    requires a <= b <= |log|
    ensures Records(log[..b]) == Records(log[..a]) + Records(log[a..b])
    ensures Records(log[a..b]) == [] <==> Quiet(log, a, b)
  {
    assert log[..b] == log[..a] + log[a..b];
    RecordsSplit(log[..a], log[a..b]);
    RecordsEmpty(log[a..b]);
    assert forall i | a <= i < b :: log[i] == log[a..b][i - a];
  }

  /** Positions with nothing published between them mark the same records. */
  lemma RecordsSkip(log: seq<Entry>, a: nat, b: nat)
    requires a <= b <= |log| && Quiet(log, a, b)
    ensures Records(log[..a]) == Records(log[..b])
  {
    RecordsAcross(log, a, b);
  }

  lemma {:induction false} BatchesSplit(stage: map<nat, seq<Record>>, a: nat, b: nat, c: nat)
    requires a <= b <= c
    ensures Batches(stage, a, c) == Batches(stage, a, b) + Batches(stage, b, c)
    decreases c
  {
    if b < c {
      BatchesSplit(stage, a, b, c - 1);
    }
  }

  lemma {:induction false} BatchesFrame(stage: map<nat, seq<Record>>, id: nat, batch: seq<Record>, a: nat, b: nat)
    requires id > b
    ensures Batches(stage[id := batch], a, b) == Batches(stage, a, b)
    decreases b
  {
    if a < b {
      BatchesFrame(stage, id, batch, a, b - 1);
    }
  }

  // ---- what is repeated ----

  /** `all` holds `published` in order, and beyond it the records of `overrun` and nothing else. */
  ghost predicate Covers(all: seq<Record>, published: seq<Record>, overrun: seq<Record>) {
    && Subsequence(published, all)
    && multiset(all) == multiset(published) + multiset(overrun)
    && (overrun == [] ==> all == published)
  }

  /** One more batch: what was published up to its checkpoint, then what lies past it. */
  lemma CoversMore(all: seq<Record>, published: seq<Record>, overrun: seq<Record>,
                   more: seq<Record>, past: seq<Record>)
    requires Covers(all, published, overrun)
    ensures Covers(all + (more + past), published + more, overrun + past)
  {
    SubsequenceExtended(published, all, more);
    SubsequencePadded(published + more, all + more, past);
    assert all + (more + past) == (all + more) + past;
    assert past == [] ==> more + past == more;
  }

  /** Something is repeated exactly if there is an overrun. */
  lemma CoversExactly(all: seq<Record>, published: seq<Record>, overrun: seq<Record>)
    requires Covers(all, published, overrun)
    ensures |all| == |published| + |overrun|
    ensures all == published <==> overrun == []
  {
    assert |multiset(all)| == |multiset(published)| + |multiset(overrun)|;
  }

  lemma SameTail(a: seq<Record>, x: seq<Record>, y: seq<Record>)
    requires a + x == a + y
    ensures x == y
  {
    assert x == (a + x)[|a|..] && y == (a + y)[|a|..];
  }

  // ---- the invariant ----

  /** What the source may discard is stored, but for positions with nothing published. */
  ghost predicate OffsetsAgree(c: Config, d: Durable) {
    && d.trimmed <= d.confirmed <= |d.log|
    && d.offset <= |d.log|
    && Quiet(d.log, d.offset, d.confirmed)
    && (!c.offsetOnDestination ==> d.confirmed <= d.offset)
  }

  ghost predicate Contiguous(d: Durable) {
    forall i | 1 <= i <= d.syncId :: i in d.stage
  }

  ghost predicate Delivered(c: Config, d: Durable) {
    && OffsetsAgree(c, d)
    && Contiguous(d)
    && Covers(Batches(d.stage, 0, d.syncId), Records(d.log[..d.offset]), d.overrun)
    && d.normId <= d.syncId
    && d.merged == Batches(d.stage, 0, d.normId)
  }

  ghost predicate SyncConsistent(d: Durable, sync: SyncPc) {
    match sync
    case GotOffset(from) => from <= d.offset && Quiet(d.log, from, d.offset)
    case Pulling(from, id) => from <= d.offset && Quiet(d.log, from, d.offset) && id == d.syncId + 1
    case Staged(id, cp, _) =>
      && id == d.syncId + 1 && id in d.stage
      && d.offset < cp <= |d.log|
      && d.stage[id] == Records(d.log[d.offset..cp])
    case PartStaged(id, cp, past) =>
      && id == d.syncId + 1 && id in d.stage
      && Max(d.offset, cp) <= |d.log|
      && d.stage[id] == Records(d.log[d.offset..Max(d.offset, cp)]) + past
    case Finished(id, cp, _) => id == d.syncId && cp == d.offset
    case Bookkeeping(id, _) => id == d.syncId
    case Request(id) => id == d.syncId
    case RequestSwap(id) => id == d.syncId
    case RequestWake(id, _) => id == d.syncId
    case Check(id) => id == d.syncId
    case Arm(id, _) => id == d.syncId
    case Asleep(id, _, _) => id == d.syncId
    case _ => true
  }

  /** Every batch id the normalizer handles was requested, hence is finished. */
  ghost predicate NormConsistent(r: Run) {
    match r.norm
    case Compare(req) => req <= r.requests.val
    case ArmRequests(req) => req <= r.requests.val
    case Dozing(req, _) => req <= r.requests.val
    case Begin(req) => 0 <= req <= r.requests.val
    case Connect(req) => 0 <= req <= r.requests.val
    case Call(req) => 0 <= req <= r.requests.val
    case Respond(req, end) => 0 <= req <= r.requests.val && end <= req
    case RespondSwap(req, end) => 0 <= req <= r.requests.val && end <= req
    case RespondWake(req, end, _) => 0 <= req <= r.requests.val && end <= req
    case Answered(req, end) => 0 <= req <= r.requests.val && end <= req
    case Failed(req) => 0 <= req <= r.requests.val
    case _ => true
  }

  ghost predicate RunConsistent(d: Durable, r: Run) {
    && SyncConsistent(d, r.sync)
    && NormConsistent(r)
    && 0 <= r.requests.val <= d.syncId
    && 0 <= r.normalizing
  }

  ghost predicate Consistent(c: Config, s: State) {
    Delivered(c, s.d) && (s.run.Some? ==> RunConsistent(s.d, s.run.value))
  }

  // ---- it is kept by every step ----

  lemma StageKeeps(c: Config, d: Durable, id: nat, batch: seq<Record>)
    requires Delivered(c, d) && id == d.syncId + 1
    ensures Delivered(c, d.(stage := d.stage[id := batch]))
  {
    BatchesFrame(d.stage, id, batch, 0, d.syncId);
    BatchesFrame(d.stage, id, batch, 0, d.normId);
  }

  /** A pull from a stale or trimmed offset gets exactly what was published after the stored one. */
  lemma PullGetsMissing(c: Config, d: Durable, from: nat, to: nat)
    requires Delivered(c, d) && from <= d.offset && Quiet(d.log, from, d.offset)
    requires PullFrom(d, from) <= to <= |d.log| && Records(d.log[PullFrom(d, from)..to]) != []
    ensures d.offset < to
    ensures Records(d.log[PullFrom(d, from)..to]) == Records(d.log[d.offset..to])
  {
    var start := PullFrom(d, from);
    RecordsAcross(d.log, start, to);
    RecordsSkip(d.log, from, d.offset);
    if from < start {
      assert Quiet(d.log, from, start);
      RecordsSkip(d.log, from, start);
    }
    assert d.offset < to || Quiet(d.log, start, to);
    RecordsAcross(d.log, d.offset, to);
    SameTail(Records(d.log[..d.offset]), Records(d.log[start..to]), Records(d.log[d.offset..to]));
  }

  /** Writing under the next id harms nothing, whatever it leaves sync with. */
  lemma StagedKeeps(c: Config, d: Durable, r: Run, batch: seq<Record>, sync: SyncPc)
    requires Delivered(c, d) && RunConsistent(d, r)
    requires SyncConsistent(d.(stage := d.stage[d.syncId + 1 := batch]), sync)
    ensures Consistent(c, State(d.(stage := d.stage[d.syncId + 1 := batch]), Some(r.(sync := sync))))
  {
    StageKeeps(c, d, d.syncId + 1, batch);
  }

  lemma StageBatchKeeps(c: Config, d: Durable, r: Run, to: nat)
    requires Delivered(c, d) && RunConsistent(d, r) && SyncEnabled(c, d, r, StageBatch(to))
    ensures Consistent(c, AfterSync(c, d, r, StageBatch(to)))
  {
    var batch := Records(d.log[PullFrom(d, r.sync.from)..to]);
    PullGetsMissing(c, d, r.sync.from, to);
    StagedKeeps(c, d, r, batch, Staged(d.syncId + 1, to, AnyRow(batch)));
  }

  /** What a failed pull sent is what was published up to its checkpoint and what lies past it. */
  lemma PartSplits(log: seq<Entry>, offset: nat, next: nat, to: nat)
    requires offset <= next <= to <= |log|
    ensures Records(log[offset..to]) == Records(log[offset..next]) + Records(log[next..to])
  {
    assert log[offset..to] == log[offset..next] + log[next..to];
    RecordsSplit(log[offset..next], log[next..to]);
  }

  lemma PartIsPulled(c: Config, d: Durable, from: nat, to: nat, cp: nat)
    requires Delivered(c, d) && from <= d.offset && Quiet(d.log, from, d.offset)
    requires PullFrom(d, from) <= to <= |d.log| && Records(d.log[PullFrom(d, from)..to]) != [] && cp <= to
    ensures Max(d.offset, cp) <= |d.log|
    ensures Records(d.log[PullFrom(d, from)..to]) == Records(d.log[d.offset..Max(d.offset, cp)]) + Past(d, to, cp)
  {
    PullGetsMissing(c, d, from, to);
    PartSplits(d.log, d.offset, Max(d.offset, cp), to);
  }

  lemma StagePartKeeps(c: Config, d: Durable, r: Run, to: nat, cp: nat)
    requires Delivered(c, d) && RunConsistent(d, r) && SyncEnabled(c, d, r, StagePart(to, cp))
    ensures Consistent(c, AfterSync(c, d, r, StagePart(to, cp)))
  {
    PartIsPulled(c, d, r.sync.from, to, cp);
    StagedKeeps(c, d, r, Records(d.log[PullFrom(d, r.sync.from)..to]), PartStaged(d.syncId + 1, cp, Past(d, to, cp)));
  }

  lemma StageJunkKeeps(c: Config, d: Durable, r: Run, junk: seq<Record>)
    requires Delivered(c, d) && RunConsistent(d, r) && SyncEnabled(c, d, r, StageJunk(junk))
    ensures Consistent(c, AfterSync(c, d, r, StageJunk(junk)))
  {
    StagedKeeps(c, d, r, junk, r.sync);
  }

  /** One more batch, of what was published up to `next` and what lies past it. */
  lemma FinishCovers(d: Durable, next: nat, past: seq<Record>)
    requires d.syncId + 1 in d.stage && d.offset <= next <= |d.log|
    requires Covers(Batches(d.stage, 0, d.syncId), Records(d.log[..d.offset]), d.overrun)
    requires d.stage[d.syncId + 1] == Records(d.log[d.offset..next]) + past
    ensures Covers(Batches(d.stage, 0, d.syncId + 1), Records(d.log[..next]), d.overrun + past)
  {
    CoversMore(Batches(d.stage, 0, d.syncId), Records(d.log[..d.offset]), d.overrun,
               Records(d.log[d.offset..next]), past);
    RecordsAcross(d.log, d.offset, next);
  }

  lemma FinishContiguous(c: Config, d: Durable, next: nat, past: seq<Record>)
    requires Contiguous(d) && d.syncId + 1 in d.stage
    requires OffsetsAgree(c, d) && d.offset <= next <= |d.log|
    ensures var d' := d.(offset := next, syncId := d.syncId + 1, overrun := d.overrun + past);
      Contiguous(d') && OffsetsAgree(c, d')
  {
  }

  lemma FinishDelivers(c: Config, d: Durable, next: nat, past: seq<Record>)
    requires Delivered(c, d) && d.syncId + 1 in d.stage && d.offset <= next <= |d.log|
    requires d.stage[d.syncId + 1] == Records(d.log[d.offset..next]) + past
    ensures Delivered(c, d.(offset := next, syncId := d.syncId + 1, overrun := d.overrun + past))
  {
    FinishCovers(d, next, past);
    FinishContiguous(c, d, next, past);
  }

  lemma FinishBatchKeeps(c: Config, d: Durable, r: Run)
    requires Delivered(c, d) && RunConsistent(d, r) && SyncEnabled(c, d, r, FinishBatch)
    ensures Consistent(c, AfterSync(c, d, r, FinishBatch))
  {
    assert d.stage[r.sync.id] + [] == d.stage[r.sync.id];
    assert d.overrun + [] == d.overrun;
    FinishDelivers(c, d, r.sync.cp, []);
  }

  lemma FinishPartKeeps(c: Config, d: Durable, r: Run)
    requires Delivered(c, d) && RunConsistent(d, r) && SyncEnabled(c, d, r, FinishPart)
    ensures Consistent(c, AfterSync(c, d, r, FinishPart))
  {
    FinishDelivers(c, d, Max(d.offset, r.sync.cp), r.sync.past);
  }

  lemma KeepAliveKeeps(c: Config, d: Durable, r: Run, to: nat)
    requires Delivered(c, d) && RunConsistent(d, r) && SyncEnabled(c, d, r, KeepAlive(to))
    ensures Consistent(c, AfterSync(c, d, r, KeepAlive(to)))
  {
    RecordsAcross(d.log, PullFrom(d, r.sync.from), to);
    assert Quiet(d.log, r.sync.from, to);
    RecordsSkip(d.log, d.offset, Max(d.offset, to));
  }

  lemma ConfirmKeeps(c: Config, d: Durable, r: Run, step: SyncStep)
    requires Delivered(c, d) && RunConsistent(d, r) && SyncEnabled(c, d, r, step)
    requires step.InitialFlush? || step.ConfirmBatch?
    ensures Consistent(c, AfterSync(c, d, r, step))
  {
  }

  predicate Stages(step: SyncStep) {
    step.StageBatch? || step.StagePart? || step.StageJunk?
  }

  predicate Finishes(step: SyncStep) {
    step.FinishBatch? || step.FinishPart?
  }

  predicate MovesOffset(step: SyncStep) {
    step.KeepAlive? || step.InitialFlush? || step.ConfirmBatch?
  }

  lemma StagingKeeps(c: Config, d: Durable, r: Run, step: SyncStep)
    requires Delivered(c, d) && RunConsistent(d, r) && SyncEnabled(c, d, r, step) && Stages(step)
    ensures Consistent(c, AfterSync(c, d, r, step))
  {
    match step
    case StageBatch(to) => StageBatchKeeps(c, d, r, to);
    case StagePart(to, cp) => StagePartKeeps(c, d, r, to, cp);
    case StageJunk(junk) => StageJunkKeeps(c, d, r, junk);
  }

  lemma OffsetKeeps(c: Config, d: Durable, r: Run, step: SyncStep)
    requires Delivered(c, d) && RunConsistent(d, r) && SyncEnabled(c, d, r, step)
    requires Finishes(step) || MovesOffset(step)
    ensures Consistent(c, AfterSync(c, d, r, step))
  {
    match step
    case FinishBatch => FinishBatchKeeps(c, d, r);
    case FinishPart => FinishPartKeeps(c, d, r);
    case KeepAlive(to) => KeepAliveKeeps(c, d, r, to);
    case _ => ConfirmKeeps(c, d, r, step);
  }

  /** The other steps of sync touch nothing durable. */
  lemma VolatileSyncKeeps(c: Config, d: Durable, r: Run, step: SyncStep)
    requires RunConsistent(d, r) && SyncEnabled(c, d, r, step)
    requires !Stages(step) && !Finishes(step) && !MovesOffset(step)
    ensures var s' := AfterSync(c, d, r, step);
      s'.d == d && (s'.run.Some? ==> RunConsistent(d, s'.run.value))
  {
  }

  lemma SyncKeeps(c: Config, d: Durable, r: Run, step: SyncStep)
    requires Delivered(c, d) && RunConsistent(d, r) && SyncEnabled(c, d, r, step)
    ensures Consistent(c, AfterSync(c, d, r, step))
  {
    if Stages(step) {
      StagingKeeps(c, d, r, step);
    } else if Finishes(step) || MovesOffset(step) {
      OffsetKeeps(c, d, r, step);
    } else {
      VolatileSyncKeeps(c, d, r, step);
    }
  }

  lemma MergeKeeps(c: Config, d: Durable, n: nat)
    requires Delivered(c, d) && d.normId <= n <= d.syncId
    ensures Delivered(c, MergeUpTo(d, n))
  {
    BatchesSplit(d.stage, 0, d.normId, n);
  }

  /** A normalize step changes nothing durable but what is merged. */
  lemma NormMerges(c: Config, d: Durable, r: Run, step: NormStep)
    requires NormEnabled(c, d, r, step) && NormConsistent(r) && r.requests.val <= d.syncId
    ensures var d' := AfterNorm(c, d, r, step).d;
      && d.normId <= d'.normId && d' == MergeUpTo(d, d'.normId)
      && (d'.normId == d.normId || d'.normId <= d.syncId)
  {
    assert d.merged + Batches(d.stage, d.normId, d.normId) == d.merged;
  }

  lemma NormKeepsRun(c: Config, d: Durable, r: Run, step: NormStep)
    requires RunConsistent(d, r) && NormEnabled(c, d, r, step)
    ensures var s' := AfterNorm(c, d, r, step);
      && s'.run.Some? && NormConsistent(s'.run.value) && 0 <= s'.run.value.normalizing
      && s'.run.value.sync == r.sync && s'.run.value.requests == r.requests
  {
  }

  lemma MergeKeepsRun(d: Durable, n: nat, sync: SyncPc)
    requires SyncConsistent(d, sync)
    ensures SyncConsistent(MergeUpTo(d, n), sync)
  {
  }

  lemma NormKeeps(c: Config, d: Durable, r: Run, step: NormStep)
    requires Delivered(c, d) && RunConsistent(d, r) && NormEnabled(c, d, r, step)
    ensures Consistent(c, AfterNorm(c, d, r, step))
  {
    var n := AfterNorm(c, d, r, step).d.normId;
    NormMerges(c, d, r, step);
    NormKeepsRun(c, d, r, step);
    MergeKeeps(c, d, n);
    MergeKeepsRun(d, n, r.sync);
  }

  lemma GrowLogKeeps(c: Config, s: State, e: Entry)
    requires Consistent(c, s)
    ensures Consistent(c, After(c, s, GrowLog(e)))
  {
    var d := s.d;
    var log' := d.log + [e];
    assert forall n: nat | n <= |d.log| :: log'[..n] == d.log[..n];
    assert forall m: nat, n: nat | m <= n <= |d.log| :: log'[m..n] == d.log[m..n];
  }

  lemma StepKeeps(c: Config, s: State, step: Step)
    requires Consistent(c, s) && Enabled(c, s, step)
    ensures Consistent(c, After(c, s, step))
  {
    match step
    case GrowLog(e) => GrowLogKeeps(c, s, e);
    case Sync(y) => SyncKeeps(c, s.d, s.run.value, y);
    case Norm(n) => NormKeeps(c, s.d, s.run.value, n);
    case _ =>
  }

  lemma {:induction false} RunKeeps(c: Config, s: State, steps: seq<Step>)
    requires Consistent(c, s) && IsRun(c, s, steps)
    ensures Consistent(c, Final(c, s, steps))
    decreases |steps|
  {
    if steps != [] {
      StepKeeps(c, s, steps[0]);
      RunKeeps(c, After(c, s, steps[0]), steps[1..]);
    }
  }

  lemma ReachableConsistent(c: Config, s: State)
    requires Reachable(c, s)
    ensures Consistent(c, s)
  {
    var steps :| IsRun(c, Fresh, steps) && Final(c, Fresh, steps) == s;
    RunKeeps(c, Fresh, steps);
  }

  // ---- what it says about whole runs ----

  /**
   In every reachable state batch ids are contiguous, the batches hold what the source
   published up to the stored offset, in order, and beyond that exactly the overrun; the
   destination holds exactly the normalized batches, and whatever the source was allowed
   to discard is already in a finished batch.
   */
  lemma NothingLost(c: Config, s: State)
    requires Reachable(c, s)
    ensures s.d.offset <= |s.d.log| && s.d.trimmed <= s.d.confirmed <= |s.d.log|
    ensures forall i | 1 <= i <= s.d.syncId :: i in s.d.stage
    ensures Subsequence(Records(s.d.log[..s.d.offset]), Batches(s.d.stage, 0, s.d.syncId))
    ensures multiset(Batches(s.d.stage, 0, s.d.syncId))
         == multiset(Records(s.d.log[..s.d.offset])) + multiset(s.d.overrun)
    ensures s.d.merged == Batches(s.d.stage, 0, s.d.normId) <= Batches(s.d.stage, 0, s.d.syncId)
    ensures Records(s.d.log[..s.d.confirmed]) <= Records(s.d.log[..s.d.offset])
  {
    ReachableConsistent(c, s);
    var d := s.d;
    BatchesSplit(d.stage, 0, d.normId, d.syncId);
    if d.confirmed <= d.offset {
      RecordsAcross(d.log, d.confirmed, d.offset);
    } else {
      RecordsSkip(d.log, d.offset, d.confirmed);
    }
  }

  /** This step finishes a batch that holds records past its checkpoint. */
  predicate Overruns(s: State, step: Step) {
    step == Sync(FinishPart) && s.run.Some? && s.run.value.sync.PartStaged? && s.run.value.sync.past != []
  }

  /** Somewhere in the run a batch was finished whose pull had failed past its checkpoint. */
  predicate Overran(c: Config, s: State, steps: seq<Step>)
    requires IsRun(c, s, steps)
    decreases |steps|
  {
    steps != [] && (Overruns(s, steps[0]) || Overran(c, After(c, s, steps[0]), steps[1..]))
  }

  lemma StepOverruns(c: Config, s: State, step: Step)
    requires Enabled(c, s, step)
    ensures After(c, s, step).d.overrun == [] <==> s.d.overrun == [] && !Overruns(s, step)
  {
  }

  lemma {:induction false} OverrunRecorded(c: Config, s: State, steps: seq<Step>)
    requires IsRun(c, s, steps)
    ensures Final(c, s, steps).d.overrun == [] <==> s.d.overrun == [] && !Overran(c, s, steps)
    decreases |steps|
  {
    if steps != [] {
      StepOverruns(c, s, steps[0]);
      OverrunRecorded(c, After(c, s, steps[0]), steps[1..]);
    }
  }

  /**
   A run delivers exactly once, the finished batches being the published log up to the
   stored offset and the destination a prefix of it, exactly when it overran no checkpoint.
   */
  lemma ExactlyOnce(c: Config, steps: seq<Step>)
    requires IsRun(c, Fresh, steps)
    ensures var d := Final(c, Fresh, steps).d;
      && d.offset <= |d.log|
      && (Batches(d.stage, 0, d.syncId) == Records(d.log[..d.offset]) <==> !Overran(c, Fresh, steps))
      && (!Overran(c, Fresh, steps) ==> d.merged <= Records(d.log[..d.offset]))
  {
    var s := Final(c, Fresh, steps);
    RunKeeps(c, Fresh, steps);
    OverrunRecorded(c, Fresh, steps);
    CoversExactly(Batches(s.d.stage, 0, s.d.syncId), Records(s.d.log[..s.d.offset]), s.d.overrun);
    BatchesSplit(s.d.stage, 0, s.d.normId, s.d.syncId);
  }

  /** Only finished batches are normalized, and the normalizer never overtakes sync. */
  lemma NormalizeStaysBehind(c: Config, s: State)
    requires Reachable(c, s)
    ensures s.d.normId <= s.d.syncId
    ensures s.run.Some? && s.run.value.norm.Call? ==>
      forall i | s.d.normId < i <= s.run.value.norm.req :: i <= s.d.syncId && i in s.d.stage
  {
    ReachableConsistent(c, s);
  }

  ghost predicate Extends(d: Durable, d': Durable) {
    && d.offset <= d'.offset && d.syncId <= d'.syncId && d.normId <= d'.normId
    && d.merged <= d'.merged
    && Batches(d'.stage, 0, d.syncId) == Batches(d.stage, 0, d.syncId)
    && forall i | 1 <= i <= d.syncId && i in d.stage :: i in d'.stage && d'.stage[i] == d.stage[i]
  }

  lemma SyncAppends(c: Config, d: Durable, r: Run, step: SyncStep)
    requires SyncConsistent(d, r.sync) && SyncEnabled(c, d, r, step)
    ensures Extends(d, AfterSync(c, d, r, step).d)
  {
    match step
    case StageBatch(to) =>
      BatchesFrame(d.stage, d.syncId + 1, Records(d.log[PullFrom(d, r.sync.from)..to]), 0, d.syncId);
    case StageJunk(junk) => BatchesFrame(d.stage, d.syncId + 1, junk, 0, d.syncId);
    case StagePart(to, _) =>
      BatchesFrame(d.stage, d.syncId + 1, Records(d.log[PullFrom(d, r.sync.from)..to]), 0, d.syncId);
    case _ =>
  }

  lemma NormAppends(c: Config, d: Durable, r: Run, step: NormStep)
    requires NormEnabled(c, d, r, step) && NormConsistent(r) && r.requests.val <= d.syncId
    ensures Extends(d, AfterNorm(c, d, r, step).d)
  {
    NormMerges(c, d, r, step);
  }

  lemma StepAppends(c: Config, s: State, step: Step)
    requires Consistent(c, s) && Enabled(c, s, step)
    ensures Extends(s.d, After(c, s, step).d)
  {
    match step
    case Sync(y) => SyncAppends(c, s.d, s.run.value, y);
    case Norm(n) => NormAppends(c, s.d, s.run.value, n);
    case _ =>
  }

  /** Whatever happens next, a finished batch never changes and nothing merged is taken back. */
  lemma {:induction false} AppendOnly(c: Config, s: State, steps: seq<Step>)
    requires Consistent(c, s) && IsRun(c, s, steps)
    ensures var d, d' := s.d, Final(c, s, steps).d;
      && d.offset <= d'.offset && d.syncId <= d'.syncId && d.normId <= d'.normId
      && d.merged <= d'.merged
      && Batches(d.stage, 0, d.syncId) <= Batches(d'.stage, 0, d'.syncId)
      && forall i | 1 <= i <= d.syncId :: i in d.stage && i in d'.stage && d'.stage[i] == d.stage[i]
    decreases |steps|
  {
    if steps != [] {
      var s1 := After(c, s, steps[0]);
      StepKeeps(c, s, steps[0]);
      StepAppends(c, s, steps[0]);
      BatchesSplit(s1.d.stage, 0, s.d.syncId, s1.d.syncId);
      AppendOnly(c, s1, steps[1..]);
    }
  }

  /**
   What `UpdateReplStateLastOffset` confirms is always the stored offset. A keepalive
   can confirm past it, and does so in some run exactly when the offset is kept on
   the destination.
   */
  lemma ConfirmedWithinStored(c: Config)
    ensures forall s | Reachable(c, s) && s.run.Some? && s.run.value.sync.Finished? ::
              s.run.value.sync.cp == s.d.offset
    ensures (forall s | Reachable(c, s) :: s.d.confirmed <= s.d.offset) <==> !c.offsetOnDestination
  {
    forall s | Reachable(c, s)
      ensures Consistent(c, s)
    {
      ReachableConsistent(c, s);
    }
    if c.offsetOnDestination {
      var s := KeepAlivePassesStored(c);
    }
  }

  lemma KeepAlivePassesStored(c: Config) returns (s: State)
    requires c.offsetOnDestination
    ensures Reachable(c, s) && s.d.offset < s.d.confirmed
  {
    assert IsRun(c, Fresh, []);
    s := Fresh;
    s := Take(c, s, GrowLog(Unpublished));
    s := Take(c, s, Start);
    s := Take(c, s, Sync(ReadOffset));
    s := Take(c, s, Sync(ReadBatchId));
    RecordsAcross(s.d.log, 0, 1);
    s := Take(c, s, Sync(KeepAlive(1)));
  }

  lemma Take(c: Config, s: State, step: Step) returns (s': State)
    requires Reachable(c, s) && Enabled(c, s, step)
    ensures s' == After(c, s, step) && Reachable(c, s')
  {
    ReachableStep(c, s, step);
    s' := After(c, s, step);
  }

  // ---- a record in two batches ----

  /** A transaction of one row is published and an activity starts to pull it. */
  lemma PullOneTransaction(c: Config, row: Record) returns (s: State)
    ensures Reachable(c, s) && s.d == Fresh.d.(log := [Published(row), Unpublished])
    ensures s.run == Some(StartedRun(Fresh.d).(sync := Pulling(0, 1)))
  {
    assert IsRun(c, Fresh, []);
    s := Take(c, Fresh, GrowLog(Published(row)));
    s := Take(c, s, GrowLog(Unpublished));
    s := Take(c, s, Start);
    s := Take(c, s, Sync(ReadOffset));
    s := Take(c, s, Sync(ReadBatchId));
  }

  lemma RowRecords(row: Record)
    ensures var log := [Published(row), Unpublished];
      Records(log[0..1]) == Records(log[0..2]) == [row]
  {
    var log := [Published(row), Unpublished];
    assert log[0..1] == [Published(row)] && [Published(row)][..0] == [];
    assert log[0..2] == log && log[..1] == [Published(row)];
  }

  function OneOverrun(row: Record): Durable {
    Fresh.d.(log := [Published(row), Unpublished], syncId := 1, stage := map[1 := [row]], overrun := [row])
  }

  /** The pull fails between the row and its commit; sync finishes the batch without a checkpoint. */
  lemma FinishBeforeCommit(c: Config, row: Record) returns (s: State)
    ensures Reachable(c, s)
    ensures s.d == OneOverrun(row)
    ensures s.run == Some(StartedRun(Fresh.d).(sync := CloseDone))
  {
    s := PullOneTransaction(c, row);
    RowRecords(row);
    s := Take(c, s, Sync(StagePart(1, 0)));
    s := Take(c, s, Sync(FinishPart));
    assert [] + [row] == [row];
  }

  /** SyncFlow closes everything. */
  lemma CloseAll(c: Config, s: State) returns (t: State)
    requires Reachable(c, s) && s.run.Some? && s.run.value.sync.CloseRequests?
    ensures Reachable(c, t) && t.d == s.d && t.run.Some?
    ensures t.run.value == s.run.value.(sync := Join, requests := t.run.value.requests,
                                        responses := t.run.value.responses)
    ensures t.run.value.requests.cond.None? && t.run.value.requests.val == s.run.value.requests.val
  {
    t := Take(c, s, Sync(DropRequests));
    t := Take(c, t, Sync(WakeRequests));
    t := Take(c, t, Sync(DropResponses));
    t := Take(c, t, Sync(WakeResponses));
  }

  /** With nothing requested the normalizer returns, and so does SyncFlow. */
  lemma ReturnIdle(c: Config, s: State) returns (t: State)
    requires Reachable(c, s) && s.run.Some? && s.run.value.sync.Join? && s.run.value.norm.Head?
    requires s.run.value.requests.cond.None? && s.run.value.requests.val <= s.run.value.normalizing
    ensures Reachable(c, t) && t == State(s.d, None)
  {
    t := Take(c, s, Norm(LoadRequest));
    t := Take(c, t, Norm(CompareRequest));
    t := Take(c, t, Norm(WaitRequest));
    t := Take(c, t, Sync(Return));
  }

  lemma TwoBatches(stage: map<nat, seq<Record>>, a: seq<Record>, b: seq<Record>)
    requires stage == map[1 := a, 2 := b]
    ensures Batches(stage, 0, 2) == a + b
  {
    assert Batches(stage, 0, 1) == Batches(stage, 0, 0) + a;
    assert Batches(stage, 0, 0) == [];
  }

  lemma PullAgain(c: Config, s: State, row: Record) returns (t: State)
    requires Reachable(c, s) && s.run.None?
    requires s.d == OneOverrun(row)
    ensures Reachable(c, t) && t.d == s.d.(syncId := 2, offset := 2, stage := map[1 := [row], 2 := [row]])
  {
    RowRecords(row);
    t := Take(c, s, Start);
    t := Take(c, t, Sync(ReadOffset));
    t := Take(c, t, Sync(ReadBatchId));
    t := Take(c, t, Sync(StageBatch(2)));
    t := Take(c, t, Sync(FinishBatch));
  }

  /**
   In every configuration: that activity returns its error, the next one pulls from the same
   offset, and the row, published once, is in two finished batches.
   */
  lemma RowInTwoBatches(c: Config, row: Record) returns (s: State)
    ensures Reachable(c, s) && s.d.syncId == 2 && s.d.offset == |s.d.log|
    ensures Records(s.d.log[..s.d.offset]) == [row]
    ensures s.d.stage == map[1 := [row], 2 := [row]] && Batches(s.d.stage, 0, 2) == [row, row]
  {
    s := FinishBeforeCommit(c, row);
    s := Take(c, s, Sync(SignalDone));
    s := CloseAll(c, s);
    s := ReturnIdle(c, s);
    s := PullAgain(c, s, row);
    RowRecords(row);
    assert s.d.log[..2] == s.d.log[0..2];
    TwoBatches(s.d.stage, [row], [row]);
  }
}
