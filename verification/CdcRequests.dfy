/**
 Which finished batches an activity asks the normalizer for, and how far the source is
 told it may discard its log.
 */
module CdcRequests {
  import opened Changes
  import opened Options
  import opened CdcProtocol
  import opened CdcDelivery

  ghost predicate HoldsRow(batch: seq<Record>) {
    exists k | 0 <= k < |batch| :: batch[k].isRow
  }

  /** The flag sync carries says whether its batch holds a row, and a confirmed batch is confirmed. */
  ghost predicate Accounted(d: Durable, sync: SyncPc) {
    match sync
    case Staged(id, _, rows) => id in d.stage && (rows <==> HoldsRow(d.stage[id]))
    case Finished(id, _, rows) => 1 <= id && id in d.stage && (rows <==> HoldsRow(d.stage[id]))
    case Bookkeeping(id, rows) =>
      1 <= id && id in d.stage && (rows <==> HoldsRow(d.stage[id])) && d.offset <= d.confirmed
    case _ => true
  }

  ghost predicate AllAccounted(c: Config, s: State) {
    Consistent(c, s) && (s.run.Some? ==> Accounted(s.d, s.run.value.sync))
  }

  lemma SyncAccounts(c: Config, d: Durable, r: Run, step: SyncStep)
    requires SyncEnabled(c, d, r, step) && Accounted(d, r.sync) && SyncConsistent(d, r.sync)
    ensures var s' := AfterSync(c, d, r, step); s'.run.Some? ==> Accounted(s'.d, s'.run.value.sync)
  {
    if step.StageBatch? {
      var batch := Records(d.log[PullFrom(d, r.sync.from)..step.to]);
      assert forall rec :: rec in batch <==> exists k | 0 <= k < |batch| :: batch[k] == rec;
    }
  }

  lemma NormAccounts(c: Config, d: Durable, r: Run, step: NormStep)
    requires NormEnabled(c, d, r, step) && Accounted(d, r.sync)
    ensures var s' := AfterNorm(c, d, r, step); s'.run.Some? && Accounted(s'.d, s'.run.value.sync)
  {
    var s' := AfterNorm(c, d, r, step);
    assert s'.run.value.sync == r.sync && s'.d.stage == d.stage;
  }

  lemma StepAccounts(c: Config, s: State, step: Step)
    requires AllAccounted(c, s) && Enabled(c, s, step)
    ensures AllAccounted(c, After(c, s, step))
  {
    StepKeeps(c, s, step);
    match step
    case Sync(y) => SyncAccounts(c, s.d, s.run.value, y);
    case Norm(n) => NormAccounts(c, s.d, s.run.value, n);
    case _ =>
  }

  lemma {:induction false} RunAccounts(c: Config, s: State, steps: seq<Step>)
    requires AllAccounted(c, s) && IsRun(c, s, steps)
    ensures AllAccounted(c, Final(c, s, steps))
    decreases |steps|
  {
    if steps != [] {
      StepAccounts(c, s, steps[0]);
      RunAccounts(c, After(c, s, steps[0]), steps[1..]);
    }
  }

  lemma ReachableAccounted(c: Config, s: State)
    requires Reachable(c, s)
    ensures AllAccounted(c, s)
  {
    var steps :| IsRun(c, Fresh, steps) && Final(c, Fresh, steps) == s;
    RunAccounts(c, Fresh, steps);
  }

  /** Once its batch is confirmed, all that is stored is confirmed to the source. */
  lemma StoredIsConfirmed(c: Config, s: State)
    requires Reachable(c, s) && s.run.Some? && s.run.value.sync.Bookkeeping?
    ensures s.d.offset <= s.d.confirmed <= |s.d.log|
    ensures Records(s.d.log[..s.d.offset]) == Records(s.d.log[..s.d.confirmed])
  {
    ReachableAccounted(c, s);
    RecordsSkip(s.d.log, s.d.offset, s.d.confirmed);
  }

  // ---- requests ----

  /** This step ends the bookkeeping of batch `id`. */
  predicate Books(s: State, step: Step, id: nat) {
    && step == Sync(FinishBookkeeping) && s.run.Some?
    && s.run.value.sync.Bookkeeping? && s.run.value.sync.id == id
  }

  predicate Booked(c: Config, s: State, steps: seq<Step>, id: nat)
    requires IsRun(c, s, steps)
    decreases |steps|
  {
    steps != [] && (Books(s, steps[0], id) || Booked(c, After(c, s, steps[0]), steps[1..], id))
  }

  /** Batch `id` was requested or is about to be. */
  predicate Asked(r: Run, id: nat) {
    id in r.requested || r.sync == Request(id)
  }

  lemma SyncAsks(c: Config, d: Durable, r: Run, step: SyncStep, id: nat)
    requires SyncEnabled(c, d, r, step) && !step.Return?
    ensures var s' := AfterSync(c, d, r, step);
      s'.run.Some? &&
      (Asked(s'.run.value, id) <==>
         Asked(r, id) || (step.FinishBookkeeping? && r.sync.id == id && r.sync.rows))
  {
  }

  lemma StepAsks(c: Config, s: State, step: Step, id: nat)
    requires AllAccounted(c, s) && s.run.Some? && Enabled(c, s, step) && step != Crash && step != Sync(Return)
    ensures var s' := After(c, s, step);
      s'.run.Some? &&
      (Asked(s'.run.value, id) <==>
         Asked(s.run.value, id) || (Books(s, step, id) && id in s.d.stage && HoldsRow(s.d.stage[id])))
  {
    if step.Sync? {
      SyncAsks(c, s.d, s.run.value, step.sync, id);
    }
  }

  lemma {:induction false} RunAsks(c: Config, s: State, steps: seq<Step>, id: nat)
    requires AllAccounted(c, s) && s.run.Some? && IsRun(c, s, steps) && OneActivity(steps)
    ensures var s' := Final(c, s, steps);
      s'.run.Some? &&
      (Asked(s'.run.value, id) <==>
         || Asked(s.run.value, id)
         || (Booked(c, s, steps, id) && id in s'.d.stage && HoldsRow(s'.d.stage[id])))
    decreases |steps|
  {
    if steps != [] {
      var s1 := After(c, s, steps[0]);
      assert steps[0] in steps;
      StepAsks(c, s, steps[0], id);
      StepAccounts(c, s, steps[0]);
      RunAsks(c, s1, steps[1..], id);
      if Books(s, steps[0], id) {
        assert s.d.syncId == id && s1.d == s.d;
        AppendOnly(c, s1, steps[1..]);
      }
    }
  }

  /**
   An activity asks for a batch exactly if it saw it through to the end of its bookkeeping
   and the batch holds a row, wherever in the batch that row is.
   */
  lemma RequestedExactly(c: Config, d: Durable, steps: seq<Step>, id: nat)
    requires Reachable(c, State(d, None))
    requires IsRun(c, State(d, Some(StartedRun(d))), steps) && OneActivity(steps)
    ensures var s := Final(c, State(d, Some(StartedRun(d))), steps);
      s.run.Some? &&
      (Asked(s.run.value, id) <==>
         Booked(c, State(d, Some(StartedRun(d))), steps, id) && id in s.d.stage && HoldsRow(s.d.stage[id]))
  {
    ReachableAccounted(c, State(d, None));
    StepAccounts(c, State(d, None), Start);
    RunAsks(c, State(d, Some(StartedRun(d))), steps, id);
  }

  // ---- rounds ----

  /** A cancelled activity finishes its batch at most and pulls no other. */
  lemma {:induction false} CancelledPullsNoMore(c: Config, s: State, steps: seq<Step>)
    requires s.run.Some? && s.run.value.cancelled && IsRun(c, s, steps) && OneActivity(steps)
    ensures Sync(ReadOffset) !in steps
    ensures Final(c, s, steps).run.Some? && Final(c, s, steps).run.value.cancelled
    decreases |steps|
  {
    if steps != [] {
      assert steps[0] in steps && steps == [steps[0]] + steps[1..];
      CancelledPullsNoMore(c, After(c, s, steps[0]), steps[1..]);
    }
  }

  /** A round that finds nothing leaves everything as it was, ready for the next. */
  lemma EmptyRound(c: Config, s: State)
    requires Reachable(c, s) && s.run.Some? && s.run.value.sync.Idle? && !s.run.value.cancelled
    ensures IsRun(c, s, [Sync(ReadOffset), Sync(ReadBatchId), Sync(PullNothing)])
    ensures Final(c, s, [Sync(ReadOffset), Sync(ReadBatchId), Sync(PullNothing)]) == s
  {
    var s1 := After(c, s, Sync(ReadOffset));
    var s2 := After(c, s1, Sync(ReadBatchId));
    var s3 := After(c, s2, Sync(PullNothing));
    assert s3.run == s.run && s3 == s;
    assert IsRun(c, s3, []) && IsRun(c, s2, [Sync(PullNothing)]);
    assert [Sync(ReadBatchId), Sync(PullNothing)][1..] == [Sync(PullNothing)];
    assert IsRun(c, s1, [Sync(ReadBatchId), Sync(PullNothing)]);
    assert [Sync(ReadOffset), Sync(ReadBatchId), Sync(PullNothing)][1..] == [Sync(ReadBatchId), Sync(PullNothing)];
  }

  /** A pull tells the source what it has: the offset it began at, then every quiet position it passed. */
  lemma PullConfirms(c: Config, s: State, step: SyncStep)
    requires Enabled(c, s, Sync(step)) && (step.InitialFlush? || step.KeepAlive?)
    ensures var d, d' := s.d, After(c, s, Sync(step)).d;
      var to := if step.KeepAlive? then step.to else s.run.value.sync.from;
      && d'.confirmed >= to && d'.confirmed >= d.confirmed && (d'.confirmed == to || d'.confirmed == d.confirmed)
      && (step.KeepAlive? && !c.offsetOnDestination ==> d'.offset >= to)
  {
  }

  /**
   How far the environment may go: a call that works may stop at any later batch, one that
   fails may have merged any of them, and a failed attempt may leave anything under its id.
   */
  lemma FailuresAreFree(c: Config, d: Durable, r: Run, n: nat, junk: seq<Record>)
    ensures r.norm.Call? && d.normId < n <= r.norm.req ==>
      && NormEnabled(c, d, r, CallOk(n)) && AfterNorm(c, d, r, CallOk(n)).d == MergeUpTo(d, n)
      && NormEnabled(c, d, r, CallFails(n)) && AfterNorm(c, d, r, CallFails(n)).d == MergeUpTo(d, n)
    ensures r.sync.Pulling? ==>
      && SyncEnabled(c, d, r, StageJunk(junk))
      && AfterSync(c, d, r, StageJunk(junk)) == State(d.(stage := d.stage[r.sync.id := junk]), Some(r))
  {
  }
}
