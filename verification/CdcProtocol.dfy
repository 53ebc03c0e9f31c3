/**
 The CDC sync/normalize protocol of flow/activities/flowable.go (`SyncFlow`) and
 flow/activities/flowable_core.go (`pullAndSyncCore`, `startNormalize`,
 `normalizeLoop`), as a machine whose steps are the atomic actions of the two
 goroutines, of the source and destination, and of whatever kills the worker.
 */
module CdcProtocol {
  import opened Changes
  import opened Options
  import opened LastChans

  // ---- what survives a crash ----

  /** One position of the source log; not every position concerns the mirror. */
  datatype Entry = Published(record: Record) | Unpublished

  function Records(es: seq<Entry>): seq<Record> {
    if es == [] then []
    else
      var last := es[|es| - 1];
      Records(es[..|es| - 1]) + if last.Published? then [last.record] else []
  }

  /**
   `trimmed` is how much of its log the source has discarded and `confirmed` the
   position it was told it may discard up to. `offset`, `syncId` and `normId` are
   the mirror's metadata, `stage` the raw batches by id, and `merged` everything
   normalize has applied to the destination tables, in order. `overrun` only records
   what happened: the records past their batch's checkpoint in finished batches.
   */
  datatype Durable = Durable(log: seq<Entry>, trimmed: nat, confirmed: nat,
                             offset: nat, syncId: nat, stage: map<nat, seq<Record>>,
                             normId: nat, merged: seq<Record>, overrun: seq<Record>)

  function Max(a: nat, b: nat): nat {
    if a < b then b else a
  }

  /** The records of the batches `a + 1` to `b`, in order. */
  function Batches(stage: map<nat, seq<Record>>, a: nat, b: nat): seq<Record> {
    if b <= a then []
    else Batches(stage, a, b - 1) + if b in stage then stage[b] else []
  }

  /** NormalizeRecords merging the batches after `normId` up to `n`. */
  function MergeUpTo(d: Durable, n: nat): Durable {
    d.(normId := n, merged := d.merged + Batches(d.stage, d.normId, n))
  }

  // ---- the worker ----

  datatype SyncPc =
    | Idle                                           // head of SyncFlow's loop
    | GotOffset(from: nat)
    | Pulling(from: nat, id: nat)
    | Staged(id: nat, cp: nat, rows: bool)           // raw records written, batch not finished
    | PartStaged(id: nat, cp: nat, past: seq<Record>) // the pull failed, sync has what it sent
    | Finished(id: nat, cp: nat, rows: bool)         // batch finished, source not told
    | Bookkeeping(id: nat, rows: bool)
    | Request(id: nat)                               // normRequests.Update(id): store
    | RequestSwap(id: nat)                           //   swap
    | RequestWake(id: nat, prev: Option<Chan>)       //   close
    | Check(id: nat)                                 // normResponses.Load() <= threshold
    | Arm(id: nat, seen: int)                        // normResponses.Wait()
    | Asleep(id: nat, seen: int, ch: Option<Chan>)   // select on that channel
    | CloseDone                                      // close(syncDone)
    | CloseRequests
    | CloseRequestsWake(prev: Option<Chan>)
    | CloseResponses
    | CloseResponsesWake(prev: Option<Chan>)
    | Join                                           // group.Wait()

  datatype NormPc =
    | Head                                           // head of normalizeLoop's outer loop
    | Compare(req: int)
    | ArmRequests(req: int)                          // normalizeRequests.Wait()
    | Dozing(req: int, ch: Chan)                     // select on that channel
    | Begin(req: int)                                // head of retryLoop
    | Connect(req: int)                              // inside startNormalize
    | Call(req: int)
    | Respond(req: int, end: int)                    // normalizeResponses.Update(end): store
    | RespondSwap(req: int, end: int)                //   swap
    | RespondWake(req: int, end: int, prev: Option<Chan>) //   close
    | Answered(req: int, end: int)
    | Failed(req: int)                               // startNormalize returned an error
    | Retrying
    | Returned

  /**
   One SyncFlow activity after its goroutine started. `requested` (ids passed to
   normRequests.Update) and `lateStarts` (startNormalize calls begun after
   syncDone was closed) only record what happened.
   */
  datatype Run = Run(sync: SyncPc, norm: NormPc, requests: LastChan, responses: LastChan,
                     normalizing: int, syncDone: bool, cancelled: bool,
                     requested: set<int>, lateStarts: nat)

  /**
   `offsetOnDestination` is the Postgres-to-Postgres case, where the offset lives
   on the destination while keepalives write it to the catalog. `normalizes` is
   false for destinations without a normalize step.
   */
  datatype Config = Config(bufferSize: int, normalizes: bool, offsetOnDestination: bool)

  datatype State = State(d: Durable, run: Option<Run>)

  const Fresh := State(Durable([], 0, 0, 0, 0, map[], 0, [], []), None)

  // ---- steps ----

  datatype SyncStep =
    | ReadOffset
    | ReadBatchId
    | InitialFlush
    | KeepAlive(to: nat)
    | PullNothing
    | StageJunk(junk: seq<Record>)
    | StageBatch(to: nat)
    | FinishBatch
    | StagePart(to: nat, cp: nat)
    | FinishPart
    | ConfirmBatch
    | FinishBookkeeping
    | StoreRequest
    | SwapRequest
    | WakeNormalizer
    | PassCheck
    | FailCheck
    | WaitResponse
    | WakeUp
    | Fail
    | Leave
    | SignalDone
    | DropRequests
    | WakeRequests
    | DropResponses
    | WakeResponses
    | Return

  datatype NormStep =
    | LoadRequest
    | CompareRequest
    | WaitRequest
    | HearRequest
    | Quit
    | StartNormalize
    | GetConnector
    | CallOk(end: nat)
    | CallFails(reached: nat)
    | StoreResponse
    | SwapResponse
    | WakeSync
    | NextRound
    | AttemptFails
    | Sleep
    | ReloadRequest

  datatype Step =
    | GrowLog(entry: Entry)
    | Trim(to: nat)
    | Cancel
    | Crash
    | Start
    | Sync(sync: SyncStep)
    | Norm(norm: NormStep)

  predicate AnyRow(batch: seq<Record>) {
    exists rec <- batch :: rec.isRow
  }

  /** Where a pull really starts: the source serves nothing it has discarded. */
  function PullFrom(d: Durable, from: nat): nat {
    Max(from, d.trimmed)
  }

  /**
   A pull that fails closes the stream before the error group is cancelled, so sync may go on
   with what it got, up to `to`, and the checkpoint of the last commit in it, or none. These
   are the records past that checkpoint.
   */
  function Past(d: Durable, to: nat, cp: nat): seq<Record> {
    if Max(d.offset, cp) <= to <= |d.log| then Records(d.log[Max(d.offset, cp)..to]) else []
  }

  predicate SyncEnabled(c: Config, d: Durable, r: Run, step: SyncStep) {
    match step
    case ReadOffset => r.sync.Idle? && !r.cancelled
    case ReadBatchId => r.sync.GotOffset?
    case InitialFlush => r.sync.Pulling?
    case KeepAlive(to) =>
      && r.sync.Pulling?
      && PullFrom(d, r.sync.from) <= to <= |d.log|
      && Records(d.log[PullFrom(d, r.sync.from)..to]) == []
    case PullNothing => r.sync.Pulling?
    case StageJunk(_) => r.sync.Pulling?
    case StageBatch(to) =>
      && r.sync.Pulling?
      && PullFrom(d, r.sync.from) <= to <= |d.log|
      && Records(d.log[PullFrom(d, r.sync.from)..to]) != []
    case FinishBatch => r.sync.Staged?
    case StagePart(to, cp) =>
      && r.sync.Pulling?
      && PullFrom(d, r.sync.from) <= to <= |d.log|
      && Records(d.log[PullFrom(d, r.sync.from)..to]) != []
      && (cp == 0 || PullFrom(d, r.sync.from) <= cp <= to)
    case FinishPart => r.sync.PartStaged?
    case ConfirmBatch => r.sync.Finished?
    case FinishBookkeeping => r.sync.Bookkeeping?
    case StoreRequest => r.sync.Request?
    case SwapRequest => r.sync.RequestSwap?
    case WakeNormalizer => r.sync.RequestWake?
    case PassCheck => r.sync.Check? && r.responses.val > r.sync.id - c.bufferSize
    case FailCheck => r.sync.Check? && r.responses.val <= r.sync.id - c.bufferSize
    case WaitResponse => r.sync.Arm?
    case WakeUp => r.sync.Asleep? && r.sync.ch.Some? && !r.responses.IsOpen(r.sync.ch.value)
    case Fail =>
      || r.sync.Idle? || r.sync.GotOffset? || r.sync.Pulling? || r.sync.Staged? || r.sync.PartStaged?
      || r.sync.Finished? || r.sync.Bookkeeping?
      || (r.sync.Asleep? && r.cancelled)
    case Leave => r.sync.Idle?
    case SignalDone => r.sync.CloseDone?
    case DropRequests => r.sync.CloseRequests?
    case WakeRequests => r.sync.CloseRequestsWake?
    case DropResponses => r.sync.CloseResponses?
    case WakeResponses => r.sync.CloseResponsesWake?
    case Return => r.sync.Join? && r.norm.Returned?
  }

  function AfterSync(c: Config, d: Durable, r: Run, step: SyncStep): State
    requires SyncEnabled(c, d, r, step)
  {
    match step
    case ReadOffset => State(d, Some(r.(sync := GotOffset(d.offset))))
    case ReadBatchId => State(d, Some(r.(sync := Pulling(r.sync.from, d.syncId + 1))))
    case InitialFlush => State(d.(confirmed := Max(d.confirmed, r.sync.from)), Some(r))
    case KeepAlive(to) =>
      State(d.(confirmed := Max(d.confirmed, to),
               offset := if c.offsetOnDestination then d.offset else Max(d.offset, to)), Some(r))
    case PullNothing => State(d, Some(r.(sync := Idle)))
    case StageJunk(junk) => State(d.(stage := d.stage[r.sync.id := junk]), Some(r))
    case StageBatch(to) =>
      var batch := Records(d.log[PullFrom(d, r.sync.from)..to]);
      State(d.(stage := d.stage[r.sync.id := batch]),
            Some(r.(sync := Staged(r.sync.id, to, AnyRow(batch)))))
    case FinishBatch =>
      State(d.(offset := Max(d.offset, r.sync.cp), syncId := Max(d.syncId, r.sync.id)),
            Some(r.(sync := Finished(r.sync.id, r.sync.cp, r.sync.rows))))
    case StagePart(to, cp) =>
      State(d.(stage := d.stage[r.sync.id := Records(d.log[PullFrom(d, r.sync.from)..to])]),
            Some(r.(sync := PartStaged(r.sync.id, cp, Past(d, to, cp)))))
    case FinishPart =>
      State(d.(offset := Max(d.offset, r.sync.cp), syncId := Max(d.syncId, r.sync.id),
               overrun := d.overrun + r.sync.past),
            Some(r.(sync := CloseDone)))
    case ConfirmBatch =>
      State(d.(confirmed := Max(d.confirmed, r.sync.cp)),
            Some(r.(sync := Bookkeeping(r.sync.id, r.sync.rows))))
    case FinishBookkeeping =>
      State(d, Some(r.(sync := if r.sync.rows then Request(r.sync.id) else Idle)))
    case StoreRequest =>
      State(d, Some(r.(sync := RequestSwap(r.sync.id), requests := r.requests.Store(r.sync.id),
                       requested := r.requested + {r.sync.id})))
    case SwapRequest =>
      State(d, Some(r.(sync := RequestWake(r.sync.id, r.requests.cond),
                       requests := r.requests.Swap(r.sync.id))))
    case WakeNormalizer =>
      State(d, Some(r.(sync := Check(r.sync.id), requests := r.requests.Wake(r.sync.prev))))
    case PassCheck => State(d, Some(r.(sync := Idle)))
    case FailCheck => State(d, Some(r.(sync := Arm(r.sync.id, r.responses.val))))
    case WaitResponse => State(d, Some(r.(sync := Asleep(r.sync.id, r.sync.seen, r.responses.cond))))
    case WakeUp => State(d, Some(r.(sync := Check(r.sync.id))))
    case Fail => State(d, Some(r.(sync := CloseDone)))
    case Leave => State(d, Some(r.(sync := CloseDone)))
    case SignalDone => State(d, Some(r.(sync := CloseRequests, syncDone := true)))
    case DropRequests =>
      State(d, Some(r.(sync := CloseRequestsWake(r.requests.cond), requests := r.requests.Drop())))
    case WakeRequests =>
      State(d, Some(r.(sync := CloseResponses, requests := r.requests.Wake(r.sync.prev))))
    case DropResponses =>
      State(d, Some(r.(sync := CloseResponsesWake(r.responses.cond), responses := r.responses.Drop())))
    case WakeResponses =>
      State(d, Some(r.(sync := Join, responses := r.responses.Wake(r.sync.prev))))
    case Return => State(d, None)
  }

  predicate NormEnabled(c: Config, d: Durable, r: Run, step: NormStep) {
    match step
    case LoadRequest => r.norm.Head?
    case CompareRequest => r.norm.Compare?
    case WaitRequest => r.norm.ArmRequests?
    case HearRequest => r.norm.Dozing? && !r.requests.IsOpen(r.norm.ch)
    case Quit => (r.norm.Dozing? || r.norm.Failed?) && (r.syncDone || r.cancelled)
    case StartNormalize => r.norm.Begin?
    case GetConnector => r.norm.Connect?
    case CallOk(end) =>
      r.norm.Call? && if d.normId >= r.norm.req then end == r.norm.req else d.normId < end <= r.norm.req
    case CallFails(reached) =>
      r.norm.Call? && (reached == d.normId || d.normId < reached <= r.norm.req)
    case StoreResponse => r.norm.Respond?
    case SwapResponse => r.norm.RespondSwap?
    case WakeSync => r.norm.RespondWake?
    case NextRound => r.norm.Answered?
    case AttemptFails =>
      r.norm.Connect? || (r.norm.Respond? && c.normalizes) || (r.norm.Answered? && !c.normalizes)
    case Sleep => r.norm.Failed? && !r.syncDone && !r.cancelled
    case ReloadRequest => r.norm.Retrying?
  }

  function AfterNorm(c: Config, d: Durable, r: Run, step: NormStep): State
    requires NormEnabled(c, d, r, step)
  {
    match step
    case LoadRequest => State(d, Some(r.(norm := Compare(r.requests.val))))
    case CompareRequest =>
      State(d, Some(r.(norm := if r.norm.req <= r.normalizing then ArmRequests(r.norm.req) else Begin(r.norm.req))))
    case WaitRequest =>
      State(d, Some(r.(norm := if r.requests.cond.Some? then Dozing(r.norm.req, r.requests.cond.value) else Returned)))
    case HearRequest => State(d, Some(r.(norm := Head)))
    case Quit => State(d, Some(r.(norm := Returned)))
    case StartNormalize =>
      State(d, Some(r.(norm := Connect(r.norm.req), normalizing := r.norm.req,
                       lateStarts := if r.syncDone then r.lateStarts + 1 else r.lateStarts)))
    case GetConnector =>
      State(d, Some(r.(norm := if c.normalizes then Call(r.norm.req) else Respond(r.norm.req, r.norm.req))))
    case CallOk(end) =>
      State(if end > d.normId then MergeUpTo(d, end) else d, Some(r.(norm := Respond(r.norm.req, end))))
    case CallFails(reached) => State(MergeUpTo(d, reached), Some(r.(norm := Failed(r.norm.req))))
    case StoreResponse =>
      State(d, Some(r.(norm := RespondSwap(r.norm.req, r.norm.end), responses := r.responses.Store(r.norm.end))))
    case SwapResponse =>
      State(d, Some(r.(norm := RespondWake(r.norm.req, r.norm.end, r.responses.cond),
                       responses := r.responses.Swap(r.norm.end))))
    case WakeSync =>
      State(d, Some(r.(norm := Answered(r.norm.req, r.norm.end), responses := r.responses.Wake(r.norm.prev))))
    case NextRound =>
      State(d, Some(r.(norm := if r.norm.end >= r.norm.req then Head else Call(r.norm.req))))
    case AttemptFails => State(d, Some(r.(norm := Failed(r.norm.req))))
    case Sleep => State(d, Some(r.(norm := Retrying)))
    case ReloadRequest => State(d, Some(r.(norm := Begin(r.requests.val))))
  }

  /** SyncFlow up to the point where it starts the normalize goroutine. */
  function StartedRun(d: Durable): Run {
    var responses := if d.normId > 0 then NewLastChan().Update(d.normId) else NewLastChan();
    Run(Idle, Head, NewLastChan(), responses, d.normId, false, false, {}, 0)
  }

  predicate Enabled(c: Config, s: State, step: Step) {
    match step
    case GrowLog(_) => true
    case Trim(to) => s.d.trimmed <= to <= s.d.confirmed
    case Cancel => s.run.Some?
    case Crash => s.run.Some?
    case Start => s.run.None?
    case Sync(y) => s.run.Some? && SyncEnabled(c, s.d, s.run.value, y)
    case Norm(n) => s.run.Some? && NormEnabled(c, s.d, s.run.value, n)
  }

  function After(c: Config, s: State, step: Step): State
    requires Enabled(c, s, step)
  {
    match step
    case GrowLog(e) => s.(d := s.d.(log := s.d.log + [e]))
    case Trim(to) => s.(d := s.d.(trimmed := to))
    case Cancel => s.(run := Some(s.run.value.(cancelled := true)))
    case Crash => s.(run := None)
    case Start => s.(run := Some(StartedRun(s.d)))
    case Sync(y) => AfterSync(c, s.d, s.run.value, y)
    case Norm(n) => AfterNorm(c, s.d, s.run.value, n)
  }

  // ---- runs ----

  /** Every step of `steps` can be taken when its turn comes, starting in `s`. */
  predicate IsRun(c: Config, s: State, steps: seq<Step>)
    decreases |steps|
  {
    steps == [] || (Enabled(c, s, steps[0]) && IsRun(c, After(c, s, steps[0]), steps[1..]))
  }

  function Final(c: Config, s: State, steps: seq<Step>): State
    requires IsRun(c, s, steps)
    decreases |steps|
  {
    if steps == [] then s else Final(c, After(c, s, steps[0]), steps[1..])
  }

  /** The steps of one activity: it is neither killed nor over before they end. */
  predicate OneActivity(steps: seq<Step>) {
    Crash !in steps && Sync(Return) !in steps
  }

  /** A new mirror can get into `s`. Prefixes of runs are runs, so this covers every state on the way. */
  ghost predicate Reachable(c: Config, s: State) {
    exists steps :: IsRun(c, Fresh, steps) && Final(c, Fresh, steps) == s
  }

  lemma {:induction false} Extend(c: Config, s: State, steps: seq<Step>, step: Step)
    requires IsRun(c, s, steps) && Enabled(c, Final(c, s, steps), step)
    ensures IsRun(c, s, steps + [step])
    ensures Final(c, s, steps + [step]) == After(c, Final(c, s, steps), step)
    decreases |steps|
  {
    if steps == [] {
      assert IsRun(c, After(c, s, step), []);
    } else {
      assert (steps + [step])[1..] == steps[1..] + [step];
      Extend(c, After(c, s, steps[0]), steps[1..], step);
    }
  }

  lemma ReachableStep(c: Config, s: State, step: Step)
    requires Reachable(c, s) && Enabled(c, s, step)
    ensures Reachable(c, After(c, s, step))
  {
    var steps :| IsRun(c, Fresh, steps) && Final(c, Fresh, steps) == s;
    Extend(c, Fresh, steps, step);
  }

  lemma {:induction false} ReachableRun(c: Config, s: State, steps: seq<Step>)
    requires Reachable(c, s) && IsRun(c, s, steps)
    ensures Reachable(c, Final(c, s, steps))
    decreases |steps|
  {
    if steps != [] {
      ReachableStep(c, s, steps[0]);
      ReachableRun(c, After(c, s, steps[0]), steps[1..]);
    }
  }
}
