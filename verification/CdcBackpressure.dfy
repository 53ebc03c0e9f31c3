/**
 What the watermarks shared by the two goroutines mean in every run: nothing the
 normalize loop considers done is unfinished, and backpressure bounds how far
 sync gets ahead.
 */
module CdcBackpressure {
  import opened Int64s
  import opened Options
  import opened CdcProtocol
  import opened CdcDelivery

  /** The normalizer is between attempts. */
  predicate Settled(norm: NormPc) {
    norm.Head? || norm.Compare? || norm.ArmRequests? || norm.Dozing?
  }

  /** The normalizer is answering inside an attempt. */
  predicate Answering(norm: NormPc) {
    norm.Respond? || norm.RespondSwap? || norm.RespondWake? || norm.Answered?
  }

  /** Sync is anywhere from the head of its loop to just before its next request. */
  predicate BeforeRequest(sync: SyncPc) {
    || sync.Idle? || sync.GotOffset? || sync.Pulling? || sync.Staged? || sync.PartStaged?
    || sync.Finished? || sync.Bookkeeping? || sync.Request?
  }

  function Unanswered(r: Run): set<int> {
    set id | id in r.requested && id > r.responses.val
  }

  // ---- invariants ----

  ghost predicate NormMarks(c: Config, d: Durable, r: Run) {
    && r.responses.val <= r.normalizing <= d.syncId
    && d.normId <= r.normalizing
    && (c.normalizes ==> r.responses.val <= d.normId)
    && (Settled(r.norm) ==> r.responses.val == r.normalizing)
    && match r.norm
       case Begin(req) => r.normalizing <= req
       case Connect(req) => r.normalizing == req
       case Call(req) => r.normalizing == req && c.normalizes
       case Respond(req, end) =>
         r.normalizing == req && r.responses.val <= end && if c.normalizes then end <= d.normId else end == req
       case RespondSwap(req, end) => r.normalizing == req && r.responses.val == end && (c.normalizes || end == req)
       case RespondWake(req, end, _) => r.normalizing == req && r.responses.val == end && (c.normalizes || end == req)
       case Answered(req, end) => r.normalizing == req && r.responses.val == end && (c.normalizes || end == req)
       case Failed(req) => r.normalizing == req
       case Retrying => r.normalizing <= r.requests.val
       case _ => true
  }

  ghost predicate SyncMarks(d: Durable, r: Run) {
    match r.sync
    case Finished(id, _, _) => r.requests.val < id && r.normalizing < id
    case Bookkeeping(id, _) => r.requests.val < id && r.normalizing < id
    case Request(id) => r.requests.val < id && r.normalizing < id
    case RequestSwap(id) => r.requests.val == id
    case RequestWake(id, _) => r.requests.val == id
    case Check(id) => r.requests.val == id
    case Arm(id, _) => r.requests.val == id
    case Asleep(id, _, _) => r.requests.val == id
    case _ => true
  }

  ghost predicate Buffered(c: Config, r: Run) {
    && (forall id <- r.requested :: 1 <= id <= r.requests.val)
    && (r.requested == {} <==> r.requests.val == 0)
    && (BeforeRequest(r.sync) && r.requested != {} ==> r.responses.val > r.requests.val - c.bufferSize)
    && |Unanswered(r)| <= c.bufferSize
  }

  // ---- counting ----

  lemma SubsetSize(a: set<int>, b: set<int>)
    requires a <= b
    ensures |a| <= |b|
  {
    assert b == a + (b - a);
  }

  lemma {:induction false} IntervalSize(ids: set<int>, a: int, b: int)
    requires forall id <- ids :: a < id <= b
    requires a <= b
    ensures |ids| <= b - a
    decreases b - a
  {
    if a == b {
      assert forall id: int :: id !in ids;
      assert |ids| == 0;
    } else {
      IntervalSize(ids - {b}, a, b - 1);
      SubsetSize(ids, (ids - {b}) + {b});
    }
  }

  /** Between requests one slot of the buffer is always free. */
  lemma SlotFree(c: Config, r: Run)
    requires c.bufferSize >= 2 && Buffered(c, r) && BeforeRequest(r.sync)
    ensures |Unanswered(r)| <= c.bufferSize - 1
  {
    if r.requested == {} {
      assert Unanswered(r) == {};
    } else if r.responses.val <= r.requests.val {
      IntervalSize(Unanswered(r), r.responses.val, r.requests.val);
    } else {
      assert Unanswered(r) == {};
    }
  }

  // ---- kept by every step ----

  ghost predicate Marks(c: Config, d: Durable, r: Run) {
    NormMarks(c, d, r) && SyncMarks(d, r) && Buffered(c, r)
  }

  ghost predicate Marked(c: Config, s: State) {
    Consistent(c, s) && (s.run.Some? ==> Marks(c, s.d, s.run.value))
  }

  lemma RequestKeeps(c: Config, d: Durable, r: Run)
    requires c.bufferSize >= 2 && Marks(c, d, r) && r.sync.Request? && 0 <= r.requests.val && r.sync.id == d.syncId
    ensures Marks(c, d, AfterSync(c, d, r, StoreRequest).run.value)
  {
    var r' := AfterSync(c, d, r, StoreRequest).run.value;
    SlotFree(c, r);
    SubsetSize(Unanswered(r'), Unanswered(r) + {r.sync.id});
  }

  /** Up to its request sync moves no watermark except by finishing a batch. */
  lemma PullKeepsMarks(c: Config, d: Durable, r: Run, step: SyncStep)
    requires c.bufferSize >= 2 && Marks(c, d, r) && SyncEnabled(c, d, r, step)
    requires BeforeRequest(r.sync) && !r.sync.Request?
    requires SyncConsistent(d, r.sync) && 0 <= r.requests.val <= d.syncId
    ensures var s' := AfterSync(c, d, r, step); s'.run.Some? && Marks(c, s'.d, s'.run.value)
  {
    var s' := AfterSync(c, d, r, step);
    assert s'.run == Some(r.(sync := s'.run.value.sync));
    assert d.syncId <= s'.d.syncId && d.normId == s'.d.normId;
    assert Unanswered(s'.run.value) == Unanswered(r);
  }

  lemma SignalKeepsBuffered(c: Config, d: Durable, r: Run, step: SyncStep)
    requires c.bufferSize >= 2 && Buffered(c, r) && SyncMarks(d, r)
    requires SyncEnabled(c, d, r, step) && !BeforeRequest(r.sync)
    ensures var s' := AfterSync(c, d, r, step); s'.run.Some? ==> Buffered(c, s'.run.value)
  {
    var s' := AfterSync(c, d, r, step);
    assert s'.run.Some? ==> Unanswered(s'.run.value) == Unanswered(r);
  }

  /** From its request on sync changes nothing durable, and no watermark after the store. */
  lemma SignalKeepsMarks(c: Config, d: Durable, r: Run, step: SyncStep)
    requires NormMarks(c, d, r) && SyncMarks(d, r) && SyncEnabled(c, d, r, step) && !BeforeRequest(r.sync)
    ensures var s' := AfterSync(c, d, r, step);
      s'.run.Some? ==> NormMarks(c, s'.d, s'.run.value) && SyncMarks(s'.d, s'.run.value)
  {
    var s' := AfterSync(c, d, r, step);
    assert s'.run.Some? ==>
      s'.d == d && s'.run.value.requests.val == r.requests.val && s'.run.value.responses.val == r.responses.val;
  }

  lemma SyncKeepsMarks(c: Config, d: Durable, r: Run, step: SyncStep)
    requires c.bufferSize >= 2 && Marks(c, d, r) && SyncEnabled(c, d, r, step)
    requires SyncConsistent(d, r.sync) && 0 <= r.requests.val <= d.syncId
    ensures var s' := AfterSync(c, d, r, step); s'.run.Some? ==> Marks(c, s'.d, s'.run.value)
  {
    if !BeforeRequest(r.sync) {
      SignalKeepsMarks(c, d, r, step);
      SignalKeepsBuffered(c, d, r, step);
    } else if r.sync.Request? {
      RequestKeeps(c, d, r);
    } else {
      PullKeepsMarks(c, d, r, step);
    }
  }

  lemma NormKeepsBuffered(c: Config, d: Durable, r: Run, step: NormStep)
    requires Buffered(c, r) && NormMarks(c, d, r) && NormEnabled(c, d, r, step)
    ensures Buffered(c, AfterNorm(c, d, r, step).run.value)
  {
    SubsetSize(Unanswered(AfterNorm(c, d, r, step).run.value), Unanswered(r));
  }

  /** Between attempts the normalizer moves no watermark. */
  lemma SettledKeepsMarks(c: Config, d: Durable, r: Run, step: NormStep)
    requires NormMarks(c, d, r) && NormEnabled(c, d, r, step) && Settled(r.norm)
    ensures AfterNorm(c, d, r, step).d == d && NormMarks(c, d, AfterNorm(c, d, r, step).run.value)
  {
  }

  lemma AnswerKeepsMarks(c: Config, d: Durable, r: Run, step: NormStep)
    requires NormMarks(c, d, r) && NormEnabled(c, d, r, step) && Answering(r.norm) && NormConsistent(r)
    ensures AfterNorm(c, d, r, step).d == d && NormMarks(c, d, AfterNorm(c, d, r, step).run.value)
  {
  }

  lemma AttemptKeepsMarks(c: Config, d: Durable, r: Run, step: NormStep)
    requires NormMarks(c, d, r) && NormEnabled(c, d, r, step) && !Settled(r.norm) && !Answering(r.norm)
    requires NormConsistent(r) && 0 <= r.requests.val <= d.syncId
    ensures var s' := AfterNorm(c, d, r, step); NormMarks(c, s'.d, s'.run.value)
  {
  }

  /** The normalizer takes up no batch but a requested one, so sync's is still ahead of it. */
  lemma NormKeepsSyncMarks(c: Config, d: Durable, r: Run, step: NormStep)
    requires SyncMarks(d, r) && NormEnabled(c, d, r, step) && NormConsistent(r)
    ensures var s' := AfterNorm(c, d, r, step); SyncMarks(s'.d, s'.run.value)
  {
    var r' := AfterNorm(c, d, r, step).run.value;
    assert r'.sync == r.sync && r'.requests == r.requests;
    assert r'.normalizing == r.normalizing || r'.normalizing <= r.requests.val;
  }

  lemma NormKeepsMarks(c: Config, d: Durable, r: Run, step: NormStep)
    requires Marks(c, d, r) && NormEnabled(c, d, r, step)
    requires NormConsistent(r) && 0 <= r.requests.val <= d.syncId
    ensures var s' := AfterNorm(c, d, r, step); s'.run.Some? && Marks(c, s'.d, s'.run.value)
  {
    if Settled(r.norm) {
      SettledKeepsMarks(c, d, r, step);
    } else if Answering(r.norm) {
      AnswerKeepsMarks(c, d, r, step);
    } else {
      AttemptKeepsMarks(c, d, r, step);
    }
    NormKeepsSyncMarks(c, d, r, step);
    NormKeepsBuffered(c, d, r, step);
  }

  lemma StartMarks(c: Config, d: Durable)
    requires c.bufferSize >= 2 && d.normId <= d.syncId
    ensures Marks(c, d, StartedRun(d))
  {
    assert Unanswered(StartedRun(d)) == {};
  }

  lemma CancelKeepsMarks(c: Config, d: Durable, r: Run)
    requires Marks(c, d, r)
    ensures Marks(c, d, r.(cancelled := true))
  {
    assert Unanswered(r.(cancelled := true)) == Unanswered(r);
  }

  lemma StepKeepsMarks(c: Config, s: State, step: Step)
    requires c.bufferSize >= 2 && Marked(c, s) && Enabled(c, s, step)
    ensures Marked(c, After(c, s, step))
  {
    StepKeeps(c, s, step);
    match step
    case Sync(y) => SyncKeepsMarks(c, s.d, s.run.value, y);
    case Norm(n) => NormKeepsMarks(c, s.d, s.run.value, n);
    case Cancel => CancelKeepsMarks(c, s.d, s.run.value);
    case Start => StartMarks(c, s.d);
    case _ =>
  }

  lemma {:induction false} RunKeepsMarks(c: Config, s: State, steps: seq<Step>)
    requires c.bufferSize >= 2 && Marked(c, s) && IsRun(c, s, steps)
    ensures Marked(c, Final(c, s, steps))
    decreases |steps|
  {
    if steps != [] {
      StepKeepsMarks(c, s, steps[0]);
      RunKeepsMarks(c, After(c, s, steps[0]), steps[1..]);
    }
  }

  lemma ReachableMarked(c: Config, s: State)
    requires c.bufferSize >= 2 && Reachable(c, s)
    ensures Marked(c, s)
  {
    var steps :| IsRun(c, Fresh, steps) && Final(c, Fresh, steps) == s;
    RunKeepsMarks(c, Fresh, steps);
  }

  // ---- what they say about whole runs ----

  /**
   `normalizingBatchID` is stored before each attempt, yet whenever the outer loop
   compares a request with it, every batch up to it has been merged, so the
   "request <= last" branch skips nothing unfinished.
   */
  lemma NothingUnfinishedSkipped(c: Config, s: State)
    requires c.bufferSize >= 2 && c.normalizes && Reachable(c, s)
    requires s.run.Some? && Settled(s.run.value.norm)
    ensures 0 <= s.run.value.normalizing <= s.d.normId
    ensures Batches(s.d.stage, 0, s.run.value.normalizing) <= s.d.merged
  {
    ReachableMarked(c, s);
    BatchesSplit(s.d.stage, 0, s.run.value.normalizing, s.d.normId);
  }

  /**
   Requested but unanswered batches never exceed the buffer; nothing is pulled
   after a requested batch b until the response exceeds b - bufferSize; and sync
   of b goes straight on when batch b - 1 was already answered.
   */
  lemma BackpressureBounds(c: Config, s: State)
    requires c.bufferSize >= 2 && Reachable(c, s) && s.run.Some?
    ensures |Unanswered(s.run.value)| <= c.bufferSize
    ensures BeforeRequest(s.run.value.sync) ==>
      forall b <- s.run.value.requested :: s.run.value.responses.val > b - c.bufferSize
    ensures s.run.value.sync.Check? && s.run.value.responses.val >= s.run.value.sync.id - 1 ==>
      !SyncEnabled(c, s.d, s.run.value, FailCheck)
  {
    ReachableMarked(c, s);
  }

  /**
   From its first step on an activity knows what is merged: nothing past `normalizingBatchID`
   is, and between attempts that id, the last response and the merged batches agree.
   */
  lemma CaughtUp(c: Config, s: State)
    requires c.bufferSize >= 2 && Reachable(c, s) && s.run.Some?
    ensures s.d.normId <= s.run.value.normalizing
    ensures c.normalizes && Settled(s.run.value.norm) ==>
      s.run.value.responses.val == s.run.value.normalizing == s.d.normId
  {
    ReachableMarked(c, s);
  }

  /** Then sync is held back exactly if a whole buffer of batches is not merged, in this activity or before. */
  lemma HeldBackExactly(c: Config, s: State)
    requires c.bufferSize >= 2 && c.normalizes && Reachable(c, s) && s.run.Some?
    requires Settled(s.run.value.norm) && s.run.value.sync.Check?
    ensures SyncEnabled(c, s.d, s.run.value, FailCheck) <==> s.d.normId <= s.run.value.sync.id - c.bufferSize
    ensures SyncEnabled(c, s.d, s.run.value, PassCheck) <==> s.d.normId > s.run.value.sync.id - c.bufferSize
  {
    CaughtUp(c, s);
  }

  lemma NormResponseGrows(c: Config, d: Durable, r: Run, step: NormStep)
    requires NormMarks(c, d, r) && NormEnabled(c, d, r, step)
    ensures var s' := AfterNorm(c, d, r, step); s'.run.Some? && r.responses.val <= s'.run.value.responses.val
  {
  }

  lemma SyncLeavesResponse(c: Config, d: Durable, r: Run, step: SyncStep)
    requires SyncEnabled(c, d, r, step) && !step.Return?
    ensures var s' := AfterSync(c, d, r, step); s'.run.Some? && r.responses.val == s'.run.value.responses.val
  {
  }

  lemma ResponseGrows(c: Config, s: State, step: Step)
    requires s.run.Some? && NormMarks(c, s.d, s.run.value) && Enabled(c, s, step)
    requires step != Crash && step != Sync(Return)
    ensures var s' := After(c, s, step); s'.run.Some? && s.run.value.responses.val <= s'.run.value.responses.val
  {
    match step
    case Sync(y) => SyncLeavesResponse(c, s.d, s.run.value, y);
    case Norm(n) => NormResponseGrows(c, s.d, s.run.value, n);
    case _ =>
  }

  /** Within an activity the response only grows. */
  lemma {:induction false} ResponsesGrow(c: Config, s: State, steps: seq<Step>)
    requires c.bufferSize >= 2 && Marked(c, s) && s.run.Some? && IsRun(c, s, steps) && OneActivity(steps)
    ensures var s' := Final(c, s, steps); s'.run.Some? && s.run.value.responses.val <= s'.run.value.responses.val
    decreases |steps|
  {
    if steps != [] {
      assert steps[0] in steps;
      ResponseGrows(c, s, steps[0]);
      StepKeepsMarks(c, s, steps[0]);
      ResponsesGrow(c, After(c, s, steps[0]), steps[1..]);
    }
  }

  /**
   An activity never waits for what was merged before it began: it goes straight on after
   every batch less than a buffer ahead of that, its first one after a restart included.
   */
  lemma NotHeldByMerged(c: Config, d: Durable, steps: seq<Step>)
    requires c.bufferSize >= 2 && Reachable(c, State(d, None))
    requires IsRun(c, State(d, Some(StartedRun(d))), steps) && OneActivity(steps)
    ensures var s := Final(c, State(d, Some(StartedRun(d))), steps);
      && s.run.Some? && d.normId <= s.run.value.responses.val
      && (s.run.value.sync.Check? && s.run.value.sync.id < d.normId + c.bufferSize ==>
            !SyncEnabled(c, s.d, s.run.value, FailCheck) && SyncEnabled(c, s.d, s.run.value, PassCheck))
  {
    ReachableMarked(c, State(d, None));
    StartMarks(c, d);
    StepKeepsMarks(c, State(d, None), Start);
    ResponsesGrow(c, State(d, Some(StartedRun(d))), steps);
  }

  /** A response never names a batch that is not finished, nor, if the destination normalizes, not merged. */
  lemma ResponsesAreTrue(c: Config, s: State)
    requires c.bufferSize >= 2 && Reachable(c, s) && s.run.Some?
    ensures s.run.value.responses.val <= s.d.syncId
    ensures c.normalizes && 0 <= s.run.value.responses.val ==>
      Batches(s.d.stage, 0, s.run.value.responses.val) <= s.d.merged
  {
    ReachableMarked(c, s);
    if c.normalizes && 0 <= s.run.value.responses.val {
      BatchesSplit(s.d.stage, 0, s.run.value.responses.val, s.d.normId);
    }
  }

  // ---- the buffer size ----

  const SECOND: int64 := 1_000_000_000

  /** The most seconds a 64-bit count of nanoseconds can hold. */
  const LONGEST_TIMEOUT: int := 9_223_372_036

  /** The configured timeout; zero stands for ten seconds. */
  function ConfiguredTimeout(seconds: uint64): int {
    if seconds == 0 then 10 else seconds
  }

  /** `cdcIdleTimeout` as whole seconds, by way of a 64-bit count of nanoseconds. */
  function IdleTimeout(seconds: uint64): (timeout: int64)
    ensures -LONGEST_TIMEOUT <= timeout <= LONGEST_TIMEOUT
  {
    Quotient(Wrap(Wrap(ConfiguredTimeout(seconds)) * SECOND), SECOND)
  }

  /** It is the configured timeout exactly up to 292 years. */
  lemma TimeoutExactly(seconds: uint64)
    ensures IdleTimeout(seconds) == ConfiguredTimeout(seconds) <==> seconds <= LONGEST_TIMEOUT
  {
  }

  /** An unset option means ten seconds, and 360 batches an hour. */
  lemma DefaultTimeout(hours: int64)
    ensures IdleTimeout(0) == 10
    ensures 1 <= hours <= 1_000_000 ==> NormBufferSize(hours, 0) == Some(hours * 360)
  {
  }

  /** None stands for the panic of a division by zero. */
  function NormBufferSize(hours: int64, idleSeconds: uint64): Option<int> {
    var timeout := IdleTimeout(idleSeconds);
    if timeout == 0 then None
    else
      var n := Quotient(Wrap(hours * 3600), timeout);
      Some(if n < 2 then 2 else n)
  }

  /** Which can happen. */
  lemma TimeoutCanVanish(hours: int64)
    ensures NormBufferSize(hours, 18_446_744_074).None?
  {
    assert IdleTimeout(18_446_744_074) == 0;
  }

  /** `n` is the most batches that fit into `hours` at one batch per timeout, or two if that is less. */
  predicate Approximates(n: int, hours: int, timeout: int) {
    n >= 2 && (n * timeout <= hours * 3600 || n == 2) && hours * 3600 < (n + 1) * timeout
  }

  /** The size for a number of seconds that fits 64 bits, before it is known to mean `hours`. */
  lemma SizeOfSeconds(seconds: int64, timeout: int64)
    requires timeout > 0
    ensures var q := Quotient(seconds, timeout); var n := if q < 2 then 2 else q;
      && (n * timeout <= seconds || n == 2) && seconds < (n + 1) * timeout
      && (n == 2 <==> seconds < 3 * timeout)
  {
    QuotientBounds(Abs(seconds), timeout);
    QuotientTimes(Abs(seconds), timeout);
    var q := Quotient(seconds, timeout);
    if seconds < 0 {
      assert q <= 0;
    } else {
      assert q == seconds / timeout;
      if q < 2 {
        MulMonotone(q + 1, 2, timeout);
      } else if q > 2 {
        MulMonotone(3, q, timeout);
      }
    }
  }

  /**
   Unless the timeout vanishes the buffer has room for two batches, which let sync and
   normalize overlap. With a positive timeout it approximates the configured hours exactly
   when their seconds fit 64 bits, or they are negative and what they wrap around to is
   still less than three timeouts.
   */
  lemma BufferApproximatesExactly(hours: int64, idleSeconds: uint64)
    ensures var timeout, n := IdleTimeout(idleSeconds), NormBufferSize(hours, idleSeconds);
      && (n.None? <==> timeout == 0)
      && (n.Some? ==> n.value >= 2)
      && (timeout > 0 ==>
            (Approximates(n.value, hours, timeout) <==>
               || MIN <= hours * 3600 <= MAX
               || (hours < 0 && Wrap(hours * 3600) < 3 * timeout)))
  {
    var timeout := IdleTimeout(idleSeconds);
    if timeout > 0 {
      var n := NormBufferSize(hours, idleSeconds).value;
      SizeOfSeconds(Wrap(hours * 3600), timeout);
      if hours * 3600 > MAX {
        assert (n + 1) * timeout == n * timeout + timeout;
        assert Wrap(hours * 3600) + timeout < hours * 3600;
      } else if hours * 3600 < MIN {
        MulMonotone(2, n, timeout);
      }
    }
  }
}
