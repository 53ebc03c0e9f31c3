/**
 `SyncGauge` of flow/otel_metrics/observables.go: any number of concurrent `Record`
 calls against collectors running `Callback`, interleaved at every map operation.
 */
module SyncGauge {
  type Attributes = string

  /** One stored pointer; `id` tells apart readings of equal value. */
  datatype Reading = Reading(id: nat, key: Attributes, value: int)

  /** A collector inside `Range`, which visits a key at most once and is not a snapshot. */
  datatype Pc =
    | Idle
    | Ranging(visited: set<Attributes>)
    | Holding(reading: Reading, visited: set<Attributes>)    // loaded, about to observe
    | Observed(reading: Reading, visited: set<Attributes>)   // about to CompareAndDelete

  datatype Observation = Observation(collector: nat, reading: Reading)

  /** `made` counts the readings, `history` holds all of them and `latest` the last of each attribute set. */
  datatype State = State(stored: map<Attributes, Reading>, collectors: seq<Pc>, made: nat,
                         history: set<Reading>, latest: map<Attributes, Reading>, seen: multiset<Observation>)

  function Initial(collectors: nat): State {
    State(map[], seq(collectors, i => Idle), 0, {}, map[], multiset{})
  }

  datatype Step =
    | Record(key: Attributes, value: int)
    | Begin(c: nat)
    | Visit(c: nat, at: Attributes)
    | Observe(c: nat)
    | CompareAndDelete(c: nat)
    | End(c: nat)

  predicate Enabled(s: State, step: Step) {
    match step
    case Record(_, _) => true
    case Begin(c) => c < |s.collectors| && s.collectors[c].Idle?
    case Visit(c, at) =>
      c < |s.collectors| && s.collectors[c].Ranging? && at in s.stored && at !in s.collectors[c].visited
    case Observe(c) => c < |s.collectors| && s.collectors[c].Holding?
    case CompareAndDelete(c) => c < |s.collectors| && s.collectors[c].Observed?
    case End(c) => c < |s.collectors| && s.collectors[c].Ranging?
  }

  function At(s: State, c: nat, pc: Pc): State
    requires c < |s.collectors|
  {
    s.(collectors := s.collectors[c := pc])
  }

  function After(s: State, step: Step): State
    requires Enabled(s, step)
  {
    match step
    case Record(key, value) =>
      var reading := Reading(s.made, key, value);
      s.(stored := s.stored[key := reading], made := s.made + 1, history := s.history + {reading},
         latest := s.latest[key := reading])
    case Begin(c) => At(s, c, Ranging({}))
    case Visit(c, at) => At(s, c, Holding(s.stored[at], s.collectors[c].visited + {at}))
    case Observe(c) =>
      var reading := s.collectors[c].reading;
      At(s, c, Observed(reading, s.collectors[c].visited)).(seen := s.seen + multiset{Observation(c, reading)})
    case CompareAndDelete(c) =>
      var reading := s.collectors[c].reading;
      var s' := At(s, c, Ranging(s.collectors[c].visited));
      if reading.key in s.stored && s.stored[reading.key] == reading then s'.(stored := s.stored - {reading.key})
      else s'
    case End(c) => At(s, c, Idle)
  }

  predicate IsRun(s: State, steps: seq<Step>)
    decreases |steps|
  {
    steps == [] || (Enabled(s, steps[0]) && IsRun(After(s, steps[0]), steps[1..]))
  }

  function Final(s: State, steps: seq<Step>): State
    requires IsRun(s, steps)
    decreases |steps|
  {
    if steps == [] then s else Final(After(s, steps[0]), steps[1..])
  }

  ghost predicate Reachable(n: nat, s: State) {
    exists steps :: IsRun(Initial(n), steps) && Final(Initial(n), steps) == s
  }

  // ---- invariants ----

  ghost predicate SeenBySomeone(s: State, reading: Reading) {
    exists c :: Observation(c, reading) in s.seen
  }

  ghost predicate IsStored(s: State, reading: Reading) {
    reading.key in s.stored && s.stored[reading.key] == reading
  }

  /** Later readings have larger ids, and only latest readings are stored. */
  ghost predicate HistoryOk(s: State) {
    && (forall r <- s.history ::
          r.id < s.made && r.key in s.latest && (r == s.latest[r.key] || r.id < s.latest[r.key].id))
    && (forall key <- s.latest :: s.latest[key].key == key && s.latest[key] in s.history)
    && (forall key <- s.stored :: key in s.latest && s.stored[key] == s.latest[key])
  }

  ghost predicate NotLost(s: State) {
    forall key <- s.latest :: key in s.stored || SeenBySomeone(s, s.latest[key])
  }

  ghost predicate CollectorOk(s: State, c: nat)
    requires c < |s.collectors|
  {
    match s.collectors[c]
    case Holding(reading, _) => reading in s.history && Observation(c, reading) !in s.seen
    case Observed(reading, _) => Observation(c, reading) in s.seen
    case _ => true
  }

  /** A collector that observed a reading is about to delete it, or it is gone for good. */
  ghost predicate OnceOk(s: State, o: Observation) {
    && s.seen[o] == 1
    && o.reading in s.history
    && o.collector < |s.collectors|
    && (IsStored(s, o.reading) ==>
          s.collectors[o.collector].Observed? && s.collectors[o.collector].reading == o.reading)
  }

  ghost predicate CollectorsOk(s: State) {
    && (forall c: nat | c < |s.collectors| :: CollectorOk(s, c))
    && (forall o: Observation | o in s.seen :: OnceOk(s, o))
  }

  ghost predicate Ok(s: State) {
    HistoryOk(s) && NotLost(s) && CollectorsOk(s)
  }

  lemma RecordKeeps(s: State, key: Attributes, value: int)
    requires Ok(s)
    ensures Ok(After(s, Record(key, value)))
  {
    var s' := After(s, Record(key, value));
    forall k <- s'.latest
      ensures k in s'.stored || SeenBySomeone(s', s'.latest[k])
    {
      if k != key && k !in s.stored {
        assert SeenBySomeone(s, s.latest[k]);
      }
    }
    forall c: nat | c < |s.collectors|
      ensures CollectorOk(s', c)
    {
      assert CollectorOk(s, c);
    }
    forall o: Observation | o in s'.seen
      ensures OnceOk(s', o)
    {
      assert OnceOk(s, o);
      assert IsStored(s', o.reading) ==> IsStored(s, o.reading);
    }
  }

  /** Steps of a collector record nothing. */
  lemma CollectorKeepsHistory(s: State, step: Step)
    requires HistoryOk(s) && Enabled(s, step) && !step.Record?
    ensures HistoryOk(After(s, step)) && After(s, step).latest == s.latest && After(s, step).history == s.history
  {
  }

  lemma CollectorLosesNothing(s: State, step: Step)
    requires Ok(s) && Enabled(s, step) && !step.Record?
    ensures NotLost(After(s, step))
  {
    var s' := After(s, step);
    forall key <- s.latest
      ensures key in s'.stored || SeenBySomeone(s', s.latest[key])
    {
      if key !in s.stored {
        var c :| Observation(c, s.latest[key]) in s.seen;
        assert Observation(c, s.latest[key]) in s'.seen;
      } else if key !in s'.stored {
        assert CollectorOk(s, step.c);
        assert Observation(step.c, s.latest[key]) in s'.seen;
      }
    }
  }

  lemma ObserveKeeps(s: State, c: nat)
    requires Ok(s) && Enabled(s, Observe(c))
    ensures CollectorsOk(After(s, Observe(c)))
  {
    var s' := After(s, Observe(c));
    assert CollectorOk(s, c);
    forall b: nat | b < |s.collectors|
      ensures CollectorOk(s', b)
    {
      assert CollectorOk(s, b);
    }
    forall o: Observation | o in s'.seen
      ensures OnceOk(s', o)
    {
      assert o in s.seen ==> OnceOk(s, o);
    }
  }

  lemma DeleteKeeps(s: State, c: nat)
    requires Ok(s) && Enabled(s, CompareAndDelete(c))
    ensures CollectorsOk(After(s, CompareAndDelete(c)))
  {
    var s' := After(s, CompareAndDelete(c));
    forall b: nat | b < |s.collectors|
      ensures CollectorOk(s', b)
    {
      assert CollectorOk(s, b);
    }
    forall o: Observation | o in s'.seen
      ensures OnceOk(s', o)
    {
      assert OnceOk(s, o);
    }
  }

  lemma RangeKeeps(s: State, step: Step)
    requires Ok(s) && Enabled(s, step) && (step.Begin? || step.Visit? || step.End?)
    ensures CollectorsOk(After(s, step))
  {
    var s' := After(s, step);
    forall b: nat | b < |s.collectors|
      ensures CollectorOk(s', b)
    {
      assert CollectorOk(s, b);
      if step.Visit? && b == step.c {
        var o := Observation(b, s.stored[step.at]);
        assert o in s.seen ==> OnceOk(s, o);
      }
    }
    forall o: Observation | o in s'.seen
      ensures OnceOk(s', o)
    {
      assert OnceOk(s, o);
    }
  }

  lemma StepKeeps(s: State, step: Step)
    requires Ok(s) && Enabled(s, step)
    ensures Ok(After(s, step)) && |After(s, step).collectors| == |s.collectors|
  {
    if step.Record? {
      RecordKeeps(s, step.key, step.value);
    } else {
      CollectorKeepsHistory(s, step);
      CollectorLosesNothing(s, step);
      match step
      case Observe(c) => ObserveKeeps(s, c);
      case CompareAndDelete(c) => DeleteKeeps(s, c);
      case _ => RangeKeeps(s, step);
    }
  }

  lemma {:induction false} RunKeeps(s: State, steps: seq<Step>)
    requires Ok(s) && IsRun(s, steps)
    ensures Ok(Final(s, steps)) && |Final(s, steps).collectors| == |s.collectors|
    decreases |steps|
  {
    if steps != [] {
      StepKeeps(s, steps[0]);
      RunKeeps(After(s, steps[0]), steps[1..]);
    }
  }

  lemma ReachableOk(n: nat, s: State)
    requires Reachable(n, s)
    ensures Ok(s) && |s.collectors| == n
  {
    var steps :| IsRun(Initial(n), steps) && Final(Initial(n), steps) == s;
    RunKeeps(Initial(n), steps);
  }

  // ---- what holds in every interleaving ----

  /**
   The latest reading of each attribute set is stored or was observed; any reading that is
   no longer stored was superseded by a later one of its attribute set, or observed; and
   nothing is observed that was not recorded.
   */
  lemma Lossless(n: nat, s: State)
    requires Reachable(n, s)
    ensures forall key <- s.latest :: IsStored(s, s.latest[key]) || SeenBySomeone(s, s.latest[key])
    ensures forall r <- s.history ::
              || IsStored(s, r) || SeenBySomeone(s, r)
              || exists later <- s.history :: later.key == r.key && later.id > r.id
    ensures forall o: Observation | o in s.seen :: o.reading in s.history
  {
    ReachableOk(n, s);
    forall r <- s.history
      ensures || IsStored(s, r) || SeenBySomeone(s, r)
              || exists later <- s.history :: later.key == r.key && later.id > r.id
    {
      assert s.latest[r.key] in s.history;
    }
    forall o: Observation | o in s.seen
      ensures o.reading in s.history
    {
      assert OnceOk(s, o);
    }
  }

  ghost predicate AtMostOnce(s: State) {
    forall a: Observation, b: Observation | a in s.seen && b in s.seen && a.reading == b.reading ::
      a == b && s.seen[a] == 1
  }

  lemma {:induction false} ExtendRun(s: State, steps: seq<Step>, step: Step)
    requires IsRun(s, steps) && Enabled(Final(s, steps), step)
    ensures IsRun(s, steps + [step]) && Final(s, steps + [step]) == After(Final(s, steps), step)
    decreases |steps|
  {
    if steps == [] {
      assert IsRun(After(s, step), []);
    } else {
      assert (steps + [step])[1..] == steps[1..] + [step];
      ExtendRun(After(s, steps[0]), steps[1..], step);
    }
  }

  lemma Take(n: nat, s: State, step: Step) returns (t: State)
    requires Reachable(n, s) && Enabled(s, step)
    ensures t == After(s, step) && Reachable(n, t)
  {
    var steps :| IsRun(Initial(n), steps) && Final(Initial(n), steps) == s;
    ExtendRun(Initial(n), steps, step);
    t := After(s, step);
  }

  /** Two collectors begin while one reading is stored. */
  lemma TwoCollectorsBegin(n: nat) returns (s: State)
    requires n >= 2
    ensures Reachable(n, s) && s.stored == map["" := Reading(0, "", 0)] && |s.collectors| == n
    ensures s.collectors[0] == s.collectors[1] == Ranging({})
  {
    assert IsRun(Initial(n), []);
    s := Take(n, Initial(n), Record("", 0));
    s := Take(n, s, Begin(0));
    s := Take(n, s, Begin(1));
  }

  /** Both can load it before either deletes it. */
  lemma TwoCollectorsObserveTwice(n: nat) returns (s: State)
    requires n >= 2
    ensures Reachable(n, s) && !AtMostOnce(s)
  {
    s := TwoCollectorsBegin(n);
    s := Take(n, s, Visit(0, ""));
    s := Take(n, s, Visit(1, ""));
    s := Take(n, s, Observe(0));
    s := Take(n, s, Observe(1));
    var r := Reading(0, "", 0);
    assert Observation(0, r) in s.seen && Observation(1, r) in s.seen;
  }

  /** Each collector observes a reading at most once, so with one collector no reading is observed twice. */
  lemma AtMostOnceExactly(n: nat)
    ensures forall s | Reachable(n, s) :: forall o: Observation | o in s.seen :: s.seen[o] == 1
    ensures (forall s | Reachable(n, s) :: AtMostOnce(s)) <==> n <= 1
  {
    forall s | Reachable(n, s)
      ensures |s.collectors| == n && forall o: Observation | o in s.seen :: OnceOk(s, o)
    {
      ReachableOk(n, s);
    }
    if n >= 2 {
      var s := TwoCollectorsObserveTwice(n);
    }
  }

  // ---- told by the steps alone ----

  datatype Written = Written(key: Attributes, value: int)

  /** What was passed to `Record`, in order. */
  function Recorded(steps: seq<Step>): seq<Written> {
    if steps == [] then []
    else (if steps[0].Record? then [Written(steps[0].key, steps[0].value)] else []) + Recorded(steps[1..])
  }

  /** `r` is the reading of the call `R[r.id - from]`. */
  ghost predicate IsReading(r: Reading, from: nat, written: seq<Written>) {
    from <= r.id < from + |written| && written[r.id - from] == Written(r.key, r.value)
  }

  lemma StepRecords(s: State, step: Step)
    requires Enabled(s, step)
    ensures var s' := After(s, step); var written := Recorded([step]);
      && s'.made == s.made + |written|
      && forall r: Reading :: r in s'.history <==> r in s.history || IsReading(r, s.made, written)
  {
    assert [step][1..] == [];
    if step.Record? {
      var written := Recorded([step]);
      assert written == [Written(step.key, step.value)] + Recorded([step][1..]);
      assert Recorded([step][1..]) == [];
      forall r: Reading
        ensures IsReading(r, s.made, written) <==> r == Reading(s.made, step.key, step.value)
      {
        if IsReading(r, s.made, written) {
          assert r.id - s.made == 0;
        }
      }
    }
  }

  lemma ReadingsSplit(r: Reading, from: nat, a: seq<Written>, b: seq<Written>)
    ensures IsReading(r, from, a + b) <==> IsReading(r, from, a) || IsReading(r, from + |a|, b)
  {
  }

  lemma RecordedSplit(steps: seq<Step>)
    requires steps != []
    ensures Recorded(steps) == Recorded([steps[0]]) + Recorded(steps[1..])
  {
    assert [steps[0]][1..] == [];
  }

  lemma {:induction false} RunRecords(s: State, steps: seq<Step>)
    requires IsRun(s, steps)
    ensures var s' := Final(s, steps);
      && s'.made == s.made + |Recorded(steps)|
      && forall r: Reading :: r in s'.history <==> r in s.history || IsReading(r, s.made, Recorded(steps))
    decreases |steps|
  {
    if steps != [] {
      var s1, first, rest := After(s, steps[0]), Recorded([steps[0]]), Recorded(steps[1..]);
      StepRecords(s, steps[0]);
      RunRecords(s1, steps[1..]);
      RecordedSplit(steps);
      forall r: Reading
        ensures IsReading(r, s.made, first + rest) <==> IsReading(r, s.made, first) || IsReading(r, s1.made, rest)
      {
        ReadingsSplit(r, s.made, first, rest);
      }
    }
  }

  /** No call comes after the latest reading of its attribute set. */
  lemma LatestIsLast(s: State, written: seq<Written>, j: nat)
    requires HistoryOk(s) && j < |written|
    requires forall r: Reading :: r in s.history <==> IsReading(r, 0, written)
    ensures written[j].key in s.latest && s.latest[written[j].key].id >= j
  {
    var r := Reading(j, written[j].key, written[j].value);
    assert IsReading(r, 0, written);
    assert r in s.history;
  }

  /**
   The readings are exactly the calls of `Record`, each with its attributes and value; the
   latest of an attribute set is its last call; and only such readings are observed.
   */
  lemma ReadingsAreCalls(n: nat, steps: seq<Step>)
    requires IsRun(Initial(n), steps)
    ensures var s := Final(Initial(n), steps); var written := Recorded(steps);
      && (forall r: Reading :: r in s.history <==> IsReading(r, 0, written))
      && (forall o: Observation | o in s.seen :: IsReading(o.reading, 0, written))
      && (forall key <- s.latest ::
            && s.latest[key].key == key && IsReading(s.latest[key], 0, written)
            && forall j | s.latest[key].id < j < |written| :: written[j].key != key)
      && (forall j | 0 <= j < |written| :: written[j].key in s.latest)
  {
    var s, written := Final(Initial(n), steps), Recorded(steps);
    RunRecords(Initial(n), steps);
    RunKeeps(Initial(n), steps);
    assert forall o: Observation | o in s.seen :: OnceOk(s, o);
    forall j | 0 <= j < |written|
      ensures written[j].key in s.latest && s.latest[written[j].key].id >= j
    {
      LatestIsLast(s, written, j);
    }
  }

  /** Within one collection no attribute set is visited twice, however often it is recorded meanwhile. */
  lemma {:induction false} VisitedOnce(s: State, steps: seq<Step>, c: nat, at: Attributes)
    requires IsRun(s, steps) && End(c) !in steps
    requires c < |s.collectors| && !s.collectors[c].Idle? && at in s.collectors[c].visited
    ensures Visit(c, at) !in steps
    decreases |steps|
  {
    if steps != [] {
      assert steps[0] in steps && steps == [steps[0]] + steps[1..];
      VisitedOnce(After(s, steps[0]), steps[1..], c, at);
    }
  }

  lemma VisitMarks(s: State, c: nat, at: Attributes)
    requires Enabled(s, Visit(c, at))
    ensures var pc := After(s, Visit(c, at)).collectors[c];
      pc.Holding? && at in pc.visited && pc.reading == s.stored[at]
  {
  }
}
