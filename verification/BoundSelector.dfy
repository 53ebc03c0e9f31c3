/**
 The bounded child spawner of flow/shared/bound_selector.go, and `cloneTables` of
 flow/workflows/snapshot_flow.go, which spawns one child per table with it.
 */
module BoundSelectors {
  import opened Options

  type Error = nat

  /** A child workflow; `custom` says that its caller passed a callback of its own. */
  datatype Child = Child(id: nat, custom: bool)

  /** A child was started, or the selector handed its outcome to the child's callback. */
  datatype Event = Started(child: Child) | Observed(child: Child, error: Option<Error>)

  // ---- histories ----

  datatype History = Empty | Then(before: History, last: Event)

  /** `p` is how `h` began. */
  ghost predicate Began(p: History, h: History) {
    p == h || (h.Then? && Began(p, h.before))
  }

  /** Children started and not yet observed. */
  function Running(h: History): multiset<Child> {
    match h
    case Empty => multiset{}
    case Then(before, Started(child)) => Running(before) + multiset{child}
    case Then(before, Observed(child, _)) => Running(before) - multiset{child}
  }

  /** The error the selector learns from this event: the default callback stores it, another does not. */
  function Failure(e: Event): Option<Error> {
    if e.Observed? && !e.child.custom then e.error else None
  }

  function FirstFailure(h: History): Option<Error> {
    if h.Empty? then None
    else if FirstFailure(h.before).None? then Failure(h.last)
    else FirstFailure(h.before)
  }

  function StartedIn(h: History): seq<Child> {
    if h.Empty? then [] else StartedIn(h.before) + if h.last.Started? then [h.last.child] else []
  }

  /** The children that finished, successfully unless their callback is custom, as far as anyone looked. */
  function SucceededIn(h: History): multiset<Child> {
    if h.Empty? then multiset{}
    else
      SucceededIn(h.before) +
      if h.last.Observed? && Failure(h.last).None? then multiset{h.last.child} else multiset{}
  }

  /** Each event was allowed by what went before it. */
  ghost predicate WellBehaved(h: History, limit: int) {
    h.Empty? ||
    (&& WellBehaved(h.before, limit)
     && FirstFailure(h.before).None?
     && match h.last
        case Started(_) => limit > 0 ==> |Running(h.before)| < limit
        case Observed(child, _) => child in Running(h.before))
  }

  lemma RunningBounded(h: History, limit: int)
    requires WellBehaved(h, limit) && limit > 0
    ensures |Running(h)| <= limit
  {
    if h.Then? && h.last.Observed? {
      RunningBounded(h.before, limit);
    }
  }

  /** At no point of a well-behaved history do more than `limit` children run. */
  lemma {:induction false} NeverTooMany(p: History, h: History, limit: int)
    requires WellBehaved(h, limit) && limit > 0 && Began(p, h)
    ensures |Running(p)| <= limit
    decreases h
  {
    if p == h {
      RunningBounded(h, limit);
    } else {
      NeverTooMany(p, h.before, limit);
    }
  }

  /** A failure is the last event: no child is started or observed after it, so it is never replaced. */
  lemma {:induction false} FailureEndsHistory(p: History, h: History, limit: int)
    requires WellBehaved(h, limit) && Began(p, h) && p.Then? && Failure(p.last).Some?
    ensures p == h && FirstFailure(h) == Failure(p.last)
    decreases h
  {
    if p != h {
      FailureEndsHistory(p, h.before, limit);
    }
  }

  /** Without a failure every started child is running or succeeded, as often as it was started. */
  lemma {:induction false} StartedAccounted(h: History, limit: int)
    requires WellBehaved(h, limit) && FirstFailure(h).None?
    ensures multiset(StartedIn(h)) == Running(h) + SucceededIn(h)
    decreases h
  {
    if h.Then? {
      StartedAccounted(h.before, limit);
    }
  }

  lemma WithoutOne(running: multiset<Child>, succeeded: multiset<Child>, child: Child)
    requires child in running
    ensures running + succeeded == (running - multiset{child}) + succeeded + multiset{child}
    ensures running + succeeded != succeeded
  {
    assert (running + succeeded)[child] > succeeded[child];
  }

  /** After a failure exactly one started child is neither running nor succeeded. */
  lemma {:induction false} FailureLeavesOne(h: History, limit: int)
    requires WellBehaved(h, limit) && FirstFailure(h).Some?
    ensures multiset(StartedIn(h)) == Running(h) + SucceededIn(h) + multiset{h.last.child}
    ensures multiset(StartedIn(h)) != SucceededIn(h)
  {
    StartedAccounted(h.before, limit);
    WithoutOne(Running(h.before), SucceededIn(h.before), h.last.child);
    assert StartedIn(h) == StartedIn(h.before) && SucceededIn(h) == SucceededIn(h.before);
  }

  lemma AddStart(h: History, limit: int, child: Child)
    requires WellBehaved(h, limit) && FirstFailure(h).None? && (limit > 0 ==> |Running(h)| < limit)
    ensures var h' := Then(h, Started(child));
      && WellBehaved(h', limit) && FirstFailure(h').None? && StartedIn(h') == StartedIn(h) + [child]
      && Running(h') == Running(h) + multiset{child} && |Running(h')| == |Running(h)| + 1
  {
  }

  lemma AddOutcome(h: History, limit: int, child: Child, error: Option<Error>)
    requires WellBehaved(h, limit) && FirstFailure(h).None? && child in Running(h)
    ensures var h' := Then(h, Observed(child, error));
      && WellBehaved(h', limit) && FirstFailure(h') == Failure(h'.last) && StartedIn(h') == StartedIn(h)
      && Running(h') == Running(h) - multiset{child} && |Running(h')| == |Running(h)| - 1
  {
  }

  /** At the limit one child is observed first, and the new one starts unless that one failed. */
  ghost predicate Took(before: History, child: Child, after: History) {
    var h := if after.Then? && after.last == Started(child) && after.before != before then after.before else after;
    && h.Then? && h.before == before && h.last.Observed?
    && (after == if Failure(h.last).None? then Then(h, Started(child)) else h)
  }

  // ---- the selector ----

  class BoundSelector {
    var ferror: Option<Error>
    const limit: int
    var count: int
    /** The futures the workflow selector still waits on. */
    var pending: multiset<Child>
    ghost var history: History

    ghost predicate Valid()
      reads this
    {
      && WellBehaved(history, limit)
      && ferror == FirstFailure(history)
      && pending == Running(history)
      && count == |pending|
    }

    constructor (limit: int)
      ensures Valid() && history == Empty && this.limit == limit
    {
      this.limit := limit;
      ferror, count, pending, history := None, 0, multiset{}, Empty;
    }

    /** `Select`: some pending future completes, with any outcome, and its callback runs. */
    method Select()
      requires Valid() && ferror.None? && count > 0
      modifies this`pending, this`ferror, this`history
      ensures WellBehaved(history, limit) && ferror == FirstFailure(history) && pending == Running(history)
      ensures count - 1 == |pending|
      ensures history.Then? && history.before == old(history) && history.last.Observed?
      ensures StartedIn(history) == StartedIn(old(history))
    {
      var child :| child in pending;
      var error: Option<Error> := *;
      AddOutcome(history, limit, child, error);
      history := Then(history, Observed(child, error));
      pending := pending - multiset{child};
      if !child.custom && error.Some? {
        ferror := error;
      }
    }

    method WaitOne()
      requires Valid() && ferror.None?
      modifies this
      ensures Valid() && StartedIn(history) == StartedIn(old(history))
      ensures count == if old(count) > 0 then old(count) - 1 else old(count)
      ensures if old(count) > 0 then history.Then? && history.before == old(history) && history.last.Observed?
              else history == old(history)
    {
      if count > 0 {
        Select();
        count := count - 1;
      }
    }

    /** Starts the child workflow and waits on its future from now on. */
    method AddFuture(child: Child)
      requires Valid() && ferror.None? && (limit > 0 ==> count < limit)
      modifies this
      ensures Valid() && ferror.None? && history == Then(old(history), Started(child))
      ensures StartedIn(history) == StartedIn(old(history)) + [child]
    {
      AddStart(history, limit, child);
      pending := pending + multiset{child};
      history := Then(history, Started(child));
      count := count + 1;
    }

    /** On success this child was started, and nothing else; with an error nothing was. */
    method SpawnChild(child: Child) returns (err: Option<Error>)
      requires Valid()
      modifies this
      ensures Valid() && err == ferror
      ensures old(ferror).Some? ==> err == old(ferror) && history == old(history)
      ensures StartedIn(history) == StartedIn(old(history)) + if err.None? then [child] else []
      ensures old(ferror).None? && (limit <= 0 || old(count) < limit) ==> history == Then(old(history), Started(child))
      ensures old(ferror).None? && 0 < limit <= old(count) ==> Took(old(history), child, history)
    {
      if ferror.Some? {
        return ferror;
      }
      if limit > 0 {
        RunningBounded(history, limit);
      }
      if limit > 0 && count >= limit {
        WaitOne();
        if ferror.Some? {
          return ferror;
        }
      }
      AddFuture(child);
      return ferror;
    }

    /** Returns no error exactly when every child started so far has finished, none with a failure. */
    method Wait() returns (err: Option<Error>)
      requires Valid()
      modifies this
      ensures Valid() && err == ferror
      ensures old(ferror).Some? ==> err == old(ferror) && history == old(history)
      ensures StartedIn(history) == StartedIn(old(history))
      ensures err.None? <==> multiset(StartedIn(history)) == SucceededIn(history)
    {
      while count > 0 && ferror.None?
        invariant Valid() && StartedIn(history) == StartedIn(old(history))
        invariant old(ferror).Some? ==> ferror == old(ferror) && history == old(history)
        decreases count
      {
        WaitOne();
      }
      if ferror.None? {
        StartedAccounted(history, limit);
      } else {
        FailureLeavesOne(history, limit);
      }
      return ferror;
    }
  }

  lemma TakeOneMore(s: seq<Child>, i: nat)
    requires i <= |s|
    ensures s[..i] <= s && (i == |s| ==> s[..i] == s) && (i < |s| ==> s[..i] + [s[i]] == s[..i + 1])
  {
  }

  /** The child that clones a table; its outcome goes to the default callback. */
  function CloneOf(table: nat): Child {
    Child(table, false)
  }

  function ClonesOf(tables: seq<nat>): seq<Child> {
    seq(|tables|, i requires 0 <= i < |tables| => CloneOf(tables[i]))
  }

  /** The loop over the tables: it spawns their clones in order until a failure is known. */
  method SpawnClones(selector: BoundSelector, tables: seq<nat>) returns (err: Option<Error>)
    requires selector.Valid() && selector.history == Empty
    modifies selector
    ensures selector.Valid() && err == selector.ferror
    ensures StartedIn(selector.history) <= ClonesOf(tables)
    ensures err.None? ==> StartedIn(selector.history) == ClonesOf(tables)
  {
    ghost var clones := ClonesOf(tables);
    err := selector.ferror;
    for i := 0 to |tables|
      invariant selector.Valid() && err == selector.ferror == None
      invariant StartedIn(selector.history) == clones[..i]
    {
      TakeOneMore(clones, i);
      err := selector.SpawnChild(CloneOf(tables[i]));
      if err.Some? {
        return;
      }
    }
    TakeOneMore(clones, |tables|);
  }

  lemma NotAllCloned(h: History, limit: int, clones: seq<Child>)
    requires WellBehaved(h, limit) && FirstFailure(h).Some? && StartedIn(h) == clones
    ensures SucceededIn(h) != multiset(clones)
  {
    FailureLeavesOne(h, limit);
  }

  /**
   There is no error exactly if every table was cloned: one child per table was started, in
   order, at most `maxParallelClones` at a time, and each finished successfully.
   */
  method CloneTables(tables: seq<nat>, maxParallelClones: int) returns (err: Option<Error>, ghost history: History)
    ensures WellBehaved(history, maxParallelClones) && err == FirstFailure(history)
    ensures StartedIn(history) <= ClonesOf(tables)
    ensures err.None? <==> StartedIn(history) == ClonesOf(tables) && SucceededIn(history) == multiset(ClonesOf(tables))
  {
    var selector := new BoundSelector(maxParallelClones);
    err := SpawnClones(selector, tables);
    if err.None? {
      err := selector.Wait();
    }
    history := selector.history;
    if err.Some? && StartedIn(history) == ClonesOf(tables) {
      NotAllCloned(history, maxParallelClones, ClonesOf(tables));
    }
  }
}
