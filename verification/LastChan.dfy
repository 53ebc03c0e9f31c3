/**
 The latest-value channel of flow/shared/concurrency/lastchan.go, cut into the
 atomic actions its methods perform.

 `Update(v)` is Store, Swap and Wake; `Close()` is Drop and Wake; `Wait()` reads
 `cond`; `Load()` reads `val`. Other goroutines may run between any two actions.
 */
module LastChans {
  import opened Options

  /** One `chan struct{}`; `born` is the value passed to the Update that made it. */
  datatype Chan = Chan(id: nat, born: int)

  /** `made` counts the channels created so far, `shut` holds the closed ones. */
  datatype LastChan = LastChan(val: int, cond: Option<Chan>, made: nat, shut: set<nat>) {
    predicate IsOpen(ch: Chan) {
      ch.id !in shut
    }

    function Store(v: int): LastChan {
      this.(val := v)
    }

    function Swap(v: int): LastChan {
      this.(cond := Some(Chan(made, v)), made := made + 1)
    }

    function Drop(): LastChan {
      this.(cond := None)
    }

    /** Closes the channel a Swap or Drop took out, if there was one. */
    function Wake(prev: Option<Chan>): LastChan {
      if prev.Some? then this.(shut := shut + {prev.value.id}) else this
    }

    /** A whole Update run with nothing in between. */
    function Update(v: int): LastChan {
      Store(v).Swap(v).Wake(cond)
    }

    ghost predicate Valid() {
      && (forall i <- shut :: i < made)
      && (cond.Some? ==> cond.value.id < made && IsOpen(cond.value))
    }

    /** `ch` left `cond` but whoever took it out has not closed it yet. */
    ghost predicate Taken(ch: Chan) {
      ch.id < made && IsOpen(ch) && (cond.Some? ==> cond.value.id != ch.id)
    }
  }

  function NewLastChan(): LastChan {
    LastChan(0, Some(Chan(0, 0)), 1, {})
  }
}
