/** What the calls get from the operating system. */
module Environment {
  import opened Wrappers

  /** The monotonic clock, the allocator and the scheduler.  `failures` counts what
    * the first two refused, and `rounds` how often a retry loop went round again. */
  class Host {
    var now: int
    ghost var failures: nat
    ghost var rounds: nat

    constructor ()
      ensures failures == rounds == 0
    {
      now, failures, rounds := 0, 0, 0;
    }

    /** monotonicMilliseconds: time has passed since the last reading, or the clock
      * fails. */
    method Milliseconds() returns (t: Option<int>)
      modifies `now, `failures
      ensures old(now) <= now
      ensures t.Some? ==> t.value == now && failures == old(failures)
      ensures t.None? ==> failures == old(failures) + 1
    {
      var fails: bool, passed: nat := *, *;
      now := now + passed;
      if fails {
        failures := failures + 1;
        return None;
      }
      return Some(now);
    }

    method Allocates() returns (ok: bool)
      modifies `failures
      ensures failures == old(failures) + (if ok then 0 else 1)
    {
      ok := *;
      failures := failures + (if ok then 0 else 1);
    }

    ghost method GoRound()
      modifies `rounds
      ensures rounds == old(rounds) + 1
    {
      rounds := rounds + 1;
    }
  }
}
