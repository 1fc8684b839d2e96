/** Repeating one step until there is nothing left to do, for any kind of step. */
module Iteration {
  import opened Pointers

  /** The state after at most `n` steps: `next` picks a step or none, `install` takes it. */
  function Iterate<C(!new), U(!new)>(next: C -> Option<U>, install: (U, C) -> C, c: C, n: nat): C
    decreases n
  {
    if n == 0 || next(c).None? then c else Iterate(next, install, install(next(c).value, c), n - 1)
  }

  /** Every step picked does one unit of work, and none is picked exactly when none is left. */
  ghost predicate Counts<C(!new), U(!new)>(next: C -> Option<U>, install: (U, C) -> C, work: C -> nat) {
    forall c: C {:trigger next(c)} ::
      (next(c).None? <==> work(c) == 0) &&
      (next(c).Some? ==> work(install(next(c).value, c)) + 1 == work(c))
  }

  /** So `n` steps are enough exactly when there are as many of them as there is work. */
  lemma {:induction false} IterateConverges<C(!new), U(!new)>(
    next: C -> Option<U>, install: (U, C) -> C, work: C -> nat, c: C, n: nat)
    requires Counts(next, install, work)
    ensures next(Iterate(next, install, c, n)).None? <==> n >= work(c)
    decreases n
  {
    if n > 0 && next(c).Some? {
      IterateConverges(next, install, work, install(next(c).value, c), n - 1);
    }
  }
}
