/** The cancellation token of a turn. */
module Cancellation {
  import opened Domain

  /** A token that may be cancelled from outside at any moment: `firesAt` is the first poll that sees it cancelled,
      if any does. From then on every poll does. */
  class CancelToken {
    const firesAt: Option<nat>
    var polls: nat

    constructor (firesAt: Option<nat>)
      ensures this.firesAt == firesAt && polls == 0
    {
      this.firesAt, polls := firesAt, 0;
    }

    /** Some poll has seen the token cancelled. */
    predicate Fired()
      reads `polls
    {
      firesAt.Some? && firesAt.value < polls
    }

    /** The next poll will see the token cancelled. */
    predicate Due()
      reads `polls
    {
      firesAt.Some? && firesAt.value <= polls
    }

    /** The first of the next `n` polls to see the token cancelled, and `n` when none of them does. */
    function FirstSeen(n: nat): (k: nat)
      reads `polls
      ensures k <= n
    {
      if firesAt.None? || firesAt.value >= polls + n then n
      else if firesAt.value <= polls then 0
      else firesAt.value - polls
    }

    method Poll() returns (cancelled: bool)
      modifies `polls
      ensures polls == old(polls) + 1
      ensures cancelled == Fired() == old(Due())
      ensures cancelled ==> Due()
      ensures old(Fired()) ==> Fired()
    {
      polls := polls + 1;
      cancelled := firesAt.Some? && firesAt.value < polls;
    }
  }
}
