/**
 * The cancellation signal handed to every debounce call: a one-way flag
 * that starts unset and can only ever be set.
 */
module CancellationTokens {

  class CancellationToken {
    /** The private `#isCancelled` slot. */
    var cancelled: bool

    /** A fresh token is never cancelled. */
    constructor ()
      ensures !cancelled
    {
      cancelled := false;
    }

    /** The `isCancelled` getter: a read of the flag that changes nothing. */
    function IsCancelled(): bool
      reads this
    {
      cancelled
    }

    /**
     * Moves the token into the cancelled state. Calling it again leaves the
     * state as it is, so any number of calls is harmless.
     */
    method Cancel()
      modifies this
      ensures cancelled
      ensures old(cancelled) ==> unchanged(this)
    {
      cancelled := true;
    }
  }
}
