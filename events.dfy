/**
 * Cancellation of events: the `Cancellable.Dummy` that ignores it, and
 * `CancellableMixin`, which forwards it to a Mixin callback. A Mixin
 * callback can be cancelled but never un-cancelled.
 */
module Cancellables {

  /** The cancelled flag after a series of `setCancelled` calls on a callback: only `true` has an effect. */
  function AfterSetCancelled(cancelled: bool, calls: seq<bool>): bool
    decreases |calls|
  {
    if |calls| == 0 then cancelled
    else AfterSetCancelled(cancelled || calls[0], calls[1..])
  }

  /** The callback ends up cancelled exactly when it started so or some call asked for it. */
  lemma {:induction false} AfterSetCancelledMeaning(cancelled: bool, calls: seq<bool>)
    ensures AfterSetCancelled(cancelled, calls) == (cancelled || true in calls)
    decreases |calls|
  {
    if |calls| > 0 {
      AfterSetCancelledMeaning(cancelled || calls[0], calls[1..]);
      assert calls == [calls[0]] + calls[1..];
    }
  }

  /** Once cancelled, no sequence of calls un-cancels. */
  lemma StaysCancelled(calls: seq<bool>)
    ensures AfterSetCancelled(true, calls)
  {
    AfterSetCancelledMeaning(true, calls);
  }

  /** `Cancellable.Dummy` (the shared `DUMMY`): never cancelled, whatever it is told. */
  class Dummy {
    constructor ()
    {
    }

    function Cancelled(): (r: bool)
      ensures !r
    {
      false
    }

    method SetCancelled(cancelled: bool)
      ensures !Cancelled()
    {
    }

    /** The default `cancel()`: `setCancelled(true)`, which does nothing here. */
    method Cancel()
      ensures !Cancelled()
    {
      SetCancelled(true);
    }
  }

  /** Mixin's `CallbackInfo`, as far as cancellation goes. */
  class Callback {
    var cancelled: bool

    constructor ()
      ensures !cancelled
    {
      cancelled := false;
    }

    /** `cancel()`. */
    method Cancel()
      modifies this
      ensures cancelled
    {
      cancelled := true;
    }
  }

  /** `CancellableMixin`: the event view of a callback. */
  class CancellableMixin {
    const ci: Callback

    constructor (ci: Callback)
      ensures this.ci == ci
    {
      this.ci := ci;
    }

    function Cancelled(): bool
      reads ci
    {
      ci.cancelled
    }

    /** `setCancelled`: `true` cancels the callback, `false` is ignored. */
    method SetCancelled(cancelled: bool)
      modifies ci
      ensures ci.cancelled == AfterSetCancelled(old(ci.cancelled), [cancelled])
    {
      if cancelled {
        ci.Cancel();
      }
    }

    /** The default `cancel()`. */
    method Cancel()
      modifies ci
      ensures Cancelled()
    {
      SetCancelled(true);
    }

    /** `unwrap()`: the callback itself. */
    function Unwrap(): (r: Callback)
      ensures r == ci
    {
      ci
    }
  }
}
