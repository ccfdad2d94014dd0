/**
 * The shared debounce timestamp `last_button_time`.
 *
 * One timestamp (milliseconds, `uint32_t`) is shared by all three buttons and
 * by both ways the firmware reads them: the falling-edge interrupt handler
 * and the polling code of the configuration, training and history modes.
 * The two ways compare differently: the handler drops an edge when less than
 * 200 ms have passed, the polling code acts only when MORE than 200 ms have
 * passed.
 */
module Debounce {
  import opened Common

  const DebounceDelay: int := 200

  /** The handler's test: it returns early when `current_time - last_button_time < 200`. */
  predicate EdgeAccepted(last: U32, now: U32)
    ensures last <= now ==> (EdgeAccepted(last, now) <==> now >= last + DebounceDelay)
    ensures now < last ==> (EdgeAccepted(last, now) <==> now + TwoTo32 >= last + DebounceDelay)
  {
    !(Sub32(now, last) < DebounceDelay)
  }

  /** The polling test: `current_time - last_button_time > 200`. */
  predicate HeldAccepted(last: U32, now: U32)
    ensures last <= now ==> (HeldAccepted(last, now) <==> now > last + DebounceDelay)
    ensures now < last ==> (HeldAccepted(last, now) <==> now + TwoTo32 > last + DebounceDelay)
  {
    Sub32(now, last) > DebounceDelay
  }

  /** The polling test is strictly stronger: exactly 200 ms apart, only an edge gets through. */
  lemma HeldImpliesEdge(last: U32, now: U32)
    ensures HeldAccepted(last, now) ==> EdgeAccepted(last, now)
    ensures now == (last + DebounceDelay) % TwoTo32 ==> EdgeAccepted(last, now) && !HeldAccepted(last, now)
  {
  }

  /** Nothing is accepted twice at the same instant: after an acceptance at `now`, both tests fail at `now`. */
  lemma NoSecondAcceptance(now: U32)
    ensures !EdgeAccepted(now, now) && !HeldAccepted(now, now)
  {
  }

  /** Holder of `last_button_time`. */
  class Debouncer {
    var last: U32

    /** `last_button_time` starts at 0. */
    constructor ()
      ensures last == 0
    {
      last := 0;
    }

    /** First lines of `button_callback`: drop the edge, or record its time. */
    method AcceptEdge(now: U32) returns (ok: bool)
      modifies this
      ensures ok <==> EdgeAccepted(old(last), now)
      ensures last == if ok then now else old(last)
    {
      if Sub32(now, last) < DebounceDelay {
        return false;
      }
      last := now;
      ok := true;
    }

    /** A polled button test: act, and record the time, only after more than 200 ms. */
    method AcceptHeld(now: U32) returns (ok: bool)
      modifies this
      ensures ok <==> HeldAccepted(old(last), now)
      ensures last == if ok then now else old(last)
    {
      ok := false;
      if Sub32(now, last) > DebounceDelay {
        last := now;
        ok := true;
      }
    }
  }
}
