/**
 * The real-time timer of rtimer.c: a single slot `next` for the pending
 * timer, and timers that live in their callers' memory. A timer may have to
 * wait for several wrap-arounds of the 16-bit clock (`overflowsToGo`) before
 * its compare match counts. The hardware compare register TACCR0 is a field
 * that rtimer_arch_schedule sets; the callback is named, not called: the
 * timer that fires is returned to the caller.
 */
module Rtimer {
  import opened Bytes
  import opened ChaosTestConfig

  /** struct rtimer */
  class Timer {
    var time: u16
    var overflowsToGo: u16
    // the callback and its argument, as names
    var func: nat
    var ptr: nat

    constructor ()
      ensures time == 0 && overflowsToGo == 0 && func == 0 && ptr == 0
    {
      time, overflowsToGo, func, ptr := 0, 0, 0, 0;
    }
  }

  /**
   * What one rtimer_run_next does to the pending slot, seen as its overflow
   * count: whether the callback runs, and what stays pending.
   */
  function Tick(pending: Option<u16>): (r: (bool, Option<u16>))
    ensures r.0 <==> pending == Some(0)
    ensures pending == None ==> r.1 == None
    ensures pending.Some? && pending.value > 0 ==> r.1 == Some(pending.value - 1)
    ensures pending == Some(0) ==> r.1 == None
  {
    match pending
    case None => (false, None)
    case Some(k) => if k == 0 then (true, None) else (false, Some(k - 1))
  }

  /** Whether the n-th of a run of rtimer_run_next calls fires, none of them re-arming. */
  function FiresAt(pending: Option<u16>, n: nat): bool
    requires n >= 1
    decreases n
  {
    if n == 1 then Tick(pending).0 else FiresAt(Tick(pending).1, n - 1)
  }

  /** A timer armed with k overflows to go fires on exactly the (k + 1)-th call. */
  lemma {:induction false} FiresOnCall(k: u16, n: nat)
    requires n >= 1
    ensures FiresAt(Some(k), n) <==> n == k + 1
  {
    if n > 1 {
      if k == 0 {
        NeverAgain(n - 1);
      } else {
        FiresOnCall(k - 1, n - 1);
      }
    }
  }

  /** Once the slot is empty, no call fires. */
  lemma {:induction false} NeverAgain(n: nat)
    requires n >= 1
    ensures !FiresAt(None, n)
  {
    if n > 1 {
      NeverAgain(n - 1);
    }
  }

  /**
   * The overflow count rtimer_set_long gives a timer `offset` ticks after the
   * reference time, when `elapsed` ticks have passed since it: none below two
   * seconds (2^16 ticks at 32768 Hz), otherwise the whole 2^16 spans of the
   * remaining time, computed in 32 bits, with 0xffff mapped to 0.
   */
  function LongOverflows(offset: u32, elapsed: u16): (n: u16)
    ensures offset < 2 * RTIMER_SECOND ==> n == 0
    ensures offset >= 2 * RTIMER_SECOND && elapsed <= offset && (offset - elapsed) / 0x1_0000 != 0xFFFF ==>
      n == (offset - elapsed) / 0x1_0000
    ensures n != 0xFFFF
  {
    if offset < 2 * RTIMER_SECOND then 0
    else
      var n := Wrap32(offset - elapsed) / 0x1_0000;
      if n == 0xFFFF then 0 else n
  }

  /** rtimer_time_to_expire for a compare value, a clock reading and an overflow count. */
  function ExpireTicks(compare: u16, now: u16, overflows: u16): (r: u32)
    ensures r == Wrap16(compare - now) + overflows * 0x1_0000
  {
    Wrap32(Wrap16(compare - now) + overflows * 0x1_0000)
  }

  /**
   * Right after rtimer_set_long at clock `now`, the time to expire is exactly
   * what is left of the offset, as long as the reference time lies at most
   * `offset` ticks back and the remaining time is below 0xffff * 2^16.
   */
  lemma ExpiresOnTime(refTime: u16, offset: u32, now: u16)
    requires Wrap16(now - refTime) <= offset
    requires (offset - Wrap16(now - refTime)) / 0x1_0000 != 0xFFFF
    ensures ExpireTicks(Wrap16(refTime + offset), now, LongOverflows(offset, Wrap16(now - refTime)))
      == offset - Wrap16(now - refTime)
  {
    var elapsed := Wrap16(now - refTime);
    var rest := offset - elapsed;
    var M := 0x1_0000;
    assert Wrap16(Wrap16(refTime + offset) - now) == rest % M by {
      // refTime + offset - now and rest differ by a multiple of 2^16
      var q := (now - refTime) / M;
      assert now - refTime == q * M + elapsed;
      assert refTime + offset - now == rest - q * M;
      ModShiftDown(rest, q);
      Wrap16Shift(refTime + offset, -(now as int));
    }
    if offset < 2 * RTIMER_SECOND {
      assert rest < M;
    }
  }

  /** The module's state: the pending timer and the compare register. */
  class Rtimers {
    var next: Timer?
    /** TACCR0, the last value given to rtimer_arch_schedule */
    var compare: u16

    constructor ()
      ensures next == null && compare == 0
    {
      next, compare := null, 0;
    }

    /** The slot as a value: its pending timer's overflow count, if any. */
    ghost function Pending(): Option<u16>
      reads this, next
    {
      if next == null then None else Some(next.overflowsToGo)
    }

    /** rtimer_set: the timer becomes the pending one; the hardware is armed only if none was pending. */
    method Set(rt: Timer, time: u16, func: nat, ptr: nat)
      modifies this, rt
      ensures next == rt && rt.time == time && rt.overflowsToGo == 0 && rt.func == func && rt.ptr == ptr
      ensures compare == if old(next) == null then time else old(compare)
      ensures Pending() == Some(0)
    {
      var first := next == null;
      rt.func := func;
      rt.ptr := ptr;
      rt.overflowsToGo := 0;
      rt.time := time;
      next := rt;
      if first {
        compare := time;
      }
    }

    /**
     * rtimer_set_long with the clock reading `now` it takes: nothing happens
     * while a timer is pending; otherwise the timer is due `offset` ticks
     * after `refTime`, counting the wrap-arounds still to wait.
     */
    method SetLong(rt: Timer, refTime: u16, offset: u32, func: nat, ptr: nat, now: u16)
      modifies this, rt
      ensures old(next) != null ==> next == old(next) && compare == old(compare) && unchanged(rt)
      ensures old(next) == null ==>
        next == rt && rt.func == func && rt.ptr == ptr && rt.time == Wrap16(refTime + offset) &&
        compare == rt.time && rt.overflowsToGo == LongOverflows(offset, Wrap16(now - refTime))
    {
      if next == null {
        rt.func := func;
        rt.ptr := ptr;
        rt.time := Wrap16(refTime + offset);
        next := rt;
        if offset < 2 * RTIMER_SECOND {
          rt.overflowsToGo := 0;
        } else {
          var elapsed := Wrap16(now - refTime);
          rt.overflowsToGo := Wrap32(offset - elapsed) / 0x1_0000;
          if rt.overflowsToGo == 0xFFFF {
            rt.overflowsToGo := 0;
          }
        }
        compare := Wrap16(refTime + offset);
      }
    }

    /** rtimer_time_to_expire at clock reading `now`; the code dereferences the pending timer. */
    method TimeToExpire(now: u16) returns (r: u32)
      requires next != null
      ensures r == ExpireTicks(compare, now, next.overflowsToGo)
      ensures r == Wrap16(compare - now) + next.overflowsToGo * 0x1_0000
    {
      r := Wrap32(Wrap16(compare - now) + next.overflowsToGo * 0x1_0000);
    }

    /**
     * rtimer_run_next up to the callback: a timer with no overflows to go is
     * removed from the slot and returned for its callback to run; otherwise it
     * stays pending with one overflow fewer and its compare value is re-armed.
     */
    method RunNext() returns (fired: Timer?)
      modifies this, next
      ensures fired != null <==> Tick(old(Pending())).0
      ensures fired != null ==> fired == old(next)
      ensures Pending() == Tick(old(Pending())).1
      ensures next != null ==> next == old(next) && next.time == old(next.time) && compare == next.time
      ensures next == null ==> compare == old(compare)
      ensures old(next) != null ==>
        old(next).func == old(next.func) && old(next).ptr == old(next.ptr) && old(next).time == old(next.time)
      ensures fired != null ==> fired.overflowsToGo == 0
    {
      fired := null;
      if next == null {
        return;
      }
      var t := next;
      next := null;
      if t.overflowsToGo == 0 {
        fired := t;
      } else {
        t.overflowsToGo := t.overflowsToGo - 1;
        next := t;
      }
      if next != null {
        compare := next.time;
      }
    }

    /**
     * The end of rtimer_run_next, after the callback: a timer the callback
     * set is armed again.
     */
    method AfterCallback()
      modifies this
      ensures next == old(next)
      ensures compare == if next != null then next.time else old(compare)
    {
      if next != null {
        compare := next.time;
      }
    }
  }
}
