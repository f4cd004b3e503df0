/**
 * The millisecond clock of the loop: millis() and the timestamps are 32-bit
 * unsigned, and the elapsed time is their difference modulo 2^32.
 */
module Timing {

  const Wrap: int := 0x1_0000_0000

  /** An `unsigned long` on the target: 32 bits. */
  type U32 = x: int | 0 <= x < Wrap

  /** `currentMillis - startMillis` in unsigned 32-bit arithmetic. */
  function Elapsed(now: U32, start: U32): (e: U32)
    ensures (start + e) % Wrap == now
  {
    (now - start) % Wrap
  }

  /** The gate of loop(): a tick runs when the interval has elapsed and the controller runs. */
  function TickDue(running: bool, now: U32, start: U32, interval: nat): (due: bool)
    ensures due ==> running
    ensures interval >= Wrap ==> !due
    ensures running && interval == 0 ==> due
  {
    Elapsed(now, start) >= interval && running
  }

  /** The clock after d milliseconds, with the wrap-around of millis(). */
  function Advance(start: U32, d: nat): U32
  {
    (start + d) % Wrap
  }

  /** Elapsed time is measured correctly across the wrap-around of millis(), for any span shorter than 2^32 ms. */
  lemma ElapsedAcrossWrap(start: U32, d: nat)
    requires d < Wrap
    ensures Elapsed(Advance(start, d), start) == d
  {
  }

  /** Right after a tick (start == now) the gate is closed for any interval of at least one millisecond. */
  lemma NoTickAtResetInstant(running: bool, now: U32, interval: nat)
    requires interval >= 1
    ensures !TickDue(running, now, now, interval)
  {
  }

  /** A running controller ticks once its interval has passed, also across the wrap-around; an idle one never does. */
  lemma TickDueAfterInterval(running: bool, start: U32, d: nat, interval: nat)
    requires d < Wrap
    ensures TickDue(running, Advance(start, d), start, interval) <==> running && d >= interval
  {
  }
}
