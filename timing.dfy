/** Time-windowing: the `EVERY_N_MILLISECONDS(N)` gate, one independent
    object per call site, and the hand-rolled 16-bit movement gate of
    `wispyRainbow`. */
module Timing {
  import opened Ints

  /** Milliseconds since `last` on a 32-bit `millis()` clock that wraps. */
  function Elapsed(last: u32, now: u32): u32
  {
    ToU32(now - last)
  }

  /** The gate's decision: at least `period` ms since it last fired. */
  predicate Fires(period: u32, last: u32, now: u32)
  {
    Elapsed(last, now) >= period
  }

  /** The gate's last-fired time after one check at `now`. */
  function GateAfter(period: u32, last: u32, now: u32): u32
  {
    if Fires(period, last, now) then now else last
  }

  /** Wrap-around subtraction recovers the true elapsed time d, for any
      d the 32-bit clock can represent. */
  lemma ElapsedAcrossWrap(last: u32, d: u32)
    ensures Elapsed(last, ToU32(last + d)) == d
  {
  }

  /** A gate that has just fired stays silent for the rest of its interval
      and fires again once the interval has passed (wrap-around included). */
  lemma GateOncePerInterval(period: u32, last: u32, d: u32)
    ensures Fires(period, last, ToU32(last + d)) <==> d >= period
  {
  }

  /** One `EVERY_N_MILLISECONDS(period)` site: its own last-fired time. */
  class Gate {
    const period: u32
    var last: u32

    constructor (period: u32, now: u32)
      ensures this.period == period && last == now
    {
      this.period := period;
      last := now;
    }

    /** Fires when at least `period` ms have elapsed, and then restarts
        the interval at `now`. */
    method Ready(now: u32) returns (fired: bool)
      modifies this
      ensures fired == Fires(period, old(last), now)
      ensures last == GateAfter(period, old(last), now)
    {
      fired := ToU32(now - last) >= period;
      if fired {
        last := now;
      }
    }
  }

  /** `now - lastMoveTime` in `wispyRainbow`: both operands are uint16_t,
      which on AVR (16-bit int) is unsigned int, so the difference wraps
      modulo 2^16. */
  function Elapsed16(last: u16, now: u16): u16
  {
    ToU16(now - last)
  }

  /** The hand-rolled movement gate: strictly more than `speed` ms. */
  predicate MoveDue(last: u16, now: u16, speed: u16)
  {
    Elapsed16(last, now) > speed
  }

  /** The movement gate reads `millis()` truncated to 16 bits. As long as
      less than 65536 ms pass between two moves it measures the true
      elapsed time, so it moves exactly when more than `speed` ms passed;
      a wait of exactly `speed` ms does not move the head. */
  lemma MoveDueMeasuresElapsed(lastMillis: u32, d: nat, speed: u16)
    requires d < 0x1_0000
    ensures MoveDue(ToU16(lastMillis), ToU16(lastMillis + d), speed) <==> d > speed
  {
  }
}
