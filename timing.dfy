/**
 * The 15-second sampling gate. millis() and last_sample_ms are 32-bit
 * unsigned, so their difference wraps modulo 2^32.
 */
module Timing {

  const Wrap: int := 0x1_0000_0000

  newtype u32 = x: int | 0 <= x < 0x1_0000_0000

  const SampleIntervalMs: int := 15000

  /** millis() - last_sample_ms in unsigned 32-bit arithmetic. */
  function Elapsed(now: u32, last: u32): (d: u32)
    ensures d as int == if now >= last then now as int - last as int else now as int + Wrap - last as int
  {
    ((now as int - last as int) % Wrap) as u32
  }

  /** The sampling cycle runs when strictly more than 15000 ms have elapsed. */
  predicate Due(now: u32, last: u32)
  {
    Elapsed(now, last) as int > SampleIntervalMs
  }

  /** The clock after `d` ms of real time, counting modulo 2^32. */
  function Advance(t: u32, d: nat): (t': u32)
  {
    ((t as int + d) % Wrap) as u32
  }

  /** The unsigned difference measures real elapsed time across a rollover, for any span under 2^32 ms. */
  lemma ElapsedMeasuresAdvance(last: u32, d: nat)
    requires d < Wrap
    ensures Elapsed(Advance(last, d), last) as int == d
    ensures Due(Advance(last, d), last) <==> d > SampleIntervalMs
  {
  }

  /** A sample taken 256 ms before the rollover is not due at 14000 after it, and is due at 15000. */
  lemma RolloverExample()
    ensures !Due(14_000, 0xFFFF_FF00)
    ensures Due(15_000, 0xFFFF_FF00)
  {
  }
}
