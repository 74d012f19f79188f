/** Frame durations and back-dated capture timestamps (samples_to_ns, get_sample_time). */
module SampleTime {
  import opened PulseTypes

  const NsPerSec: nat := 1_000_000_000

  /** True when the 64-bit product frames * 10^9 in samples_to_ns does not wrap. */
  predicate NoProductWrap(frames: uint64)
  {
    frames * NsPerSec < Uint64Modulus
  }

  /**
   * samples_to_ns: the duration of `frames` frames at `rate` frames per second, in
   * nanoseconds, rounded down. The product is unsigned 64-bit, so it wraps for very
   * large frame counts; a zero rate is a division by zero, which callers must avoid.
   */
  function SamplesToNs(frames: uint64, rate: uint32): (ns: uint64)
    requires rate > 0
    ensures NoProductWrap(frames) ==> ns * rate <= frames * NsPerSec < (ns + 1) * rate
  {
    var product := (frames * NsPerSec) % Uint64Modulus;
    DivBounds(product, rate);
    product / rate
  }

  /** Integer division of a non-negative value by a positive one brackets the quotient. */
  lemma DivBounds(x: nat, d: nat)
    requires d > 0
    ensures x / d <= x
    ensures (x / d) * d <= x < (x / d + 1) * d
  {
    var q, r := x / d, x % d;
    assert x == q * d + r;
    MulMonotonic(1, d, q);
  }

  /**
   * get_sample_time: the clock reading `now` back-dated by the duration of `frames`,
   * with unsigned 64-bit subtraction. Adding the duration back always restores `now`
   * modulo 2^64; without wrap-around the timestamp is exactly `now` minus the duration.
   */
  function GetSampleTime(now: uint64, frames: uint64, rate: uint32): (t: uint64)
    requires rate > 0
    ensures (t + SamplesToNs(frames, rate)) % Uint64Modulus == now
    ensures SamplesToNs(frames, rate) <= now ==> t + SamplesToNs(frames, rate) == now
  {
    (now - SamplesToNs(frames, rate)) % Uint64Modulus
  }

  /** A longer run of frames never has a shorter duration. */
  lemma SamplesToNsMonotonic(f1: uint64, f2: uint64, rate: uint32)
    requires rate > 0
    requires f1 <= f2 && NoProductWrap(f2)
    ensures SamplesToNs(f1, rate) <= SamplesToNs(f2, rate)
  {
    var n1, n2 := SamplesToNs(f1, rate), SamplesToNs(f2, rate);
    assert f1 * NsPerSec <= f2 * NsPerSec;
    assert n1 * rate < (n2 + 1) * rate;
  }

  lemma MulMonotonic(a: nat, b: nat, c: nat)
    requires a <= b
    ensures a * c <= b * c
  {
  }

  /** More frames, captured up to the same instant, started no later. */
  lemma SampleTimeEarlierForMoreFrames(now: uint64, f1: uint64, f2: uint64, rate: uint32)
    requires rate > 0
    requires f1 <= f2 && NoProductWrap(f2)
    requires SamplesToNs(f2, rate) <= now
    ensures GetSampleTime(now, f2, rate) <= GetSampleTime(now, f1, rate) <= now
  {
    SamplesToNsMonotonic(f1, f2, rate);
  }

  /** At 44.1 kHz, 1024 frames last 23219954 ns (rounded down). */
  lemma DurationAt44100()
    ensures SamplesToNs(1024, 44100) == 23219954
  {
  }
}
