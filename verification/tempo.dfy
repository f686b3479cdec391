/**
 The tick period: one tick per beat, so the period in milliseconds is
 sixty seconds divided by the tempo in beats per minute.
 */
module Tempo {

  /** A tempo the sequencer can start with. */
  type Bpm = b: int | b > 0 witness 120

  /** Milliseconds between two ticks at tempo `bpm`, computed as (60 / bpm) * 1000. */
  function TickInterval(bpm: Bpm): (ms: real)
    ensures ms > 0.0
    ensures ms * (bpm as real) == 60000.0
  {
    var beat := 60.0 / bpm as real;
    assert beat * bpm as real == 60.0;
    beat * 1000.0
  }

  /** The period is determined by the beats-per-minute identity alone. */
  lemma IntervalUnique(bpm: Bpm, ms: real)
    ensures ms * (bpm as real) == 60000.0 <==> ms == TickInterval(bpm)
  {
    var t := TickInterval(bpm);
    if ms * (bpm as real) == 60000.0 {
      assert (ms - t) * (bpm as real) == 0.0;
    }
  }

  /** Concrete periods: 120 bpm ticks every 500 ms, 60 bpm every 1000 ms. */
  lemma IntervalExamples()
    ensures TickInterval(120) == 500.0
    ensures TickInterval(60) == 1000.0
  {
    IntervalUnique(120, 500.0);
    IntervalUnique(60, 1000.0);
  }

  /** Multiplying by a positive number keeps strict order. */
  lemma MulStrict(x: real, lo: real, hi: real)
    requires x > 0.0 && lo < hi
    ensures x * lo < x * hi
  {
    assert x * hi - x * lo == x * (hi - lo);
  }

  /** A product with a positive factor is positive only if the other factor is. */
  lemma PositiveFactor(x: real, y: real)
    requires y > 0.0 && x * y > 0.0
    ensures x > 0.0
  {
  }

  /** A faster tempo gives a strictly shorter period. */
  lemma FasterTempoShorterTick(slow: Bpm, fast: Bpm)
    requires slow < fast
    ensures TickInterval(fast) < TickInterval(slow)
  {
    var a, b := TickInterval(slow), TickInterval(fast);
    var s, f := slow as real, fast as real;
    MulStrict(b, s, f);
    assert b * f == a * s;
    assert (a - b) * s == a * s - b * s;
    PositiveFactor(a - b, s);
  }
}
