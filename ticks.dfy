/** Conversion of accumulated seconds into the integer tick count written into
    the track: `int(round(second2tick(seconds, ticks_per_beat, bpm2tempo(bpm))))`,
    computed exactly on reals. */
module Ticks {

  /** Resolution of a freshly created MIDI file, in ticks per beat. */
  const TicksPerBeat: int := 480
  /** Microseconds per minute, the numerator of bpm2tempo. */
  const MicrosPerMinute: int := 60000000

  /** Rounds to the nearest integer, a tie going to the even neighbour (the rule
      of the language's built-in round). */
  function RoundHalfEven(x: real): (n: int)
    ensures -0.5 <= x - n as real <= 0.5
    ensures (x - n as real == 0.5 || n as real - x == 0.5) ==> n % 2 == 0
  {
    var f := x.Floor;
    var d := x - f as real;
    if d < 0.5 then f
    else if d > 0.5 then f + 1
    else if f % 2 == 0 then f
    else f + 1
  }

  /** The two properties of RoundHalfEven's contract pin the result down. */
  lemma RoundHalfEvenUnique(x: real, m: int)
    requires -0.5 <= x - m as real <= 0.5
    requires (x - m as real == 0.5 || m as real - x == 0.5) ==> m % 2 == 0
    ensures m == RoundHalfEven(x)
  {
  }

  /** No integer is closer to `x` than its rounding. */
  lemma RoundHalfEvenNearest(x: real, m: int)
    ensures Abs(x - RoundHalfEven(x) as real) <= Abs(x - m as real)
  {
    var n := RoundHalfEven(x);
    if m < n {
      assert m as real <= n as real - 1.0;
    } else if n < m {
      assert n as real + 1.0 <= m as real;
    }
  }

  /** Rounding never reverses the order of two values. */
  lemma RoundHalfEvenMonotone(x: real, y: real)
    requires x <= y
    ensures RoundHalfEven(x) <= RoundHalfEven(y)
  {
  }

  /** An integer rounds to itself. */
  lemma RoundHalfEvenOfInt(k: int)
    ensures RoundHalfEven(k as real) == k
  {
    RoundHalfEvenUnique(k as real, k);
  }

  function Abs(x: real): real
  {
    if x < 0.0 then -x else x
  }

  /** The tempos, in beats per minute, that `main` can record with: positive
      and small enough that bpm2tempo is not 0 (Bpm2TempoVanishes). */
  predicate ValidBpm(bpm: int)
  {
    0 < bpm < 120000000
  }

  /** mido's bpm2tempo: microseconds per beat for a tempo in beats per minute. */
  function Bpm2Tempo(bpm: int): (tempo: int)
    requires bpm != 0
    ensures Abs(tempo as real * bpm as real - MicrosPerMinute as real) <= Abs(bpm as real) / 2.0
    ensures ValidBpm(bpm) ==> tempo > 0
  {
    var x := MicrosPerMinute as real / bpm as real;
    var t := RoundHalfEven(x);
    assert x * bpm as real == MicrosPerMinute as real;
    assert ValidBpm(bpm) ==> x > 0.5;
    ScaleWithinHalf(x, t, bpm as real);
    t
  }

  lemma ScaleWithinHalf(x: real, t: int, b: real)
    requires -0.5 <= x - t as real <= 0.5
    ensures Abs(t as real * b - x * b) <= Abs(b) / 2.0
  {
    var e := x - t as real;
    assert x * b - t as real * b == e * b;
    if b >= 0.0 {
      assert -0.5 * b <= e * b <= 0.5 * b;
    } else {
      assert 0.5 * b <= e * b <= -0.5 * b;
    }
  }

  /** From 120,000,000 beats per minute on, bpm2tempo rounds to 0 and the
      conversion to ticks would divide by zero: ValidBpm's bound is exact. */
  lemma Bpm2TempoVanishes(bpm: int)
    requires bpm >= 120000000
    ensures Bpm2Tempo(bpm) == 0
  {
    var x := MicrosPerMinute as real / bpm as real;
    assert x * bpm as real == MicrosPerMinute as real;
    assert 0.0 < x <= 0.5;
    assert x.Floor == 0;
  }

  /** mido's second2tick, exactly: the ticks that `second` seconds last. */
  function Second2Tick(second: real, ticksPerBeat: int, tempo: int): (ticks: real)
    requires tempo != 0
    ensures ticks * tempo as real == second * ticksPerBeat as real * 1000000.0
  {
    second * ticksPerBeat as real * 1000000.0 / tempo as real
  }

  /** mido's tick2second, exactly: the seconds that `tick` ticks last. */
  function Tick2Second(tick: real, ticksPerBeat: int, tempo: int): (seconds: real)
    requires ticksPerBeat != 0
  {
    tick * (tempo as real * 0.000001 / ticksPerBeat as real)
  }

  /** second2tick and tick2second are inverse to each other. */
  lemma Tick2SecondRoundTrip(second: real, tick: real, ticksPerBeat: int, tempo: int)
    requires ticksPerBeat != 0 && tempo != 0
    ensures Tick2Second(Second2Tick(second, ticksPerBeat, tempo), ticksPerBeat, tempo) == second
    ensures Second2Tick(Tick2Second(tick, ticksPerBeat, tempo), ticksPerBeat, tempo) == tick
  {
  }

  /** Converting two spans of time separately gives, before rounding, the same
      ticks as converting their sum: accumulating delta times loses nothing. */
  lemma Second2TickAdditive(a: real, b: real, ticksPerBeat: int, tempo: int)
    requires tempo != 0
    ensures Second2Tick(a + b, ticksPerBeat, tempo)
         == Second2Tick(a, ticksPerBeat, tempo) + Second2Tick(b, ticksPerBeat, tempo)
  {
  }

  /** The tick time stamped on a recorded message after `seconds` of accumulated time. */
  function MidiTime(seconds: real, bpm: int): (ticks: int)
    requires ValidBpm(bpm)
    ensures -0.5 <= Second2Tick(seconds, TicksPerBeat, Bpm2Tempo(bpm)) - ticks as real <= 0.5
  {
    RoundHalfEven(Second2Tick(seconds, TicksPerBeat, Bpm2Tempo(bpm)))
  }

  /** No time, no ticks. */
  lemma MidiTimeZero(bpm: int)
    requires ValidBpm(bpm)
    ensures MidiTime(0.0, bpm) == 0
  {
    RoundHalfEvenOfInt(0);
  }

  /** More accumulated time never gives fewer ticks. */
  lemma MidiTimeMonotone(s1: real, s2: real, bpm: int)
    requires ValidBpm(bpm)
    requires s1 <= s2
    ensures MidiTime(s1, bpm) <= MidiTime(s2, bpm)
  {
    var tempo := Bpm2Tempo(bpm);
    var k := TicksPerBeat as real * 1000000.0 / tempo as real;
    assert k > 0.0;
    assert Second2Tick(s1, TicksPerBeat, tempo) == s1 * k;
    assert Second2Tick(s2, TicksPerBeat, tempo) == s2 * k;
    assert s1 * k <= s2 * k;
    RoundHalfEvenMonotone(s1 * k, s2 * k);
  }

  /** When the beat length is a whole number of microseconds, the tick count
      before rounding is seconds * ticksPerBeat * bpm / 60. */
  lemma Second2TickExactTempo(seconds: real, bpm: int)
    requires 0 < bpm && MicrosPerMinute % bpm == 0
    ensures ValidBpm(bpm)
    ensures Second2Tick(seconds, TicksPerBeat, Bpm2Tempo(bpm))
         == seconds * TicksPerBeat as real * bpm as real / 60.0
  {
    var q := MicrosPerMinute / bpm;
    assert q * bpm == MicrosPerMinute;
    assert MicrosPerMinute as real / bpm as real == q as real;
    RoundHalfEvenOfInt(q);
    assert Bpm2Tempo(bpm) == q;
    assert q > 0;
  }

  /** Half a second at 120 beats per minute is exactly one beat of 480 ticks. */
  lemma HalfSecondAt120()
    ensures ValidBpm(120)
    ensures MidiTime(0.5, 120) == 480
  {
    Second2TickExactTempo(0.5, 120);
    RoundHalfEvenOfInt(480);
  }
}
