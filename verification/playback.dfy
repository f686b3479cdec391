/**
 Playback over many timer firings: what a registered timer delivers when it
 fires `n` times in a row with the grid and the selected wave type unchanged.
 */
module Playback {

  import opened Wrappers
  import opened Grid
  import opened Tempo
  import opened Transport

  /** The final transport and the tone requested (or not) by each of `n` consecutive ticks. */
  function Ticks(t: TransportState, notes: seq<bool>, wave: string, n: nat): (r: (TransportState, seq<Option<Tone>>))
    requires t.timer.Some?
    ensures |r.1| == n
    ensures r.0.timer == t.timer && r.0.playing == t.playing
    decreases n
  {
    if n == 0 then (t, [])
    else
      var (t1, o) := Tick(t, notes, wave);
      var (t2, os) := Ticks(t1, notes, wave, n - 1);
      (t2, [o] + os)
  }

  /** Which ticks requested a tone, as a flag per tick. */
  function Sounding(os: seq<Option<Tone>>): seq<bool>
  {
    seq(|os|, k requires 0 <= k < |os| => os[k].Some?)
  }

  /** Number of ticks that requested a tone: the active count of their flags. */
  function ToneCount(os: seq<Option<Tone>>): (n: nat)
    ensures n <= |os|
  {
    ActiveCount(Sounding(os))
  }

  /** Advancing by one and then by `k` is advancing by `k + 1`, all modulo the grid width. */
  lemma ModShift(a: nat, k: nat)
    ensures ((a + 1) % Steps + k) % Steps == (a + 1 + k) % Steps
  {
    var q := (a + 1) / Steps;
    assert a + 1 + k == q * Steps + ((a + 1) % Steps + k);
  }

  /** Advancing by a whole number of loops returns to the same step. */
  lemma WholeLoops(a: nat, n: nat)
    requires a < Steps && n % Steps == 0
    ensures (a + n) % Steps == a
  {
    var q := n / Steps;
    assert n == q * Steps;
    assert a + n == q * Steps + a;
  }

  /** After `n` ticks the pointer has advanced by `n` steps around the loop. */
  lemma {:induction false} TicksPosition(t: TransportState, notes: seq<bool>, wave: string, n: nat)
    requires t.timer.Some? && t.step < Steps
    ensures Ticks(t, notes, wave, n).0.step == (t.step + n) % Steps
    decreases n
  {
    if n > 0 {
      var t1 := Tick(t, notes, wave).0;
      TicksPosition(t1, notes, wave, n - 1);
      ModShift(t.step, n - 1);
    }
  }

  /** Tick `k` reads step `(start + k) mod Steps` and requests a tone exactly when that step is active. */
  lemma {:induction false} TicksOutputs(t: TransportState, notes: seq<bool>, wave: string, n: nat)
    requires t.timer.Some? && t.step < Steps
    ensures forall k :: 0 <= k < n ==> Ticks(t, notes, wave, n).1[k] == Due(notes, (t.step + k) % Steps, wave)
    decreases n
  {
    if n > 0 {
      var (t1, o) := Tick(t, notes, wave);
      var os := Ticks(t, notes, wave, n).1;
      var rest := Ticks(t1, notes, wave, n - 1).1;
      assert os == [o] + rest;
      TicksOutputs(t1, notes, wave, n - 1);
      forall k | 0 <= k < n ensures os[k] == Due(notes, (t.step + k) % Steps, wave) {
        if k > 0 {
          assert os[k] == rest[k - 1];
          ModShift(t.step, k - 1);
        }
      }
    }
  }

  /** Any whole number of loops (sixteen ticks each) brings the transport back to exactly the state it started in. */
  lemma {:induction false} FullCycleReturns(t: TransportState, notes: seq<bool>, wave: string, n: nat)
    requires t.timer.Some? && t.step < Steps && n % Steps == 0
    ensures Ticks(t, notes, wave, n).0 == t
  {
    var r := Ticks(t, notes, wave, n).0;
    TicksPosition(t, notes, wave, n);
    WholeLoops(t.step, n);
    assert r.step == t.step && r.playing == t.playing && r.timer == t.timer;
  }

  /** Counting tones is additive over concatenation. */
  lemma ToneCountAppend(a: seq<Option<Tone>>, b: seq<Option<Tone>>)
    ensures ToneCount(a + b) == ToneCount(a) + ToneCount(b)
  {
    assert Sounding(a + b) == Sounding(a) + Sounding(b);
    ActiveCountAppend(Sounding(a), Sounding(b));
  }

  /** The tones due along a stretch of grid, in order. */
  function DueAlong(g: seq<bool>, wave: string): seq<Option<Tone>>
  {
    seq(|g|, k requires 0 <= k < |g| => Due(g, k, wave))
  }

  /** Along a stretch of grid, one tone is due per active step. */
  lemma DueAlongCount(g: seq<bool>, wave: string)
    ensures ToneCount(DueAlong(g, wave)) == ActiveCount(g)
  {
    assert Sounding(DueAlong(g, wave)) == g;
  }

  /**
   Reading the grid from step `s` round to step `s - 1` meets the tones due
   on `notes[s..]` followed by those due on `notes[..s]`.
   */
  lemma RotationSplit(os: seq<Option<Tone>>, notes: seq<bool>, s: nat, wave: string)
    requires WellFormed(notes) && s < Steps && |os| == Steps
    requires forall k :: 0 <= k < Steps ==> os[k] == Due(notes, (s + k) % Steps, wave)
    ensures os == DueAlong(notes[s..], wave) + DueAlong(notes[..s], wave)
  {
    var rotated := DueAlong(notes[s..], wave) + DueAlong(notes[..s], wave);
    forall k | 0 <= k < Steps ensures os[k] == rotated[k] {
      if k < Steps - s {
        assert (s + k) % Steps == s + k;
      } else {
        assert (s + k) % Steps == k - (Steps - s);
      }
    }
  }

  /** Reading the grid round one whole loop from any step meets one due tone per active step. */
  lemma {:induction false} RotationCount(os: seq<Option<Tone>>, notes: seq<bool>, s: nat, wave: string)
    requires WellFormed(notes) && s < Steps && |os| == Steps
    requires forall k :: 0 <= k < Steps ==> os[k] == Due(notes, (s + k) % Steps, wave)
    ensures ToneCount(os) == ActiveCount(notes)
  {
    RotationSplit(os, notes, s, wave);
    var tail, head := notes[s..], notes[..s];
    ToneCountAppend(DueAlong(tail, wave), DueAlong(head, wave));
    DueAlongCount(tail, wave);
    DueAlongCount(head, wave);
    assert notes == head + tail;
    ActiveCountAppend(head, tail);
  }

  /** Ticking `a` times and then `b` more times is ticking `a + b` times. */
  lemma {:induction false} TicksSplit(t: TransportState, notes: seq<bool>, wave: string, a: nat, b: nat)
    requires t.timer.Some?
    ensures Ticks(t, notes, wave, a + b).0 == Ticks(Ticks(t, notes, wave, a).0, notes, wave, b).0
    ensures Ticks(t, notes, wave, a + b).1 == Ticks(t, notes, wave, a).1 + Ticks(Ticks(t, notes, wave, a).0, notes, wave, b).1
    decreases a
  {
    if a == 0 {
      assert Ticks(t, notes, wave, a).1 == [];
    } else {
      var (t1, o) := Tick(t, notes, wave);
      TicksSplit(t1, notes, wave, a - 1, b);
      assert Ticks(t, notes, wave, a).1 == [o] + Ticks(t1, notes, wave, a - 1).1;
      assert Ticks(t, notes, wave, a + b).1 == [o] + Ticks(t1, notes, wave, a - 1 + b).1;
    }
  }

  /**
   One loop of `n == Steps` ticks returns to the starting state having requested one tone per active cell.
   The loop length is a parameter rather than the constant itself so that the verifier does not unfold
   `Ticks` sixteen times on a literal argument.
   */
  lemma {:induction false} OneLoop(t: TransportState, notes: seq<bool>, wave: string, n: nat)
    requires t.timer.Some? && t.step < Steps && WellFormed(notes) && n == Steps
    ensures Ticks(t, notes, wave, n).0 == t
    ensures ToneCount(Ticks(t, notes, wave, n).1) == ActiveCount(notes)
  {
    FullCycleReturns(t, notes, wave, n);
    TicksOutputs(t, notes, wave, n);
    RotationCount(Ticks(t, notes, wave, n).1, notes, t.step, wave);
  }

  /**
   Over any whole number of loops, from any step, exactly one tone per active
   cell per loop is requested.
   */
  lemma {:induction false} LoopsToneCount(t: TransportState, notes: seq<bool>, wave: string, loops: nat)
    requires t.timer.Some? && t.step < Steps && WellFormed(notes)
    ensures ToneCount(Ticks(t, notes, wave, loops * Steps).1) == loops * ActiveCount(notes)
    decreases loops
  {
    if loops > 0 {
      var c := ActiveCount(notes);
      var rest := (loops - 1) * Steps;
      var one: nat := Steps;
      assert loops * Steps == one + rest;
      assert loops * c == c + (loops - 1) * c;
      var first := Ticks(t, notes, wave, one);
      OneLoop(t, notes, wave, one);
      TicksSplit(t, notes, wave, one, rest);
      LoopsToneCount(t, notes, wave, loops - 1);
      var later := Ticks(t, notes, wave, rest).1;
      assert Ticks(t, notes, wave, loops * Steps).1 == first.1 + later;
      ToneCountAppend(first.1, later);
    }
  }

  /** The grid active exactly on the downbeats 0, 4, 8 and 12. */
  function Downbeats(): seq<bool>
  {
    seq(Steps, i => i % 4 == 0)
  }

  /** Clicking cells 0, 4, 8 and 12 on a silent grid gives the downbeat grid, with four active cells. */
  lemma {:induction false} DownbeatClicks(g0: seq<bool>)
    requires WellFormed(g0) && forall i :: 0 <= i < Steps ==> !g0[i]
    ensures Toggle(Toggle(Toggle(Toggle(g0, 0), 4), 8), 12) == Downbeats()
    ensures ActiveCount(Toggle(Toggle(Toggle(Toggle(g0, 0), 4), 8), 12)) == ActiveCount(g0) + 4
  {
    var g1 := Toggle(g0, 0);
    var g2 := Toggle(g1, 4);
    var g3 := Toggle(g2, 8);
    var g4 := Toggle(g3, 12);
    ToggleCount(g0, 0);
    ToggleCount(g1, 4);
    ToggleCount(g2, 8);
    ToggleCount(g3, 12);
    var d := Downbeats();
    forall i | 0 <= i < Steps ensures g4[i] == d[i] {
      assert !g0[i];
    }
    assert g4 == d;
  }

  /**
   Ticks read from step 0 over a grid active on every fourth step are due on every fourth tick only.
   The start step `s` is named (and pinned to 0) so that the premise matches `TicksOutputs`'s conclusion as stated.
   */
  lemma EveryFourthDue(os: seq<Option<Tone>>, g: seq<bool>, s: nat, wave: string)
    requires s == 0
    requires WellFormed(g) && forall i :: 0 <= i < Steps ==> (g[i] <==> i % 4 == 0)
    requires forall k :: 0 <= k < |os| ==> os[k] == Due(g, (s + k) % Steps, wave)
    ensures forall k :: 0 <= k < |os| ==> (os[k].Some? <==> k % 4 == 0)
  {
    forall k | 0 <= k < |os| ensures os[k].Some? <==> k % 4 == 0 {
      var q := k / Steps;
      assert k == q * Steps + k % Steps;
      assert (k % Steps) % 4 == k % 4;
    }
  }

  /** From step 0, a grid active on every fourth step sounds on every fourth tick and on no other. */
  lemma {:induction false} DownbeatTicks(t: TransportState, g: seq<bool>, wave: string, n: nat)
    requires t.timer.Some? && t.step == 0
    requires WellFormed(g) && forall i :: 0 <= i < Steps ==> (g[i] <==> i % 4 == 0)
    ensures forall k :: 0 <= k < n ==> (Ticks(t, g, wave, n).1[k].Some? <==> k % 4 == 0)
  {
    TicksOutputs(t, g, wave, n);
    EveryFourthDue(Ticks(t, g, wave, n).1, g, t.step, wave);
  }

  /** Whole loops over a grid with four active cells request four tones per loop. */
  lemma FourPerLoop(t: TransportState, g: seq<bool>, wave: string, loops: nat)
    requires t.timer.Some? && t.step < Steps && WellFormed(g) && ActiveCount(g) == 4
    ensures ToneCount(Ticks(t, g, wave, loops * Steps).1) == 4 * loops
  {
    LoopsToneCount(t, g, wave, loops);
    assert loops * ActiveCount(g) == 4 * loops;
  }

  /**
   Clicking cells 0, 4, 8 and 12 on the start-up grid and playing at 60 bpm:
   the grid is active on every fourth step; the timer period is 1000 ms; tick k requests a tone
   exactly when k is a multiple of 4; and after each whole loop the pointer is
   back at step 0 with four more tones requested.
   */
  lemma {:induction false} DownbeatScenario(g: seq<bool>, wave: string, n: nat, loops: nat)
    requires g == Toggle(Toggle(Toggle(Toggle(Grid.Initial(), 0), 4), 8), 12)
    ensures forall i :: 0 <= i < |g| ==> (g[i] <==> i % 4 == 0)
    ensures Start(Startup, 60).timer == Some(1000.0)
    ensures forall k :: 0 <= k < n ==>
      (Ticks(Start(Startup, 60), g, wave, n).1[k].Some? <==> k % 4 == 0)
    ensures Ticks(Start(Startup, 60), g, wave, loops * Steps).0.step == 0
    ensures ToneCount(Ticks(Start(Startup, 60), g, wave, loops * Steps).1) == 4 * loops
  {
    IntervalExamples();
    DownbeatClicks(Grid.Initial());
    var t := Start(Startup, 60);
    DownbeatTicks(t, g, wave, n);
    FullCycleReturns(t, g, wave, loops * Steps);
    FourPerLoop(t, g, wave, loops);
  }
}
