/**
 The whole sequencer as the page runs it: the grid and the transport, driven
 by the inputs the page receives — a click on a cell, the play button, the
 stop button, and a firing of the registered timer (which reads the
 instrument selected at that moment).
 */
module Sequencer {

  import opened Wrappers
  import opened Grid
  import opened Tempo
  import opened Transport
  import opened Playback

  datatype State = State(notes: seq<bool>, transport: TransportState)

  datatype Input =
    | Click(cell: Cell)
    | PlayPressed(bpm: Bpm)
    | StopPressed
    | TimerFires(instrument: string)

  /** The page as loaded: a silent grid and a stopped transport. */
  const Loaded: State := State(Grid.Initial(), Startup)

  /** Every reachable state: a full-width grid and a valid transport. */
  predicate Inv(s: State) {
    WellFormed(s.notes) && Valid(s.transport)
  }

  /**
   React to one input. Clicks edit only the grid; the buttons drive only the
   transport; a timer firing is delivered only while a timer is registered,
   and it is the only input that can request a tone.
   */
  function Step(s: State, e: Input): (r: (State, Option<Tone>))
    requires WellFormed(s.notes)
    ensures WellFormed(r.0.notes)
    ensures !e.Click? ==> r.0.notes == s.notes
    ensures !e.TimerFires? ==> r.1.None?
    ensures e.Click? ==> r.0.transport == s.transport
    ensures e.TimerFires? && s.transport.timer.None? ==> r == (s, None)
    ensures e.Click? ==>
      && r.0.notes[e.cell] == !s.notes[e.cell]
      && forall j :: 0 <= j < Steps && j != e.cell ==> r.0.notes[j] == s.notes[j]
    ensures e.StopPressed? ==> r.0.transport == TransportState(false, 0, None)
    ensures e.PlayPressed? ==> r.0.transport.playing && r.0.transport.step == s.transport.step
    ensures e.PlayPressed? && s.transport.playing ==> r.0.transport == s.transport
    ensures e.PlayPressed? && !s.transport.playing ==>
      r.0.transport.timer.Some? && r.0.transport.timer.value * (e.bpm as real) == 60000.0
    ensures e.TimerFires? && s.transport.timer.Some? ==>
      && r.0.transport.step == (s.transport.step + 1) % Steps
      && r.0.transport.playing == s.transport.playing
      && r.0.transport.timer == s.transport.timer
      && (r.1.Some? <==> s.transport.step < Steps && s.notes[s.transport.step])
      && (r.1.Some? ==> r.1.value.wave == e.instrument)
  {
    match e
    case Click(i) => (s.(notes := Toggle(s.notes, i)), None)
    case PlayPressed(bpm) => (s.(transport := Start(s.transport, bpm)), None)
    case StopPressed => (s.(transport := Stop(s.transport)), None)
    case TimerFires(wave) =>
      if s.transport.timer.None? then (s, None)
      else
        var (t, o) := Tick(s.transport, s.notes, wave);
        (s.(transport := t), o)
  }

  /** React to a sequence of inputs in order, collecting what each one requested. */
  function Run(s: State, es: seq<Input>): (r: (State, seq<Option<Tone>>))
    requires WellFormed(s.notes)
    ensures WellFormed(r.0.notes)
    ensures |r.1| == |es|
    decreases |es|
  {
    if es == [] then (s, [])
    else
      var (s1, o) := Step(s, es[0]);
      var (s2, os) := Run(s1, es[1..]);
      (s2, [o] + os)
  }

  /** The page as loaded is a reachable state. */
  lemma LoadedInv()
    ensures Inv(Loaded)
    ensures !Loaded.transport.playing && Loaded.transport.step == 0
    ensures forall i :: 0 <= i < |Loaded.notes| ==> !Loaded.notes[i]
  {
    StartupValid();
  }

  /** Every input keeps the state reachable. */
  lemma StepInv(s: State, e: Input)
    requires Inv(s)
    ensures Inv(Step(s, e).0)
  {
    match e
    case Click(i) =>
    case PlayPressed(bpm) => StartValid(s.transport, bpm);
    case StopPressed => StopValid(s.transport);
    case TimerFires(wave) =>
      if s.transport.timer.Some? {
        TickValid(s.transport, s.notes, wave);
      }
  }

  /** Any sequence of inputs keeps the state reachable: the step pointer never leaves the grid. */
  lemma {:induction false} RunInv(s: State, es: seq<Input>)
    requires Inv(s)
    ensures Inv(Run(s, es).0)
    ensures Run(s, es).0.transport.step < Steps
    decreases |es|
  {
    if es != [] {
      StepInv(s, es[0]);
      RunInv(Step(s, es[0]).0, es[1..]);
    }
  }

  /** In every reachable state, pressing play from stopped begins playback at step 0. */
  lemma PlayBeginsAtZero(s: State, bpm: Bpm)
    requires Inv(s) && !s.transport.playing
    ensures Step(s, PlayPressed(bpm)).0.transport.step == 0
    ensures Step(s, PlayPressed(bpm)).0.transport.timer == Some(TickInterval(bpm))
  {
  }

  /** Stop then play resumes at step 0 from any state, with one timer at the new tempo. */
  lemma StopThenPlay(s: State, bpm: Bpm)
    requires WellFormed(s.notes)
    ensures Run(s, [StopPressed, PlayPressed(bpm)]).0.transport == TransportState(true, 0, Some(TickInterval(bpm)))
    ensures Run(s, [StopPressed, PlayPressed(bpm)]).0.notes == s.notes
  {
    var s1 := Step(s, StopPressed).0;
    var s2 := Step(s1, PlayPressed(bpm)).0;
    assert [StopPressed, PlayPressed(bpm)][1..] == [PlayPressed(bpm)];
    assert Run(s1, [PlayPressed(bpm)]).0 == s2;
  }

  /** Pressing play while playing is ignored: the tempo entered now is not read and no timer is added. */
  lemma PlayWhilePlaying(s: State, bpm: Bpm)
    requires WellFormed(s.notes) && s.transport.playing
    ensures Step(s, PlayPressed(bpm)) == (s, None)
  {
  }

  /**
   Once stopped, nothing sounds until play is pressed again: with no play
   input, every timer firing finds no timer registered.
   */
  lemma {:induction false} SilentUntilPlay(s: State, es: seq<Input>)
    requires WellFormed(s.notes) && s.transport.timer.None?
    requires forall k :: 0 <= k < |es| ==> !es[k].PlayPressed?
    ensures forall k :: 0 <= k < |es| ==> Run(s, es).1[k].None?
    decreases |es|
  {
    if es != [] {
      var (s1, o) := Step(s, es[0]);
      assert s1.transport.timer.None?;
      SilentUntilPlay(s1, es[1..]);
      var rest := Run(s1, es[1..]).1;
      assert Run(s, es).1 == [o] + rest;
      forall k | 0 <= k < |es| ensures Run(s, es).1[k].None? {
        if k > 0 {
          assert es[1..][k - 1] == es[k];
        }
      }
    }
  }

  /** `n` timer firings in a row. */
  function Firings(wave: string, n: nat): seq<Input>
  {
    seq(n, _ => TimerFires(wave))
  }

  /** While the timer is registered, the page's timer firings are exactly the transport's ticks. */
  lemma {:induction false} FiringsAreTicks(s: State, wave: string, n: nat)
    requires WellFormed(s.notes) && s.transport.timer.Some?
    ensures Run(s, Firings(wave, n)).0.transport == Ticks(s.transport, s.notes, wave, n).0
    ensures Run(s, Firings(wave, n)).0.notes == s.notes
    ensures Run(s, Firings(wave, n)).1 == Ticks(s.transport, s.notes, wave, n).1
    decreases n
  {
    if n > 0 {
      var es := Firings(wave, n);
      var (s1, o) := Step(s, TimerFires(wave));
      assert es[0] == TimerFires(wave);
      assert es[1..] == Firings(wave, n - 1);
      FiringsAreTicks(s1, wave, n - 1);
    }
  }

  /** Handling `a` and then `b` is handling `a + b`: each input acts on the state the earlier ones left. */
  lemma {:induction false} RunSplit(s: State, a: seq<Input>, b: seq<Input>)
    requires WellFormed(s.notes)
    ensures Run(s, a + b).0 == Run(Run(s, a).0, b).0
    ensures Run(s, a + b).1 == Run(s, a).1 + Run(Run(s, a).0, b).1
    decreases |a|
  {
    if a == [] {
      assert a + b == b;
    } else {
      assert (a + b)[0] == a[0];
      assert (a + b)[1..] == a[1..] + b;
      RunSplit(Step(s, a[0]).0, a[1..], b);
    }
  }

  /** The clicks on cells 0, 4, 8 and 12 followed by play at 60 bpm. */
  function DownbeatSetup(): seq<Input> {
    [Click(0), Click(4), Click(8), Click(12), PlayPressed(60)]
  }

  /** A stopped page with a silent grid: the page as loaded, or any stopped reachable page with every cell off. */
  predicate StoppedSilent(s: State) {
    Inv(s) && !s.transport.playing && forall i :: 0 <= i < |s.notes| ==> !s.notes[i]
  }

  /** A stopped silent page is exactly the page as loaded. */
  lemma StoppedSilentIsLoaded(s: State)
    requires StoppedSilent(s)
    ensures s == Loaded
  {
    var g := Grid.Initial();
    assert forall i :: 0 <= i < Steps ==> s.notes[i] == g[i];
    assert s.notes == g;
  }

  /** After the downbeat setup the page holds the four clicks' grid and the transport play gives. */
  lemma DownbeatSetupRun(s: State)
    requires WellFormed(s.notes)
    ensures Run(s, DownbeatSetup()).0 ==
      State(Toggle(Toggle(Toggle(Toggle(s.notes, 0), 4), 8), 12), Start(s.transport, 60))
  {
    var s0 := s;
    var s1 := Step(s0, Click(0)).0;
    var s2 := Step(s1, Click(4)).0;
    var s3 := Step(s2, Click(8)).0;
    var s4 := Step(s3, Click(12)).0;
    var s5 := Step(s4, PlayPressed(60)).0;
    assert Run(s4, [PlayPressed(60)]).0 == s5;
    assert Run(s3, [Click(12), PlayPressed(60)]).0 == s5;
    assert Run(s2, [Click(8), Click(12), PlayPressed(60)]).0 == s5;
    assert Run(s1, [Click(4), Click(8), Click(12), PlayPressed(60)]).0 == s5;
    assert Run(s0, DownbeatSetup()).0 == s5;
  }

  /** The setup inputs request no tone on a stopped page: the clicks never do, and play does not. */
  lemma DownbeatSetupSilent(s: State)
    requires WellFormed(s.notes) && s.transport.timer.None?
    ensures |Run(s, DownbeatSetup()).1| == 5
    ensures forall k :: 0 <= k < 5 ==> Run(s, DownbeatSetup()).1[k].None?
  {
    var setup := DownbeatSetup();
    var clicks, play := setup[..4], setup[4..];
    assert clicks + play == setup;
    assert play == [PlayPressed(60)];
    SilentUntilPlay(s, clicks);
    RunSplit(s, clicks, play);
    assert Run(Run(s, clicks).0, play).1 == [None];
  }

  /** From the state the setup leaves, firing k requests a tone exactly when k is a multiple of 4. */
  lemma DownbeatFirings(s: State, wave: string, n: nat)
    requires s == State(Toggle(Toggle(Toggle(Toggle(Grid.Initial(), 0), 4), 8), 12), Start(Startup, 60))
    ensures forall k :: 0 <= k < n ==> (Run(s, Firings(wave, n)).1[k].Some? <==> k % 4 == 0)
  {
    FiringsAreTicks(s, wave, n);
    DownbeatScenario(s.notes, wave, n, 0);
  }

  /**
   A stopped page with a silent grid (such as the page as loaded): click cells
   0, 4, 8 and 12, press play at 60 bpm, then let the timer fire `n` times.
   The setup requests nothing, the timer period is 1000 ms, and firing k
   requests a tone exactly when k is a multiple of 4.
   */
  lemma PageDownbeats(s: State, wave: string, n: nat)
    requires StoppedSilent(s)
    ensures Run(s, DownbeatSetup()).0.transport.timer == Some(1000.0)
    ensures |Run(s, DownbeatSetup() + Firings(wave, n)).1| == 5 + n
    ensures forall k :: 0 <= k < 5 ==> Run(s, DownbeatSetup() + Firings(wave, n)).1[k].None?
    ensures forall k :: 0 <= k < n ==>
      (Run(s, DownbeatSetup() + Firings(wave, n)).1[5 + k].Some? <==> k % 4 == 0)
  {
    var setup, fs := DownbeatSetup(), Firings(wave, n);
    StoppedSilentIsLoaded(s);
    DownbeatSetupRun(s);
    DownbeatSetupSilent(s);
    IntervalExamples();
    var s5 := Run(s, setup).0;
    RunSplit(s, setup, fs);
    DownbeatFirings(s5, wave, n);
  }

  /** The page as loaded is a stopped page with a silent grid, so the downbeat trace applies to it. */
  lemma LoadedStoppedSilent()
    ensures StoppedSilent(Loaded)
  {
    LoadedInv();
  }
}
