/**
 The transport: whether the sequencer is playing, which step the next tick
 reads, and the repeating timer that delivers ticks. The timer is modelled as
 its period in milliseconds while it is registered, and as None once cleared.
 */
module Transport {

  import opened Wrappers
  import opened Grid
  import opened Tempo

  /** A request to the audio sink: sound the fixed tone with the given wave type. */
  datatype Tone = Tone(wave: string)

  datatype TransportState = TransportState(playing: bool, step: nat, timer: Option<real>)

  /** The transport at start-up: stopped, at step 0, no timer registered. */
  const Startup: TransportState := TransportState(false, 0, None)

  /**
   The states the transport can reach: the step pointer stays on the grid,
   a timer is registered exactly while playing, and a stopped transport
   always sits at step 0.
   */
  predicate Valid(t: TransportState) {
    && t.step < Steps
    && (t.playing <==> t.timer.Some?)
    && (t.timer.Some? ==> t.timer.value > 0.0)
    && (!t.playing ==> t.step == 0)
  }

  /** The tone a tick at `step` requests: one exactly when that step is active. */
  function Due(notes: seq<bool>, step: nat, wave: string): Option<Tone> {
    if step < |notes| && notes[step] then Some(Tone(wave)) else None
  }

  /**
   The play button. Guarded by `playing`: while playing it changes nothing;
   while stopped it starts playing and registers one timer whose period is
   taken from the tempo read now. It never moves the step pointer.
   */
  function Start(t: TransportState, bpm: int): (r: TransportState)
    requires !t.playing ==> bpm > 0
    ensures r.playing
    ensures r.step == t.step
    ensures t.playing ==> r == t
    ensures !t.playing ==> r.timer.Some? && r.timer.value * (bpm as real) == 60000.0
  {
    if t.playing then t
    else t.(playing := true, timer := Some(TickInterval(bpm)))
  }

  /** The stop button: clear the timer, stop, and rewind to step 0, from any state. */
  function Stop(t: TransportState): (r: TransportState)
    ensures !r.playing && r.timer.None? && r.step == 0
    ensures Valid(r)
  {
    TransportState(false, 0, None)
  }

  /**
   One firing of the timer. The step read is the one before advancing; a tone
   carrying the selected wave type is requested exactly when that step is
   active; then the pointer moves one step forward, wrapping at the end.
   */
  function Tick(t: TransportState, notes: seq<bool>, wave: string): (r: (TransportState, Option<Tone>))
    requires t.timer.Some?
    ensures r.0.step == (t.step + 1) % Steps
    ensures r.0.step < Steps
    ensures r.1.Some? <==> t.step < |notes| && notes[t.step]
    ensures r.1.Some? ==> r.1.value.wave == wave
    ensures r.0.playing == t.playing && r.0.timer == t.timer
  {
    (t.(step := (t.step + 1) % Steps), Due(notes, t.step, wave))
  }

  /** The start-up transport is valid. */
  lemma StartupValid()
    ensures Valid(Startup)
    ensures !Startup.playing && Startup.step == 0 && Startup.timer.None?
  {
  }

  /** Play keeps the transport valid. */
  lemma StartValid(t: TransportState, bpm: int)
    requires Valid(t)
    requires !t.playing ==> bpm > 0
    ensures Valid(Start(t, bpm))
  {
    if !t.playing {
      var p := Start(t, bpm).timer.value;
      assert p * (bpm as real) == 60000.0;
    }
  }

  /** Stop leaves a valid transport, whatever state it is pressed in. */
  lemma StopValid(t: TransportState)
    ensures Valid(Stop(t))
  {
  }

  /** A tick keeps the transport valid. */
  lemma TickValid(t: TransportState, notes: seq<bool>, wave: string)
    requires Valid(t) && t.timer.Some?
    ensures Valid(Tick(t, notes, wave).0)
  {
  }

  /** Pressing play a second time changes nothing, whatever tempo is now entered. */
  lemma StartIdempotent(t: TransportState, bpm: int, bpm2: int)
    requires !t.playing ==> bpm > 0
    ensures Start(Start(t, bpm), bpm2) == Start(t, bpm)
  {
  }

  /** Stop gives the same state whatever came before, so stopping twice is stopping once. */
  lemma StopForgetsHistory(t: TransportState, u: TransportState)
    ensures Stop(t) == Stop(u)
    ensures Stop(Stop(t)) == Stop(t)
  {
  }

  /** Stop followed by play always resumes at step 0 with one timer at the new tempo. */
  lemma StopThenStart(t: TransportState, bpm: int)
    requires bpm > 0
    ensures Start(Stop(t), bpm).step == 0
    ensures Start(Stop(t), bpm).playing
    ensures Start(Stop(t), bpm).timer == Some(TickInterval(bpm))
  {
  }

  /** In every valid state, pressing play from stopped begins at step 0. */
  lemma StartFromStoppedAtZero(t: TransportState, bpm: int)
    requires Valid(t) && !t.playing && bpm > 0
    ensures Start(t, bpm).step == 0
  {
  }
}
