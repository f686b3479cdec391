# Step sequencer core, in Dafny

A model of the logic of a browser step sequencer (`script.js`): a loop of 16
on/off steps that the user toggles by clicking, and a transport that, once
play is pressed, walks the loop at a tempo-derived period and requests one
short tone, in the selected instrument's wave type, for every active step it
reaches. Stop clears the timer and rewinds to step 0.

The model is functional. The grid is a `seq<bool>` of width `Grid.Steps` (16).
The transport is an immutable record `TransportState(playing, step, timer)`. Here
`timer` is `Some(period in ms)` while a repeating timer is registered and
`None` once it has been cleared. A tick is an explicit transition that only a
registered timer can deliver. It returns the new transport and
`Some(Tone(wave))` or `None` in place of sound.

Modules:

- `Wrappers`: the `Option` type.
- `Grid`: the grid, its start-up value, and a click on a cell (`Toggle`).
- `Tempo`: the tick period derived from the tempo in beats per minute.
- `Transport`: the play/stop state machine and the tick.
- `Playback`: what a registered timer delivers over many ticks.
- `Sequencer`: the whole page as a state driven by inputs. The inputs are
  clicks, the play button, the stop button and timer firings.

Points where the code's behaviour shapes the model:

- A click handler is attached only to cells 0 to 15 (script.js:19-24), so
  no out-of-range toggle exists. The model types the cell as `Grid.Cell`.
- The code does not validate the tempo (script.js:55). `Transport.Start`
  requires a positive tempo only when play is pressed from stopped, since
  that is the only time the tempo field is read. The page-level play input
  `Sequencer.PlayPressed` always carries a positive `Tempo.Bpm`, even when
  pressed while playing. This costs nothing, because the tempo is not read
  while playing (script.js:67).
- The code computes the period as `(60 / bpm) * 1000` (script.js:56). Over
  the reals that is `60000 / bpm`, which is what the model uses.
- Stop resets the step and clears the timer unconditionally (script.js:74-78).
  In every `Transport.Valid` state a stopped transport is already at step 0
  with no timer, so stopping again changes nothing.
- The transport holds at most one timer by construction (`timer` is a single
  optional period). Play is guarded by `playing` (script.js:67), so a second
  press never registers another timer (`Transport.Start`,
  `Transport.StartIdempotent`).

## Model

| member | source | states |
|---|---|---|
| Grid.Initial | script.js:16 | the grid starts with 16 cells, all silent, so no step is active |
| Grid.Toggle | script.js:23-24 | a click on cell i inverts cell i and leaves every other cell as it was; the grid keeps its width |
| Grid.ToggleInvolution | script.js:24 | clicking the same cell twice restores the original grid |
| Grid.ToggleCommutes | script.js:19-24 | clicks on two cells give the same grid in either order |
| Grid.ToggleCount | script.js:24 | a click switches exactly one step on or off: the number of active steps goes down by one if the cell was on, up by one if it was off |
| Tempo.TickInterval | script.js:55-56 | the period is positive and period * bpm == 60000 ms |
| Tempo.IntervalUnique | script.js:56 | a period satisfies period * bpm == 60000 if and only if it is the computed period |
| Tempo.IntervalExamples | script.js:55-56 | 120 bpm gives 500 ms and 60 bpm gives 1000 ms |
| Tempo.FasterTempoShorterTick | script.js:56 | a faster tempo gives a strictly shorter period |
| Transport.Start | script.js:66-72 | play always leaves the transport playing and never moves the step pointer; while playing it changes nothing, so no second timer is registered (the model holds at most one timer by construction); from stopped it registers a timer whose period times bpm is 60000 |
| Transport.Stop | script.js:74-78 | stop, from any state, gives not playing, no timer, step 0, a valid transport |
| Transport.Tick | script.js:58-63 | a tick requests a tone, carrying the selected wave type, exactly when the step read before advancing is active; the pointer moves to (step + 1) mod 16 and stays below 16; playing and the timer are untouched |
| Transport.StartupValid | script.js:4-6 | the transport starts stopped, at step 0, with no timer, and is valid |
| Transport.StartValid | script.js:66-72 | play keeps the pointer below 16, a timer registered exactly while playing (with a positive period), and a stopped transport at step 0 |
| Transport.StopValid | script.js:74-78 | stop, from any state, leaves a valid transport |
| Transport.TickValid | script.js:58-63 | a tick keeps a valid transport valid: the pointer stays below 16 and playing and the timer are unchanged |
| Transport.StartIdempotent | script.js:66-72 | pressing play a second time, whatever tempo is entered, changes nothing: the timer registered by the first press is kept, no other is registered, and the pointer is untouched |
| Transport.StopForgetsHistory | script.js:74-78 | stop gives the same state whatever came before; stopping twice equals stopping once |
| Transport.StopThenStart | script.js:66-78 | stop followed by play always resumes at step 0, playing, with one timer at the new tempo |
| Transport.StartFromStoppedAtZero | script.js:66-72 | in every valid state, play from stopped begins at step 0, because play never resets the pointer and stop always does |
| Playback.Ticks | script.js:58-63 | n firings yield exactly n per-tick outputs and leave playing and the timer unchanged |
| Playback.TicksPosition | script.js:62 | after n ticks from a step below 16 the pointer is at (start + n) mod 16 |
| Playback.TicksOutputs | script.js:59-62 | tick k requests a tone exactly when step (start + k) mod 16 is active, carrying the selected wave type |
| Playback.FullCycleReturns | script.js:62 | any whole number of loops of sixteen ticks returns the transport to exactly its starting state |
| Playback.TicksSplit | script.js:58-63 | ticking a times and then b more times gives the same state and the same outputs, in order, as ticking a + b times |
| Playback.OneLoop | script.js:58-63 | one loop of sixteen ticks, from any step, returns to the starting state and requests exactly as many tones as there are active cells |
| Playback.LoopsToneCount | script.js:58-63 | over any whole number of loops, from any step, the number of tones requested is the number of loops times the number of active cells |
| Playback.FourPerLoop | script.js:58-63 | over any whole number of loops, a grid with four active cells requests exactly four tones per loop |
| Playback.DownbeatClicks | script.js:23-24 | clicking cells 0, 4, 8 and 12 on a silent grid gives the grid active exactly on steps divisible by 4, and adds four active cells |
| Playback.DownbeatTicks | script.js:59-62 | from step 0, a grid active on every fourth step requests a tone on tick k exactly when k is a multiple of 4, for any number of ticks |
| Playback.DownbeatScenario | script.js:16-72 | clicking cells 0, 4, 8 and 12 at start-up and playing at 60 bpm: a 1000 ms timer, a tone on exactly every fourth tick, and after each whole loop the pointer back at 0 with four more tones |
| Sequencer.Step | script.js:23-78 | a click inverts the clicked cell and leaves the other cells and the transport alone; play starts playing without moving the step and, from stopped, registers a timer whose period times bpm is 60000; stop gives stopped, step 0, no timer; a firing with a timer requests a tone exactly when the current step is active and advances the step mod 16, and a firing with no timer does nothing; only firings request tones and only clicks change the grid |
| Sequencer.Run | script.js:23-78 | a sequence of inputs keeps the grid at width 16 and yields one output per input; how the inputs compose is stated by `Sequencer.RunSplit` |
| Sequencer.RunSplit | script.js:23-78 | handling inputs a and then b equals handling a + b, in final state and in outputs, in order: each input acts on the state the earlier ones left |
| Sequencer.StoppedSilentIsLoaded | script.js:4-16 | a reachable page that is stopped with every cell off is exactly the page as loaded |
| Sequencer.LoadedStoppedSilent | script.js:4-16 | the page as loaded is stopped with every cell off |
| Sequencer.DownbeatSetupRun | script.js:23-72 | clicking cells 0, 4, 8 and 12 and pressing play at 60 bpm leaves the grid with those four clicks applied and the transport that play gives |
| Sequencer.DownbeatSetupSilent | script.js:23-72 | on a stopped page those five inputs request no tone |
| Sequencer.DownbeatFirings | script.js:58-63 | after that setup from load, timer firing k requests a tone exactly when k is a multiple of 4 |
| Sequencer.PageDownbeats | script.js:16-78 | from a stopped page with a silent grid: click 0, 4, 8, 12, play at 60 bpm, then n firings; the timer period is 1000 ms, the five setup inputs request nothing, and firing k requests a tone exactly when k is a multiple of 4 |
| Sequencer.LoadedInv | script.js:4-16 | the page as loaded is stopped at step 0 with a silent grid, and satisfies the invariant |
| Sequencer.StepInv | script.js:23-78 | every input preserves the invariant (grid width 16, valid transport) |
| Sequencer.RunInv | script.js:58-78 | after any sequence of inputs the invariant holds and the step pointer is below 16 |
| Sequencer.PlayBeginsAtZero | script.js:66-78 | in every reachable state, play from stopped begins at step 0 with a timer at the tempo entered |
| Sequencer.StopThenPlay | script.js:66-78 | stop then play, from any state, gives playing at step 0 with one timer at the new tempo, and leaves the grid alone |
| Sequencer.PlayWhilePlaying | script.js:66-72 | play while playing leaves the whole state unchanged and requests nothing |
| Sequencer.SilentUntilPlay | script.js:74-78 | once the timer is cleared, no tone is requested by any input until play is pressed again |
| Sequencer.FiringsAreTicks | script.js:58-63 | while a timer is registered, n timer firings on the page are exactly n transport ticks, with the same outputs, and the grid is unchanged |

## Left out

- `playNote` (script.js:32-52): the Web Audio oscillator and gain nodes, the custom periodic wave, the 440 Hz frequency and the decay envelope. These are foreign calls on floating-point values. A tone is modelled only as the requested wave type.
- DOM construction and the CSS classes of the cell buttons (script.js:9-14, 19-22, 25-28). These are presentation only.
- Reading the tempo and instrument fields. The tempo is a `Tempo.Bpm` parameter of the play input. The instrument is a parameter of each timer firing, since the code reads it on each firing that requests a tone (script.js:59-60).
- `parseInt` of a non-numeric tempo and a tempo of zero or less. The code does not validate them. `Transport.Start` requires a positive tempo when play is pressed from stopped, and every page-level play input carries a positive `Tempo.Bpm`.
- Tempo.TickInterval: computed over exact reals, not IEEE doubles, so rounding of `(60 / bpm) * 1000` for tempos that do not divide 60 is not modelled.
- The timing of `setInterval` and `clearInterval`, and `audioCtx.resume()`. The timer is an armed/cleared value carrying its period. Ticks are explicit inputs that a registered timer alone can deliver. Resuming the audio device has no effect on the model. Ticks are counted, not timed: `setInterval` first fires one period after play, so tick k happens (k + 1) periods after play is pressed (at 60 bpm the downbeat tones sound at 1000, 5000, 9000 and 13000 ms), not at time k periods.
- The piano-roll variant (notes with duration, resize, semitone frequency mapping). Its source is not part of this model.
