# Shimon interaction demo — a verified Dafny model

This project models the real-time core of the Shimon interaction demo:

- the **question-and-answer demo** (`QnADemo`): an audio callback that
  selects one channel of a four-channel stream, scales it to `[-1, 1)` and
  runs a capture state machine (`playing`, `wait_count`, `phrase`) that turns
  loud blocks and a tolerance of `n_wait` quiet blocks into a phrase; the
  background step that takes a finished phrase; and the monophonic answer
  that plays converted notes at velocity 80;
- the **beat-detection demo** (`BeatDetectionDemo`) and its **tempo tracker**
  (`TempoTracker`): a ring buffer of inter-onset intervals with a 50 ms
  debounce floor, a timeout that starts over, a warm-up of four intervals
  and the estimate `60 / mean(history)`;
- the **song demo** (`SongDemo.perform`): replay of a parsed MIDI file,
  grouping equal-onset pairs into clusters, sending each note as a note-on
  immediately followed by its note-off, and pausing between clusters for the
  file-time gap scaled by `file_tempo / tempo`;
- the **demo selector** of main.py: the control-pedal callback, the key
  callback and `manage_demos`, which stops the other demos and starts the
  selected one.

Files: `midi.dfy` (module `Midi`: MIDI messages and the output trace),
`tempo_tracker.dfy` (module `TempoTracking`), `demos.dfy` (module `Demos`),
`dispatch.dfy` (module `Dispatch`, main.py).

How the concurrent, timed program becomes a sequential model:

- `time.time()` is a parameter `now`. In `track_tempo` the source reads the
  clock up to three times in one call; the model uses one reading for all of
  them.
- A flag that another thread clears while a performance runs (`active` in
  `QnADemo.perform`, `playing` in `SongDemo.perform`) is an input sequence:
  the value seen at each checkpoint.
- `midi_out.send_message` and `time.sleep` append `Send` and `Sleep` events
  to an output trace (`midiOut`), so the order of messages and pauses is
  observable.
- The activation test `mean(|y|) > activation_threshold` is a boolean
  `loud` given with each audio block.
- Seconds and beats per minute are exact reals.

## Model

| member | source | states |
|---|---|---|
| `Demos.EvenPositions` | demos.py:53 | `s[::2]` keeps the elements at even positions, in order; its length is `(n + 1) / 2` |
| `Demos.ChannelSelect` | demos.py:53 | `y[::2][1::2]` keeps exactly the samples at positions 4k+2, in order, `(n + 1) / 4` of them |
| `Demos.Int16ToFloat` | demos.py:84-85 | division by `1 << 15` maps every 16-bit sample into `[-1, 1)` and keeps its length; multiplying back by 32768 gives the sample |
| `Demos.Feed` | demos.py:57-75 | one block while active: a loud block sets `playing`, resets the count and appends exactly that frame; a quiet block past the tolerance ends the capture without appending; otherwise it appends only while playing and counts one; earlier frames never change; a quiet block never starts a capture; the count stays within `n_wait + 1` |
| `Demos.FeedAll` | demos.py:46-76 | the capture state after a run of blocks, each fed in turn; its properties are the lemmas below |
| `Demos.FeedAllAppend` | demos.py:46-76 | feeding two runs of blocks is feeding the first and then the second |
| `Demos.QuietNeverCaptures` | demos.py:65-75 | while idle, any run of quiet blocks leaves the buffer untouched and the capture off |
| `Demos.LoudRunCaptures` | demos.py:57-63 | a run of loud blocks captures every frame in order, with the count at 0 |
| `Demos.QuietWithinTolerance` | demos.py:70-75 | within the tolerance, quiet blocks are still captured, in order, and counted one each |
| `Demos.PhraseThenRelease` | demos.py:57-75 | from idle, loud blocks then `n_wait + 2` quiet ones end the capture holding the loud frames and the first `n_wait + 1` quiet frames |
| `Demos.ConcatPlacesFrames` | demos.py:121 | `np.hstack` of the buffer keeps every frame whole and in order: sample j of frame k sits after all samples of the earlier frames |
| `Demos.ConcatLength` | demos.py:121 | the joined phrase is as long as all the frames together |
| `Demos.Concat` | demos.py:121 | `np.hstack`: the buffered frames joined end to end; `ConcatPlacesFrames` and `ConcatLength` state what it keeps |
| `Demos.QnADemo.constructor` | demos.py:21-27 | a new demo is inactive, idle, with an empty buffer and output |
| `Demos.QnADemo.ResetVar` | demos.py:41-44 | `reset_var` clears the count, the capture flag and the buffer |
| `Demos.QnADemo.CallbackFn` | demos.py:46-76 | the block is handed back unchanged with `paContinue`; inactive: the state is reset; active: the new state is `Feed` of the old one on the selected, scaled channel; the count bound is kept |
| `Demos.QnADemo.PollPhrase` | demos.py:107-123 | one poll: stopped demo returns; while capturing or with nothing buffered, nothing is taken; otherwise the joined buffer is taken and the buffer is emptied |
| `Demos.QnADemo.Start` | demos.py:97-105 | `start` resets the capture state, then sets `active` |
| `Demos.QnADemo.Stop` | demos.py:133-136 | `stop` clears `active` |
| `Demos.QnADemo.Perform` | demos.py:140-153 | the trace is the 0.5 s hardware wait followed by `AnswerEvents` |
| `Demos.AnswerEvents` | demos.py:142-153 | the answer trace from note i on: for each note while the checkpoint finds the demo active, note-on at 80, its duration, note-off; `AnswerShape` states its shape |
| `Demos.NotesPlayed` | demos.py:142-147 | the notes played are a prefix of the answer ending at the first check that finds the demo inactive |
| `Demos.AnswerShape` | demos.py:142-153 | the answer is three events per played note: note-on at velocity 80, the note's duration, note-off at velocity 0, in input order; nothing after the first inactive check, so every note-on has its note-off |
| `Demos.BeatDetectionDemo.constructor` | demos.py:157-158 | the demo wraps a fresh, reset, inactive tracker with a five-second timeout |
| `Demos.BeatDetectionDemo.Start` | demos.py:160-161 | `start` activates the tracker |
| `Demos.BeatDetectionDemo.Stop` | demos.py:163-164 | `stop` deactivates the tracker |
| `Demos.BeatDetectionDemo.UpdateTempo` | demos.py:166-170 | only note-on messages reach the tracker; other messages change nothing |
| `Demos.BeatDetectionDemo.GetTempo` | demos.py:172-173 | `get_tempo` returns the tracker's estimate, which is positive whenever there is one |
| `Demos.PairMessages` | demos.py:230-234 | two messages per note: note-on with its velocity, then note-off at velocity 0, in note order |
| `Demos.PairMessagesAppend` | demos.py:230-234 | the pairs of two note runs are the pairs of the first followed by those of the second |
| `Demos.SendsOfEmit` | demos.py:233-234 | the messages of emitted sends are the messages themselves |
| `Demos.PolyEnd` | demos.py:209-218 | the grouping loop only advances by equal-onset pairs and stops where the next two onsets differ |
| `Demos.ClusterEnd` | demos.py:209-242 | a cluster is a run of equal-onset pairs or a single note, so the index strictly advances |
| `Demos.ChainedPairsOneCluster` | demos.py:213-216 | onsets 0, 0, 1, 1 form one cluster of four notes |
| `Demos.TripleSplits` | demos.py:213-216 | three notes on one tick are a pair and then a single note |
| `Demos.StopAt` | demos.py:220-224 | playback stops at the first cluster whose checkpoint finds `playing` cleared |
| `Demos.StopAtBoundary` | demos.py:220-224 | playback stops only between clusters, never inside one |
| `Demos.SongSendsPrefix` | demos.py:204-244 | what the song sends is exactly the notes up to where it stopped, each once, in input order, each note-on immediately followed by its note-off at velocity 0 |
| `Demos.SongPlaysEveryNote` | demos.py:204-244 | if `playing` stays set, the whole file is sent, every note exactly once, in input order |
| `Demos.StopAtEnd` | demos.py:220-224 | if `playing` stays set, playback runs to the end of the file |
| `Demos.SongEvents` | demos.py:204-244 | the trace of `perform` from note i with k clusters played: nothing once the checkpoint finds `playing` cleared or the notes run out, else the cluster's pairs, its scaled pause and the rest; `SongSendsPrefix`, `SongPlaysEveryNote` and `ChordThenNote` state its properties |
| `Demos.Gap` | demos.py:226-229 | the file-time pause after a cluster: next note start minus the cluster's first start, 0 for the last cluster |
| `Demos.Stretch` | demos.py:205 | a file-time pause played at the ratio `file_tempo / tempo` (`duration * m` at demos.py:244) |
| `Demos.ChordThenNote` | demos.py:226-244 | a two-note chord then a note one second later: two back-to-back pairs, a one-second pause scaled by the ratio, the last note and a zero pause |
| `Demos.SongDemo.constructor` | demos.py:177-186 | a new song demo plays at the file tempo and is not playing |
| `Demos.SongDemo.SetTempo` | demos.py:190-191 | `set_tempo` sets the playback tempo |
| `Demos.SongDemo.Start` | demos.py:193-196 | `start` sets `playing` |
| `Demos.SongDemo.Stop` | demos.py:198-202 | `stop` clears `playing` |
| `Demos.SongDemo.Perform` | demos.py:204-244 | the trace of `perform` is `SongEvents` from the first note with `file_tempo / tempo` as ratio |
| `Demos.SongDemo.GroupCluster` | demos.py:208-218 | the grouping loop collects exactly the notes up to `PolyEnd` |
| `Demos.SongDemo.SendCluster` | demos.py:226-242 | sends the cluster's pairs in order and returns the next index and the file-time gap to the next note, 0 after the last |
| `Demos.SongDemo.SendPairs` | demos.py:230-234 | sends each grouped note as a note-on and its note-off, in order |
| `Midi.Sends` | demos.py:151-153 | the messages of a trace, in order, without the pauses |
| `Midi.SendsAppend` | demos.py:151-153 | the messages of two traces in a row are those of the first then the second |
| `TempoTracking.SumUpdate` | tempoTracker.py:35-39 | overwriting one history slot changes the sum by the difference |
| `TempoTracking.Mean` | tempoTracker.py:39 | `history.mean()`: the sum over the length; `MeanOfConstant` and `SumAtLeastEntry` state what the tracker needs of it |
| `TempoTracking.SumAtLeastEntry` | tempoTracker.py:39-40 | with no negative intervals the sum is at least any one interval, so the mean after an accepted interval is positive and `60 / t` is defined |
| `TempoTracking.SumNonNegative` | tempoTracker.py:39 | a history of non-negative intervals has a non-negative sum |
| `TempoTracking.MeanOfConstant` | tempoTracker.py:39 | a history holding one interval everywhere has that interval as mean |
| `TempoTracking.SumOfConstant` | tempoTracker.py:39 | a history holding one interval everywhere sums to length times the interval |
| `TempoTracking.TempoTracker.constructor` | tempoTracker.py:6-16 | a new tracker is reset at the current time, has no estimate and is inactive |
| `TempoTracking.TempoTracker.ResetVars` | tempoTracker.py:46-51 | a zeroed history of `smoothing` slots, index and warm-up at 0, reference time now, next event a primer; the estimate and `active` are kept |
| `TempoTracking.TempoTracker.TrackTempo` | tempoTracker.py:18-44 | `Tracked`: inactive resets and returns None; the first event after a reset primes the reference and returns None; an interval under 50 ms returns None and changes nothing recorded; one over the timeout resets and returns None; an accepted interval is written at `idx`, `idx` advances modulo the capacity, the warm-up counter grows by one, and the estimate becomes `60 / mean(history)` from the fifth accepted interval on, else the old estimate is returned; the index bound and a positive estimate are kept |
| `TempoTracking.TempoTracker.Start` | tempoTracker.py:53-54 | `start` only sets `active` |
| `TempoTracking.TempoTracker.Stop` | tempoTracker.py:56-57 | `stop` only clears `active`; the reset happens on the next call |
| `TempoTracking.Pulse` | tempoTracker.py:27-44 | after a primed tracker sees at least `max(smoothing, 5)` accepted intervals of one period, every slot holds that period and the estimate is `60 / period` |
| `TempoTracking.SteadyPulse` | tempoTracker.py:18-44 | from a new, started tracker: the first event returns None and a steady pulse ends at exactly `60 / period` |
| `TempoTracking.PauseKeepsEstimate` | tempoTracker.py:30-51 | after a pause longer than the timeout, the next two events return None, and the first accepted interval afterwards returns the earlier estimate, since a reset keeps it |
| `Dispatch.Value` | main.py:31-35 | every demo has a value in 0..3, and converting it back gives the same demo |
| `Dispatch.DemoOf` | main.py:31-35 | `Demo(val)` succeeds exactly for 0..3 |
| `Dispatch.ManageActions` | main.py:59-79 | a demo value gives a non-empty call list ending with the start of the selected demo, which is never stopped, with no start before the last call; the song tempo is set exactly when the song is selected and the detector has a positive tempo; other values do nothing |
| `Dispatch.ManageStopsOthers` | main.py:60-75 | both other demos are stopped before the selected one starts |
| `Dispatch.ManageRun` | main.py:59-79 | the state each selection leaves: which demos run and the song tempo |
| `Dispatch.ManageSelectsOne` | main.py:59-79 | whatever ran before, exactly the selected demo runs afterwards; the song tempo changes only for the song with a positive detected tempo |
| `Dispatch.CtrlOutcome` | main.py:39-49 | non-control-change messages and other controllers are ignored; value 0 quits; the current demo's value is a no-op; a value outside 0..3 is an error; otherwise the switch is to the demo with that value, a different one |
| `Dispatch.Session.constructor` | main.py:88-89 | the session starts running with no demo selected |
| `Dispatch.Session.ManageDemos` | main.py:59-79 | the log grows by `ManageActions` and the demos' state is those calls applied in order; selecting the violin demo resets its capture state (its `start` runs `reset_var`), any other value leaves the capture state as it was |
| `Dispatch.Session.CtrlCallback` | main.py:39-49 | quitting clears `running` and keeps the demo; a switch records the new demo and runs `manage_demos` once, with its effects; ignored, unchanged, quit and bad-value messages change neither the log, the demos' state nor the capture state |
| `Dispatch.Session.KeysCallback` | main.py:53-56 | key messages reach the tracker only while the keys demo is selected, and only note-ons |

## Left out

- audioDevice.py and midiDevice.py are not part of this model: they open
  devices and forward callbacks.
- Threads, locks, `Thread.join`, the 0.1 s polling sleep and the unbounded
  self-recursion of `_process` (demos.py:107-131): one poll is modelled
  (`PollPhrase`); the converter run on a taken phrase is not.
- `np.frombuffer` decoding of the raw bytes: the callback receives the
  decoded 16-bit samples.
- The activation value `mean(|y|)` and its comparison with the threshold
  (floating point): replaced by the `loud` input.
- `to_float` (demos.py:87-95), `AudioMidiConverter.convert` and
  `_parse_midi` (pretty_midi parsing and its rounding): external; the song
  demo is built from already parsed notes, onsets and file tempo.
- `print`, `sig_handle`, `reset`/`__del__` port closing and the `__main__`
  block of main.py (device names, the main loop).
- `TempoTracking.TempoTracker.TrackTempo`: the source reads the clock up to
  three times per call; the model uses one reading `now` for all of them.
- `TempoTracking.TempoTracker.constructor`: a smoothing window of 0 is
  excluded by its precondition. The source accepts it (`np.zeros(0)` is an
  empty history), and the first accepted interval then raises `IndexError`
  writing `history[0]` (tempoTracker.py:35), before the modulo is reached.
- `Demos.QnADemo.Perform`: requires at least one duration and one checkpoint
  value per note. The converter returns notes and durations in pairs; with
  a shorter duration list the source would send the note-on and then raise
  `IndexError` (demos.py:151-152), leaving the note sounding. A negative
  duration, for which `time.sleep` raises, is not distinguished either.
- `Demos.SongDemo.Perform`: requires a non-zero tempo (the source divides by
  it) and at least one checkpoint value per note; a negative pause, for
  which `time.sleep` raises, is not distinguished.
- `Demos.SongDemo.GroupCluster`: the first grouping branch (demos.py:210)
  compares a note object with an onset tick, which never holds for parsed
  notes, so it is modelled as never taken.
- `Demos.BeatDetectionDemo.UpdateTempo`: the `dt` argument, which the
  tracker ignores, is not modelled.
- `Dispatch.Session.KeysCallback`: the session always holds a beat-detection
  demo, so the "demo present" test is always true.

Behaviour of the code worth knowing:

- the capture ends only at the `n_wait + 2`-th consecutive quiet block and
  keeps `n_wait + 1` trailing quiet frames (`PhraseThenRelease`);
- the phrase is taken by the background loop, not by the callback;
- `reset_vars` keeps the previous estimate, so a warm-up after a reset
  returns it (`PauseKeepsEstimate`);
- `stop`/`start` of the tracker only toggle `active`; the reset happens on
  the next event while inactive;
- song grouping chains equal-onset pairs even when the pairs are on
  different ticks (`ChainedPairsOneCluster`), and a third note on the same
  tick is its own cluster (`TripleSplits`).
