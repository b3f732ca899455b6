/** The three demos of demos.py: the question-and-answer demo (an audio
    phrase segmenter and a monophonic performer), the beat-detection demo (a
    front end to the tempo tracker) and the song demo (polyphonic replay of a
    parsed MIDI file).

    Threads, locks and sleeps are not modelled: a flag that another thread
    may clear while a performance runs is an input giving the value seen at
    each checkpoint, and a sleep is a `Sleep` event on the output port. */
module Demos {
  import opened Midi
  import opened TempoTracking

  /** A signed 16-bit PCM sample, as `np.frombuffer(..., dtype=np.int16)` yields. */
  type Int16 = x: int | -32768 <= x < 32768

  /** One audio block after channel selection, scaled to [-1, 1). */
  type Frame = seq<real>

  /** pyaudio's `paContinue`. */
  const PaContinue: int := 0

  /** Velocity of every note the question-and-answer demo plays. */
  const AnswerVelocity: int := 80

  /** Seconds waited before an answer, standing in for the robot's latency. */
  const HardwareWait: real := 0.5

  // ---------------------------------------------------------------------
  // Channel selection and scaling (callback_fn, int16_to_float)
  // ---------------------------------------------------------------------

  /** `s[::2]`: the elements at even positions, in order. */
  function EvenPositions<T>(s: seq<T>): (r: seq<T>)
    ensures |r| == (|s| + 1) / 2
    ensures forall k :: 0 <= k < |r| ==> r[k] == s[2 * k]
  {
    if |s| <= 1 then s else [s[0]] + EvenPositions(s[2..])
  }

  /** `y[::2][1::2]`: of four interleaved channels, the third one, that is
      the samples at positions 2, 6, 10, ... in order. */
  function ChannelSelect(y: seq<Int16>): (r: seq<Int16>)
    ensures |r| == (|y| + 1) / 4
    ensures forall k :: 0 <= k < |r| ==> r[k] == y[4 * k + 2]
  {
    var evens := EvenPositions(y);
    if |evens| == 0 then [] else EvenPositions(evens[1..])
  }

  /** `x / (1 << 15)`: every sample scaled into [-1, 1) without loss. */
  function Int16ToFloat(x: seq<Int16>): (r: Frame)
    ensures |r| == |x|
    ensures forall i :: 0 <= i < |r| ==> -1.0 <= r[i] < 1.0
    ensures forall i :: 0 <= i < |r| ==> r[i] * 32768.0 == x[i] as real
  {
    seq(|x|, i requires 0 <= i < |x| => (x[i] as real) / 32768.0)
  }

  /** The frame the capture callback derives from one raw block. */
  function FrameOf(inData: seq<Int16>): Frame
  {
    Int16ToFloat(ChannelSelect(inData))
  }

  // ---------------------------------------------------------------------
  // Phrase segmentation (callback_fn, reset_var, _process)
  // ---------------------------------------------------------------------

  /** The segmenter's state: whether a phrase is being captured, the count of
      quiet blocks since the last loud one, and the buffered frames. */
  datatype Capture = Capture(playing: bool, waitCount: nat, phrase: seq<Frame>)

  /** The state `reset_var` leaves. */
  const Idle: Capture := Capture(false, 0, [])

  /** One audio block while the demo is active; `loud` says whether its mean
      absolute amplitude exceeds the activation threshold. */
  function Feed(c: Capture, nWait: nat, frame: Frame, loud: bool): (d: Capture)
    // frames already buffered are kept, and at most this one is added
    ensures |c.phrase| <= |d.phrase| <= |c.phrase| + 1
    ensures d.phrase[..|c.phrase|] == c.phrase
    ensures |d.phrase| > |c.phrase| ==> d.phrase[|c.phrase|] == frame && d.playing
    // a loud block always captures and restarts the silence count
    ensures loud ==> d.playing && d.waitCount == 0 && |d.phrase| == |c.phrase| + 1
    // a quiet block never starts a capture, and extends one only within tolerance
    ensures !loud ==> d.playing ==> c.playing
    ensures !loud && !c.playing ==> d.phrase == c.phrase
    ensures !loud && c.waitCount > nWait ==> !d.playing && d.waitCount == 0 && d.phrase == c.phrase
    ensures !loud && c.waitCount <= nWait ==>
              d.playing == c.playing && d.waitCount == c.waitCount + 1 && (|d.phrase| > |c.phrase| <==> c.playing)
    // the silence count never passes n_wait + 1
    ensures c.waitCount <= nWait + 1 ==> d.waitCount <= nWait + 1
  {
    if loud then Capture(true, 0, c.phrase + [frame])
    else if c.waitCount > nWait then Capture(false, 0, c.phrase)
    else Capture(c.playing, c.waitCount + 1, if c.playing then c.phrase + [frame] else c.phrase)
  }

  /** An audio block as the segmenter sees it. */
  datatype Block = Block(frame: Frame, loud: bool)

  function FeedAll(c: Capture, nWait: nat, blocks: seq<Block>): Capture
    decreases |blocks|
  {
    if |blocks| == 0 then c
    else FeedAll(Feed(c, nWait, blocks[0].frame, blocks[0].loud), nWait, blocks[1..])
  }

  function Frames(blocks: seq<Block>): (fs: seq<Frame>)
    ensures |fs| == |blocks| && forall j :: 0 <= j < |blocks| ==> fs[j] == blocks[j].frame
  {
    seq(|blocks|, j requires 0 <= j < |blocks| => blocks[j].frame)
  }

  predicate AllQuiet(blocks: seq<Block>)
  {
    forall j :: 0 <= j < |blocks| ==> !blocks[j].loud
  }

  predicate AllLoud(blocks: seq<Block>)
  {
    forall j :: 0 <= j < |blocks| ==> blocks[j].loud
  }

  lemma {:induction false} FeedAllAppend(c: Capture, nWait: nat, a: seq<Block>, b: seq<Block>)
    ensures FeedAll(c, nWait, a + b) == FeedAll(FeedAll(c, nWait, a), nWait, b)
    decreases |a|
  {
    if |a| == 0 {
      assert a + b == b;
    } else {
      assert (a + b)[0] == a[0] && (a + b)[1..] == a[1..] + b;
      FeedAllAppend(Feed(c, nWait, a[0].frame, a[0].loud), nWait, a[1..], b);
    }
  }

  /** While nothing is captured, any run of quiet blocks leaves the buffer as
      it is: below the threshold no phrase ever starts. */
  lemma {:induction false} QuietNeverCaptures(c: Capture, nWait: nat, blocks: seq<Block>)
    requires !c.playing && AllQuiet(blocks)
    ensures !FeedAll(c, nWait, blocks).playing
    ensures FeedAll(c, nWait, blocks).phrase == c.phrase
    decreases |blocks|
  {
    if |blocks| > 0 {
      QuietNeverCaptures(Feed(c, nWait, blocks[0].frame, false), nWait, blocks[1..]);
    }
  }

  /** A run of loud blocks captures every one of them, in order. */
  lemma {:induction false} LoudRunCaptures(c: Capture, nWait: nat, blocks: seq<Block>)
    requires |blocks| > 0 && AllLoud(blocks)
    ensures FeedAll(c, nWait, blocks) == Capture(true, 0, c.phrase + Frames(blocks))
    decreases |blocks|
  {
    assert blocks[0].loud;
    var d := Capture(true, 0, c.phrase + [blocks[0].frame]);
    assert FeedAll(c, nWait, blocks) == FeedAll(d, nWait, blocks[1..]);
    if |blocks| == 1 {
      assert Frames(blocks) == [blocks[0].frame];
    } else {
      assert AllLoud(blocks[1..]) by {
        forall j | 0 <= j < |blocks| - 1 ensures blocks[1..][j].loud {
          assert blocks[1..][j] == blocks[j + 1];
        }
      }
      LoudRunCaptures(d, nWait, blocks[1..]);
      FramesCons(c.phrase, blocks);
    }
  }

  /** Within the silence tolerance, quiet blocks are still captured and
      counted. */
  lemma {:induction false} QuietWithinTolerance(c: Capture, nWait: nat, blocks: seq<Block>)
    requires c.playing && AllQuiet(blocks)
    requires c.waitCount + |blocks| <= nWait + 1
    ensures FeedAll(c, nWait, blocks) == Capture(true, c.waitCount + |blocks|, c.phrase + Frames(blocks))
    decreases |blocks|
  {
    if |blocks| == 0 {
      assert c.phrase + Frames(blocks) == c.phrase;
    } else {
      assert !blocks[0].loud;
      var d := Capture(true, c.waitCount + 1, c.phrase + [blocks[0].frame]);
      assert Feed(c, nWait, blocks[0].frame, false) == d;
      assert AllQuiet(blocks[1..]) by {
        forall j | 0 <= j < |blocks| - 1 ensures !blocks[1..][j].loud {
          assert blocks[1..][j] == blocks[j + 1];
        }
      }
      QuietWithinTolerance(d, nWait, blocks[1..]);
      FramesCons(c.phrase, blocks);
    }
  }

  lemma FramesCons(phrase: seq<Frame>, blocks: seq<Block>)
    requires |blocks| > 0
    ensures phrase + Frames(blocks) == (phrase + [blocks[0].frame]) + Frames(blocks[1..])
  {
    assert Frames(blocks) == [blocks[0].frame] + Frames(blocks[1..]);
  }

  /** A phrase: from an empty, idle segmenter, a run of loud blocks followed
      by n_wait + 2 quiet ones ends the capture. The buffer then holds the
      loud frames and the first n_wait + 1 quiet frames (the last quiet block
      only releases), ready to be taken. */
  lemma PhraseThenRelease(w: nat, nWait: nat, loud: seq<Block>, quiet: seq<Block>)
    requires |loud| > 0 && AllLoud(loud)
    requires |quiet| == nWait + 2 && AllQuiet(quiet)
    ensures FeedAll(Capture(false, w, []), nWait, loud + quiet)
            == Capture(false, 0, Frames(loud) + Frames(quiet[..nWait + 1]))
  {
    var c := Capture(false, w, []);
    FeedAllAppend(c, nWait, loud, quiet);
    LoudRunCaptures(c, nWait, loud);
    assert [] + Frames(loud) == Frames(loud);
    var captured := Capture(true, 0, Frames(loud));
    var held, last := quiet[..nWait + 1], quiet[nWait + 1];
    assert quiet == held + [last];
    FeedAllAppend(captured, nWait, held, [last]);
    assert AllQuiet(held) by {
      forall j | 0 <= j < |held| ensures !held[j].loud {
        assert held[j] == quiet[j];
      }
    }
    QuietWithinTolerance(captured, nWait, held);
    var full := Capture(true, nWait + 1, Frames(loud) + Frames(held));
    assert !last.loud;
    assert FeedAll(full, nWait, [last]) == FeedAll(Feed(full, nWait, last.frame, false), nWait, []);
  }

  /** `np.hstack`: the buffered frames joined end to end. */
  function Concat(fs: seq<Frame>): seq<real>
  {
    if |fs| == 0 then [] else Concat(fs[..|fs| - 1]) + fs[|fs| - 1]
  }

  function TotalLength(fs: seq<Frame>): nat
  {
    if |fs| == 0 then 0 else TotalLength(fs[..|fs| - 1]) + |fs[|fs| - 1]|
  }

  /** Sample `j` of frame `k` sits in the joined phrase right after all the
      samples of the frames before it: the frames are kept whole and in order. */
  lemma {:induction false} ConcatPlacesFrames(fs: seq<Frame>, k: nat, j: nat)
    requires k < |fs| && j < |fs[k]|
    ensures |Concat(fs)| == TotalLength(fs)
    ensures TotalLength(fs[..k]) + j < |Concat(fs)|
    ensures Concat(fs)[TotalLength(fs[..k]) + j] == fs[k][j]
    decreases |fs|
  {
    var n := |fs| - 1;
    assert fs[..n][..k] == fs[..k] by {
      if k < n { }
    }
    if k == n {
      ConcatLength(fs[..n]);
      assert fs[..n] == fs[..k];
    } else {
      ConcatPlacesFrames(fs[..n], k, j);
    }
  }

  lemma {:induction false} ConcatLength(fs: seq<Frame>)
    ensures |Concat(fs)| == TotalLength(fs)
    decreases |fs|
  {
    if |fs| > 0 {
      ConcatLength(fs[..|fs| - 1]);
    }
  }

  /** What one poll of the background loop in `_process` finds. */
  datatype Poll =
    | Stopped                    // the demo was stopped: the loop returns
    | Waiting                    // still capturing, or nothing buffered: sleep and poll again
    | Taken(samples: seq<real>)  // a finished phrase, handed to the converter

  // ---------------------------------------------------------------------
  // Monophonic answer (QnADemo.perform)
  // ---------------------------------------------------------------------

  /** The events of `perform` from note `i` on: `activeAt[i]` is the value of
      the `active` flag seen before note `i`. Each note is a note-on at
      velocity 80, a pause of its duration and a note-off. */
  function AnswerEvents(notes: seq<int>, durations: seq<real>, activeAt: seq<bool>, i: nat): seq<Event>
    requires |durations| >= |notes| && |activeAt| >= |notes|
    decreases |notes| - i
  {
    if i >= |notes| || !activeAt[i] then []
    else [Send(Message(NoteOn, notes[i], AnswerVelocity)), Sleep(durations[i]), Send(Message(NoteOff, notes[i], 0))]
         + AnswerEvents(notes, durations, activeAt, i + 1)
  }

  /** The number of notes played from `i` on: up to the first check that
      finds the demo inactive. */
  function NotesPlayed(activeAt: seq<bool>, n: nat, i: nat): (p: nat)
    requires n <= |activeAt| && i <= n
    ensures i + p <= n
    ensures forall j :: i <= j < i + p ==> activeAt[j]
    ensures i + p == n || !activeAt[i + p]
    decreases n - i
  {
    if i == n || !activeAt[i] then 0 else 1 + NotesPlayed(activeAt, n, i + 1)
  }

  /** The answer is note after note, in input order, each note-on followed by
      its pause and its note-off, and it stops for good at the first check
      that finds the demo inactive: no note-on is left without its note-off. */
  lemma {:induction false} AnswerShape(notes: seq<int>, durations: seq<real>, activeAt: seq<bool>, i: nat)
    requires |durations| >= |notes| && |activeAt| >= |notes| && i <= |notes|
    ensures var evs, p := AnswerEvents(notes, durations, activeAt, i), NotesPlayed(activeAt, |notes|, i);
            && |evs| == 3 * p
            && forall j :: 0 <= j < p ==>
                 && evs[3 * j] == Send(Message(NoteOn, notes[i + j], AnswerVelocity))
                 && evs[3 * j + 1] == Sleep(durations[i + j])
                 && evs[3 * j + 2] == Send(Message(NoteOff, notes[i + j], 0))
    decreases |notes| - i
  {
    if i < |notes| && activeAt[i] {
      AnswerShape(notes, durations, activeAt, i + 1);
      var evs := AnswerEvents(notes, durations, activeAt, i);
      var rest := AnswerEvents(notes, durations, activeAt, i + 1);
      var p := NotesPlayed(activeAt, |notes|, i);
      forall j | 0 <= j < p
        ensures evs[3 * j] == Send(Message(NoteOn, notes[i + j], AnswerVelocity))
        ensures evs[3 * j + 1] == Sleep(durations[i + j])
        ensures evs[3 * j + 2] == Send(Message(NoteOff, notes[i + j], 0))
      {
        if j > 0 {
          assert evs[3 * j] == rest[3 * (j - 1)];
          assert evs[3 * j + 1] == rest[3 * (j - 1) + 1];
          assert evs[3 * j + 2] == rest[3 * (j - 1) + 2];
        }
      }
    }
  }

  class QnADemo {
    /** Quiet blocks tolerated inside a phrase. */
    const nWait: nat
    var active: bool
    var waitCount: nat
    var playing: bool
    var phrase: seq<Frame>
    /** Everything sent to, or waited on, the virtual MIDI output. */
    var midiOut: seq<Event>

    ghost predicate Valid()
      reads this
    {
      waitCount <= nWait + 1
    }

    ghost function Snapshot(): Capture
      reads this
    {
      Capture(playing, waitCount, phrase)
    }

    constructor (nWait: nat)
      ensures Valid() && this.nWait == nWait
      ensures !active && Snapshot() == Idle && midiOut == []
    {
      this.nWait := nWait;
      active := false;
      waitCount := 0;
      playing := false;
      phrase := [];
      midiOut := [];
    }

    method ResetVar()
      modifies this`waitCount, this`playing, this`phrase
      ensures Valid() && Snapshot() == Idle
    {
      waitCount := 0;
      playing := false;
      phrase := [];
    }

    /** The audio callback: one raw block of interleaved samples, and whether
        the selected channel is above the activation threshold. The block is
        handed back unchanged with `paContinue`. */
    method CallbackFn(inData: seq<Int16>, loud: bool) returns (outData: seq<Int16>, code: int)
      requires Valid()
      modifies this`waitCount, this`playing, this`phrase
      ensures Valid() && outData == inData && code == PaContinue
      ensures !active ==> Snapshot() == Idle
      ensures active ==> Snapshot() == Feed(old(Snapshot()), nWait, FrameOf(inData), loud)
    {
      if !active {
        ResetVar();
        return inData, PaContinue;
      }
      var y := ChannelSelect(inData);
      var frame := Int16ToFloat(y);
      if loud {
        playing := true;
        waitCount := 0;
        phrase := phrase + [frame];
      } else {
        if waitCount > nWait {
          playing := false;
          waitCount := 0;
        } else {
          if playing {
            phrase := phrase + [frame];
          }
          waitCount := waitCount + 1;
        }
      }
      return inData, PaContinue;
    }

    /** One round of the background loop of `_process`: a phrase is taken only
        once the capture has ended and something is buffered; taking it
        empties the buffer. */
    method PollPhrase() returns (p: Poll)
      modifies this`phrase
      ensures !active ==> p == Stopped && phrase == old(phrase)
      ensures active && (playing || old(phrase) == []) ==> p == Waiting && phrase == old(phrase)
      ensures active && !playing && old(phrase) != [] ==> p == Taken(Concat(old(phrase))) && phrase == []
    {
      if !active {
        return Stopped;
      }
      if playing || |phrase| == 0 {
        return Waiting;
      }
      var samples := Concat(phrase);
      phrase := [];
      return Taken(samples);
    }

    method Start()
      modifies this`active, this`waitCount, this`playing, this`phrase
      ensures Valid() && active && Snapshot() == Idle
    {
      ResetVar();
      active := true;
    }

    method Stop()
      modifies this`active
      ensures !active
    {
      active := false;
    }

    /** Plays an answer: `durations[k]` is how long note `k` sounds and
        `activeAt[k]` the value of `active` seen before note `k`. */
    method Perform(notes: seq<int>, durations: seq<real>, activeAt: seq<bool>)
      requires |durations| >= |notes| && |activeAt| >= |notes|
      modifies this`midiOut
      ensures midiOut == old(midiOut) + [Sleep(HardwareWait)] + AnswerEvents(notes, durations, activeAt, 0)
    {
      midiOut := midiOut + [Sleep(HardwareWait)];
      var i := 0;
      while i < |notes|
        invariant 0 <= i <= |notes|
        invariant old(midiOut) + [Sleep(HardwareWait)] + AnswerEvents(notes, durations, activeAt, 0)
                  == midiOut + AnswerEvents(notes, durations, activeAt, i)
      {
        if !activeAt[i] {
          break;
        }
        var noteOn := Message(NoteOn, notes[i], AnswerVelocity);
        var noteOff := Message(NoteOff, notes[i], 0);
        midiOut := midiOut + [Send(noteOn), Sleep(durations[i]), Send(noteOff)];
        i := i + 1;
      }
    }
  }

  // ---------------------------------------------------------------------
  // Beat detection (BeatDetectionDemo)
  // ---------------------------------------------------------------------

  class BeatDetectionDemo {
    const tracker: TempoTracker

    ghost predicate Valid()
      reads this, tracker, tracker.history
    {
      tracker.Valid()
    }

    /** A demo around a fresh tracker with the given window and the default
        five-second timeout. */
    constructor (smoothing: nat, now: real)
      requires 0 < smoothing
      ensures Valid() && fresh(tracker) && fresh(tracker.history)
      ensures tracker.smoothing == smoothing && tracker.timeout == 5.0
      ensures tracker.IsReset(now) && tracker.tempo == None && !tracker.active
    {
      tracker := new TempoTracker(smoothing, 5.0, now);
    }

    method Start()
      requires Valid()
      modifies tracker`active
      ensures Valid() && tracker.active
    {
      tracker.Start();
    }

    method Stop()
      requires Valid()
      modifies tracker`active
      ensures Valid() && !tracker.active
    {
      tracker.Stop();
    }

    /** Only note-on messages reach the tracker. */
    method UpdateTempo(msg: Message, now: real) returns (forwarded: bool, tempo: Option<real>)
      requires Valid()
      modifies tracker, tracker.history
      ensures Valid()
      ensures forwarded == (msg.status == NoteOn)
      ensures !forwarded ==> tempo == None && unchanged(tracker) && unchanged(tracker.history)
      ensures forwarded ==> tracker.Tracked(now, tempo)
    {
      forwarded := msg.status == NoteOn;
      tempo := None;
      if forwarded {
        tempo := tracker.TrackTempo(now);
      }
    }

    /** The tracker's current estimate, positive whenever there is one. */
    function GetTempo(): (t: Option<real>)
      requires Valid()
      reads this, tracker, tracker.history
      ensures t.Some? ==> t.value > 0.0
    {
      tracker.tempo
    }
  }

  // ---------------------------------------------------------------------
  // Song replay (SongDemo.perform)
  // ---------------------------------------------------------------------

  /** A parsed note: pitch, velocity and start time in seconds. */
  datatype Note = Note(pitch: int, velocity: int, start: real)

  function NoteOnOf(n: Note): Message { Message(NoteOn, n.pitch, n.velocity) }
  function NoteOffOf(n: Note): Message { Message(NoteOff, n.pitch, 0) }

  /** Each note as a note-on immediately followed by its note-off, in order. */
  function PairMessages(ns: seq<Note>): (r: seq<Message>)
    ensures |r| == 2 * |ns|
    ensures forall j :: 0 <= j < |ns| ==> r[2 * j] == NoteOnOf(ns[j]) && r[2 * j + 1] == NoteOffOf(ns[j])
  {
    if |ns| == 0 then [] else PairMessages(ns[..|ns| - 1]) + [NoteOnOf(ns[|ns| - 1]), NoteOffOf(ns[|ns| - 1])]
  }

  lemma {:induction false} PairMessagesAppend(a: seq<Note>, b: seq<Note>)
    ensures PairMessages(a + b) == PairMessages(a) + PairMessages(b)
  {
    var l, r := PairMessages(a + b), PairMessages(a) + PairMessages(b);
    assert |l| == |r|;
    forall x | 0 <= x < |l| ensures l[x] == r[x] {
      var j := x / 2;
      if j < |a| {
        assert (a + b)[j] == a[j];
      } else {
        assert (a + b)[j] == b[j - |a|];
        assert x - 2 * |a| == 2 * (j - |a|) + x % 2;
      }
    }
  }

  /** Messages as send events. */
  function Emit(ms: seq<Message>): (evs: seq<Event>)
    ensures |evs| == |ms| && forall j :: 0 <= j < |ms| ==> evs[j] == Send(ms[j])
  {
    seq(|ms|, j requires 0 <= j < |ms| => Send(ms[j]))
  }

  lemma {:induction false} SendsOfEmit(ms: seq<Message>)
    ensures Sends(Emit(ms)) == ms
    decreases |ms|
  {
    if |ms| > 0 {
      assert Emit(ms)[1..] == Emit(ms[1..]);
      SendsOfEmit(ms[1..]);
    }
  }

  /** Where the grouping loop stops when it starts at `i`: it takes two notes
      at a time for as long as the next two onsets are equal. */
  function PolyEnd(onsets: seq<int>, i: nat): (e: nat)
    requires i <= |onsets|
    ensures i <= e <= |onsets| && (e - i) % 2 == 0
    ensures forall j :: i <= j < e && (j - i) % 2 == 0 ==> SameAsNext(onsets, j)
    ensures !SameAsNext(onsets, e)
    decreases |onsets| - i
  {
    if i + 1 < |onsets| && onsets[i] == onsets[i + 1] then PolyEnd(onsets, i + 2) else i
  }

  /** Note `j` has a successor with the same onset tick. */
  predicate SameAsNext(onsets: seq<int>, j: nat)
  {
    j + 1 < |onsets| && onsets[j] == onsets[j + 1]
  }

  /** The cluster starting at note `i` is notes `i .. ClusterEnd(onsets, i)`:
      a run of equal-onset pairs, or the single note `i`. */
  function ClusterEnd(onsets: seq<int>, i: nat): (e: nat)
    requires i < |onsets|
    ensures i < e <= |onsets|
    ensures e == i + 1 || (e - i) % 2 == 0
  {
    var p := PolyEnd(onsets, i);
    if p > i then p else i + 1
  }

  /** Equal-onset pairs chain: with onset ticks 0, 0, 1, 1 all four notes
      form one cluster, sent back to back with no pause for the tick change. */
  lemma ChainedPairsOneCluster()
    ensures ClusterEnd([0, 0, 1, 1], 0) == 4
  {
  }

  /** Three notes on one tick: a pair, then the third note on its own. */
  lemma TripleSplits()
    ensures ClusterEnd([0, 0, 0], 0) == 2 && ClusterEnd([0, 0, 0], 2) == 3
  {
  }

  /** The file-time pause after the cluster `i .. e`: from its first note to
      the next note, or nothing after the last cluster. */
  function Gap(notes: seq<Note>, i: nat, e: nat): real
    requires i < e <= |notes|
  {
    if e < |notes| then notes[e].start - notes[i].start else 0.0
  }

  /** A file-time pause played at `ratio` = file tempo / playback tempo. */
  function Stretch(seconds: real, ratio: real): real
  {
    seconds * ratio
  }

  /** The events of `perform` from note `i` on, with `k` clusters already
      played; `playingAt[k]` is the value of `playing` seen at the checkpoint
      before cluster `k`, and `ratio` is file tempo / playback tempo. */
  function SongEvents(notes: seq<Note>, onsets: seq<int>, ratio: real, i: nat, playingAt: seq<bool>, k: nat): seq<Event>
    requires |onsets| == |notes| && k <= i <= |notes| && |playingAt| >= |notes|
    decreases |notes| - i
  {
    if i == |notes| || !playingAt[k] then []
    else
      var e := ClusterEnd(onsets, i);
      Emit(PairMessages(notes[i..e])) + [Sleep(Stretch(Gap(notes, i, e), ratio))]
      + SongEvents(notes, onsets, ratio, e, playingAt, k + 1)
  }

  /** Index of the first note not played: the start of the first cluster
      whose checkpoint finds `playing` cleared, or the end of the file. */
  function StopAt(notes: seq<Note>, onsets: seq<int>, i: nat, playingAt: seq<bool>, k: nat): (s: nat)
    requires |onsets| == |notes| && k <= i <= |notes| && |playingAt| >= |notes|
    ensures i <= s <= |notes|
    decreases |notes| - i
  {
    if i == |notes| || !playingAt[k] then i
    else StopAt(notes, onsets, ClusterEnd(onsets, i), playingAt, k + 1)
  }

  /** `s` is reached from `i` by whole clusters. */
  predicate OnBoundary(onsets: seq<int>, i: nat, s: nat)
    requires i <= s <= |onsets|
    decreases s - i
  {
    i == s || (i < s && ClusterEnd(onsets, i) <= s && OnBoundary(onsets, ClusterEnd(onsets, i), s))
  }

  /** Playback stops only between clusters. */
  lemma {:induction false} StopAtBoundary(notes: seq<Note>, onsets: seq<int>, i: nat, playingAt: seq<bool>, k: nat)
    requires |onsets| == |notes| && k <= i <= |notes| && |playingAt| >= |notes|
    ensures OnBoundary(onsets, i, StopAt(notes, onsets, i, playingAt, k))
    decreases |notes| - i
  {
    if i < |notes| && playingAt[k] {
      StopAtBoundary(notes, onsets, ClusterEnd(onsets, i), playingAt, k + 1);
    }
  }

  /** What the song sends is the notes from `i` up to where it stopped, each
      once, in input order, each note-on immediately followed by its note-off
      at velocity 0. */
  lemma {:induction false} SongSendsPrefix(notes: seq<Note>, onsets: seq<int>, ratio: real, i: nat, playingAt: seq<bool>, k: nat)
    requires |onsets| == |notes| && k <= i <= |notes| && |playingAt| >= |notes|
    ensures Sends(SongEvents(notes, onsets, ratio, i, playingAt, k))
            == PairMessages(notes[i..StopAt(notes, onsets, i, playingAt, k)])
    decreases |notes| - i
  {
    var s := StopAt(notes, onsets, i, playingAt, k);
    if i == |notes| || !playingAt[k] {
      assert notes[i..s] == [];
    } else {
      var e := ClusterEnd(onsets, i);
      var ms := PairMessages(notes[i..e]);
      var pause := Stretch(Gap(notes, i, e), ratio);
      var rest := SongEvents(notes, onsets, ratio, e, playingAt, k + 1);
      assert s == StopAt(notes, onsets, e, playingAt, k + 1);
      calc {
        Sends(SongEvents(notes, onsets, ratio, i, playingAt, k));
        { SongEventsStep(notes, onsets, ratio, i, playingAt, k, e); }
        Sends(Emit(ms) + [Sleep(pause)] + rest);
        { SendsOfCluster(ms, pause, rest); }
        ms + Sends(rest);
        { SongSendsPrefix(notes, onsets, ratio, e, playingAt, k + 1); }
        ms + PairMessages(notes[e..s]);
        { PairMessagesSplit(notes, i, e, s); }
        PairMessages(notes[i..s]);
      }
    }
  }

  /** One cluster of the song, unfolded. */
  lemma SongEventsStep(notes: seq<Note>, onsets: seq<int>, ratio: real, i: nat, playingAt: seq<bool>, k: nat, e: nat)
    requires |onsets| == |notes| && k <= i < |notes| && |playingAt| >= |notes| && playingAt[k]
    requires e == ClusterEnd(onsets, i)
    ensures SongEvents(notes, onsets, ratio, i, playingAt, k)
            == Emit(PairMessages(notes[i..e])) + [Sleep(Stretch(Gap(notes, i, e), ratio))]
               + SongEvents(notes, onsets, ratio, e, playingAt, k + 1)
  {
  }

  /** Emitting one more note of a cluster adds its note-on and note-off. */
  lemma EmitPairsSnoc(ns: seq<Note>, j: nat)
    requires j < |ns|
    ensures Emit(PairMessages(ns[..j + 1]))
            == Emit(PairMessages(ns[..j])) + [Send(NoteOnOf(ns[j])), Send(NoteOffOf(ns[j]))]
  {
    assert ns[..j + 1][..j] == ns[..j];
    var a, b := PairMessages(ns[..j]), [NoteOnOf(ns[j]), NoteOffOf(ns[j])];
    assert PairMessages(ns[..j + 1]) == a + b;
    assert Emit(a + b) == Emit(a) + Emit(b);
  }

  lemma PairMessagesSplit(notes: seq<Note>, i: nat, e: nat, s: nat)
    requires i <= e <= s <= |notes|
    ensures PairMessages(notes[i..s]) == PairMessages(notes[i..e]) + PairMessages(notes[e..s])
  {
    assert notes[i..s] == notes[i..e] + notes[e..s];
    PairMessagesAppend(notes[i..e], notes[e..s]);
  }

  lemma SendsOfCluster(ms: seq<Message>, pause: real, rest: seq<Event>)
    ensures Sends(Emit(ms) + [Sleep(pause)] + rest) == ms + Sends(rest)
  {
    var sleep := [Sleep(pause)];
    SendsAppend(Emit(ms) + sleep, rest);
    SendsAppend(Emit(ms), sleep);
    SendsOfEmit(ms);
    assert sleep[1..] == [];
  }

  /** One pass of `perform` in terms of the trace: what remains to be sent
      from cluster `k` on is the cluster, its pause and the rest. */
  lemma PerformStep(whole: seq<Event>, before: seq<Event>, notes: seq<Note>, onsets: seq<int>, ratio: real,
                    i: nat, playingAt: seq<bool>, k: nat, e: nat, duration: real)
    requires |onsets| == |notes| && k <= i < |notes| && |playingAt| >= |notes| && playingAt[k]
    requires e == ClusterEnd(onsets, i) && duration == Gap(notes, i, e)
    requires whole == before + SongEvents(notes, onsets, ratio, i, playingAt, k)
    ensures whole == before + Emit(PairMessages(notes[i..e])) + [Sleep(Stretch(duration, ratio))]
                     + SongEvents(notes, onsets, ratio, e, playingAt, k + 1)
  {
    SongEventsStep(notes, onsets, ratio, i, playingAt, k, e);
  }

  /** If `playing` stays set, the whole file is sent: every note exactly once,
      in input order, as a note-on immediately followed by its note-off. */
  lemma SongPlaysEveryNote(notes: seq<Note>, onsets: seq<int>, ratio: real, playingAt: seq<bool>)
    requires |onsets| == |notes| && |playingAt| >= |notes|
    requires forall j :: 0 <= j < |playingAt| ==> playingAt[j]
    ensures Sends(SongEvents(notes, onsets, ratio, 0, playingAt, 0)) == PairMessages(notes)
  {
    StopAtEnd(notes, onsets, 0, playingAt, 0);
    SongSendsPrefix(notes, onsets, ratio, 0, playingAt, 0);
    assert notes[0..|notes|] == notes;
  }

  /** A C-E chord on tick 0 and a G on tick 2 one second later: the chord is
      sent as two back-to-back pairs, then the pause of one file-second, then
      the G and a final zero pause. */
  lemma ChordThenNote(v: int, ratio: real)
    ensures var c, e, g := Note(60, v, 0.0), Note(64, v, 0.0), Note(67, v, 1.0);
            SongEvents([c, e, g], [0, 0, 2], ratio, 0, [true, true, true], 0)
            == [Send(NoteOnOf(c)), Send(NoteOffOf(c)), Send(NoteOnOf(e)), Send(NoteOffOf(e)),
                Sleep(Stretch(1.0, ratio)), Send(NoteOnOf(g)), Send(NoteOffOf(g)), Sleep(Stretch(0.0, ratio))]
  {
    var c, e, g := Note(60, v, 0.0), Note(64, v, 0.0), Note(67, v, 1.0);
    var notes, onsets, playing := [c, e, g], [0, 0, 2], [true, true, true];
    assert ClusterEnd(onsets, 0) == 2 && ClusterEnd(onsets, 2) == 3;
    SongEventsStep(notes, onsets, ratio, 0, playing, 0, 2);
    SongEventsStep(notes, onsets, ratio, 2, playing, 1, 3);
    assert notes[0..2] == [c, e] && notes[2..3] == [g];
    assert PairMessages([c, e]) == [NoteOnOf(c), NoteOffOf(c), NoteOnOf(e), NoteOffOf(e)] by {
      assert [c, e][..1] == [c];
    }
  }

  lemma {:induction false} StopAtEnd(notes: seq<Note>, onsets: seq<int>, i: nat, playingAt: seq<bool>, k: nat)
    requires |onsets| == |notes| && k <= i <= |notes| && |playingAt| >= |notes|
    requires forall j :: 0 <= j < |playingAt| ==> playingAt[j]
    ensures StopAt(notes, onsets, i, playingAt, k) == |notes|
    decreases |notes| - i
  {
    if i < |notes| {
      StopAtEnd(notes, onsets, ClusterEnd(onsets, i), playingAt, k + 1);
    }
  }

  class SongDemo {
    const notes: seq<Note>
    /** The onset tick of each note, in the parser's order. */
    const onsets: seq<int>
    const fileTempo: real
    var tempo: real
    var playing: bool
    var midiOut: seq<Event>

    ghost predicate Valid()
      reads this
    {
      |onsets| == |notes|
    }

    /** A demo over an already parsed file; playback starts at the file's tempo. */
    constructor (notes: seq<Note>, onsets: seq<int>, fileTempo: real)
      requires |onsets| == |notes|
      ensures Valid() && this.notes == notes && this.onsets == onsets && this.fileTempo == fileTempo
      ensures tempo == fileTempo && !playing && midiOut == []
    {
      this.notes := notes;
      this.onsets := onsets;
      this.fileTempo := fileTempo;
      tempo := fileTempo;
      playing := false;
      midiOut := [];
    }

    method SetTempo(t: real)
      modifies this`tempo
      ensures tempo == t
    {
      tempo := t;
    }

    method Start()
      modifies this`playing
      ensures playing
    {
      playing := true;
    }

    method Stop()
      modifies this`playing
      ensures !playing
    {
      playing := false;
    }

    /** Replays the file; `playingAt[k]` is the value of `playing` seen at the
        checkpoint before cluster `k`. */
    method Perform(playingAt: seq<bool>)
      requires Valid() && tempo != 0.0 && |playingAt| >= |notes|
      modifies this`midiOut
      ensures midiOut == old(midiOut) + SongEvents(notes, onsets, fileTempo / tempo, 0, playingAt, 0)
    {
      var m := fileTempo / tempo;
      var i := 0;
      var k := 0;  // clusters played so far: the index of the next checkpoint
      ghost var whole := old(midiOut) + SongEvents(notes, onsets, m, 0, playingAt, 0);
      while i < |notes|
        invariant k <= i <= |notes|
        invariant whole == midiOut + SongEvents(notes, onsets, m, i, playingAt, k)
        decreases |notes| - i
      {
        var first := i;
        var polyNotes;
        i, polyNotes := GroupCluster(first);

        if !playingAt[k] {
          assert SongEvents(notes, onsets, m, first, playingAt, k) == [];
          return;
        }

        ghost var before := midiOut;
        var duration;
        i, duration := SendCluster(first, i, polyNotes);
        midiOut := midiOut + [Sleep(Stretch(duration, m))];
        PerformStep(whole, before, notes, onsets, m, first, playingAt, k, i, duration);
        k := k + 1;
      }
    }

    /** Sends each note of `ns` as a note-on and its note-off, in order. */
    method SendPairs(ns: seq<Note>)
      modifies this`midiOut
      ensures midiOut == old(midiOut) + Emit(PairMessages(ns))
    {
      for j := 0 to |ns|
        invariant midiOut == old(midiOut) + Emit(PairMessages(ns[..j]))
      {
        EmitPairsSnoc(ns, j);
        midiOut := midiOut + [Send(NoteOnOf(ns[j])), Send(NoteOffOf(ns[j]))];
      }
      assert ns[..|ns|] == ns;
    }

    /** The grouping half of one pass of `perform`: from note `first`, takes
        two notes at a time while the next two onsets are equal. */
    method GroupCluster(first: nat) returns (i: nat, polyNotes: seq<Note>)
      requires Valid() && first < |notes|
      ensures i == PolyEnd(onsets, first) && polyNotes == notes[first..i]
    {
      i := first;
      polyNotes := [];
      while i < |onsets|
        invariant first <= i <= |notes|
        invariant PolyEnd(onsets, first) == PolyEnd(onsets, i)
        invariant polyNotes == notes[first..i]
        decreases |onsets| - i
      {
        if i < |notes| - 1 && onsets[i] == onsets[i + 1] {
          polyNotes := polyNotes + [notes[i], notes[i + 1]];
          i := i + 2;
        } else {
          break;
        }
      }
    }

    /** The sending half of one pass of `perform`: the grouped notes
        `polyNotes` (the notes `first .. i`) are sent pair by pair, or, when
        the grouping took nothing, the single note `i` is sent and skipped.
        Returns the next note index and the file-time pause to sleep. */
    method SendCluster(first: nat, i: nat, polyNotes: seq<Note>) returns (next: nat, duration: real)
      requires Valid() && first < |notes|
      requires i == PolyEnd(onsets, first) && polyNotes == notes[first..i]
      modifies this`midiOut
      ensures next == ClusterEnd(onsets, first) && duration == Gap(notes, first, next)
      ensures midiOut == old(midiOut) + Emit(PairMessages(notes[first..next]))
    {
      next := i;
      duration := 0.0;
      if |polyNotes| > 0 {
        if i < |notes| {
          duration := notes[i].start - polyNotes[0].start;
        }
        SendPairs(polyNotes);
      } else {
        if i < |notes| - 1 {
          duration := notes[i + 1].start - notes[i].start;
        }
        EmitPairsSnoc([notes[i]], 0);
        assert [notes[i]][..1] == [notes[i]] && [notes[i]][..0] == [];
        midiOut := midiOut + [Send(NoteOnOf(notes[i])), Send(NoteOffOf(notes[i]))];
        next := i + 1;
        assert notes[first..next] == [notes[first]];
      }
    }
  }
}
