/** The controller of main.py: a pedal on the control MIDI port selects one of
    the three demos (or ends the session), and key presses drive the beat
    detector while the keys demo is selected. The three demos are the objects
    of demos.dfy; the session holds references to them. */
module Dispatch {
  import opened Midi
  import opened Demos

  /** The control-change number of the selector pedal. */
  const SelectorCC: int := 10

  /** main.py's `Demo` IntEnum. */
  datatype Demo = InActive | Violin | Keys | Song

  /** The enum's integer value; converting it back gives the same member. */
  function Value(d: Demo): (v: int)
    ensures 0 <= v <= 3
    ensures DemoOf(v) == Some(d)
  {
    match d
    case InActive => 0
    case Violin => 1
    case Keys => 2
    case Song => 3
  }

  /** `Demo(val)`: `None` where the enum constructor raises `ValueError`. */
  function DemoOf(val: int): (r: Option<Demo>)
    ensures r.Some? <==> 0 <= val <= 3
  {
    if val == 0 then Some(InActive)
    else if val == 1 then Some(Violin)
    else if val == 2 then Some(Keys)
    else if val == 3 then Some(Song)
    else None
  }

  /** Every enum value names the member whose value it is. */
  lemma ValueOfDemo(val: int)
    requires 0 <= val <= 3
    ensures Value(DemoOf(val).value) == val
  {
  }

  /** The calls `manage_demos` makes on the three demo objects, in order. */
  datatype Action = StopSong | StopQnA | StopBeat | StartBeat | StartQnA | SetSongTempo(bpm: real) | StartSong

  predicate IsStart(a: Action)
  {
    a.StartBeat? || a.StartQnA? || a.StartSong?
  }

  function StartOf(d: Demo): Action
    requires d != InActive
  {
    match d
    case Violin => StartQnA
    case Keys => StartBeat
    case Song => StartSong
  }

  function StopOf(d: Demo): Action
    requires d != InActive
  {
    match d
    case Violin => StopQnA
    case Keys => StopBeat
    case Song => StopSong
  }

  /** `manage_demos(val, …)`, where `tempo` is what the beat detector reports.
      For a demo value it stops the other two demos and then starts the
      selected one, last; the song first takes over the detected tempo when
      there is one and it is positive. Any other value does nothing. */
  function ManageActions(val: int, tempo: Option<real>): (r: seq<Action>)
    ensures |r| > 0 <==> 1 <= val <= 3
    ensures 1 <= val <= 3 ==>
              var d := DemoOf(val).value;
              && r[|r| - 1] == StartOf(d)
              && StopOf(d) !in r
    ensures forall j :: 0 <= j < |r| - 1 ==> !IsStart(r[j])
    ensures forall t: real :: SetSongTempo(t) in r <==> val == 3 && tempo == Some(t) && t > 0.0
  {
    if val == 2 then [StopSong, StopQnA, StartBeat]
    else if val == 1 then [StopSong, StopBeat, StartQnA]
    else if val == 3 then
      [StopBeat, StopQnA]
      + (if tempo.Some? && tempo.value > 0.0 then [SetSongTempo(tempo.value)] else [])
      + [StartSong]
    else []
  }

  /** What the controller can observe of the three demos: which of them
      runs, and the song's playback tempo. */
  datatype Status = Status(beat: bool, qna: bool, song: bool, songTempo: real)

  /** The effect of one call on that status. */
  function Apply(s: Status, a: Action): Status
  {
    match a
    case StopSong => s.(song := false)
    case StopQnA => s.(qna := false)
    case StopBeat => s.(beat := false)
    case StartBeat => s.(beat := true)
    case StartQnA => s.(qna := true)
    case SetSongTempo(t) => s.(songTempo := t)
    case StartSong => s.(song := true)
  }

  function Run(s: Status, acts: seq<Action>): Status
    decreases |acts|
  {
    if |acts| == 0 then s else Run(Apply(s, acts[0]), acts[1..])
  }

  lemma RunThree(s: Status, a: Action, b: Action, c: Action)
    ensures Run(s, [a, b, c]) == Apply(Apply(Apply(s, a), b), c)
  {
    var acts := [a, b, c];
    assert acts[1..] == [b, c] && acts[1..][1..] == [c] && acts[1..][1..][1..] == [];
    calc {
      Run(s, acts);
      Run(Apply(s, a), [b, c]);
      Run(Apply(Apply(s, a), b), [c]);
      Run(Apply(Apply(Apply(s, a), b), c), []);
    }
  }

  lemma RunFour(s: Status, a: Action, b: Action, c: Action, d: Action)
    ensures Run(s, [a, b, c, d]) == Apply(Apply(Apply(Apply(s, a), b), c), d)
  {
    assert [a, b, c, d][1..] == [b, c, d];
    RunThree(Apply(s, a), b, c, d);
  }

  /** The calls of `manage_demos`, applied one after another. */
  lemma ManageRun(s: Status, val: int, tempo: Option<real>)
    requires 1 <= val <= 3
    ensures Run(s, ManageActions(val, tempo))
            == match DemoOf(val).value
               case Keys => s.(song := false, qna := false, beat := true)
               case Violin => s.(song := false, beat := false, qna := true)
               case _ => if tempo.Some? && tempo.value > 0.0
                         then s.(beat := false, qna := false, songTempo := tempo.value, song := true)
                         else s.(beat := false, qna := false, song := true)
  {
    if val == 2 {
      RunThree(s, StopSong, StopQnA, StartBeat);
    } else if val == 1 {
      RunThree(s, StopSong, StopBeat, StartQnA);
    } else if tempo.Some? && tempo.value > 0.0 {
      assert ManageActions(val, tempo) == [StopBeat, StopQnA, SetSongTempo(tempo.value), StartSong];
      RunFour(s, StopBeat, StopQnA, SetSongTempo(tempo.value), StartSong);
    } else {
      assert ManageActions(val, tempo) == [StopBeat, StopQnA, StartSong];
      RunThree(s, StopBeat, StopQnA, StartSong);
    }
  }

  /** Whatever ran before, selecting a demo leaves exactly that demo running;
      the song's tempo changes only when the song is selected and the
      detector has a positive tempo. */
  lemma ManageSelectsOne(s: Status, val: int, tempo: Option<real>)
    requires 1 <= val <= 3
    ensures var t := Run(s, ManageActions(val, tempo));
            && t.beat == (val == 2) && t.qna == (val == 1) && t.song == (val == 3)
            && t.songTempo == (if val == 3 && tempo.Some? && tempo.value > 0.0 then tempo.value else s.songTempo)
  {
    ManageRun(s, val, tempo);
  }

  /** Before the selected demo starts, the other two are both stopped. */
  lemma ManageStopsOthers(val: int, tempo: Option<real>, e: Demo)
    requires 1 <= val <= 3 && e != InActive && e != DemoOf(val).value
    ensures var r := ManageActions(val, tempo); StopOf(e) in r[..|r| - 1]
  {
    var r := ManageActions(val, tempo);
    if val == 3 {
      assert r[0] == StopBeat && r[1] == StopQnA;
    } else if val == 2 {
      assert r[0] == StopSong && r[1] == StopQnA;
    } else {
      assert r[0] == StopSong && r[1] == StopBeat;
    }
  }

  /** What `ctrl_callback` does with one message, given the selected demo. */
  datatype Outcome =
    | Ignored          // not a control change, or another controller
    | Quit             // value 0: the main loop is told to stop
    | Unchanged        // the demo already selected
    | Switched(to: Demo)
    | BadValue(val: int)  // `Demo(val)` raises; nothing changes

  function CtrlOutcome(msg: Message, current: Demo): (o: Outcome)
    ensures o == Ignored <==> msg.status != ControlChange || msg.data1 != SelectorCC
    ensures o == Quit <==> msg.status == ControlChange && msg.data1 == SelectorCC && msg.data2 == 0
    ensures o == Unchanged <==>
              msg.status == ControlChange && msg.data1 == SelectorCC && msg.data2 != 0 && msg.data2 == Value(current)
    ensures o.BadValue? <==>
              msg.status == ControlChange && msg.data1 == SelectorCC && !(0 <= msg.data2 <= 3)
    ensures o.Switched? ==>
              msg.status == ControlChange && msg.data1 == SelectorCC
              && Value(o.to) == msg.data2 && o.to != current && o.to != InActive
  {
    if msg.status != ControlChange || msg.data1 != SelectorCC then Ignored
    else if msg.data2 == 0 then Quit
    else if msg.data2 == Value(current) then Unchanged
    else match DemoOf(msg.data2)
      case None => BadValue(msg.data2)
      case Some(d) => Switched(d)
  }

  class Session {
    const bd: BeatDetectionDemo
    const qa: QnADemo
    const song: SongDemo
    /** `running[0]`: the main loop polls it. */
    var running: bool
    /** `current_demo[0]`. */
    var demo: Demo
    /** The start/stop/set-tempo calls made on the demos so far, in order. */
    var log: seq<Action>

    ghost predicate Valid()
      reads this, bd, bd.tracker, bd.tracker.history, qa
    {
      bd.Valid() && qa.Valid()
    }

    ghost function Observed(): Status
      reads this, bd, bd.tracker, qa, song
    {
      Status(bd.tracker.active, qa.active, song.playing, song.tempo)
    }

    /** The session as main.py sets it up: running, with no demo selected. */
    constructor (bd: BeatDetectionDemo, qa: QnADemo, song: SongDemo)
      requires bd.Valid() && qa.Valid()
      ensures Valid() && this.bd == bd && this.qa == qa && this.song == song
      ensures running && demo == InActive && log == []
    {
      this.bd := bd;
      this.qa := qa;
      this.song := song;
      running := true;
      demo := InActive;
      log := [];
    }

    /** `manage_demos`: performs the calls of `ManageActions` on the demos. */
    method ManageDemos(val: int)
      requires Valid()
      modifies this`log
      modifies song`playing, song`tempo, qa`active, qa`waitCount, qa`playing, qa`phrase, bd.tracker`active
      ensures Valid()
      ensures log == old(log) + ManageActions(val, old(bd.GetTempo()))
      ensures Observed() == Run(old(Observed()), ManageActions(val, old(bd.GetTempo())))
      ensures val == 1 ==> qa.Snapshot() == Idle
      ensures val != 1 ==> unchanged(qa`waitCount, qa`playing, qa`phrase)
    {
      var tempo := bd.GetTempo();
      if 1 <= val <= 3 {
        ManageRun(Observed(), val, tempo);
      }
      log := log + ManageActions(val, tempo);
      if val == 2 {
        song.Stop();
        qa.Stop();
        bd.Start();
      } else if val == 1 {
        song.Stop();
        bd.Stop();
        qa.Start();
      } else if val == 3 {
        bd.Stop();
        qa.Stop();
        if tempo.Some? && tempo.value > 0.0 {
          song.SetTempo(tempo.value);
        }
        song.Start();
      }
    }

    /** `ctrl_callback` for one message from the control port. */
    method CtrlCallback(msg: Message) returns (o: Outcome)
      requires Valid()
      modifies this`running, this`demo, this`log
      modifies song`playing, song`tempo, qa`active, qa`waitCount, qa`playing, qa`phrase, bd.tracker`active
      ensures Valid()
      ensures o == CtrlOutcome(msg, old(demo))
      ensures running == (old(running) && o != Quit)
      ensures demo == (if o.Switched? then o.to else old(demo))
      ensures o.Switched? ==> log == old(log) + ManageActions(msg.data2, old(bd.GetTempo()))
      ensures o.Switched? ==> Observed() == Run(old(Observed()), ManageActions(msg.data2, old(bd.GetTempo())))
      ensures o.Switched? && o.to == Violin ==> qa.Snapshot() == Idle
      ensures !(o.Switched? && o.to == Violin) ==> unchanged(qa`waitCount, qa`playing, qa`phrase)
      ensures !o.Switched? ==> log == old(log) && Observed() == old(Observed())
    {
      o := CtrlOutcome(msg, demo);
      if o == Quit {
        running := false;
      } else if o.Switched? {
        demo := o.to;
        ManageDemos(msg.data2);
      }
    }

    /** `keys_callback`: key presses reach the beat detector only while the
        keys demo is selected. */
    method KeysCallback(msg: Message, now: real) returns (forwarded: bool, tempo: Option<real>)
      requires Valid()
      modifies bd.tracker, bd.tracker.history
      ensures Valid()
      ensures forwarded == (demo == Keys && msg.status == NoteOn)
      ensures !forwarded ==> tempo == None && unchanged(bd.tracker) && unchanged(bd.tracker.history)
      ensures forwarded ==> bd.tracker.Tracked(now, tempo)
    {
      forwarded, tempo := false, None;
      if demo == Keys {
        forwarded, tempo := bd.UpdateTempo(msg, now);
      }
    }
  }
}
