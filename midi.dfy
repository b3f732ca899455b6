/** Shared vocabulary: optional values, the MIDI messages the demos exchange
    with their ports, and the trace a performance leaves on an output port. */
module Midi {

  datatype Option<T> = None | Some(value: T)

  /** Status bytes from rtmidi.midiconstants (channel 1). */
  const NoteOff: int := 0x80
  const NoteOn: int := 0x90
  const ControlChange: int := 0xB0

  /** A three-byte MIDI message `[status, data1, data2]`. */
  datatype Message = Message(status: int, data1: int, data2: int)

  /** What a performance does on its output port, in order: a message sent,
      or a pause of the given length (a `time.sleep`). */
  datatype Event = Send(msg: Message) | Sleep(seconds: real)

  /** The messages of a trace, in order, without the pauses. */
  function Sends(evs: seq<Event>): (r: seq<Message>)
    ensures |r| <= |evs|
    ensures (forall j :: 0 <= j < |evs| ==> evs[j].Send?) ==> |r| == |evs|
  {
    if |evs| == 0 then []
    else (if evs[0].Send? then [evs[0].msg] else []) + Sends(evs[1..])
  }

  lemma {:induction false} SendsAppend(a: seq<Event>, b: seq<Event>)
    ensures Sends(a + b) == Sends(a) + Sends(b)
  {
    if |a| == 0 {
      assert a + b == b;
    } else {
      assert (a + b)[1..] == a[1..] + b;
      SendsAppend(a[1..], b);
    }
  }
}
