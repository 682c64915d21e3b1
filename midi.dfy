/** The MIDI side of tone.c: bytes read from the sequencer device are
    appended to a queue, and handle_buf takes messages off its front.
    A System byte (high nibble 0xF) is dropped alone, a Note-On on channel 1
    (0x90) with its two data bytes is consumed as one message, a 0x90 whose
    data bytes have not arrived yet is put back, and any other byte is
    skipped. A Note-On with velocity 0 counts as a Note-Off.

    Bytes are 0..255: the BeagleBone's ARM ABI makes `char` unsigned, which is
    what lets the comparison with 0x90 succeed (see CharValue). */
module Midi {

  type Byte = b: int | 0 <= b < 0x100

  const NOTE_ON: Byte := 0x90
  /** MIDI_C4 = 60 + 12: the received note number the code maps to offset 0. */
  const MIDI_C4: int := 60 + 12
  /** The name tone.c gives offset 0. Its note names (C4 = 0 .. G5 = 19)
      count semitones from C4, but the tone table indexes offsets from A4,
      so offset 0 plays A4 (440 Hz). */
  const C4: int := 0

  /** `(c & 0xf0) == 0xf0`: a System message status byte. */
  predicate IsSystem(b: Byte) {
    b / 16 == 0xF
  }

  /** The value `c == 0x90` compares for the byte b held in a `char`: the
      byte itself where `char` is unsigned (the ARM target), the byte minus
      256 for bytes of 128 and more where it is signed. With a signed `char`
      the Note-On test can never succeed. */
  function CharValue(b: Byte, signedChar: bool): (c: int)
    ensures !signedChar ==> (c == NOTE_ON <==> b == NOTE_ON)
    ensures signedChar ==> c != NOTE_ON
  {
    if signedChar && b >= 0x80 then b - 0x100 else b
  }

  datatype Event = NoteOn(note: Byte, velocity: Byte) | NoteOff(note: Byte)

  /** The event a complete three-byte Note-On message stands for. */
  function MessageEvent(note: Byte, velocity: Byte): Event {
    if velocity == 0 then NoteOff(note) else NoteOn(note, velocity)
  }

  /** The globals `on` (a counter of notes held) and `saved_note` (the last
      note switched on, as an offset from A4). */
  datatype Voice = Voice(on: int, savedNote: int)

  /** log_note: the received note number as an offset in the tone table;
      note 72 becomes offset 0, which tone.c names C4. */
  function LoggedNote(note: Byte): (d: int)
    ensures d == note - 72
    ensures note == MIDI_C4 ==> d == C4
  {
    note + (C4 - MIDI_C4)
  }

  /** What one event does to the globals: a Note-Off decrements `on` and
      nothing else; a Note-On increments it and records the note. */
  function Apply(v: Voice, e: Event): Voice {
    match e
    case NoteOff(_) => v.(on := v.on - 1)
    case NoteOn(n, _) => Voice(v.on + 1, LoggedNote(n))
  }

  /** The globals after a sequence of events, applied in order. */
  function ApplyAll(v: Voice, es: seq<Event>): Voice
    decreases |es|
  {
    if es == [] then v else Apply(ApplyAll(v, es[..|es| - 1]), es[|es| - 1])
  }

  lemma {:induction false} ApplyAllAppend(v: Voice, a: seq<Event>, b: seq<Event>)
    ensures ApplyAll(v, a + b) == ApplyAll(ApplyAll(v, a), b)
    decreases |b|
  {
    if b == [] {
      assert a + b == a;
    } else {
      var b' := b[..|b| - 1];
      assert (a + b)[..|a + b| - 1] == a + b';
      ApplyAllAppend(v, a, b');
    }
  }

  /** Applying one more event after a sequence of events. */
  lemma ApplyAllSnoc(v: Voice, es: seq<Event>, e: Event)
    ensures ApplyAll(v, es + [e]) == Apply(ApplyAll(v, es), e)
  {
    assert (es + [e])[..|es + [e]| - 1] == es;
  }

  /** The queue as the drain loop leaves it: empty, or a 0x90 still waiting
      for its data bytes. */
  predicate Pending(q: seq<Byte>) {
    q == [] || (q[0] == NOTE_ON && |q| < 3)
  }

  datatype Decoded = Decoded(events: seq<Event>, rest: seq<Byte>)

  /** What the drain loop of process_midi makes of a queue: the events of
      the complete messages, in order, and the bytes left queued. */
  function Decode(q: seq<Byte>): (r: Decoded)
    ensures Pending(r.rest)
    ensures |r.rest| <= |q|
    decreases |q|
  {
    if q == [] then Decoded([], [])
    else if IsSystem(q[0]) then Decode(q[1..])
    else if q[0] == NOTE_ON then
      if |q| < 3 then Decoded([], q)
      else
        var d := Decode(q[3..]);
        Decoded([MessageEvent(q[1], q[2])] + d.events, d.rest)
    else Decode(q[1..])
  }

  /** Decoding does not depend on how the bytes were split into reads:
      decoding q and then the leftover followed by more bytes gives the same
      events and leftover as decoding all the bytes at once. */
  lemma {:induction false} DecodeResumes(q: seq<Byte>, more: seq<Byte>)
    ensures Decode(q + more).events == Decode(q).events + Decode(Decode(q).rest + more).events
    ensures Decode(q + more).rest == Decode(Decode(q).rest + more).rest
    decreases |q|
  {
    if q == [] {
      assert q + more == more;
    } else if IsSystem(q[0]) || q[0] != NOTE_ON {
      DecodeSkipsFront(q, more);
      DecodeResumes(q[1..], more);
    } else if |q| >= 3 {
      var e := [MessageEvent(q[1], q[2])];
      var d := Decode(q[3..]);
      var tail := Decode(d.rest + more);
      assert Decode(q + more) == Decoded(e + (d.events + tail.events), tail.rest) by {
        DecodeTakesMessage(q, more);
        DecodeResumes(q[3..], more);
      }
      assert Decode(q) == Decoded(e + d.events, d.rest) by {
        DecodeTakesMessage(q, []);
        assert q + [] == q;
      }
      assert e + d.events + tail.events == e + (d.events + tail.events);
    } else {
      assert Decode(q) == Decoded([], q);
    }
  }

  /** The bytes left queued are the last bytes received, unaltered. */
  lemma {:induction false} DecodeLeavesSuffix(q: seq<Byte>)
    ensures Decode(q).rest == q[|q| - |Decode(q).rest|..]
    decreases |q|
  {
    if q == [] {
    } else if IsSystem(q[0]) || q[0] != NOTE_ON {
      DecodeSkipsFront(q, []);
      DecodeLeavesSuffix(q[1..]);
      assert q[1..][|q| - 1 - |Decode(q).rest|..] == q[|q| - |Decode(q).rest|..];
    } else if |q| >= 3 {
      DecodeTakesMessage(q, []);
      DecodeLeavesSuffix(q[3..]);
      assert q[3..][|q| - 3 - |Decode(q).rest|..] == q[|q| - |Decode(q).rest|..];
    }
  }

  /** Decoding past a front byte that is dropped alone. */
  lemma DecodeSkipsFront(q: seq<Byte>, more: seq<Byte>)
    requires q != [] && (IsSystem(q[0]) || q[0] != NOTE_ON)
    ensures Decode(q) == Decode(q[1..])
    ensures Decode(q + more) == Decode(q[1..] + more)
  {
    assert (q + more)[1..] == q[1..] + more;
  }

  /** Decoding past a complete Note-On message at the front. */
  lemma DecodeTakesMessage(q: seq<Byte>, more: seq<Byte>)
    requires |q| >= 3 && q[0] == NOTE_ON
    ensures Decode(q) == Decoded([MessageEvent(q[1], q[2])] + Decode(q[3..]).events, Decode(q[3..]).rest)
    ensures Decode(q + more) ==
      Decoded([MessageEvent(q[1], q[2])] + Decode(q[3..] + more).events, Decode(q[3..] + more).rest)
  {
    assert (q + more)[3..] == q[3..] + more;
    assert (q + more)[..3] == q[..3];
  }

  /** Two reads, each followed by a drain, leave the queue and the globals
      exactly as one read of all the bytes would. */
  lemma TwoReadsAsOne(v: Voice, q: seq<Byte>, c1: seq<Byte>, c2: seq<Byte>)
    ensures var d1 := Decode(q + c1);
            var d2 := Decode(d1.rest + c2);
            var d := Decode(q + c1 + c2);
            d2.rest == d.rest && ApplyAll(ApplyAll(v, d1.events), d2.events) == ApplyAll(v, d.events)
  {
    DecodeResumes(q + c1, c2);
    ApplyAllAppend(v, Decode(q + c1).events, Decode(Decode(q + c1).rest + c2).events);
  }

  /** A Note-On split as [0x90, note] then [velocity] yields nothing after the
      first read and exactly one event after the second. */
  lemma SplitNoteOnYieldsOneEvent(note: Byte, velocity: Byte)
    ensures Decode([NOTE_ON, note]) == Decoded([], [NOTE_ON, note])
    ensures Decode([NOTE_ON, note] + [velocity]) == Decoded([MessageEvent(note, velocity)], [])
  {
    assert [NOTE_ON, note] + [velocity] == [NOTE_ON, note, velocity];
    assert [NOTE_ON, note, velocity][3..] == [];
  }

  /** A System byte at the front is dropped alone, whatever follows it. */
  lemma SystemByteSkippedAlone(b: Byte, more: seq<Byte>)
    requires IsSystem(b)
    ensures Decode([b] + more) == Decode(more)
  {
    assert ([b] + more)[1..] == more;
  }

  /** The tone thread plays while `on != 0`. Since `on` is a counter, a
      Note-Off for a note that was never switched on drives it to -1, and
      sound starts. */
  predicate Sounding(v: Voice) {
    v.on != 0
  }

  lemma StrayNoteOffStartsSound(v: Voice, note: Byte)
    requires v.on == 0
    ensures !Sounding(v) && Sounding(Apply(v, NoteOff(note)))
    ensures Apply(v, NoteOff(note)).on == -1
  {
  }

  /** The byte queue of process_midi together with the globals handle_buf
      writes. */
  class MidiReceiver {
    var queue: seq<Byte>
    var on: int
    var savedNote: int

    constructor ()
      ensures queue == [] && on == 0 && savedNote == 0
    {
      queue, on, savedNote := [], 0, 0;
    }

    function VoiceState(): Voice
      reads this
    {
      Voice(on, savedNote)
    }

    /** log_note: remember a received note as a tone-table offset. */
    method LogNote(note: Byte)
      modifies this
      ensures savedNote == note - 72
      ensures on == old(on) && queue == old(queue)
    {
      savedNote := LoggedNote(note);
    }

    /** handle_buf: pop the front byte and act on it; the result is the
        number of bytes consumed (0 when a Note-On is put back). */
    method HandleBuf() returns (ret: int)
      requires queue != []
      modifies this
      ensures old(queue[0]) != NOTE_ON ==>
        ret == 1 && queue == old(queue[1..]) && VoiceState() == old(VoiceState())
      ensures old(queue[0]) == NOTE_ON && |old(queue)| < 3 ==>
        ret == 0 && queue == old(queue) && VoiceState() == old(VoiceState())
      ensures old(queue[0]) == NOTE_ON && |old(queue)| >= 3 ==>
        ret == 3 && queue == old(queue[3..]) &&
        (if old(queue[2]) == 0
         then on == old(on) - 1 && savedNote == old(savedNote)
         else on == old(on) + 1 && savedNote == old(queue[1]) as int - 72)
    {
      var c := queue[0];
      queue := queue[1..];

      if IsSystem(c) {
        return 1;
      }

      if c == NOTE_ON {
        if |queue| < 2 {
          queue := [c] + queue;
          return 0;
        }
        var d := queue[0];
        queue := queue[1..];
        var e := queue[0];
        queue := queue[1..];
        if e == 0 {
          on := on - 1;
        } else {
          on := on + 1;
          LogNote(d);
        }
        return 3;
      }

      // an unknown byte is skipped
      return 1;
    }

    /** The read half of process_midi's loop: every byte read is pushed on
        the back of the queue, in order. */
    method Receive(chunk: seq<Byte>)
      modifies this
      ensures queue == old(queue) + chunk
      ensures VoiceState() == old(VoiceState())
    {
      for i := 0 to |chunk|
        invariant queue == old(queue) + chunk[..i]
        invariant VoiceState() == old(VoiceState())
      {
        queue := queue + [chunk[i]];
      }
      assert chunk[..|chunk|] == chunk;
    }

    /** The drain half: `do ret = handle_buf(q); while (ret > 0 &&
        !q.empty())`. The queue ends as Decode leaves it and the decoded
        events are applied to `on`/`saved_note` in order. */
    method Drain()
      requires queue != []
      modifies this
      ensures queue == Decode(old(queue)).rest
      ensures VoiceState() == ApplyAll(old(VoiceState()), Decode(old(queue)).events)
      ensures Pending(queue)
    {
      ghost var v0 := VoiceState();
      ghost var q0 := queue;
      ghost var done: seq<Event> := [];
      var ret := 0;
      var first := true;
      while first || (ret > 0 && queue != [])
        invariant Decode(q0) == Decoded(done + Decode(queue).events, Decode(queue).rest)
        invariant VoiceState() == ApplyAll(v0, done)
        invariant first ==> queue == q0 && done == [] && queue != []
        invariant ret >= 0
        invariant !first && ret == 0 ==> Decode(queue) == Decoded([], queue)
        decreases |queue| + if first || ret > 0 then 1 else 0
      {
        ghost var q := queue;
        first := false;
        ret := HandleBuf();
        if q[0] == NOTE_ON && |q| >= 3 {
          var e := MessageEvent(q[1], q[2]);
          DecodeTakesMessage(q, []);
          ApplyAllSnoc(v0, done, e);
          assert done + [e] + Decode(queue).events == done + ([e] + Decode(queue).events);
          done := done + [e];
        } else if q[0] != NOTE_ON {
          DecodeSkipsFront(q, []);
        }
      }
      assert Decode(queue) == Decoded([], queue);
      assert done + [] == done;
    }

    /** One pass of process_midi's loop: a read of `chunk`, then the drain. */
    method ProcessChunk(chunk: seq<Byte>)
      requires |queue| + |chunk| > 0
      modifies this
      ensures queue == Decode(old(queue) + chunk).rest
      ensures VoiceState() == ApplyAll(old(VoiceState()), Decode(old(queue) + chunk).events)
      ensures Pending(queue)
    {
      Receive(chunk);
      Drain();
    }
  }
}
