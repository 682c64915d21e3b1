/** The tone engine of tone.c: a tone is a run of step pulses, one every
    `tone_us` microseconds, timed against absolute deadlines that advance
    from a single clock reading, so the time spent issuing a pulse does not
    accumulate. Pulses (take_step) are counted; the deadlines handed to
    clock_nanosleep are recorded. */
module ToneEngine {
  import opened CInt
  import opened Clock
  import opened Wrappers
  import opened Midi

  const MIN_DELTA_A4: int := -72
  const MAX_DELTA_A4: int := 72
  /** The length of tone_period_us: one slot per offset in [-72, 72]. */
  const TABLE_LEN: int := 145
  const SIXTEENTH: int := 1

  /** A table as init_tones leaves it: a positive period for every offset,
      small enough that adding it to a deadline cannot overflow. */
  predicate ValidTable(table: seq<int>) {
    |table| == TABLE_LEN && forall k :: 0 <= k < |table| ==> 0 < table[k] <= MAX_STEP_US
  }

  /** `struct note`: an offset from A4 and a duration in sixteenths. */
  datatype Note = Note(deltaA4: int, duration: int)

  /** The pulse count of tone: `1000 * ms / tone_us`, truncated, with 0
      replaced by 1 so that a tone shorter than one period still pulses. */
  function Cycles(toneUs: int, ms: int): (c: int)
    requires toneUs > 0
    ensures ms >= 0 ==> c == Max(1, (1000 * ms) / toneUs)
    ensures ms < 0 ==> c <= 1
  {
    var cycles := Div(1000 * ms, toneUs);
    if cycles == 0 then 1 else cycles
  }

  /** tone: read the clock once (start), then Cycles(tone_us, ms) times
      take a step and sleep until the deadline advanced by tone_us. The
      k-th deadline (from 0) is start + (k + 1) * tone_us microseconds, with
      its nanosecond field normalised. */
  method Tone(toneUs: int, ms: int, start: Instant) returns (steps: nat, deadlines: seq<Instant>)
    requires 0 < toneUs <= MAX_STEP_US && InInt(1000 * ms)
    requires Normalized(start)
    ensures steps == Max(0, Cycles(toneUs, ms))
    ensures ms >= 0 ==> steps == Max(1, (1000 * ms) / toneUs)
    ensures |deadlines| == steps
    ensures forall k :: 0 <= k < |deadlines| ==>
      Normalized(deadlines[k]) &&
      InstantNanos(deadlines[k]) == InstantNanos(start) + (k + 1) * (toneUs * NANOS_PER_US)
  {
    var cycles := Div(1000 * ms, toneUs);
    if cycles == 0 {
      cycles := 1;
    }
    assert cycles == Cycles(toneUs, ms);
    var ts := new Timespec(start);
    var period := toneUs * NANOS_PER_US;
    steps, deadlines := 0, [];
    var i := 0;
    while i < cycles
      invariant 0 <= i <= Max(0, cycles)
      invariant steps == i && |deadlines| == i
      invariant Normalized(ts.Value())
      invariant InstantNanos(ts.Value()) == InstantNanos(start) + i * period
      invariant forall k :: 0 <= k < i ==>
        Normalized(deadlines[k]) && InstantNanos(deadlines[k]) == InstantNanos(start) + (k + 1) * period
    {
      steps := steps + 1;
      ts.AddToTimespec(toneUs);
      assert (i + 1) * period == i * period + period;
      deadlines := deadlines + [ts.Value()];
      i := i + 1;
    }
  }

  /** get_us(delta): `tone_period_us[delta - MIN_DELTA_A4]`; None where that
      index lies outside the table, which C would read past. */
  function PeriodAt(table: seq<int>, delta: int): (r: Option<int>)
    requires |table| == TABLE_LEN
    ensures r.Some? <==> MIN_DELTA_A4 <= delta <= MAX_DELTA_A4
    ensures r.Some? ==> r.value == table[delta - MIN_DELTA_A4]
  {
    var k := delta - MIN_DELTA_A4;
    if 0 <= k < |table| then Some(table[k]) else None
  }

  /** The note number received over MIDI reaches play_note as
      `note - 72`, and play_note looks up `delta - 12`: the table index is
      `note - 12`, inside the table only for received notes 12..156. */
  lemma ReceivedNoteInTable(table: seq<int>, note: Byte)
    requires |table| == TABLE_LEN
    ensures PeriodAt(table, LoggedNote(note) - 12).Some? <==> 12 <= note <= 156
    ensures PeriodAt(table, LoggedNote(note) - 12).Some? ==>
      PeriodAt(table, LoggedNote(note) - 12).value == table[note - 12]
  {
  }

  /** As written, play_note reads slot `note - 12` for a received note:
      for note 0 that is 12 slots before the table, an out-of-bounds read. */
  lemma ReceivedLowNoteReadsBeforeTable(table: seq<int>)
    requires |table| == TABLE_LEN
    ensures LoggedNote(0) - 12 - MIN_DELTA_A4 == -12
    ensures PeriodAt(table, LoggedNote(0) - 12).None?
  {
  }

  /** play_note: play the note an octave below its offset (delta - 12) for
      `duration * 12` ms. None stands for a lookup outside the table. */
  method PlayNote(table: seq<int>, n: Note, start: Instant) returns (r: Option<nat>)
    requires ValidTable(table) && Normalized(start)
    requires InInt(1000 * (n.duration * 12))
    ensures r.Some? <==> PeriodAt(table, n.deltaA4 - 12).Some?
    ensures r.Some? && n.duration >= 0 ==>
      r.value == Max(1, (1000 * (n.duration * 12)) / table[n.deltaA4 - 12 - MIN_DELTA_A4])
  {
    var p := PeriodAt(table, n.deltaA4 - 12);
    if p.None? {
      return None;
    }
    var steps, _ := Tone(p.value, n.duration * 12, start);
    r := Some(steps);
  }

  /** One pass of play_tone's loop: while `on` is non-zero, play the saved
      note for a sixteenth; otherwise idle (udelay, not modelled) without a
      pulse. */
  method PlayToneOnce(table: seq<int>, v: Voice, start: Instant) returns (steps: nat)
    requires ValidTable(table) && Normalized(start)
    ensures steps > 0 <==> Sounding(v) && PeriodAt(table, v.savedNote - 12).Some?
    ensures Sounding(v) && PeriodAt(table, v.savedNote - 12).Some? ==>
      steps == Max(1, (1000 * (SIXTEENTH * 12)) / table[v.savedNote - 12 - MIN_DELTA_A4])
  {
    steps := 0;
    if v.on != 0 {
      var r := PlayNote(table, Note(v.savedNote, SIXTEENTH), start);
      if r.Some? {
        steps := r.value;
      }
    }
  }
}
