/** floppy.c, the earlier single-drive program: one drive whose head is kept
    in two globals, a tone loop that reads the clock afresh before every
    pulse and has no minimum of one pulse, a tone table declared too short,
    and the pause arithmetic of the song player. */
module SingleDrive {
  import opened CInt
  import opened Clock
  import opened Stepper
  import ToneEngine

  const MIN_DELTA_A4: int := -24
  const MAX_DELTA_A4: int := 24
  const USEC_PER_SEC: int := 1_000_000

  /** The globals floppy_position and floppy_direction. */
  class Drive {
    var position: int
    var direction: int

    /** Static storage: both globals start at zero. */
    constructor ()
      ensures position == 0 && direction == 0
    {
      position, direction := 0, 0;
    }

    function State(): Head
      reads this
    {
      Head(position, direction)
    }

    /** set_direction: drive the direction line and remember the level. */
    method SetDirection(dir: int)
      modifies this
      ensures direction == dir && position == old(position)
    {
      direction := dir;
    }

    /** take_step: one pulse, then the same head update as the drive pool's
        _take_step. */
    method TakeStep()
      modifies this
      ensures State() == Step(old(State()))
    {
      position := position + direction * 2 - 1;
      if direction == 0 && position == 0 {
        SetDirection(1);
      } else if direction == 1 && position == MAX_STEP - 1 {
        SetDirection(0);
      }
    }

    /** reset_floppy_positions: direction 0, MAX_STEP pulses into the inner
        stop, direction 1; the recorded position is left as it was. */
    method ResetFloppyPositions() returns (pulses: nat)
      modifies this
      ensures direction == 1 && position == old(position)
      ensures pulses == MAX_STEP
    {
      SetDirection(0);
      pulses := 0;
      for i := 0 to MAX_STEP
        invariant pulses == i
        invariant direction == 0 && position == old(position)
      {
        pulses := pulses + 1;
      }
      SetDirection(1);
    }
  }

  /** tone of floppy.c: `1000 * ms / tone_us` pulses, truncated, with no
      minimum of one. Before each pulse the clock is read (readings[k] is the
      k-th reading) and the deadline is that reading plus tone_us
      microseconds, normalised by the same arithmetic as add_to_timespec. */
  method Tone(toneUs: int, ms: int, readings: seq<Instant>) returns (steps: nat, deadlines: seq<Instant>)
    requires 0 < toneUs <= MAX_STEP_US && InInt(1000 * ms)
    requires |readings| >= Div(1000 * ms, toneUs)
    requires forall k :: 0 <= k < |readings| ==> Normalized(readings[k])
    ensures steps == Max(0, Div(1000 * ms, toneUs))
    ensures ms >= 0 ==> steps == (1000 * ms) / toneUs
    ensures |deadlines| == steps
    ensures forall k :: 0 <= k < |deadlines| ==>
      Normalized(deadlines[k]) &&
      InstantNanos(deadlines[k]) == InstantNanos(readings[k]) + toneUs * NANOS_PER_US
  {
    var cycles := Div(1000 * ms, toneUs);
    steps, deadlines := 0, [];
    var i := 0;
    while i < cycles
      invariant 0 <= i <= Max(0, cycles)
      invariant steps == i && |deadlines| == i
      invariant forall k :: 0 <= k < i ==>
        Normalized(deadlines[k]) &&
        InstantNanos(deadlines[k]) == InstantNanos(readings[k]) + toneUs * NANOS_PER_US
    {
      var ts := new Timespec(readings[i]);
      steps := steps + 1;
      ts.AddToTimespec(toneUs);
      deadlines := deadlines + [ts.Value()];
      i := i + 1;
    }
  }

  /** A tone shorter than one period gives no pulse at all here, where the
      later tone of tone.c gives one. */
  lemma EarlierToneCanBeSilent(toneUs: int, ms: int)
    requires 0 < toneUs && 0 <= ms && 1000 * ms < toneUs
    ensures Div(1000 * ms, toneUs) == 0 && ToneEngine.Cycles(toneUs, ms) == 1
  {
    SmallQuotient(1000 * ms, toneUs);
  }

  lemma SmallQuotient(a: int, b: int)
    requires 0 <= a < b
    ensures a / b == 0
  {
  }

  /** The length tone_period_us is declared with: `MIN_DELTA_A4 +
      MAX_DELTA_A4 + 1`, which is 1 for the range [-24, 24]. */
  function DeclaredTableLength(): (n: int)
    ensures n == 1
  {
    MIN_DELTA_A4 + MAX_DELTA_A4 + 1
  }

  /** The slot get_us(delta) and init_tones use for the offset delta. */
  function Slot(delta: int): int {
    delta - MIN_DELTA_A4
  }

  /** init_tones writes slots 0..48, but the declared table has one slot:
      every write but the first lands past its end. */
  lemma InitTonesOverrunsDeclaredTable()
    ensures Slot(MAX_DELTA_A4) == 48
    ensures forall delta :: MIN_DELTA_A4 < delta <= MAX_DELTA_A4 ==> Slot(delta) >= DeclaredTableLength()
  {
  }

  /** The length the range [-24, 24] needs, which ToneTable.InitTones
      requires and fills completely. */
  function IntendedTableLength(): (n: int)
    ensures forall delta :: MIN_DELTA_A4 <= delta <= MAX_DELTA_A4 <==> 0 <= Slot(delta) < n
  {
    MAX_DELTA_A4 - MIN_DELTA_A4 + 1
  }

  /** The slot play_mario reads for a note `delta` semitones from A4:
      get_us(delta - 17). It lies in the intended table for deltas -7..41,
      and in the declared one-slot table only for delta -7. */
  function MarioSlot(delta: int): (k: int)
    ensures k == delta + 7
    ensures 0 <= k < IntendedTableLength() <==> -7 <= delta <= 41
    ensures 0 <= k < DeclaredTableLength() <==> delta == -7
  {
    Slot(delta - 17)
  }

  /** The pause after each note of play_mario: `duration * 50` ms scaled by
      1500 to microseconds, split with C's `/` and `%` into the seconds and
      microseconds udelay takes. */
  function MarioPause(duration: int): (r: (int, int))
    requires InInt(duration * 50) && InInt(duration * 50 * 1500)
    ensures r.0 * USEC_PER_SEC + r.1 == duration * 50 * 1500
    ensures duration >= 0 ==> 0 <= r.0 && 0 <= r.1 < USEC_PER_SEC
    ensures duration >= 0 ==> Normalized((r.0, NANOS_PER_US * r.1)) && InInt(NANOS_PER_US * r.1)
  {
    var ms := duration * 50 * 1500;
    (Div(ms, USEC_PER_SEC), Mod(ms, USEC_PER_SEC))
  }
}
