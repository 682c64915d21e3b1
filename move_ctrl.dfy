/** The drive pool of move-ctrl.c: an array of floppy drives, each with its
    own step and direction GPIO lines and its own head position and
    direction. Writing a GPIO value (a pulse on the step line, a level on
    the direction line) is file I/O and is not modelled; a pulse is counted. */
module MoveCtrl {
  import opened Stepper

  /** One `struct floppy`. The GPIO numbers are fixed at initialisation;
      position and direction are updated in place. */
  class Floppy {
    const stepGpio: int
    const dirGpio: int
    var position: int
    var direction: int

    /** A static array entry: the listed GPIO numbers, every other field zero. */
    constructor (stepGpio: int, dirGpio: int)
      ensures this.stepGpio == stepGpio && this.dirGpio == dirGpio
      ensures position == 0 && direction == 0
    {
      this.stepGpio, this.dirGpio := stepGpio, dirGpio;
      position, direction := 0, 0;
    }

    function State(): Head
      reads this
    {
      Head(position, direction)
    }

    /** set_direction: drive the direction line and remember the level. */
    method SetDirection(dir: int)
      modifies this
      ensures direction == dir && position == old(position)
    {
      direction := dir;
    }

    /** _take_step: one pulse on the step line, then the head moves by
        `direction * 2 - 1` and the direction flips at either end. */
    method TakeStep() returns (ret: int)
      modifies this
      ensures State() == Step(old(State()))
      ensures ret == 0
    {
      position := position + direction * 2 - 1;
      if direction == 0 && position == 0 {
        SetDirection(1);
      } else if direction == 1 && position == MAX_STEP - 1 {
        SetDirection(0);
      }
      ret := 0;
    }

    /** reset_floppy_position: with the direction line at 0, pulse the step
        line MAX_STEP times so the head runs into the inner stop, then set
        the direction line to 1. The recorded position is not touched. */
    method ResetPosition() returns (ret: int, pulses: nat)
      modifies this
      ensures direction == 1 && position == old(position)
      ensures pulses == MAX_STEP && ret == 0
    {
      SetDirection(0);
      pulses := 0;
      for i := 0 to MAX_STEP
        invariant pulses == i
        invariant direction == 0 && position == old(position)
      {
        pulses := pulses + 1;
      }
      SetDirection(1);
      ret := 0;
    }
  }

  /** The `floppies[]` array and the operations over it. */
  class FloppyPool {
    const floppies: array<Floppy>

    /** Two drives, each a distinct object. */
    ghost predicate Valid()
      reads this, floppies
    {
      floppies.Length == 2 &&
      forall i, j :: 0 <= i < j < floppies.Length ==> floppies[i] != floppies[j]
    }

    /** The static initialiser: drive 0 on GPIOs 60 (step) and 50 (direction),
        drive 1 on GPIOs 51 and 48, both heads zero. */
    constructor ()
      ensures Valid() && fresh(floppies)
      ensures forall i :: 0 <= i < floppies.Length ==> fresh(floppies[i])
      ensures forall i :: 0 <= i < floppies.Length ==> floppies[i].State() == Head(0, 0)
      ensures floppies[0].stepGpio == 60 && floppies[0].dirGpio == 50
      ensures floppies[1].stepGpio == 51 && floppies[1].dirGpio == 48
    {
      var f0 := new Floppy(60, 50);
      var f1 := new Floppy(51, 48);
      floppies := new Floppy[] [f0, f1];
    }

    /** get_num_floppies. */
    function NumFloppies(): (n: int)
      reads this, floppies
      requires Valid()
      ensures n == 2
    {
      floppies.Length
    }

    /** take_step(idx) with the bounds check the array needs (`idx >=` the
        number of drives is rejected); see TakeStepGuardAsWritten for the
        check the source writes. A rejected index changes nothing and gives
        -1; otherwise only drive idx steps. */
    method TakeStep(idx: int) returns (ret: int)
      requires Valid()
      modifies if 0 <= idx < floppies.Length then {floppies[idx]} else {}
      ensures ret == -1 <==> !(0 <= idx < floppies.Length)
      ensures 0 <= idx < floppies.Length ==>
        ret == 0 && floppies[idx].State() == Step(old(floppies[idx].State()))
      ensures forall j :: 0 <= j < floppies.Length && j != idx ==>
        floppies[j].State() == old(floppies[j].State())
    {
      if idx < 0 || idx >= floppies.Length {
        return -1;
      }
      ret := floppies[idx].TakeStep();
    }

    /** reset_floppy_positions: home every drive in turn. */
    method ResetFloppyPositions() returns (ret: int)
      requires Valid()
      modifies set i | 0 <= i < floppies.Length :: floppies[i]
      ensures ret == 0
      ensures forall i :: 0 <= i < floppies.Length ==>
        floppies[i].direction == 1 && floppies[i].position == old(floppies[i].position)
    {
      for i := 0 to floppies.Length
        invariant forall j :: 0 <= j < i ==>
          floppies[j].direction == 1 && floppies[j].position == old(floppies[j].position)
        invariant forall j :: i <= j < floppies.Length ==>
          floppies[j].State() == old(floppies[j].State())
      {
        var r, _ := floppies[i].ResetPosition();
      }
      ret := 0;
    }
  }

  /** init_drives: the statically initialised pool, its GPIO lines set up
      (file I/O, assumed to succeed), then every drive homed. Homing leaves
      each zero-initialised head at position 0, direction 1, from which it
      sweeps. */
  method InitDrives() returns (pool: FloppyPool, ret: int)
    ensures fresh(pool) && fresh(pool.floppies)
    ensures forall i :: 0 <= i < pool.floppies.Length ==> fresh(pool.floppies[i])
    ensures pool.Valid() && ret == 0
    ensures forall i :: 0 <= i < pool.floppies.Length ==>
      pool.floppies[i].State() == Head(0, 1) && Sweeping(pool.floppies[i].State())
  {
    pool := new FloppyPool();
    ret := pool.ResetFloppyPositions();
  }

  /** The guard of take_step as written: it rejects `idx < 0 || idx >
      ARRAY_SIZE(floppies)`, so it admits idx == ARRAY_SIZE(floppies). */
  function TakeStepGuardAsWritten(idx: int, numFloppies: int): (admitted: bool)
    ensures admitted <==> 0 <= idx <= numFloppies
  {
    !(idx < 0 || idx > numFloppies)
  }

  /** The written guard admits the index one past the end of the
      two-element array, which _take_step then dereferences. */
  lemma TakeStepGuardAdmitsOnePastEnd()
    ensures TakeStepGuardAsWritten(2, 2) && !(0 <= 2 < 2)
  {
  }
}
