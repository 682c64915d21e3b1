/** The head of one floppy drive as a value: its step position and its
    direction line (1 steps outward, towards higher positions; 0 steps
    inward). Both drive controllers (the single-drive one and the drive
    pool) update their heads by the same rule, which is specified here once. */
module Stepper {

  /** FLOPPY_MAX_STEP: the number of head positions a drive can address. */
  const MAX_STEP: int := 80
  /** Steps a sweeping head takes to go out to MAX_STEP - 1, back to 0, and
      arrive where it started: 2 * (MAX_STEP - 1). */
  const PERIOD: int := 158

  datatype Head = Head(position: int, direction: int)

  /** One step: position moves by `direction * 2 - 1`; the direction line is
      reversed when a step inward lands on 0 or a step outward lands on
      MAX_STEP - 1. */
  function Step(h: Head): (r: Head)
    ensures h.direction == 1 ==> r.position == h.position + 1
    ensures h.direction == 0 ==> r.position == h.position - 1
    ensures r.direction == 1 && h.direction != 1 <==> h.direction == 0 && h.position - 1 == 0
    ensures r.direction == 0 && h.direction != 0 <==> h.direction == 1 && h.position + 1 == MAX_STEP - 1
    ensures r.direction != h.direction ==> r.direction in {0, 1}
  {
    var p := h.position + h.direction * 2 - 1;
    if h.direction == 0 && p == 0 then Head(p, 1)
    else if h.direction == 1 && p == MAX_STEP - 1 then Head(p, 0)
    else Head(p, h.direction)
  }

  /** The head after n consecutive steps. */
  function Steps(h: Head, n: nat): Head
    decreases n
  {
    if n == 0 then h else Steps(Step(h), n - 1)
  }

  /** The sweep invariant: moving outward the head is below the outer end,
      moving inward it is above the inner end. */
  predicate Sweeping(h: Head) {
    || (h.direction == 1 && 0 <= h.position < MAX_STEP - 1)
    || (h.direction == 0 && 0 < h.position <= MAX_STEP - 1)
  }

  /** Where in the sweep cycle a sweeping head is: 0 at the inner end moving
      outward, MAX_STEP - 1 at the outer end moving inward. */
  function Phase(h: Head): (k: int)
    requires Sweeping(h)
    ensures 0 <= k < PERIOD
  {
    if h.direction == 1 then h.position else PERIOD - h.position
  }

  /** The phase that follows k. */
  function NextPhase(k: int): int {
    if k == PERIOD - 1 then 0 else k + 1
  }

  /** The phase n steps after k. */
  function PhaseAfter(k: int, n: nat): int
    decreases n
  {
    if n == 0 then k else PhaseAfter(NextPhase(k), n - 1)
  }

  lemma StepPreservesSweeping(h: Head)
    requires Sweeping(h)
    ensures Sweeping(Step(h))
    ensures 0 <= Step(h).position < MAX_STEP
    ensures Phase(Step(h)) == NextPhase(Phase(h))
  {
  }

  /** A sweeping head is determined by its phase. */
  lemma PhaseDeterminesHead(h: Head, g: Head)
    requires Sweeping(h) && Sweeping(g) && Phase(h) == Phase(g)
    ensures h == g
  {
  }

  /** n steps of a sweeping head advance its phase n times; the head keeps
      sweeping and stays within [0, MAX_STEP). */
  lemma {:induction false} StepsAdvancePhase(h: Head, n: nat)
    requires Sweeping(h)
    ensures Sweeping(Steps(h, n))
    ensures 0 <= Steps(h, n).position < MAX_STEP
    ensures Phase(Steps(h, n)) == PhaseAfter(Phase(h), n)
    decreases n
  {
    if n > 0 {
      var g := Step(h);
      StepPreservesSweeping(h);
      assert Steps(h, n) == Steps(g, n - 1);
      StepsAdvancePhase(g, n - 1);
    }
  }

  /** Advancing the phase n times is adding n modulo PERIOD. */
  lemma {:induction false} PhaseAfterIsModular(k: int, n: nat)
    requires 0 <= k < PERIOD
    ensures PhaseAfter(k, n) == (k + n) % PERIOD
    decreases n
  {
    if n > 0 {
      PhaseAfterIsModular(NextPhase(k), n - 1);
      NextPhaseArith(k, n);
    }
  }

  lemma NextPhaseArith(k: int, n: int)
    requires 0 <= k < PERIOD && n > 0
    ensures (NextPhase(k) + (n - 1)) % PERIOD == (k + n) % PERIOD
  {
  }

  /** From any state that satisfies the sweep invariant, PERIOD = 158 steps
      bring the head back to the same position and direction. */
  lemma {:induction false} FullSweepReturns(h: Head)
    requires Sweeping(h)
    ensures Steps(h, PERIOD as nat) == h
  {
    StepsAdvancePhase(h, PERIOD as nat);
    PhaseAfterIsModular(Phase(h), PERIOD as nat);
    FullTurnPhase(Phase(h));
    PhaseDeterminesHead(Steps(h, PERIOD as nat), h);
  }

  lemma FullTurnPhase(k: int)
    requires 0 <= k < PERIOD
    ensures (k + PERIOD) % PERIOD == k
  {
  }

  /** ... and no smaller positive number of steps does. */
  lemma {:induction false} SweepPeriodIsMinimal(h: Head, n: nat)
    requires Sweeping(h) && 0 < n < PERIOD
    ensures Steps(h, n) != h
  {
    StepsAdvancePhase(h, n);
    PhaseAfterIsModular(Phase(h), n);
    ShiftedPhaseDiffers(Phase(h), n);
  }

  lemma ShiftedPhaseDiffers(k: int, n: int)
    requires 0 <= k < PERIOD && 0 < n < PERIOD
    ensures (k + n) % PERIOD != k
  {
  }

  /** Homing leaves the zero-initialised head at (0, 1), which sweeps; the
      zero-initialised head (0, 0) itself does not, and one step from it
      leaves the range. */
  lemma HomingEstablishesSweeping()
    ensures Sweeping(Head(0, 1))
    ensures !Sweeping(Head(0, 0)) && Step(Head(0, 0)).position == -1
  {
  }
}
