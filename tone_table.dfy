/** The table of tone half-periods both programs fill at start-up: slot
    `i - minDelta` holds the period, in microseconds, of the pitch `i`
    semitones from A4. The period itself comes from a floating-point formula
    (get_period_us) and is a parameter here. */
module ToneTable {

  /** init_tones: for every offset i from minDelta to maxDelta, store
      period(i) at index i - minDelta. Every write is in bounds and every slot
      is written. */
  method InitTones(table: array<int>, minDelta: int, maxDelta: int, period: int -> int)
    requires minDelta <= maxDelta && table.Length == maxDelta - minDelta + 1
    modifies table
    ensures forall k :: 0 <= k < table.Length ==> table[k] == period(k + minDelta)
  {
    var i := minDelta;
    while i <= maxDelta
      invariant minDelta <= i <= maxDelta + 1
      invariant forall k :: 0 <= k < i - minDelta ==> table[k] == period(k + minDelta)
    {
      table[i - minDelta] := period(i);
      i := i + 1;
    }
  }
}
