/** The full-step transition table: seven rows, one per state of a complete
    detent, four columns, one per sample `dt << 1 | clk`. */
module FullTable {
  import opened Encoder
  import opened Tables

  const R_START: bv8 := 0x00
  const F_CW_FINAL: bv8 := 0x01
  const F_CW_BEGIN: bv8 := 0x02
  const F_CW_NEXT: bv8 := 0x03
  const F_CCW_BEGIN: bv8 := 0x04
  const F_CCW_FINAL: bv8 := 0x05
  const F_CCW_NEXT: bv8 := 0x06

  const STATE_TABLE_FULL_STEPS: seq<seq<bv8>> := [
    //  00           01            10           11
    [R_START, F_CW_BEGIN, F_CCW_BEGIN, R_START],                 // R_START
    [F_CW_NEXT, R_START, F_CW_FINAL, R_START | DIR_CW],          // F_CW_FINAL
    [F_CW_NEXT, F_CW_BEGIN, R_START, R_START],                   // F_CW_BEGIN
    [F_CW_NEXT, F_CW_BEGIN, F_CW_FINAL, R_START],                // F_CW_NEXT
    [F_CCW_NEXT, R_START, F_CCW_BEGIN, R_START],                 // F_CCW_BEGIN
    [F_CCW_NEXT, F_CCW_FINAL, R_START, R_START | DIR_CCW],       // F_CCW_FINAL
    [F_CCW_NEXT, F_CCW_FINAL, F_CCW_BEGIN, R_START]              // F_CCW_NEXT
  ]

  /** Seven rows of four entries, each naming one of the seven rows, so the
      lookup `table[state & 0x0F][column]` never leaves the table. */
  lemma FullWellFormed()
    ensures |STATE_TABLE_FULL_STEPS| == 7
    ensures WellFormed(STATE_TABLE_FULL_STEPS)
  {
  }

  /** Only two entries carry a flag: column 11 of F_CW_FINAL (clockwise)
      and column 11 of F_CCW_FINAL (anticlockwise). */
  lemma FullFlaggedEntries(s: int, p: int)
    requires 0 <= s < 7 && 0 <= p < 4
    ensures FlagDirection(STATE_TABLE_FULL_STEPS[s][p]) == Clockwise
            <==> s == F_CW_FINAL as int && p == 3
    ensures FlagDirection(STATE_TABLE_FULL_STEPS[s][p]) == Anticlockwise
            <==> s == F_CCW_FINAL as int && p == 3
    ensures STATE_TABLE_FULL_STEPS[s][p] & 0x30 != DIR_CW | DIR_CCW
  {
  }

  /** Column 11 (both lines high) sends every state back to R_START. */
  lemma FullColumn11Resets(s: int)
    requires 0 <= s < 7
    ensures Row(STATE_TABLE_FULL_STEPS[s][3]) == R_START
  {
  }

  /** The R_START row carries no flag, and every flagged entry leads to
      R_START: a flagged step is never followed by another. */
  lemma FullStartRowUnflagged(s: int, p: int)
    requires 0 <= s < 7 && 0 <= p < 4
    ensures FlagDirection(STATE_TABLE_FULL_STEPS[R_START][p]) == None
    ensures FlagDirection(STATE_TABLE_FULL_STEPS[s][p]) != None
            ==> Row(STATE_TABLE_FULL_STEPS[s][p]) == R_START
  {
  }

  /** From R_START the columns 01, 00, 10, 11 reach F_CW_BEGIN, F_CW_NEXT,
      F_CW_FINAL and R_START, and only the last carries a flag: clockwise. */
  lemma FullClockwiseDetent()
    ensures WellFormed(STATE_TABLE_FULL_STEPS) && Walk(STATE_TABLE_FULL_STEPS, R_START, [1, 0, 2, 3])
            == [F_CW_BEGIN, F_CW_NEXT, F_CW_FINAL, R_START | DIR_CW]
    ensures WellFormed(STATE_TABLE_FULL_STEPS) &&
            Flags(Walk(STATE_TABLE_FULL_STEPS, R_START, [1, 0, 2, 3])) == [None, None, None, Clockwise]
  {
    FullWellFormed();
    FlagRoundTrip(R_START, Clockwise);
  }

  /** The mirrored detent 10, 00, 01, 11 flags anticlockwise once, last. */
  lemma FullAnticlockwiseDetent()
    ensures WellFormed(STATE_TABLE_FULL_STEPS) && Walk(STATE_TABLE_FULL_STEPS, R_START, [2, 0, 1, 3])
            == [F_CCW_BEGIN, F_CCW_NEXT, F_CCW_FINAL, R_START | DIR_CCW]
    ensures WellFormed(STATE_TABLE_FULL_STEPS) &&
            Flags(Walk(STATE_TABLE_FULL_STEPS, R_START, [2, 0, 1, 3])) == [None, None, None, Anticlockwise]
  {
    FullWellFormed();
    FlagRoundTrip(R_START, Anticlockwise);
  }
}
