/** The half-step transition table: six rows, four columns; it flags a
    direction at both the middle (00) and the end (11) of a detent. */
module HalfTable {
  import opened Encoder
  import opened Tables

  const R_START: bv8 := 0x00
  const H_CCW_BEGIN: bv8 := 0x1
  const H_CW_BEGIN: bv8 := 0x2
  const H_START_M: bv8 := 0x3
  const H_CW_BEGIN_M: bv8 := 0x4
  const H_CCW_BEGIN_M: bv8 := 0x5

  const STATE_TABLE_HALF_STEPS: seq<seq<bv8>> := [
    //  00                01             10             11
    [H_START_M, H_CW_BEGIN, H_CCW_BEGIN, R_START],                   // R_START
    [H_START_M | DIR_CCW, R_START, H_CCW_BEGIN, R_START],            // H_CCW_BEGIN
    [H_START_M | DIR_CW, H_CW_BEGIN, R_START, R_START],              // H_CW_BEGIN
    [H_START_M, H_CCW_BEGIN_M, H_CW_BEGIN_M, R_START],               // H_START_M
    [H_START_M, H_START_M, H_CW_BEGIN_M, R_START | DIR_CW],          // H_CW_BEGIN_M
    [H_START_M, H_CCW_BEGIN_M, H_START_M, R_START | DIR_CCW]         // H_CCW_BEGIN_M
  ]

  /** Six rows of four entries, each naming one of the six rows. */
  lemma HalfWellFormed()
    ensures |STATE_TABLE_HALF_STEPS| == 6
    ensures WellFormed(STATE_TABLE_HALF_STEPS)
  {
  }

  /** Whatever the current state, column 00 leads to H_START_M and
      column 11 to R_START. */
  lemma HalfColumnsResynchronise(s: int)
    requires 0 <= s < 6
    ensures Row(STATE_TABLE_HALF_STEPS[s][0]) == H_START_M
    ensures Row(STATE_TABLE_HALF_STEPS[s][3]) == R_START
  {
  }

  /** Exactly four entries carry a flag, all in columns 00 and 11:
      clockwise from H_CW_BEGIN on 00 and from H_CW_BEGIN_M on 11,
      anticlockwise from H_CCW_BEGIN on 00 and from H_CCW_BEGIN_M on 11;
      no entry carries both flags. */
  lemma HalfFlaggedEntries(s: int, p: int)
    requires 0 <= s < 6 && 0 <= p < 4
    ensures FlagDirection(STATE_TABLE_HALF_STEPS[s][p]) == Clockwise
            <==> (s == H_CW_BEGIN as int && p == 0) || (s == H_CW_BEGIN_M as int && p == 3)
    ensures FlagDirection(STATE_TABLE_HALF_STEPS[s][p]) == Anticlockwise
            <==> (s == H_CCW_BEGIN as int && p == 0) || (s == H_CCW_BEGIN_M as int && p == 3)
    ensures STATE_TABLE_HALF_STEPS[s][p] & 0x30 != 0 ==> p == 0 || p == 3
    ensures STATE_TABLE_HALF_STEPS[s][p] & 0x30 != DIR_CW | DIR_CCW
  {
  }

  /** Clockwise detent 11 -> 01 -> 00 -> 10 -> 11: from R_START the columns
      01, 00, 10, 11 flag clockwise twice, at 00 and at the final 11. */
  lemma HalfClockwiseDetent()
    ensures WellFormed(STATE_TABLE_HALF_STEPS) &&
            Walk(STATE_TABLE_HALF_STEPS, R_START, [1, 0, 2, 3])
            == [H_CW_BEGIN, H_START_M | DIR_CW, H_CW_BEGIN_M, R_START | DIR_CW]
    ensures WellFormed(STATE_TABLE_HALF_STEPS) &&
            Flags(Walk(STATE_TABLE_HALF_STEPS, R_START, [1, 0, 2, 3]))
            == [None, Clockwise, None, Clockwise]
  {
    HalfWellFormed();
    FlagRoundTrip(H_START_M, Clockwise);
    FlagRoundTrip(R_START, Clockwise);
  }

  /** Anticlockwise detent 11 -> 10 -> 00 -> 01 -> 11: anticlockwise twice,
      at 00 and at the final 11. */
  lemma HalfAnticlockwiseDetent()
    ensures WellFormed(STATE_TABLE_HALF_STEPS) &&
            Walk(STATE_TABLE_HALF_STEPS, R_START, [2, 0, 1, 3])
            == [H_CCW_BEGIN, H_START_M | DIR_CCW, H_CCW_BEGIN_M, R_START | DIR_CCW]
    ensures WellFormed(STATE_TABLE_HALF_STEPS) &&
            Flags(Walk(STATE_TABLE_HALF_STEPS, R_START, [2, 0, 1, 3]))
            == [None, Anticlockwise, None, Anticlockwise]
  {
    HalfWellFormed();
    FlagRoundTrip(H_START_M, Anticlockwise);
    FlagRoundTrip(R_START, Anticlockwise);
  }
}
