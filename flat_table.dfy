/** The flat table module: a second copy of the flag constants and of both
    state tables, kept side by side in one file. The debounced decoder reads
    its tables from here. */
module FlatTable {
  import Tables
  import FullTable
  import HalfTable

  const DIR_CW: bv8 := 0x10
  const DIR_CCW: bv8 := 0x20

  const R_START: bv8 := 0x00
  const F_CW_FINAL: bv8 := 0x01
  const F_CW_BEGIN: bv8 := 0x02
  const F_CW_NEXT: bv8 := 0x03
  const F_CCW_BEGIN: bv8 := 0x04
  const F_CCW_FINAL: bv8 := 0x05
  const F_CCW_NEXT: bv8 := 0x06
  const H_CCW_BEGIN: bv8 := 0x1
  const H_CW_BEGIN: bv8 := 0x2
  const H_START_M: bv8 := 0x3
  const H_CW_BEGIN_M: bv8 := 0x4
  const H_CCW_BEGIN_M: bv8 := 0x5

  const STATE_TABLE_FULL_STEPS: seq<seq<bv8>> := [
    [R_START, F_CW_BEGIN, F_CCW_BEGIN, R_START],
    [F_CW_NEXT, R_START, F_CW_FINAL, R_START | DIR_CW],
    [F_CW_NEXT, F_CW_BEGIN, R_START, R_START],
    [F_CW_NEXT, F_CW_BEGIN, F_CW_FINAL, R_START],
    [F_CCW_NEXT, R_START, F_CCW_BEGIN, R_START],
    [F_CCW_NEXT, F_CCW_FINAL, R_START, R_START | DIR_CCW],
    [F_CCW_NEXT, F_CCW_FINAL, F_CCW_BEGIN, R_START]
  ]

  const STATE_TABLE_HALF_STEPS: seq<seq<bv8>> := [
    [H_START_M, H_CW_BEGIN, H_CCW_BEGIN, R_START],
    [H_START_M | DIR_CCW, R_START, H_CCW_BEGIN, R_START],
    [H_START_M | DIR_CW, H_CW_BEGIN, R_START, R_START],
    [H_START_M, H_CCW_BEGIN_M, H_CW_BEGIN_M, R_START],
    [H_START_M, H_START_M, H_CW_BEGIN_M, R_START | DIR_CW],
    [H_START_M, H_CCW_BEGIN_M, H_START_M, R_START | DIR_CCW]
  ]

  /** The flag constants equal those of the table directory module. */
  lemma FlatFlagsAgree()
    ensures DIR_CW == Tables.DIR_CW && DIR_CCW == Tables.DIR_CCW
  {
  }

  /** The flat full-step table is the full-step table, entry for entry, so
      everything proved of that table (rows in 0..6, flags only in column
      11 of the two FINAL rows) holds of this copy. */
  lemma FlatFullAgrees()
    ensures STATE_TABLE_FULL_STEPS == FullTable.STATE_TABLE_FULL_STEPS
  {
  }

  /** The flat half-step table is the half-step table, entry for entry (rows
      in 0..5, column 00 to H_START_M, column 11 to R_START). */
  lemma FlatHalfAgrees()
    ensures STATE_TABLE_HALF_STEPS == HalfTable.STATE_TABLE_HALF_STEPS
  {
  }

  /** Both copies keep every lookup inside the table, as the originals do. */
  lemma FlatWellFormed()
    ensures |STATE_TABLE_FULL_STEPS| == 7 && Tables.WellFormed(STATE_TABLE_FULL_STEPS)
    ensures |STATE_TABLE_HALF_STEPS| == 6 && Tables.WellFormed(STATE_TABLE_HALF_STEPS)
  {
    FlatFullAgrees();
    FlatHalfAgrees();
    FullTable.FullWellFormed();
    HalfTable.HalfWellFormed();
  }
}
