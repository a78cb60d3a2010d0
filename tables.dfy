/** What the transition tables have in common: the two direction flags that
    a table entry may carry above its next-row nibble, the column index a
    sample selects, and how a reached state is read back as a direction. */
module Tables {
  import opened Encoder

  /** A completed clockwise step. */
  const DIR_CW: bv8 := 0x10
  /** A completed anticlockwise step. */
  const DIR_CCW: bv8 := 0x20

  /** `level as u8`. */
  function Bit(level: bool): (b: bv8)
    ensures b <= 1
    ensures b == 1 <==> level
  {
    if level then 1 else 0
  }

  /** Column of a table for one sample: `dt << 1 | clk`, so bit 1 is DT and
      bit 0 is CLK. */
  function PinIndex(dt: bool, clk: bool): (column: bv8)
    ensures column < 4
    ensures ((column & 2) == 2) == dt
    ensures ((column & 1) == 1) == clk
  {
    (Bit(dt) << 1) | Bit(clk)
  }

  /** The row a stored state selects: its low nibble. */
  function Row(state: bv8): (row: bv8)
    ensures row < 16
    ensures row == state || state >= 16
  {
    state & 0x0F
  }

  /** `match state & 0x30 { DIR_CW => .., DIR_CCW => .., _ => None }`: only
      the two flag bits count, and a direction needs exactly one of them. */
  function FlagDirection(state: bv8): (d: Direction)
    ensures d == Clockwise <==> state & DIR_CW == DIR_CW && state & DIR_CCW == 0
    ensures d == Anticlockwise <==> state & DIR_CCW == DIR_CCW && state & DIR_CW == 0
  {
    var flags := state & 0x30;
    if flags == DIR_CW then Clockwise
    else if flags == DIR_CCW then Anticlockwise
    else None
  }

  /** A table entry written as `row | flag` for the given direction. */
  function WithFlag(row: bv8, d: Direction): bv8
  {
    match d
    case None => row
    case Clockwise => row | DIR_CW
    case Anticlockwise => row | DIR_CCW
  }

  lemma FlagValues()
    ensures DIR_CW == 0x10 && DIR_CCW == 0x20
    ensures DIR_CW & DIR_CCW == 0
    ensures DIR_CW & 0x0F == 0 && DIR_CCW & 0x0F == 0
    ensures (DIR_CW | DIR_CCW) & 0x30 == DIR_CW | DIR_CCW
  {
  }

  /** The table encoding is lossless: an entry built from a row and a
      direction yields that row under the row mask and that direction under
      the flag mask. */
  lemma FlagRoundTrip(row: bv8, d: Direction)
    requires row < 16
    ensures Row(WithFlag(row, d)) == row
    ensures FlagDirection(WithFlag(row, d)) == d
  {
  }

  /** Setting both flags at once is read as no direction, so the two
      flags cannot be confused with each other. */
  lemma BothFlagsReadAsNone(row: bv8)
    requires row < 16
    ensures FlagDirection(row | DIR_CW | DIR_CCW) == None
  {
  }

  /** A state table: every row has one entry per column, and every entry's
      row nibble names a row of the same table. */
  ghost predicate WellFormed(table: seq<seq<bv8>>)
  {
    forall s :: 0 <= s < |table| ==>
      |table[s]| == 4 && forall p :: 0 <= p < 4 ==> Row(table[s][p]) as int < |table|
  }

  /** `table[state & 0x0F][column]`: the state after one sample. */
  function Next(table: seq<seq<bv8>>, state: bv8, column: bv8): (next: bv8)
    requires WellFormed(table)
    requires (Row(state) as int) < |table| && column < 4
    ensures (Row(next) as int) < |table|
  {
    table[Row(state)][column]
  }

  /** The states reached by feeding the columns one after another. */
  function Walk(table: seq<seq<bv8>>, state: bv8, columns: seq<bv8>): (states: seq<bv8>)
    requires WellFormed(table)
    requires (Row(state) as int) < |table|
    requires forall i :: 0 <= i < |columns| ==> columns[i] < 4
    ensures |states| == |columns|
    ensures forall i :: 0 <= i < |states| ==> (Row(states[i]) as int) < |table|
    decreases |columns|
  {
    if columns == [] then []
    else
      var next := Next(table, state, columns[0]);
      [next] + Walk(table, next, columns[1..])
  }

  /** The directions read from the states of a walk. */
  function Flags(states: seq<bv8>): (dirs: seq<Direction>)
    ensures |dirs| == |states|
    ensures forall i :: 0 <= i < |states| ==> dirs[i] == FlagDirection(states[i])
  {
    seq(|states|, i requires 0 <= i < |states| => FlagDirection(states[i]))
  }
}
