/** Standard mode: a two-sample shift register per line; a falling edge on
    one line while the other stays low is one step. */
module Standard {
  import opened Encoder
  import opened Tables
  import opened Traces

  const PIN_MASK: bv8 := 0x03
  const PIN_EDGE: bv8 := 0x02

  /** `history << 1 | level`: the new level enters bit 0, every older bit
      moves up one place and bit 7 falls off (the shift wraps modulo 256). */
  function ShiftIn(history: bv8, level: bool): (shifted: bv8)
    ensures shifted & 1 == Bit(level)
    ensures shifted >> 1 == history & 0x7F
  {
    (history << 1) | Bit(level)
  }

  /** The rule applied to the two masked histories `a` (DT) and `b` (CLK). */
  function EdgeDirection(a: bv8, b: bv8): (d: Direction)
    ensures d == Anticlockwise <==> a == PIN_EDGE && b == 0x00
    ensures d == Clockwise <==> b == PIN_EDGE && a == 0x00
  {
    if a == PIN_EDGE && b == 0x00 then Anticlockwise
    else if b == PIN_EDGE && a == 0x00 then Clockwise
    else None
  }

  /** The direction read from two histories: only their two low bits count.
      A report needs both lines low now and exactly one of them high the
      sample before. */
  function Detect(dtHistory: bv8, clkHistory: bv8): (d: Direction)
    ensures d != None ==> dtHistory & 1 == 0 && clkHistory & 1 == 0
    ensures d != None ==> (dtHistory & 2 == 2) != (clkHistory & 2 == 2)
  {
    EdgeDirection(dtHistory & PIN_MASK, clkHistory & PIN_MASK)
  }

  /** The same rule stated on line levels, previous sample and current one:
      DT falls while CLK stays low is anticlockwise, CLK falls while DT stays
      low is clockwise, anything else is no step. */
  function EdgeByLevels(prevDt: bool, dt: bool, prevClk: bool, clk: bool): (d: Direction)
    ensures d != None ==> !dt && !clk
  {
    if prevDt && !dt && !prevClk && !clk then Anticlockwise
    else if prevClk && !clk && !prevDt && !dt then Clockwise
    else None
  }

  /** After shifting in the new levels, the result depends only on bit 0 of
      each old history and the two new levels, and it is the rule on levels. */
  lemma DetectByLevels(dtHistory: bv8, clkHistory: bv8, dt: bool, clk: bool)
    ensures Detect(ShiftIn(dtHistory, dt), ShiftIn(clkHistory, clk))
            == EdgeByLevels(dtHistory & 1 == 1, dt, clkHistory & 1 == 1, clk)
  {
  }

  /** The two reported cases exclude each other: Anticlockwise exactly for
      DT bits 10 with CLK bits 00, Clockwise exactly for CLK bits 10 with DT
      bits 00. */
  lemma DetectCases(dtHistory: bv8, clkHistory: bv8)
    ensures Detect(dtHistory, clkHistory) == Anticlockwise
            <==> dtHistory & 3 == 2 && clkHistory & 3 == 0
    ensures Detect(dtHistory, clkHistory) == Clockwise
            <==> clkHistory & 3 == 2 && dtHistory & 3 == 0
  {
  }

  /** A report leaves both lines low, so the next update cannot report. */
  lemma NoConsecutiveReports(dtHistory: bv8, clkHistory: bv8, a: (bool, bool), b: (bool, bool))
    ensures var dt1, clk1 := ShiftIn(dtHistory, a.0), ShiftIn(clkHistory, a.1);
            Detect(dt1, clk1) != None ==> Detect(ShiftIn(dt1, b.0), ShiftIn(clk1, b.1)) == None
  {
    DetectByLevels(dtHistory, clkHistory, a.0, a.1);
    DetectByLevels(ShiftIn(dtHistory, a.0), ShiftIn(clkHistory, a.1), b.0, b.1);
  }

  /** From the initial histories `[0xFF, 2]` the first update reports
      Anticlockwise when both lines are low and nothing otherwise. */
  lemma FirstUpdateFromInitialHistory(dt: bool, clk: bool)
    ensures Detect(ShiftIn(0xFF, dt), ShiftIn(2, clk)) == if !dt && !clk then Anticlockwise else None
  {
    DetectByLevels(0xFF, 2, dt, clk);
  }

  /** The directions reported for a sequence of samples. */
  function Run(dtHistory: bv8, clkHistory: bv8, samples: seq<(bool, bool)>): (dirs: seq<Direction>)
    ensures |dirs| == |samples|
    decreases |samples|
  {
    if samples == [] then []
    else
      var dt1, clk1 := ShiftIn(dtHistory, samples[0].0), ShiftIn(clkHistory, samples[0].1);
      [Detect(dt1, clk1)] + Run(dt1, clk1, samples[1..])
  }

  /** In every run, of two neighbouring reports at least one is None. */
  lemma {:induction false} RunNeverReportsTwiceInARow(dtHistory: bv8, clkHistory: bv8, samples: seq<(bool, bool)>)
    ensures forall i :: 0 <= i < |samples| - 1 ==>
              Run(dtHistory, clkHistory, samples)[i] == None
              || Run(dtHistory, clkHistory, samples)[i + 1] == None
    decreases |samples|
  {
    if |samples| >= 2 {
      var dt1, clk1 := ShiftIn(dtHistory, samples[0].0), ShiftIn(clkHistory, samples[0].1);
      RunNeverReportsTwiceInARow(dt1, clk1, samples[1..]);
      NoConsecutiveReports(dtHistory, clkHistory, samples[0], samples[1]);
      assert Run(dt1, clk1, samples[1..])[0]
             == Detect(ShiftIn(dt1, samples[1].0), ShiftIn(clk1, samples[1].1));
    }
  }

  /** Holding both lines at one level reports at most once, on the first
      sample, whatever the histories were. */
  lemma {:induction false} HeldLevelsReportAtMostOnce(dtHistory: bv8, clkHistory: bv8, x: (bool, bool), n: nat)
    ensures forall i :: 1 <= i < n ==> Run(dtHistory, clkHistory, Repeat(x, n))[i] == None
    decreases n
  {
    if n >= 2 {
      var dt1, clk1 := ShiftIn(dtHistory, x.0), ShiftIn(clkHistory, x.1);
      HeldLevelsReportAtMostOnce(dt1, clk1, x, n - 1);
      assert Repeat(x, n)[1..] == Repeat(x, n - 1);
      DetectByLevels(dt1, clk1, x.0, x.1);
      assert Run(dt1, clk1, Repeat(x, n - 1))[0] == None;
    }
  }

  /** The decoder's two history bytes, DT at index 0 and CLK at index 1,
      and the direction it last reported. */
  class StandardMode {
    const pinState: array<bv8>
    var direction: Direction

    ghost predicate Valid()
      reads this
    {
      pinState.Length == 2
    }

    /** The state set up when the encoder enters standard mode. */
    constructor ()
      ensures Valid() && fresh(pinState)
      ensures pinState[..] == [0xFF, 2] && direction == None
    {
      var history := new bv8[2];
      history[0], history[1] := 0xFF, 2;
      pinState := history;
      direction := None;
    }

    method Update(dt: bool, clk: bool)
      requires Valid()
      modifies this, pinState
      ensures Valid()
      ensures pinState[0] == ShiftIn(old(pinState[0]), dt)
      ensures pinState[1] == ShiftIn(old(pinState[1]), clk)
      ensures direction == Detect(pinState[0], pinState[1])
    {
      pinState[0] := (pinState[0] << 1) | Bit(dt);
      pinState[1] := (pinState[1] << 1) | Bit(clk);

      var a := pinState[0] & PIN_MASK;
      var b := pinState[1] & PIN_MASK;

      var dir := None;
      if a == PIN_EDGE && b == 0x00 {
        dir := Anticlockwise;
      } else if b == PIN_EDGE && a == 0x00 {
        dir := Clockwise;
      }
      direction := dir;
    }
  }
}
