/** Full-step mode: one walk through the full-step table per sample; a
    direction is reported only when a whole detent has been seen. */
module FullStep {
  import opened Encoder
  import opened Tables
  import opened FullTable
  import opened Traces

  /** The stored state after one sample `(dt, clk)`. */
  function Step(state: bv8, dt: bool, clk: bool): (next: bv8)
    requires Row(state) < 7
    ensures Row(next) < 7
    ensures FlagDirection(next) != None ==> Row(next) == R_START
  {
    FullWellFormed();
    FullStartRowUnflagged(Row(state) as int, PinIndex(dt, clk) as int);
    Next(STATE_TABLE_FULL_STEPS, state, PinIndex(dt, clk))
  }

  /** The state after a whole sequence of samples. */
  function Final(state: bv8, samples: seq<(bool, bool)>): (last: bv8)
    requires Row(state) < 7
    ensures Row(last) < 7
    decreases |samples|
  {
    if samples == [] then state
    else Final(Step(state, samples[0].0, samples[0].1), samples[1..])
  }

  /** The direction reported after each sample of a sequence. */
  function Run(state: bv8, samples: seq<(bool, bool)>): (dirs: seq<Direction>)
    requires Row(state) < 7
    ensures |dirs| == |samples|
    decreases |samples|
  {
    if samples == [] then []
    else
      var next := Step(state, samples[0].0, samples[0].1);
      [FlagDirection(next)] + Run(next, samples[1..])
  }

  /** A report is never followed by another on the next sample: a flagged
      state always sits in the R_START row, whose entries carry no flag. */
  lemma NoConsecutiveReports(state: bv8, a: (bool, bool), b: (bool, bool))
    requires Row(state) < 7
    ensures FlagDirection(Step(state, a.0, a.1)) != None
            ==> FlagDirection(Step(Step(state, a.0, a.1), b.0, b.1)) == None
  {
    var next := Step(state, a.0, a.1);
    FullStartRowUnflagged(Row(next) as int, PinIndex(b.0, b.1) as int);
  }

  /** In every run, of any two neighbouring reports at least one is None. */
  lemma {:induction false} RunNeverReportsTwiceInARow(state: bv8, samples: seq<(bool, bool)>)
    requires Row(state) < 7
    ensures forall i :: 0 <= i < |samples| - 1 ==>
              Run(state, samples)[i] == None || Run(state, samples)[i + 1] == None
    decreases |samples|
  {
    if |samples| >= 2 {
      var next := Step(state, samples[0].0, samples[0].1);
      RunNeverReportsTwiceInARow(next, samples[1..]);
      NoConsecutiveReports(state, samples[0], samples[1]);
      assert Run(next, samples[1..])[0] == FlagDirection(Step(next, samples[1].0, samples[1].1));
    }
  }

  lemma {:induction false} RunAppend(state: bv8, xs: seq<(bool, bool)>, ys: seq<(bool, bool)>)
    requires Row(state) < 7
    ensures Run(state, xs + ys) == Run(state, xs) + Run(Final(state, xs), ys)
    ensures Final(state, xs + ys) == Final(Final(state, xs), ys)
    decreases |xs|
  {
    if xs != [] {
      var next := Step(state, xs[0].0, xs[0].1);
      assert (xs + ys)[1..] == xs[1..] + ys;
      RunAppend(next, xs[1..], ys);
    } else {
      assert xs + ys == ys;
    }
  }

  /** Holding one sample: once the sample has taken `from` to an unflagged
      state `to` that it keeps, repeating it reports nothing. */
  lemma {:induction false} RunHold(from: bv8, to: bv8, x: (bool, bool), n: nat)
    requires Row(from) < 7 && Row(to) < 7
    requires Step(from, x.0, x.1) == to && Step(to, x.0, x.1) == to
    requires FlagDirection(to) == None
    ensures Run(from, Repeat(x, n)) == Repeat(None, n)
    ensures Final(from, Repeat(x, n)) == if n == 0 then from else to
    decreases n
  {
    if n > 0 {
      RunHold(to, to, x, n - 1);
    }
  }

  /** The table walk of one clockwise detent, sample by sample. */
  lemma ClockwiseDetentSteps()
    ensures Row(R_START) < 7 && Row(F_CW_BEGIN) < 7 && Row(F_CW_NEXT) < 7 && Row(F_CW_FINAL) < 7
    ensures Step(R_START, false, true) == F_CW_BEGIN && Step(F_CW_BEGIN, false, true) == F_CW_BEGIN
    ensures Step(F_CW_BEGIN, false, false) == F_CW_NEXT && Step(F_CW_NEXT, false, false) == F_CW_NEXT
    ensures Step(F_CW_NEXT, true, false) == F_CW_FINAL && Step(F_CW_FINAL, true, false) == F_CW_FINAL
    ensures Step(F_CW_FINAL, true, true) == R_START | DIR_CW
    ensures Row(R_START | DIR_CW) < 7 && Step(R_START | DIR_CW, true, true) == R_START
    ensures FlagDirection(F_CW_BEGIN) == None && FlagDirection(F_CW_NEXT) == None
    ensures FlagDirection(F_CW_FINAL) == None && FlagDirection(R_START) == None
  {
  }

  /** One clockwise detent, each of its four samples held for any number
      of polls, reports Clockwise exactly once: on the first poll of the
      final sample. */
  lemma ClockwiseDetentAnyPolling(n1: nat, n2: nat, n3: nat, n4: nat)
    requires n1 >= 1 && n2 >= 1 && n3 >= 1 && n4 >= 1
    ensures Run(R_START, Repeat((false, true), n1) + Repeat((false, false), n2)
                         + Repeat((true, false), n3) + Repeat((true, true), n4))
            == Repeat(None, n1 + n2 + n3) + [Clockwise] + Repeat(None, n4 - 1)
  {
    ClockwiseDetentSteps();
    var g1, g2, g3, g4 := Repeat((false, true), n1), Repeat((false, false), n2),
                          Repeat((true, false), n3), Repeat((true, true), n4);
    var turn := g1 + g2 + g3;
    assert Run(R_START, turn) == Repeat(None, n1 + n2 + n3) && Final(R_START, turn) == F_CW_FINAL by {
      RunHold(R_START, F_CW_BEGIN, (false, true), n1);
      RunHold(F_CW_BEGIN, F_CW_NEXT, (false, false), n2);
      RunHold(F_CW_NEXT, F_CW_FINAL, (true, false), n3);
      RunAppend(R_START, g1, g2);
      RunAppend(R_START, g1 + g2, g3);
      assert Repeat(None, n1) + Repeat(None, n2) + Repeat(None, n3) == Repeat(None, n1 + n2 + n3);
    }
    assert Run(F_CW_FINAL, g4) == [Clockwise] + Repeat(None, n4 - 1) by {
      FlagRoundTrip(R_START, Clockwise);
      RunHold(R_START | DIR_CW, R_START, (true, true), n4 - 1);
      assert g4 == [(true, true)] + Repeat((true, true), n4 - 1);
    }
    RunAppend(R_START, turn, g4);
  }

  /** The table walk of one anticlockwise detent, sample by sample. */
  lemma AnticlockwiseDetentSteps()
    ensures Row(R_START) < 7 && Row(F_CCW_BEGIN) < 7 && Row(F_CCW_NEXT) < 7 && Row(F_CCW_FINAL) < 7
    ensures Step(R_START, true, false) == F_CCW_BEGIN && Step(F_CCW_BEGIN, true, false) == F_CCW_BEGIN
    ensures Step(F_CCW_BEGIN, false, false) == F_CCW_NEXT && Step(F_CCW_NEXT, false, false) == F_CCW_NEXT
    ensures Step(F_CCW_NEXT, false, true) == F_CCW_FINAL && Step(F_CCW_FINAL, false, true) == F_CCW_FINAL
    ensures Step(F_CCW_FINAL, true, true) == R_START | DIR_CCW
    ensures Row(R_START | DIR_CCW) < 7 && Step(R_START | DIR_CCW, true, true) == R_START
    ensures FlagDirection(F_CCW_BEGIN) == None && FlagDirection(F_CCW_NEXT) == None
    ensures FlagDirection(F_CCW_FINAL) == None && FlagDirection(R_START) == None
  {
  }

  /** The mirrored anticlockwise detent reports Anticlockwise exactly once. */
  lemma AnticlockwiseDetentAnyPolling(n1: nat, n2: nat, n3: nat, n4: nat)
    requires n1 >= 1 && n2 >= 1 && n3 >= 1 && n4 >= 1
    ensures Run(R_START, Repeat((true, false), n1) + Repeat((false, false), n2)
                         + Repeat((false, true), n3) + Repeat((true, true), n4))
            == Repeat(None, n1 + n2 + n3) + [Anticlockwise] + Repeat(None, n4 - 1)
  {
    AnticlockwiseDetentSteps();
    var g1, g2, g3, g4 := Repeat((true, false), n1), Repeat((false, false), n2),
                          Repeat((false, true), n3), Repeat((true, true), n4);
    var turn := g1 + g2 + g3;
    assert Run(R_START, turn) == Repeat(None, n1 + n2 + n3) && Final(R_START, turn) == F_CCW_FINAL by {
      RunHold(R_START, F_CCW_BEGIN, (true, false), n1);
      RunHold(F_CCW_BEGIN, F_CCW_NEXT, (false, false), n2);
      RunHold(F_CCW_NEXT, F_CCW_FINAL, (false, true), n3);
      RunAppend(R_START, g1, g2);
      RunAppend(R_START, g1 + g2, g3);
      assert Repeat(None, n1) + Repeat(None, n2) + Repeat(None, n3) == Repeat(None, n1 + n2 + n3);
    }
    assert Run(F_CCW_FINAL, g4) == [Anticlockwise] + Repeat(None, n4 - 1) by {
      FlagRoundTrip(R_START, Anticlockwise);
      RunHold(R_START | DIR_CCW, R_START, (true, true), n4 - 1);
      assert g4 == [(true, true)] + Repeat((true, true), n4 - 1);
    }
    RunAppend(R_START, turn, g4);
  }

  /** The decoder's own state and the direction it last reported. */
  class FullStepMode {
    var tableState: bv8
    var direction: Direction

    ghost predicate Valid()
      reads this
    {
      Row(tableState) < 7
    }

    /** The state set up when the encoder enters full-step mode. */
    constructor ()
      ensures Valid()
      ensures tableState == 0 && direction == None
    {
      tableState := 0;
      direction := None;
    }

    /** Looks the sample up in the row of the current state and reports the
        flag of the entry reached. */
    method Update(dt: bool, clk: bool)
      requires Valid()
      modifies this
      ensures Valid()
      ensures tableState == Step(old(tableState), dt, clk)
      ensures direction == FlagDirection(tableState)
    {
      var pinState := PinIndex(dt, clk);
      FullWellFormed();
      tableState := STATE_TABLE_FULL_STEPS[tableState & 0x0F][pinState];
      var dir := tableState & 0x30;
      if dir == DIR_CW {
        direction := Clockwise;
      } else if dir == DIR_CCW {
        direction := Anticlockwise;
      } else {
        direction := None;
      }
    }
  }
}
