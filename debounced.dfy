/** Debounced mode: the full-step and the half-step tables run on the same
    samples, and time windows decide which of their flags are reported. */
module Debounced {
  import opened Encoder
  import opened Tables
  import FlatTable
  import HalfTable

  /** A full-step flag is taken only this long (ms, exclusive) after the
      last accepted half-step. */
  const FULL_AFTER_HALF_MS: nat := 80
  /** A half-step flag is taken only this long after the last full-step... */
  const HALF_AFTER_FULL_MS: nat := 80
  /** ...and this long after the last half-step. */
  const HALF_AFTER_HALF_MS: nat := 50

  /** The decoder's fields, as one value. */
  datatype DebounceState = DebounceState(
    tableFullState: bv8,
    tableHalfState: bv8,
    lastHalfMillis: nat,
    lastFullMillis: nat)

  /** Both stored states select a row of their table. */
  predicate InTables(st: DebounceState)
  {
    Row(st.tableFullState) < 7 && Row(st.tableHalfState) < 6
  }

  /** `millis` is not earlier than either recorded acceptance: the unsigned
      subtractions of the update do not underflow. */
  predicate NotBefore(st: DebounceState, millis: nat)
  {
    st.lastHalfMillis <= millis && st.lastFullMillis <= millis
  }

  /** The full-step state after a sample. */
  function FullNext(state: bv8, pin: bv8): (next: bv8)
    requires Row(state) < 7 && pin < 4
    ensures Row(next) < 7
  {
    FlatTable.FlatWellFormed();
    Next(FlatTable.STATE_TABLE_FULL_STEPS, state, pin)
  }

  /** The half-step state after a sample. */
  function HalfNext(state: bv8, pin: bv8): (next: bv8)
    requires Row(state) < 6 && pin < 4
    ensures Row(next) < 6
  {
    FlatTable.FlatWellFormed();
    Next(FlatTable.STATE_TABLE_HALF_STEPS, state, pin)
  }

  /** One update at time `millis`: the new fields and the reported direction. */
  function Step(st: DebounceState, dt: bool, clk: bool, millis: nat): (r: (DebounceState, Direction))
    requires InTables(st) && NotBefore(st, millis)
    ensures InTables(r.0) && NotBefore(r.0, millis)
  {
    var pin := PinIndex(dt, clk);
    var full := FullNext(st.tableFullState, pin);
    var fullDir := FlagDirection(full);
    if fullDir != None && millis - st.lastHalfMillis > FULL_AFTER_HALF_MS then
      (st.(tableFullState := full, lastFullMillis := millis), fullDir)
    else
      var half := HalfNext(st.tableHalfState, pin);
      var halfDir := FlagDirection(half);
      if halfDir != None && millis - st.lastFullMillis > HALF_AFTER_FULL_MS
         && millis - st.lastHalfMillis > HALF_AFTER_HALF_MS then
        (st.(tableFullState := full, tableHalfState := half, lastHalfMillis := millis), halfDir)
      else
        (st.(tableFullState := full, tableHalfState := half), None)
  }

  /** The full-step table advances on every update, whatever is reported. */
  lemma FullTableAlwaysAdvances(st: DebounceState, dt: bool, clk: bool, millis: nat)
    requires InTables(st) && NotBefore(st, millis)
    ensures Step(st, dt, clk, millis).0.tableFullState
            == FullNext(st.tableFullState, PinIndex(dt, clk))
  {
  }

  /** A full-step flag is reported exactly when more than 80 ms have passed
      since the last half-step acceptance; the update then records `millis`
      as the last full-step acceptance and leaves the half-step table where
      it was. */
  lemma FullStepAcceptance(st: DebounceState, dt: bool, clk: bool, millis: nat)
    requires InTables(st) && NotBefore(st, millis)
    requires FlagDirection(FullNext(st.tableFullState, PinIndex(dt, clk))) != None
    ensures var r := Step(st, dt, clk, millis);
            millis - st.lastHalfMillis > 80 ==>
              && r.1 == FlagDirection(FullNext(st.tableFullState, PinIndex(dt, clk)))
              && r.0.lastFullMillis == millis
              && r.0.lastHalfMillis == st.lastHalfMillis
              && r.0.tableHalfState == st.tableHalfState
  {
  }

  /** When the full-step flag is not taken, a half-step flag is reported
      exactly when more than 80 ms have passed since the last full-step
      acceptance and more than 50 ms since the last half-step acceptance;
      the update then records `millis` as the last half-step acceptance.
      Otherwise nothing is reported, even if a table raised a flag. */
  lemma HalfStepAcceptance(st: DebounceState, dt: bool, clk: bool, millis: nat)
    requires InTables(st) && NotBefore(st, millis)
    requires FlagDirection(FullNext(st.tableFullState, PinIndex(dt, clk))) == None
             || millis - st.lastHalfMillis <= 80
    ensures var r := Step(st, dt, clk, millis);
            var halfDir := FlagDirection(HalfNext(st.tableHalfState, PinIndex(dt, clk)));
            && r.0.tableHalfState == HalfNext(st.tableHalfState, PinIndex(dt, clk))
            && r.0.lastFullMillis == st.lastFullMillis
            && (r.1 != None <==> halfDir != None && millis - st.lastFullMillis > 80
                                 && millis - st.lastHalfMillis > 50)
            && (r.1 != None ==> r.1 == halfDir && r.0.lastHalfMillis == millis)
            && (r.1 == None ==> r.0.lastHalfMillis == st.lastHalfMillis)
  {
  }

  /** The recorded times change only on a reporting update, only to the
      current time, and only one of them per update. */
  lemma TimesChangeOnlyOnReport(st: DebounceState, dt: bool, clk: bool, millis: nat)
    requires InTables(st) && NotBefore(st, millis)
    ensures var r := Step(st, dt, clk, millis);
            && (r.0.lastFullMillis == st.lastFullMillis || r.0.lastFullMillis == millis)
            && (r.0.lastHalfMillis == st.lastHalfMillis || r.0.lastHalfMillis == millis)
            && (r.1 == None ==> r.0.lastFullMillis == st.lastFullMillis
                                && r.0.lastHalfMillis == st.lastHalfMillis)
            && (r.1 != None ==> r.0.lastFullMillis == millis || r.0.lastHalfMillis == millis)
  {
  }

  /** Any report needs more than 50 ms since the last half-step acceptance,
      and carries a flag raised by one of the two tables. */
  lemma ReportNeedsQuietHalfWindow(st: DebounceState, dt: bool, clk: bool, millis: nat)
    requires InTables(st) && NotBefore(st, millis)
    ensures var r := Step(st, dt, clk, millis);
            r.1 != None ==>
              && millis - st.lastHalfMillis > 50
              && (r.1 == FlagDirection(r.0.tableFullState) || r.1 == FlagDirection(r.0.tableHalfState))
  {
  }

  /** A bounce: the full-step table completes a clockwise detent only 50 ms
      after a half-step was accepted, and the half-step table flags too, but
      neither flag is taken. */
  lemma BounceIsSuppressed()
    ensures var st := DebounceState(FlatTable.F_CW_FINAL, HalfTable.H_CW_BEGIN_M, 100, 0);
            && FlagDirection(FullNext(st.tableFullState, PinIndex(true, true))) == Clockwise
            && FlagDirection(HalfNext(st.tableHalfState, PinIndex(true, true))) == Clockwise
            && Step(st, true, true, 150).1 == None
  {
    FlatTable.FlatWellFormed();
    FlagRoundTrip(0, Clockwise);
  }

  /** Timed samples `(dt, clk, millis)` with non-decreasing times, none
      before the times recorded in `st`. */
  predicate Timely(st: DebounceState, samples: seq<(bool, bool, nat)>)
  {
    && (forall i :: 0 <= i < |samples| ==> NotBefore(st, samples[i].2))
    && (forall i, j :: 0 <= i <= j < |samples| ==> samples[i].2 <= samples[j].2)
  }

  /** The directions reported for a sequence of timed samples. */
  function Run(st: DebounceState, samples: seq<(bool, bool, nat)>): (dirs: seq<Direction>)
    requires InTables(st) && Timely(st, samples)
    ensures |dirs| == |samples|
    decreases |samples|
  {
    if samples == [] then []
    else
      var r := Step(st, samples[0].0, samples[0].1, samples[0].2);
      assert Timely(r.0, samples[1..]) by {
        forall i | 0 <= i < |samples[1..]|
          ensures NotBefore(r.0, samples[1..][i].2)
        {
          assert samples[0].2 <= samples[i + 1].2;
        }
      }
      [r.1] + Run(r.0, samples[1..])
  }

  /** Within 50 ms of the last half-step acceptance nothing at all is
      reported, however many flags the tables raise: in particular, after a
      half-step report at time t nothing is reported up to t + 50. */
  lemma {:induction false} QuietAfterHalfReport(st: DebounceState, samples: seq<(bool, bool, nat)>)
    requires InTables(st) && Timely(st, samples)
    requires forall i :: 0 <= i < |samples| ==> samples[i].2 <= st.lastHalfMillis + HALF_AFTER_HALF_MS
    ensures forall i :: 0 <= i < |samples| ==> Run(st, samples)[i] == None
    decreases |samples|
  {
    if samples != [] {
      var r := Step(st, samples[0].0, samples[0].1, samples[0].2);
      assert r.1 == None && r.0.lastHalfMillis == st.lastHalfMillis;
      assert Timely(r.0, samples[1..]) by {
        forall i | 0 <= i < |samples[1..]|
          ensures NotBefore(r.0, samples[1..][i].2)
        {
          assert samples[0].2 <= samples[i + 1].2;
        }
      }
      QuietAfterHalfReport(r.0, samples[1..]);
      assert Run(st, samples) == [None] + Run(r.0, samples[1..]);
    }
  }

  /** The decoder's fields and the direction it last reported. */
  class DebouncedMode {
    var tableFullState: bv8
    var tableHalfState: bv8
    var lastHalfMillis: nat
    var lastFullMillis: nat
    var direction: Direction

    function State(): DebounceState
      reads this
    {
      DebounceState(tableFullState, tableHalfState, lastHalfMillis, lastFullMillis)
    }

    ghost predicate Valid()
      reads this
    {
      InTables(State())
    }

    /** The state set up when the encoder enters debounced mode. */
    constructor ()
      ensures Valid()
      ensures State() == DebounceState(0, 0, 0, 0) && direction == None
    {
      tableFullState, tableHalfState := 0, 0;
      lastHalfMillis, lastFullMillis := 0, 0;
      direction := None;
    }

    method Update(dt: bool, clk: bool, millis: nat)
      requires Valid() && NotBefore(State(), millis)
      modifies this
      ensures Valid()
      ensures State() == Step(old(State()), dt, clk, millis).0
      ensures direction == Step(old(State()), dt, clk, millis).1
    {
      ghost var r := Step(State(), dt, clk, millis);
      var pinState := PinIndex(dt, clk);
      var full := FullNext(tableFullState, pinState);
      tableFullState := full;
      var dir := FlagDirection(full);
      if dir != None && millis - lastHalfMillis > FULL_AFTER_HALF_MS {
        lastFullMillis := millis;
        direction := dir;
        assert r == (State(), direction);
        return;
      }
      var half := HalfNext(tableHalfState, pinState);
      tableHalfState := half;
      dir := FlagDirection(half);
      if dir != None && millis - lastFullMillis > HALF_AFTER_FULL_MS
         && millis - lastHalfMillis > HALF_AFTER_HALF_MS {
        lastHalfMillis := millis;
        direction := dir;
      } else {
        direction := None;
      }
      assert r == (State(), direction);
    }
  }
}
