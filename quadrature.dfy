/** Quadrature table mode: each transition of the 2-bit line state adds a
    signed delta to a counter, and a direction is reported once the counter
    reaches the threshold in either sense. */
module Quadrature {
  import opened Encoder
  import opened Tables
  import opened Traces

  /** Delta for the transition `prev -> curr`, at index `prev << 2 | curr`:
      +1 clockwise, -1 anticlockwise, 0 no move or a skipped state. */
  const QUAD_TABLE: seq<int> := [
     0,  1, -1,  0,   // 00 -> 00, 01, 10, 11
    -1,  0,  0,  1,   // 01 -> ..
     1,  0,  0, -1,   // 10 -> ..
     0, -1,  1,  0    // 11 -> ..
  ]

  /** `Default` uses the highest sensitivity: every valid pulse reports. */
  const DEFAULT_THRESHOLD: nat := 1

  /** The i8 range of the counter. */
  const I8_MIN: int := -128
  const I8_MAX: int := 127

  function Abs(x: int): (a: nat)
    ensures a == x || a == -x
  {
    if x < 0 then -x else x
  }

  /** `dt as u8 | (clk as u8) << 1`: unlike the table modes, DT is bit 0
      and CLK is bit 1. */
  function LineState(dt: bool, clk: bool): (curr: bv8)
    ensures curr < 4
    ensures ((curr & 1) == 1) == dt
    ensures ((curr & 2) == 2) == clk
  {
    Bit(dt) | (Bit(clk) << 1)
  }

  /** The sample whose line state is `curr`. */
  function SampleOf(curr: bv8): (sample: (bool, bool))
    requires curr < 4
    ensures LineState(sample.0, sample.1) == curr
  {
    ((curr & 1) == 1, (curr & 2) == 2)
  }

  function QuadIndex(prev: bv8, curr: bv8): (idx: bv8)
    requires prev < 4 && curr < 4
    ensures idx < 16
    ensures idx >> 2 == prev && idx & 3 == curr
  {
    (prev << 2) | curr
  }

  /** `QUAD_TABLE[prev << 2 | curr]`. */
  function Delta(prev: bv8, curr: bv8): (delta: int)
    requires prev < 4 && curr < 4
    ensures -1 <= delta <= 1
  {
    QUAD_TABLE[QuadIndex(prev, curr)]
  }

  /** The next line state of a clockwise turn: 00 -> 01 -> 11 -> 10 -> 00. */
  function ClockwiseNext(s: bv8): (t: bv8)
    requires s < 4
    ensures t < 4
  {
    if s == 0 then 1 else if s == 1 then 3 else if s == 3 then 2 else 0
  }

  /** Reversing a transition negates its delta. */
  lemma DeltaAntisymmetric(a: bv8, b: bv8)
    requires a < 4 && b < 4
    ensures Delta(a, b) == -Delta(b, a)
  {
  }

  /** The delta is 0 exactly for no move and for a jump over a state (both
      lines changed); it is +1 exactly one clockwise step ahead. */
  lemma DeltaMeaning(a: bv8, b: bv8)
    requires a < 4 && b < 4
    ensures Delta(a, b) == 0 <==> a == b || a ^ b == 3
    ensures Delta(a, b) == 1 <==> b == ClockwiseNext(a)
    ensures Delta(a, b) == -1 <==> a == ClockwiseNext(b)
  {
  }

  /** The decoder's fields, as one value. */
  datatype QuadState = QuadState(prevState: bv8, threshold: nat, count: int)

  /** Between calls: the previous line state is 2-bit, the threshold fits
      the counter, and the counter is below the threshold in magnitude (it
      is always 0 for threshold 0, which reports on every call). */
  predicate Consistent(st: QuadState)
  {
    && st.prevState < 4
    && st.threshold <= I8_MAX
    && (st.count == 0 || Abs(st.count) < st.threshold)
  }

  /** `QuadratureTableMode::new(threshold)`. */
  function New(threshold: nat): (st: QuadState)
    requires threshold <= I8_MAX
    ensures Consistent(st)
  {
    QuadState(0, threshold, 0)
  }

  /** One update: the new fields and the reported direction. */
  function Step(st: QuadState, dt: bool, clk: bool): (r: (QuadState, Direction))
    requires Consistent(st)
    ensures Consistent(r.0)
    ensures r.0.prevState == LineState(dt, clk) && r.0.threshold == st.threshold
  {
    var curr := LineState(dt, clk);
    var count := st.count + Delta(st.prevState, curr);
    if Abs(count) >= st.threshold then
      (QuadState(curr, st.threshold, 0), if count > 0 then Clockwise else Anticlockwise)
    else
      (QuadState(curr, st.threshold, count), None)
  }

  /** The i8 addition and `abs` of the update never overflow. */
  lemma CountStaysInI8(st: QuadState, dt: bool, clk: bool)
    requires Consistent(st)
    ensures I8_MIN < st.count + Delta(st.prevState, LineState(dt, clk)) <= I8_MAX
  {
  }

  /** For a threshold of at least 1: the sum reaching +threshold reports
      Clockwise and -threshold Anticlockwise, both resetting the counter;
      below it, nothing is reported and the sum is kept. */
  lemma StepReports(st: QuadState, dt: bool, clk: bool)
    requires Consistent(st) && st.threshold >= 1
    ensures var sum := st.count + Delta(st.prevState, LineState(dt, clk));
            var r := Step(st, dt, clk);
            && (r.1 == Clockwise <==> sum >= st.threshold)
            && (r.1 == Anticlockwise <==> sum <= -(st.threshold as int))
            && (r.1 != None ==> r.0.count == 0)
            && (r.1 == None ==> r.0.count == sum)
  {
  }

  /** A transition with delta 0 (no move, or a skipped state) keeps the
      counter and reports nothing, but is remembered as the previous state. */
  lemma NoMoveKeepsCount(st: QuadState, dt: bool, clk: bool)
    requires Consistent(st) && st.threshold >= 1
    requires Delta(st.prevState, LineState(dt, clk)) == 0
    ensures Step(st, dt, clk) == (st.(prevState := LineState(dt, clk)), None)
  {
  }

  /** With threshold 0 every update reports, even without any movement:
      then the counter is 0 and the update reports Anticlockwise. */
  lemma ZeroThresholdAlwaysReports(st: QuadState, dt: bool, clk: bool)
    requires Consistent(st) && st.threshold == 0
    ensures Step(st, dt, clk).1 != None
    ensures Delta(st.prevState, LineState(dt, clk)) <= 0 ==> Step(st, dt, clk).1 == Anticlockwise
  {
  }

  /** The directions reported for a sequence of samples. */
  function Run(st: QuadState, samples: seq<(bool, bool)>): (dirs: seq<Direction>)
    requires Consistent(st)
    ensures |dirs| == |samples|
    decreases |samples|
  {
    if samples == [] then []
    else
      var r := Step(st, samples[0].0, samples[0].1);
      [r.1] + Run(r.0, samples[1..])
  }

  /** The state after a sequence of samples. */
  function Final(st: QuadState, samples: seq<(bool, bool)>): (last: QuadState)
    requires Consistent(st)
    ensures Consistent(last) && last.threshold == st.threshold
    decreases |samples|
  {
    if samples == [] then st
    else Final(Step(st, samples[0].0, samples[0].1).0, samples[1..])
  }

  /** Run and Final on a sequence that starts with one known sample. */
  lemma RunCons(st: QuadState, x: (bool, bool), xs: seq<(bool, bool)>)
    requires Consistent(st)
    ensures var r := Step(st, x.0, x.1);
            Run(st, [x] + xs) == [r.1] + Run(r.0, xs) && Final(st, [x] + xs) == Final(r.0, xs)
  {
    assert ([x] + xs)[1..] == xs;
  }

  /** Threshold 1, 00 -> 01: Clockwise at once; 00 -> 10: Anticlockwise. */
  lemma SingleStepThreshold1()
    ensures Run(New(1), [(true, false)]) == [Clockwise]
    ensures Run(New(1), [(false, true)]) == [Anticlockwise]
  {
  }

  /** Threshold 2: two clockwise pulses report once, then the counter
      starts again from 0. */
  lemma AggregationThreshold2()
    ensures Run(New(2), [(true, false), (true, true), (false, true)]) == [None, Clockwise, None]
  {
  }

  /** The skipped-state transitions 00 -> 11 and 11 -> 00 report nothing. */
  lemma InvalidTransitionSkipped()
    ensures Run(New(1), [(true, true), (false, false)]) == [None, None]
  {
  }

  /** Threshold 1 over a whole clockwise cycle 00 -> 01 -> 11 -> 10 -> 00. */
  lemma FullClockwiseCycleThreshold1()
    ensures Run(New(1), [(false, false), (true, false), (true, true), (false, true), (false, false)])
            == [None, Clockwise, Clockwise, Clockwise, Clockwise]
  {
    var s0, s1, s3, s2 := QuadState(0, 1, 0), QuadState(1, 1, 0), QuadState(3, 1, 0), QuadState(2, 1, 0);
    assert Step(s0, false, false) == (s0, None);
    assert Step(s0, true, false) == (s1, Clockwise);
    assert Step(s1, true, true) == (s3, Clockwise);
    assert Step(s3, false, true) == (s2, Clockwise);
    assert Step(s2, false, false) == (s0, Clockwise);
    RunCons(s2, (false, false), []);
    RunCons(s3, (false, true), [(false, false)]);
    RunCons(s1, (true, true), [(false, true), (false, false)]);
    RunCons(s0, (true, false), [(true, true), (false, true), (false, false)]);
    RunCons(s0, (false, false), [(true, false), (true, true), (false, true), (false, false)]);
  }

  /** Repeating the sample the decoder last saw never reports and leaves
      the state as it is. */
  lemma {:induction false} ConstantInputNeverReports(st: QuadState, x: (bool, bool), n: nat)
    requires Consistent(st) && st.threshold >= 1
    requires st.prevState == LineState(x.0, x.1)
    ensures Run(st, Repeat(x, n)) == Repeat(None, n)
    ensures Final(st, Repeat(x, n)) == st
    decreases n
  {
    if n > 0 {
      DeltaMeaning(st.prevState, st.prevState);
      assert Step(st, x.0, x.1) == (st, None);
      assert Repeat(x, n)[1..] == Repeat(x, n - 1);
      ConstantInputNeverReports(st, x, n - 1);
    }
  }

  /** The next line state of a turn in the given sense. */
  function Advance(s: bv8, clockwise: bool): (t: bv8)
    requires s < 4
    ensures t < 4
    ensures clockwise ==> t == ClockwiseNext(s)
    ensures !clockwise ==> s == ClockwiseNext(t)
  {
    if clockwise then ClockwiseNext(s)
    else if s == 0 then 2 else if s == 2 then 3 else if s == 3 then 1 else 0
  }

  /** The direction a pulse in the given sense stands for. */
  function Sense(clockwise: bool): (d: Direction)
    ensures d != None
  {
    if clockwise then Clockwise else Anticlockwise
  }

  /** `n` pulses in one sense starting from line state `from`. */
  function Pulses(from: bv8, n: nat, clockwise: bool): (samples: seq<(bool, bool)>)
    requires from < 4
    ensures |samples| == n
    decreases n
  {
    if n == 0 then []
    else
      var next := Advance(from, clockwise);
      [SampleOf(next)] + Pulses(next, n - 1, clockwise)
  }

  /** The first of `n` pulses moves the counter by one in its sense,
      reporting only if that reaches the threshold; the rest continue from
      the state it leaves. */
  lemma FirstPulse(st: QuadState, n: nat, clockwise: bool)
    requires Consistent(st) && n >= 1
    ensures var next, sum := Advance(st.prevState, clockwise), if clockwise then st.count + 1 else st.count - 1;
            var samples, rest := Pulses(st.prevState, n, clockwise), Pulses(next, n - 1, clockwise);
            Abs(sum) < st.threshold ==>
              && Consistent(QuadState(next, st.threshold, sum))
              && Run(st, samples) == [None] + Run(QuadState(next, st.threshold, sum), rest)
              && Final(st, samples) == Final(QuadState(next, st.threshold, sum), rest)
    ensures var next, sum := Advance(st.prevState, clockwise), if clockwise then st.count + 1 else st.count - 1;
            var samples, rest := Pulses(st.prevState, n, clockwise), Pulses(next, n - 1, clockwise);
            Abs(sum) >= st.threshold ==>
              && Run(st, samples) == [if sum > 0 then Clockwise else Anticlockwise]
                                     + Run(QuadState(next, st.threshold, 0), rest)
              && Final(st, samples) == Final(QuadState(next, st.threshold, 0), rest)
  {
    var next := Advance(st.prevState, clockwise);
    var sample := SampleOf(next);
    DeltaMeaning(st.prevState, next);
    RunCons(st, sample, Pulses(next, n - 1, clockwise));
  }

  /** Pulses in the counter's own sense (or from 0) that keep the sum below
      the threshold report nothing and each move the counter one step in the
      pulse's sense. */
  lemma {:induction false} PulsesBelowThreshold(st: QuadState, n: nat, clockwise: bool)
    requires Consistent(st) && (if clockwise then st.count >= 0 else st.count <= 0)
    requires Abs(st.count) + n < st.threshold
    ensures Run(st, Pulses(st.prevState, n, clockwise)) == Repeat(None, n)
    ensures Final(st, Pulses(st.prevState, n, clockwise)).count
            == if clockwise then st.count + n else st.count - n
    decreases n
  {
    if n > 0 {
      FirstPulse(st, n, clockwise);
      var count := if clockwise then st.count + 1 else st.count - 1;
      PulsesBelowThreshold(QuadState(Advance(st.prevState, clockwise), st.threshold, count), n - 1, clockwise);
      assert Repeat(None, n) == [None] + Repeat(None, n - 1);
    }
  }

  /** Pulses in the counter's own sense (or from 0) whose sum reaches the
      threshold exactly on the n-th: the first n - 1 report nothing, the
      n-th reports that sense, and the counter is back at 0. */
  lemma {:induction false} PulsesReachThreshold(st: QuadState, n: nat, clockwise: bool)
    requires Consistent(st) && (if clockwise then st.count >= 0 else st.count <= 0)
    requires n >= 1 && Abs(st.count) + n == st.threshold
    ensures Run(st, Pulses(st.prevState, n, clockwise)) == Repeat(None, n - 1) + [Sense(clockwise)]
    ensures Final(st, Pulses(st.prevState, n, clockwise)).count == 0
    decreases n
  {
    FirstPulse(st, n, clockwise);
    if n > 1 {
      var count := if clockwise then st.count + 1 else st.count - 1;
      PulsesReachThreshold(QuadState(Advance(st.prevState, clockwise), st.threshold, count), n - 1, clockwise);
      RepeatThen(None, n - 1, Sense(clockwise));
    }
  }

  /** With threshold k, k consistent pulses in one sense from a reset
      counter are needed: the first k - 1 report nothing, the k-th reports
      that sense, and the counter is back at 0. */
  lemma ThresholdNeedsKPulses(from: bv8, k: nat, clockwise: bool)
    requires from < 4 && 1 <= k <= I8_MAX
    ensures Run(QuadState(from, k, 0), Pulses(from, k, clockwise))
            == Repeat(None, k - 1) + [Sense(clockwise)]
    ensures Final(QuadState(from, k, 0), Pulses(from, k, clockwise)).count == 0
  {
    PulsesReachThreshold(QuadState(from, k, 0), k, clockwise);
  }

  /** The decoder's fields. */
  class QuadratureTableMode {
    var prevState: bv8
    const threshold: nat
    var count: int

    function State(): QuadState
      reads this
    {
      QuadState(prevState, threshold, count)
    }

    ghost predicate Valid()
      reads this
    {
      Consistent(State())
    }

    /** `QuadratureTableMode::new`. */
    constructor (threshold: nat)
      requires threshold <= I8_MAX
      ensures Valid() && State() == New(threshold)
    {
      prevState := 0;
      count := 0;
      this.threshold := threshold;
    }

    /** `QuadratureTableMode::default()`. */
    static method Default() returns (mode: QuadratureTableMode)
      ensures fresh(mode) && mode.Valid()
      ensures mode.State() == New(DEFAULT_THRESHOLD)
    {
      mode := new QuadratureTableMode(DEFAULT_THRESHOLD);
    }

    method Update(dt: bool, clk: bool) returns (dir: Direction)
      requires Valid()
      modifies this
      ensures Valid()
      ensures (State(), dir) == Step(old(State()), dt, clk)
    {
      var curr := Bit(dt) | (Bit(clk) << 1);
      var idx := (prevState << 2) | curr;
      assert curr == LineState(dt, clk) && idx == QuadIndex(prevState, curr);
      var delta := QUAD_TABLE[idx];
      prevState := curr;
      assert I8_MIN < count + delta <= I8_MAX;
      count := count + delta;
      if Abs(count) >= threshold {
        dir := if count > 0 then Clockwise else Anticlockwise;
        count := 0;
        return;
      }
      dir := None;
    }
  }
}
