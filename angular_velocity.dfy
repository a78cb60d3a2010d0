/** Angular velocity mode: the standard shift-register decoder plus a
    velocity in [0, 1] that rises on steps that follow each other quickly
    and falls on every periodic decay call. */
module AngularVelocity {
  import opened Encoder
  import opened Tables
  import Standard

  const DEFAULT_VELOCITY_INC_FACTOR: real := 0.2
  const DEFAULT_VELOCITY_DEC_FACTOR: real := 0.01
  const DEFAULT_VELOCITY_ACTION_MS: nat := 25

  /** The velocity after a detected step that comes `elapsed` ms after the
      last update without a step: raised by `incFactor` and clamped to 1.0
      when inside the action window and not yet at 1.0, unchanged otherwise. */
  function Accelerate(velocity: real, incFactor: real, elapsed: nat, actionMs: nat): (v: real)
    ensures incFactor >= 0.0 ==> velocity <= v
    ensures velocity <= 1.0 ==> v <= 1.0
    ensures v != velocity ==> elapsed < actionMs && velocity < 1.0
    ensures elapsed < actionMs && velocity < 1.0 && velocity + incFactor <= 1.0 ==> v == velocity + incFactor
    ensures elapsed < actionMs && velocity < 1.0 && velocity + incFactor > 1.0 ==> v == 1.0
  {
    if elapsed < actionMs && velocity < 1.0 then
      var raised := velocity + incFactor;
      if raised > 1.0 then 1.0 else raised
    else velocity
  }

  /** The velocity after one decay call: lowered by `decFactor`, floored at 0.0. */
  function Decay(velocity: real, decFactor: real): (v: real)
    ensures 0.0 <= v
    ensures v == velocity - decFactor || (v == 0.0 && velocity - decFactor < 0.0)
    ensures decFactor >= 0.0 && velocity >= 0.0 ==> v <= velocity
  {
    var lowered := velocity - decFactor;
    if lowered < 0.0 then 0.0 else lowered
  }

  /** The velocity bookkeeping fields, as one value. */
  datatype Tracker = Tracker(
    velocity: real,
    incFactor: real,
    decFactor: real,
    actionMs: nat,
    previousTime: nat)

  /** The state both velocity encoders start from. */
  const INITIAL: Tracker := Tracker(0.0, DEFAULT_VELOCITY_INC_FACTOR,
                                    DEFAULT_VELOCITY_DEC_FACTOR, DEFAULT_VELOCITY_ACTION_MS, 0)

  /** Velocity in [0, 1] with non-negative factors. */
  predicate InUnitRange(t: Tracker)
  {
    0.0 <= t.velocity <= 1.0 && t.incFactor >= 0.0 && t.decFactor >= 0.0
  }

  /** The bookkeeping of one update at time `now` that detected `dir`: on a
      step the velocity may rise and the previous time is kept; without one
      the previous time becomes `now`. */
  function Track(t: Tracker, dir: Direction, now: nat): (r: Tracker)
    requires t.previousTime <= now
    ensures r.incFactor == t.incFactor && r.decFactor == t.decFactor && r.actionMs == t.actionMs
    ensures r.previousTime <= now
  {
    if dir != None then
      t.(velocity := Accelerate(t.velocity, t.incFactor, now - t.previousTime, t.actionMs))
    else
      t.(previousTime := now)
  }

  /** The previous time becomes `now` exactly on updates without a step and
      is untouched on updates that report one. */
  lemma TrackPreviousTime(t: Tracker, dir: Direction, now: nat)
    requires t.previousTime <= now
    ensures dir == None ==> Track(t, dir, now).previousTime == now
    ensures dir != None ==> Track(t, dir, now).previousTime == t.previousTime
    ensures dir == None ==> Track(t, dir, now).velocity == t.velocity
  {
  }

  /** The velocity rises only on a step inside the action window while it
      is below 1.0, and never beyond 1.0. */
  lemma TrackRisesOnlyOnQuickSteps(t: Tracker, dir: Direction, now: nat)
    requires t.previousTime <= now && t.incFactor >= 0.0
    ensures var r := Track(t, dir, now);
            && t.velocity <= r.velocity
            && (r.velocity != t.velocity ==>
                  dir != None && now - t.previousTime < t.actionMs && t.velocity < 1.0)
            && (t.velocity <= 1.0 ==> r.velocity <= 1.0)
  {
  }

  /** On a step inside the action window while below 1.0, the velocity
      becomes the raised value, clamped to 1.0. */
  lemma TrackRisesOnQuickSteps(t: Tracker, dir: Direction, now: nat)
    requires t.previousTime <= now && dir != None
    requires now - t.previousTime < t.actionMs && t.velocity < 1.0
    ensures var r := Track(t, dir, now);
            r.velocity == (if t.velocity + t.incFactor > 1.0 then 1.0 else t.velocity + t.incFactor)
  {
  }

  /** The calls a caller can make on a velocity encoder. */
  datatype Call =
    | Update(dir: Direction, now: nat)
    | DecayCall
    | SetIncFactor(incFactor: real)
    | SetDecFactor(decFactor: real)
    | SetActionMs(actionMs: nat)

  /** The caller keeps the clock monotonic and the factors non-negative. */
  predicate Allowed(t: Tracker, call: Call)
  {
    match call
    case Update(_, now) => t.previousTime <= now
    case DecayCall => true
    case SetIncFactor(f) => f >= 0.0
    case SetDecFactor(f) => f >= 0.0
    case SetActionMs(_) => true
  }

  function Apply(t: Tracker, call: Call): (r: Tracker)
    requires Allowed(t, call)
  {
    match call
    case Update(dir, now) => Track(t, dir, now)
    case DecayCall => t.(velocity := Decay(t.velocity, t.decFactor))
    case SetIncFactor(f) => t.(incFactor := f)
    case SetDecFactor(f) => t.(decFactor := f)
    case SetActionMs(ms) => t.(actionMs := ms)
  }

  /** Every call of the sequence is allowed in the state it meets. */
  predicate AllAllowed(t: Tracker, calls: seq<Call>)
    decreases |calls|
  {
    calls == [] || (Allowed(t, calls[0]) && AllAllowed(Apply(t, calls[0]), calls[1..]))
  }

  function Replay(t: Tracker, calls: seq<Call>): Tracker
    requires AllAllowed(t, calls)
    decreases |calls|
  {
    if calls == [] then t else Replay(Apply(t, calls[0]), calls[1..])
  }

  /** One call keeps the velocity in [0, 1] and the factors non-negative. */
  lemma ApplyKeepsUnitRange(t: Tracker, call: Call)
    requires InUnitRange(t) && Allowed(t, call)
    ensures InUnitRange(Apply(t, call))
  {
  }

  /** From any state in range (in particular from the initial velocity 0),
      any sequence of updates, decays and setter calls with non-negative
      factors keeps the velocity in [0, 1]. */
  lemma {:induction false} VelocityStaysInUnitRange(t: Tracker, calls: seq<Call>)
    requires InUnitRange(t) && AllAllowed(t, calls)
    ensures InUnitRange(Replay(t, calls))
    decreases |calls|
  {
    if calls != [] {
      ApplyKeepsUnitRange(t, calls[0]);
      VelocityStaysInUnitRange(Apply(t, calls[0]), calls[1..]);
    }
  }

  /** Between two updates that detect a step, decay calls only lower the
      velocity. */
  lemma {:induction false} DecaysNeverRaise(t: Tracker, n: nat)
    requires InUnitRange(t)
    ensures var calls := seq(n, _ => DecayCall);
            AllAllowed(t, calls) && Replay(t, calls).velocity <= t.velocity
            && InUnitRange(Replay(t, calls))
    decreases n
  {
    var calls := seq(n, _ => DecayCall);
    if n > 0 {
      var next := Apply(t, DecayCall);
      DecaysNeverRaise(next, n - 1);
      assert calls[1..] == seq(n - 1, _ => DecayCall);
    }
  }

  /** The decoder: two history bytes, the last direction and the velocity
      bookkeeping. */
  class AngularVelocityMode {
    const pinState: array<bv8>
    var direction: Direction
    var velocity: real
    var velocityIncFactor: real
    var velocityDecFactor: real
    var velocityActionMs: nat
    var previousTimeMillis: nat

    function Bookkeeping(): Tracker
      reads this
    {
      Tracker(velocity, velocityIncFactor, velocityDecFactor, velocityActionMs, previousTimeMillis)
    }

    ghost predicate Valid()
      reads this
    {
      pinState.Length == 2 && InUnitRange(Bookkeeping())
    }

    /** The state set up when the encoder enters angular velocity mode. */
    constructor ()
      ensures Valid() && fresh(pinState)
      ensures pinState[..] == [0xFF, 2] && direction == None
      ensures Bookkeeping() == INITIAL
    {
      var history := new bv8[2];
      history[0], history[1] := 0xFF, 2;
      pinState := history;
      direction := None;
      velocity := 0.0;
      previousTimeMillis := 0;
      velocityActionMs := DEFAULT_VELOCITY_ACTION_MS;
      velocityDecFactor := DEFAULT_VELOCITY_DEC_FACTOR;
      velocityIncFactor := DEFAULT_VELOCITY_INC_FACTOR;
    }

    method SetVelocityIncFactor(incFactor: real)
      requires Valid() && incFactor >= 0.0
      modifies this
      ensures Valid() && direction == old(direction)
      ensures Bookkeeping() == old(Bookkeeping()).(incFactor := incFactor)
    {
      velocityIncFactor := incFactor;
    }

    method SetVelocityDecFactor(decFactor: real)
      requires Valid() && decFactor >= 0.0
      modifies this
      ensures Valid() && direction == old(direction)
      ensures Bookkeeping() == old(Bookkeeping()).(decFactor := decFactor)
    {
      velocityDecFactor := decFactor;
    }

    method SetVelocityActionMs(actionMs: nat)
      requires Valid()
      modifies this
      ensures Valid() && direction == old(direction)
      ensures Bookkeeping() == old(Bookkeeping()).(actionMs := actionMs)
    {
      velocityActionMs := actionMs;
    }

    /** Lowers the velocity by the decreasing factor, not below 0.0. */
    method DecayVelocity()
      requires Valid()
      modifies this
      ensures Valid() && direction == old(direction)
      ensures Bookkeeping() == Apply(old(Bookkeeping()), DecayCall)
    {
      velocity := velocity - velocityDecFactor;
      if velocity < 0.0 {
        velocity := 0.0;
      }
    }

    /** Shifts the two levels into the histories and decodes them with the
        shift and edge rule of the standard mode (the source repeats those
        lines verbatim), then keeps the velocity books. */
    method Update(dt: bool, clk: bool, currentTimeMillis: nat)
      requires Valid() && previousTimeMillis <= currentTimeMillis
      modifies this, pinState
      ensures Valid()
      ensures pinState[0] == Standard.ShiftIn(old(pinState[0]), dt)
      ensures pinState[1] == Standard.ShiftIn(old(pinState[1]), clk)
      ensures direction == Standard.Detect(pinState[0], pinState[1])
      ensures Bookkeeping() == Track(old(Bookkeeping()), direction, currentTimeMillis)
    {
      ghost var books := Bookkeeping();
      pinState[0] := Standard.ShiftIn(pinState[0], dt);
      pinState[1] := Standard.ShiftIn(pinState[1], clk);
      var dir := Standard.Detect(pinState[0], pinState[1]);
      direction := dir;

      if direction != None {
        if currentTimeMillis - previousTimeMillis < velocityActionMs && velocity < 1.0 {
          velocity := velocity + velocityIncFactor;
          if velocity > 1.0 {
            velocity := 1.0;
          }
        }
        assert Bookkeeping() == Track(books, direction, currentTimeMillis);
        return;
      }

      previousTimeMillis := currentTimeMillis;
      assert Bookkeeping() == Track(books, direction, currentTimeMillis);
    }

    /** The current velocity, in [0, 1]. */
    function Velocity(): (v: real)
      reads this
      requires Valid()
      ensures 0.0 <= v <= 1.0
    {
      velocity
    }
  }
}
