/** The shared vocabulary of the encoder crate and the session object that
    delegates each sample to its decoding logic. */
module Encoder {

  /** Sense of rotation reported by a decoding step. */
  datatype Direction = None | Clockwise | Anticlockwise

  lemma DirectionVariants(d: Direction)
    ensures d == None || d == Clockwise || d == Anticlockwise
    ensures (d == None) != (d == Clockwise || d == Anticlockwise)
    ensures !(d == Clockwise && d == Anticlockwise)
  {
  }

  /** Result of asking an input pin for its level: the level itself, or a
      failure of the underlying driver. */
  datatype PinReading = Level(high: bool) | ReadError

  /** `is_high().unwrap_or_default()`: a failed read counts as low. */
  function LevelOrLow(reading: PinReading): (high: bool)
    ensures high <==> reading == Level(true)
    ensures reading == ReadError ==> !high
  {
    match reading
    case Level(h) => h
    case ReadError => false
  }

  /** The logic a fresh encoder carries before a mode is chosen: it ignores
      every sample and never reports a direction. The ghost field records the
      last `(pin_dt, pin_clk)` pair it was handed, so that a caller's
      argument order is visible to a proof. */
  class InitalizeMode {
    ghost var received: (bool, bool)

    constructor ()
      ensures received == (false, false)
    {
      received := (false, false);
    }

    method Update(pinDt: bool, pinClk: bool)
      modifies this
      ensures received == (pinDt, pinClk)
    {
      received := (pinDt, pinClk);
    }

    function CurrentDirection(): (d: Direction)
      ensures d == None
    {
      None
    }
  }

  /** The session: two input pins and the logic each sample is handed to. */
  class RotaryEncoder {
    const logic: InitalizeMode

    /** `RotaryEncoder::new`: a session starts with the initialising logic. */
    constructor ()
      ensures fresh(logic)
      ensures CurrentDirection() == None
    {
      logic := new InitalizeMode();
    }

    /** The direction of the logic, passed on unchanged. */
    function CurrentDirection(): (d: Direction)
      ensures d == logic.CurrentDirection()
      ensures d == None
    {
      logic.CurrentDirection()
    }

    /** Reads both pins (a failed read is low) and hands the levels to the
        logic, DT level first. */
    method Update(dtReading: PinReading, clkReading: PinReading)
      modifies logic
      ensures logic.received == (LevelOrLow(dtReading), LevelOrLow(clkReading))
      ensures CurrentDirection() == None
    {
      var dt := LevelOrLow(dtReading);
      var clk := LevelOrLow(clkReading);
      logic.Update(dt, clk);
    }
  }
}
