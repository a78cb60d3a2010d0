/** A rotary encoder wrapped with a velocity: the wrapped encoder decodes
    the pins, and the wrapper keeps the same velocity books as the angular
    velocity mode on the direction the wrapped encoder reports. */
module Angular {
  import opened Encoder
  import opened AngularVelocity

  class RotaryEncoderWithVelocity {
    /** The direction the wrapped encoder reported on its last update. */
    var innerDirection: Direction
    var velocity: real
    var velocityIncFactor: real
    var velocityDecFactor: real
    var velocityActionMs: nat
    var previousTime: nat

    function Bookkeeping(): Tracker
      reads this
    {
      Tracker(velocity, velocityIncFactor, velocityDecFactor, velocityActionMs, previousTime)
    }

    ghost predicate Valid()
      reads this
    {
      InUnitRange(Bookkeeping())
    }

    /** A fresh wrapper: velocity 0, default factors and window, previous
        time 0, and a wrapped encoder that has reported nothing yet. */
    constructor ()
      ensures Valid()
      ensures Bookkeeping() == INITIAL && innerDirection == None
    {
      innerDirection := None;
      velocity := 0.0;
      velocityIncFactor := DEFAULT_VELOCITY_INC_FACTOR;
      velocityDecFactor := DEFAULT_VELOCITY_DEC_FACTOR;
      velocityActionMs := DEFAULT_VELOCITY_ACTION_MS;
      previousTime := 0;
    }

    method SetVelocityIncFactor(incFactor: real)
      requires Valid() && incFactor >= 0.0
      modifies this
      ensures Valid() && innerDirection == old(innerDirection)
      ensures Bookkeeping() == old(Bookkeeping()).(incFactor := incFactor)
    {
      velocityIncFactor := incFactor;
    }

    method SetVelocityDecFactor(decFactor: real)
      requires Valid() && decFactor >= 0.0
      modifies this
      ensures Valid() && innerDirection == old(innerDirection)
      ensures Bookkeeping() == old(Bookkeeping()).(decFactor := decFactor)
    {
      velocityDecFactor := decFactor;
    }

    method SetVelocityActionMs(actionMs: nat)
      requires Valid()
      modifies this
      ensures Valid() && innerDirection == old(innerDirection)
      ensures Bookkeeping() == old(Bookkeeping()).(actionMs := actionMs)
    {
      velocityActionMs := actionMs;
    }

    /** Lowers the velocity by the decreasing factor, not below 0.0. */
    method DecayVelocity()
      requires Valid()
      modifies this
      ensures Valid() && innerDirection == old(innerDirection)
      ensures Bookkeeping() == Apply(old(Bookkeeping()), DecayCall)
    {
      velocity := velocity - velocityDecFactor;
      if velocity < 0.0 {
        velocity := 0.0;
      }
    }

    /** One update at `currentTime`: the wrapped encoder's update reports
        `detected`, and the velocity books follow that direction exactly as
        in the angular velocity mode. */
    method Update(detected: Direction, currentTime: nat)
      requires Valid() && previousTime <= currentTime
      modifies this
      ensures Valid()
      ensures CurrentDirection() == detected
      ensures Bookkeeping() == Track(old(Bookkeeping()), detected, currentTime)
    {
      innerDirection := detected;

      if innerDirection != None {
        if currentTime - previousTime < velocityActionMs && velocity < 1.0 {
          velocity := velocity + velocityIncFactor;
          if velocity > 1.0 {
            velocity := 1.0;
          }
        }
        return;
      }

      previousTime := currentTime;
    }

    /** The direction of the wrapped encoder, as its last update reported it. */
    function CurrentDirection(): (d: Direction)
      reads this
      ensures d == innerDirection
    {
      innerDirection
    }

    /** The current velocity, in [0, 1]. */
    function Velocity(): (v: real)
      reads this
      requires Valid()
      ensures 0.0 <= v <= 1.0
    {
      velocity
    }
  }
}
