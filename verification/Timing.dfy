/** The faulty-primary timer and the engine's tickers, over an abstract clock. */
module Timing {

  datatype TimeoutState = Active | Inactive | Expired

  datatype TimeoutValue = TimeoutValue(state: TimeoutState, duration: int, startedAt: int)
  {
    function Started(now: int): TimeoutValue {
      TimeoutValue(Active, duration, now)
    }

    function Stopped(now: int): TimeoutValue {
      TimeoutValue(Inactive, duration, now)
    }

    function Checked(now: int): TimeoutValue {
      if state == Active && now - startedAt > duration then this.(state := Expired) else this
    }

    /** The timer is running, whether or not it was found to be past its duration. */
    predicate Running() {
      state != Inactive
    }
  }

  class Timeout {
    var state: TimeoutState
    const duration: int
    var startedAt: int

    ghost function Value(): TimeoutValue
      reads this
    {
      TimeoutValue(state, duration, startedAt)
    }

    constructor (duration: int, now: int)
      ensures Value() == TimeoutValue(Inactive, duration, now)
    {
      this.state := Inactive;
      this.duration := duration;
      this.startedAt := now;
    }

    method CheckExpired(now: int) returns (expired: bool)
      modifies this
      ensures Value() == old(Value()).Checked(now)
      ensures expired <==> state == Expired
    {
      if state == Active && now - startedAt > duration {
        state := Expired;
      }
      match state
      case Active => expired := false;
      case Inactive => expired := false;
      case Expired => expired := true;
    }

    method Start(now: int)
      modifies this
      ensures Value() == old(Value()).Started(now)
    {
      state := Active;
      startedAt := now;
    }

    method Stop(now: int)
      modifies this
      ensures Value() == old(Value()).Stopped(now)
    {
      state := Inactive;
      startedAt := now;
    }
  }

}
