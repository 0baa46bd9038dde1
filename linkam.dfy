// The Linkam T96 temperature controller's plans `set_target` and `hold`.
// The device's `readable_time` is `ReadableTime.LinkamReadableTime`.

module Linkam {
  /** One write of a `bps.mv`: the setpoint or the heater actuation. */
  datatype Write = SetpointWrite(value: real) | ActuateWrite(state: string)

  /** What a plan yields: one grouped move, or a sleep. */
  datatype Step = Move(writes: seq<Write>) | Sleep(seconds: real)

  /** The sleep between two looks at `inposition`. */
  const InPositionPoll: real := 0.1
  /** The sleep between two looks at the clock while holding. */
  const HoldPoll: real := 0.5
  /** The temperature tolerance the device sets up at construction. */
  const Tolerance: real := 1.0

  /** `n` sleeps of `interval` seconds each. */
  function Polls(n: nat, interval: real): (ss: seq<Step>)
    ensures |ss| == n && forall i :: 0 <= i < n ==> ss[i] == Sleep(interval)
  {
    if n == 0 then [] else Polls(n - 1, interval) + [Sleep(interval)]
  }

  class LinkamT96 {
    var setpoint: real
    var actuate: string
    var ramprate: real
    var tolerance: real
    var steps: seq<Step>

    /** The device starts with a tolerance of one degree. */
    constructor(setpoint: real, actuate: string, ramprate: real)
      ensures this.setpoint == setpoint && this.actuate == actuate && this.ramprate == ramprate
      ensures tolerance == Tolerance && steps == []
    {
      this.setpoint := setpoint;
      this.actuate := actuate;
      this.ramprate := ramprate;
      tolerance := Tolerance;
      steps := [];
    }

    /** `ramp` is the ramp rate itself. */
    function Ramp(): (r: real)
      reads this
      ensures r == ramprate
    {
      ramprate
    }

    /** `set_target(value, wait)`: one move writing the setpoint and "On" to
        the actuation; without `wait` the plan ends there, with it the plan
        sleeps until the controller reports in position, which it does after
        `pollsUntilInPosition` polls (a reading of the hardware).  The ramp
        rate and the tolerance are not touched. */
    method SetTarget(value: real, wait: bool, pollsUntilInPosition: nat)
      modifies this
      ensures setpoint == value && actuate == "On"
      ensures ramprate == old(ramprate) && tolerance == old(tolerance)
      ensures steps == old(steps) + SetTargetPlan(value, wait, pollsUntilInPosition)
    {
      setpoint := value;
      actuate := "On";
      steps := steps + [Move([SetpointWrite(value), ActuateWrite("On")])];
      if !wait {
        return;
      }
      ghost var start := steps;
      var k := 0;
      while k < pollsUntilInPosition
        invariant 0 <= k <= pollsUntilInPosition
        invariant steps == start + Polls(k, InPositionPoll)
        invariant setpoint == value && actuate == "On"
        invariant ramprate == old(ramprate) && tolerance == old(tolerance)
      {
        steps := steps + [Sleep(InPositionPoll)];
        k := k + 1;
      }
    }

    /** `hold(duration)`: half-second sleeps until the clock passes the
        expiry time, which it does after `pollsUntilExpired` sleeps (a
        reading of the clock); nothing on the device changes. */
    method Hold(pollsUntilExpired: nat)
      modifies this
      ensures setpoint == old(setpoint) && actuate == old(actuate)
      ensures ramprate == old(ramprate) && tolerance == old(tolerance)
      ensures steps == old(steps) + Polls(pollsUntilExpired, HoldPoll)
    {
      var k := 0;
      while k < pollsUntilExpired
        invariant 0 <= k <= pollsUntilExpired
        invariant steps == old(steps) + Polls(k, HoldPoll)
        invariant setpoint == old(setpoint) && actuate == old(actuate)
        invariant ramprate == old(ramprate) && tolerance == old(tolerance)
      {
        steps := steps + [Sleep(HoldPoll)];
        k := k + 1;
      }
    }
  }

  /** The plan `set_target` yields, as a value. */
  function SetTargetPlan(value: real, wait: bool, pollsUntilInPosition: nat): (ss: seq<Step>)
    ensures |ss| >= 1 && ss[0] == Move([SetpointWrite(value), ActuateWrite("On")])
    ensures !wait ==> |ss| == 1
    ensures wait ==> |ss| == 1 + pollsUntilInPosition
    ensures forall i :: 1 <= i < |ss| ==> ss[i] == Sleep(InPositionPoll)
  {
    [Move([SetpointWrite(value), ActuateWrite("On")])]
      + (if wait then Polls(pollsUntilInPosition, InPositionPoll) else [])
  }

  /** The heater is switched on exactly once, in the first step, whether the
      plan waits or not: every later step is a sleep. */
  lemma SetTargetActuatesOnce(value: real, wait: bool, polls: nat)
    ensures var ss := SetTargetPlan(value, wait, polls);
      (forall i :: 0 <= i < |ss| && ss[i].Move? ==> i == 0) &&
      ActuateWrite("On") in ss[0].writes
  {
  }
}
