/**
 * The vehicle autopilot (Vehicle/WheeledVehicleAIController.cpp): the
 * throttle laws, the red-light / obstacle decision and the brake mapping,
 * the fixed-route queues and the steering toward the next route target,
 * with road-following as the fallback.
 *
 * Engine queries are inputs: the road-map samples under and beside the
 * vehicle (`RoadProbe`), the line-trace obstacle probe (a bool), the
 * heading in degrees of a direction vector (`headingOf`, standing for
 * UnitCartesianToSpherical().Y scaled to degrees), the vehicle's own
 * heading, the midpoint of its front wheels and its forward speed.
 */
module VehicleAutopilot {
  import opened CarlaTypes

  /** ETrafficLightState */
  datatype TrafficLightState = Green | Yellow | Red

  /** ECarlaWheeledVehicleState, the values the controller sets. */
  datatype AIVehicleState = AutopilotOff | FreeDriving | FollowingFixedRoute | WaitingForRedLight | ObstacleAhead

  /** Tolerance, per component, within which a route target counts as reached. */
  const TargetTolerance: real := 80.0

  /** cm/s to km/h. */
  const SpeedToKmh: real := 0.036

  /** Below this throttle the controller brakes instead. */
  const MinThrottle: real := 0.001

  // ---------------------------------------------------------------------------
  // Throttle laws and the brake mapping
  // ---------------------------------------------------------------------------

  /** Stop: a braking throttle proportional to the speed, none below 1 km/h. */
  function Stop(speed: real, speedLimit: real): (r: real)
    requires speedLimit > 0.0
    ensures r <= 0.0
    ensures speed < 1.0 ==> r == 0.0
    ensures speed >= 1.0 ==> r < 0.0 && r * speedLimit == -speed
  {
    if speed >= 1.0 then -speed / speedLimit else 0.0
  }

  /** Move: full throttle, half throttle in the last 10 km/h below the limit, Stop at or above it. */
  function Move(speed: real, speedLimit: real): (r: real)
    requires speedLimit > 0.0
    ensures speed >= speedLimit ==> r == Stop(speed, speedLimit) && r <= 0.0
    ensures speedLimit - 10.0 <= speed < speedLimit ==> r == 0.5
    ensures speed < speedLimit - 10.0 ==> r == 1.0
  {
    if speed >= speedLimit then Stop(speed, speedLimit)
    else if speed >= speedLimit - 10.0 then 0.5
    else 1.0
  }

  /**
   * The three AutopilotControl fields TickAutopilotController writes; the
   * others keep their values.  Brake and throttle are never both applied.
   */
  function ControlFromThrottle(previous: VehicleControl, throttle: real, steering: real): (r: VehicleControl)
    ensures r.steer == steering
    ensures r.brake == 1.0 <==> throttle < MinThrottle
    ensures r.brake == 0.0 <==> throttle >= MinThrottle
    ensures r.brake * r.throttle == 0.0 && r.throttle >= 0.0
    ensures throttle >= MinThrottle ==> r.throttle == throttle
    ensures throttle < MinThrottle ==> r.throttle == 0.0
    ensures r.handBrake == previous.handBrake && r.reverse == previous.reverse
  {
    if throttle < MinThrottle then previous.(brake := 1.0, throttle := 0.0, steer := steering)
    else previous.(brake := 0.0, throttle := throttle, steer := steering)
  }

  /** The throttle and, when the decision sets one, the new vehicle state. */
  datatype Decision = Decision(throttle: real, state: Option<AIVehicleState>)

  /** The light is checked first; the obstacle probe only matters under green. */
  function ThrottleDecision(light: TrafficLightState, speed: real, obstacleAhead: bool, speedLimit: real): (r: Decision)
    requires speedLimit > 0.0
    ensures light != Green ==> r.state == Some(WaitingForRedLight)
    ensures light == Green && obstacleAhead ==> r.state == Some(ObstacleAhead)
    ensures r.state.None? <==> light == Green && !obstacleAhead
    ensures r.state.Some? ==> r.throttle <= 0.0
  {
    if light != Green then Decision(Stop(speed, speedLimit), Some(WaitingForRedLight))
    else if obstacleAhead then Decision(Stop(speed, speedLimit), Some(ObstacleAhead))
    else Decision(Move(speed, speedLimit), None)
  }

  /** Under a non-green light the obstacle probe's answer changes nothing. */
  lemma RedLightTakesPrecedence(light: TrafficLightState, speed: real, speedLimit: real)
    requires speedLimit > 0.0 && light != Green
    ensures ThrottleDecision(light, speed, true, speedLimit) == ThrottleDecision(light, speed, false, speedLimit)
  {
  }

  /**
   * The brake is fully applied exactly when the light is not green, an
   * obstacle is ahead, or the speed has reached the limit.
   */
  lemma BrakesIff(
    previous: VehicleControl, steering: real, light: TrafficLightState, speed: real, obstacleAhead: bool, speedLimit: real)
    requires speedLimit > 0.0
    ensures var d := ThrottleDecision(light, speed, obstacleAhead, speedLimit);
            ControlFromThrottle(previous, d.throttle, steering).brake == 1.0
            <==> light != Green || obstacleAhead || speed >= speedLimit
  {
  }

  /** Under green with a clear road, the throttle applied is 1 or 0.5 below the limit, and never above 1. */
  lemma GreenClearThrottle(previous: VehicleControl, steering: real, speed: real, speedLimit: real)
    requires speedLimit > 0.0 && speed < speedLimit
    ensures var c := ControlFromThrottle(previous, ThrottleDecision(Green, speed, false, speedLimit).throttle, steering);
            c.brake == 0.0 && (c.throttle == 1.0 || c.throttle == 0.5)
            && (c.throttle == 0.5 <==> speed >= speedLimit - 10.0)
  {
  }

  // ---------------------------------------------------------------------------
  // Steering
  // ---------------------------------------------------------------------------

  /** Brings a difference of two headings back into [-180, 180] with one turn. */
  function WrapAngle(angle: real): (r: real)
    ensures r == angle || r == angle - 360.0 || r == angle + 360.0
    ensures -360.0 <= angle <= 360.0 ==> -180.0 <= r <= 180.0
  {
    if angle > 180.0 then angle - 360.0
    else if angle < -180.0 then angle + 360.0
    else angle
  }

  /** The heading error over the maximum steer angle, saturated at full lock. */
  function HeadingSteering(angle: real, maximumSteerAngle: real): (r: real)
    requires maximumSteerAngle > 0.0
    ensures -1.0 <= r <= 1.0
    ensures angle < -maximumSteerAngle ==> r == -1.0
    ensures angle > maximumSteerAngle ==> r == 1.0
  {
    if angle < -maximumSteerAngle then -1.0
    else if angle > maximumSteerAngle then 1.0
    else
      angle / maximumSteerAngle
  }

  /** Within full lock the steering is the heading error over the maximum steer angle. */
  lemma HeadingSteeringWithinLock(angle: real, maximumSteerAngle: real)
    requires maximumSteerAngle > 0.0 && -maximumSteerAngle <= angle <= maximumSteerAngle
    ensures HeadingSteering(angle, maximumSteerAngle) == angle / maximumSteerAngle
    ensures HeadingSteering(angle, maximumSteerAngle) * maximumSteerAngle == angle
  {
  }

  /** A road-map pixel: whether it is road, whether it has a lane direction, and that direction's heading. */
  datatype RoadSample = RoadSample(isRoad: bool, hasDirection: bool, heading: real)

  /** The samples at the vehicle, at the right sensor and at the left sensor. */
  datatype RoadProbe = RoadProbe(center: RoadSample, right: RoadSample, left: RoadSample)

  /** Whether a heading falls outside the half-plane of ±90 degrees around the lane direction. */
  function OutsideLaneWindow(heading: real, laneHeading: real): (r: bool)
    ensures -90.0 <= laneHeading <= 90.0 ==>
              (r <==> heading < laneHeading - 90.0 || heading > laneHeading + 90.0)
    ensures laneHeading > 90.0 ==> (r <==> laneHeading - 270.0 < heading < laneHeading - 90.0)
    ensures laneHeading < -90.0 ==> (r <==> laneHeading + 90.0 < heading < laneHeading + 270.0)
  {
    var low := if laneHeading - 90.0 < -180.0 then 180.0 + (laneHeading - 90.0 + 180.0) else laneHeading - 90.0;
    var high := if laneHeading + 90.0 > 180.0 then -180.0 + (laneHeading + 90.0 - 180.0) else laneHeading + 90.0;
    if laneHeading < -90.0 || laneHeading > 90.0 then heading < low && heading > high
    else heading < low || heading > high
  }

  /**
   * CalcStreeringValue on given road samples: hard left (-1) off the road;
   * nudges of 0.2 away from an edge sensor that is off the road or whose lane
   * points elsewhere; then, on a lane with a direction, the saturated heading
   * error toward the lane.
   */
  function RoadSteering(p: RoadProbe, actorAngle: real, maximumSteerAngle: real): (r: real)
    requires maximumSteerAngle > 0.0
    ensures !p.center.isRoad ==> r == -1.0
    ensures p.center.isRoad && !p.center.hasDirection ==>
              r == (if p.right.isRoad then 0.0 else -0.2) + (if p.left.isRoad then 0.0 else 0.2)
    ensures p.center.isRoad && p.center.hasDirection ==>
              var angle := WrapAngle(p.center.heading - actorAngle);
              && (angle < -maximumSteerAngle ==> r == -1.0)
              && (angle > maximumSteerAngle ==> r == 1.0)
    ensures -1.4 <= r <= 1.4
  {
    var edge := (if p.right.isRoad then 0.0 else -0.2) + (if p.left.isRoad then 0.0 else 0.2);
    if !p.center.isRoad then -1.0
    else if !p.center.hasDirection then edge
    else
      var lane := p.center.heading;
      var nudged := edge
        + (if OutsideLaneWindow(p.right.heading, lane) then -0.2 else 0.0)
        + (if OutsideLaneWindow(p.left.heading, lane) then 0.2 else 0.0);
      var angle := WrapAngle(lane - actorAngle);
      if angle < -maximumSteerAngle then -1.0
      else if angle > maximumSteerAngle then 1.0
      else nudged + HeadingSteering(angle, maximumSteerAngle)
  }

  /** Within full lock on a lane, the side nudges move the heading steering by at most 0.4 either way. */
  lemma RoadSteeringWithinLock(p: RoadProbe, actorAngle: real, maximumSteerAngle: real)
    requires maximumSteerAngle > 0.0 && p.center.isRoad && p.center.hasDirection
    requires -maximumSteerAngle <= WrapAngle(p.center.heading - actorAngle) <= maximumSteerAngle
    ensures var angle := WrapAngle(p.center.heading - actorAngle);
            -0.4 <= RoadSteering(p, actorAngle, maximumSteerAngle) - HeadingSteering(angle, maximumSteerAngle) <= 0.4
  {
  }

  /** FVector::Equals with the route tolerance, the target taken at the vehicle's height. */
  function Reached(target: Vector3, current: Vector3): (r: bool)
    ensures r <==> Abs(target.x - current.x) <= TargetTolerance && Abs(target.y - current.y) <= TargetTolerance
  {
    var t := Vector3(target.x, target.y, current.z);
    Abs(t.x - current.x) <= TargetTolerance && Abs(t.y - current.y) <= TargetTolerance
    && Abs(t.z - current.z) <= TargetTolerance
  }

  /** Reaching a target is a matter of the horizontal plane only. */
  lemma ReachedIsPlanar(target: Vector3, current: Vector3, height: real)
    ensures Reached(target, current) <==> Reached(target.(z := height), current)
    ensures Reached(target, current) <==>
              -TargetTolerance <= target.x - current.x <= TargetTolerance
              && -TargetTolerance <= target.y - current.y <= TargetTolerance
  {
  }

  /**
   * The route after GoToNextTargetLocation's drain: the reached targets at
   * its head are removed, up to the first one not reached.
   */
  function DropReached(queue: seq<Vector3>, current: Vector3): (r: seq<Vector3>)
    ensures |r| <= |queue| && IsSuffix(r, queue)
    ensures r != [] ==> !Reached(r[0], current)
    ensures forall k :: 0 <= k < |queue| - |r| ==> Reached(queue[k], current)
    decreases |queue|
  {
    if queue == [] then []
    else if Reached(queue[0], current) then DropReached(queue[1..], current)
    else queue
  }

  /** The route's steering depends on the queue only through what the drain leaves of it. */
  lemma FollowRouteDependsOnDrain(
    queue: seq<Vector3>, other: seq<Vector3>, current: Vector3, actorAngle: real, headingOf: Vector3 -> real,
    probe: RoadProbe, maximumSteerAngle: real)
    requires maximumSteerAngle > 0.0 && DropReached(queue, current) == DropReached(other, current)
    ensures FollowRoute(queue, current, actorAngle, headingOf, probe, maximumSteerAngle)
            == FollowRoute(other, current, actorAngle, headingOf, probe, maximumSteerAngle)
  {
  }

  /** A reached head is skipped: the drain and the route's steering are those of the rest. */
  lemma FollowRouteSkipsReached(
    queue: seq<Vector3>, current: Vector3, actorAngle: real, headingOf: Vector3 -> real,
    probe: RoadProbe, maximumSteerAngle: real)
    requires maximumSteerAngle > 0.0 && queue != [] && Reached(queue[0], current)
    ensures DropReached(queue, current) == DropReached(queue[1..], current)
    ensures FollowRoute(queue, current, actorAngle, headingOf, probe, maximumSteerAngle)
            == FollowRoute(queue[1..], current, actorAngle, headingOf, probe, maximumSteerAngle)
  {
    assert DropReached(queue, current) == DropReached(queue[1..], current);
    FollowRouteDependsOnDrain(queue, queue[1..], current, actorAngle, headingOf, probe, maximumSteerAngle);
  }

  /** An unreached head stays, and the route steers toward it at the vehicle's height. */
  lemma FollowRouteTowardHead(
    queue: seq<Vector3>, current: Vector3, actorAngle: real, headingOf: Vector3 -> real,
    probe: RoadProbe, maximumSteerAngle: real)
    requires maximumSteerAngle > 0.0 && queue != [] && !Reached(queue[0], current)
    ensures DropReached(queue, current) == queue
    ensures FollowRoute(queue, current, actorAngle, headingOf, probe, maximumSteerAngle)
            == Steering(
                 HeadingSteering(WrapAngle(headingOf(Sub(SteeringTarget(queue[0], current), current)) - actorAngle),
                                 maximumSteerAngle),
                 FollowingFixedRoute)
  {
  }

  /** A reached head is always dropped: the queue strictly shrinks. */
  lemma DropReachedShrinks(queue: seq<Vector3>, current: Vector3)
    requires queue != [] && Reached(queue[0], current)
    ensures |DropReached(queue, current)| < |queue|
  {
  }

  /** The target GoToNextTargetLocation steers toward, at the vehicle's height. */
  function SteeringTarget(location: Vector3, current: Vector3): (r: Vector3)
    ensures r.x == location.x && r.y == location.y
    ensures Sub(r, current).z == 0.0
  {
    Vector3(location.x, location.y, current.z)
  }

  /** A steering value and the vehicle state set while computing it. */
  datatype Steering = Steering(value: real, state: AIVehicleState)

  /**
   * The steering of one autopilot tick: toward the first unreached route
   * target when one remains, road-following otherwise.
   */
  function FollowRoute(
    queue: seq<Vector3>, current: Vector3, actorAngle: real, headingOf: Vector3 -> real,
    probe: RoadProbe, maximumSteerAngle: real): (r: Steering)
    requires maximumSteerAngle > 0.0
    ensures r.state == FollowingFixedRoute <==> DropReached(queue, current) != []
    ensures r.state == FreeDriving <==> DropReached(queue, current) == []
    ensures r.state == FollowingFixedRoute ==> -1.0 <= r.value <= 1.0
    ensures r.state == FreeDriving ==> r.value == RoadSteering(probe, actorAngle, maximumSteerAngle)
  {
    RouteSteering(DropReached(queue, current), current, actorAngle, headingOf, probe, maximumSteerAngle)
  }

  /** The steering for what the drain left of the route: toward its head, or road-following when empty. */
  function RouteSteering(
    rest: seq<Vector3>, current: Vector3, actorAngle: real, headingOf: Vector3 -> real,
    probe: RoadProbe, maximumSteerAngle: real): (r: Steering)
    requires maximumSteerAngle > 0.0
    ensures r.state == FollowingFixedRoute <==> rest != []
    ensures r.state == FreeDriving <==> rest == []
    ensures r.state == FollowingFixedRoute ==> -1.0 <= r.value <= 1.0
    ensures r.state == FreeDriving ==> r.value == RoadSteering(probe, actorAngle, maximumSteerAngle)
  {
    if rest == [] then Steering(RoadSteering(probe, actorAngle, maximumSteerAngle), FreeDriving)
    else
      var direction := Sub(SteeringTarget(rest[0], current), current);
      Steering(HeadingSteering(WrapAngle(headingOf(direction) - actorAngle), maximumSteerAngle), FollowingFixedRoute)
  }

  /** With both headings in [-180, 180], the wrapped error is a proper angle and steering stays in [-1, 1]. */
  lemma RouteSteeringBounded(target: Vector3, current: Vector3, actorAngle: real, headingOf: Vector3 -> real, maximumSteerAngle: real)
    requires maximumSteerAngle > 0.0
    requires -180.0 <= headingOf(Sub(SteeringTarget(target, current), current)) <= 180.0
    requires -180.0 <= actorAngle <= 180.0
    ensures var angle := WrapAngle(headingOf(Sub(SteeringTarget(target, current), current)) - actorAngle);
            -180.0 <= angle <= 180.0 && -1.0 <= HeadingSteering(angle, maximumSteerAngle) <= 1.0
  {
  }

  // ---------------------------------------------------------------------------
  // AWheeledVehicleAIController
  // ---------------------------------------------------------------------------

  class WheeledVehicleAIController {
    const maximumSteerAngle: real
    const speedLimit: real
    var autopilotEnabled: bool
    /** The possessed vehicle's steering, throttle, brake, reverse and handbrake inputs. */
    var vehicleInputs: VehicleControl
    /** The possessed vehicle's AI state. */
    var aiState: AIVehicleState
    var trafficLight: TrafficLightState
    var targetLocations: seq<Vector3>
    var targetTimes: seq<real>
    var trackTrajectory: bool
    var autopilotControl: VehicleControl

    ghost predicate Valid()
    {
      maximumSteerAngle > 0.0 && speedLimit > 0.0
    }

    /** Possess: take the vehicle's maximum steer angle, then configure the autopilot. */
    constructor (autopilotEnabled: bool, maximumSteerAngle: real, speedLimit: real)
      requires maximumSteerAngle > 0.0 && speedLimit > 0.0
      ensures Valid()
      ensures this.maximumSteerAngle == maximumSteerAngle && this.speedLimit == speedLimit
      ensures this.autopilotEnabled == autopilotEnabled
      ensures vehicleInputs == NeutralControl && trafficLight == Green && targetLocations == [] && targetTimes == []
      ensures aiState == (if autopilotEnabled then FreeDriving else AutopilotOff)
      ensures !trackTrajectory && autopilotControl == NeutralControl
    {
      this.maximumSteerAngle := maximumSteerAngle;
      this.speedLimit := speedLimit;
      this.autopilotEnabled := autopilotEnabled;
      vehicleInputs := NeutralControl;
      trafficLight := Green;
      targetLocations := [];
      targetTimes := [];
      aiState := if autopilotEnabled then FreeDriving else AutopilotOff;
      trackTrajectory := false;
      autopilotControl := NeutralControl;
    }

    /** Resets the vehicle's inputs, the light and the route; TargetTimes is kept. */
    method ConfigureAutopilot(enable: bool)
      modifies this
      ensures autopilotEnabled == enable
      ensures vehicleInputs == NeutralControl && trafficLight == Green && targetLocations == []
      ensures aiState == (if enable then FreeDriving else AutopilotOff)
      ensures targetTimes == old(targetTimes) && trackTrajectory == old(trackTrajectory)
      ensures autopilotControl == old(autopilotControl)
    {
      autopilotEnabled := enable;
      vehicleInputs := vehicleInputs.(steer := 0.0);
      vehicleInputs := vehicleInputs.(throttle := 0.0);
      vehicleInputs := vehicleInputs.(brake := 0.0);
      vehicleInputs := vehicleInputs.(reverse := false);
      vehicleInputs := vehicleInputs.(handBrake := false);
      trafficLight := Green;
      targetLocations := [];
      aiState := if autopilotEnabled then FreeDriving else AutopilotOff;
    }

    method SetFixedRoute(locations: seq<Vector3>, overwriteCurrent: bool)
      modifies this
      ensures targetLocations == (if overwriteCurrent then [] else old(targetLocations)) + locations
      ensures targetTimes == old(targetTimes) && trackTrajectory == old(trackTrajectory)
      ensures autopilotEnabled == old(autopilotEnabled) && aiState == old(aiState)
      ensures vehicleInputs == old(vehicleInputs) && trafficLight == old(trafficLight)
      ensures autopilotControl == old(autopilotControl)
    {
      if overwriteCurrent {
        targetLocations := [];
      }
      ghost var start := targetLocations;
      for i := 0 to |locations|
        invariant targetLocations == start + locations[..i]
        invariant targetTimes == old(targetTimes) && trackTrajectory == old(trackTrajectory)
        invariant autopilotEnabled == old(autopilotEnabled) && aiState == old(aiState)
        invariant vehicleInputs == old(vehicleInputs) && trafficLight == old(trafficLight)
        invariant autopilotControl == old(autopilotControl)
      {
        targetLocations := targetLocations + [locations[i]];
        assert locations[..i + 1] == locations[..i] + [locations[i]];
      }
      assert locations[..|locations|] == locations;
    }

    /** Replaces both queues with the control's points and their times, and starts tracking. */
    method ApplyAIControl(control: SingleAgentControl)
      requires |control.times| >= |control.points|
      modifies this
      ensures targetLocations == control.points
      ensures targetTimes == control.times[..|control.points|]
      ensures |targetLocations| == |targetTimes|
      ensures trackTrajectory
      ensures autopilotEnabled == old(autopilotEnabled) && aiState == old(aiState)
      ensures vehicleInputs == old(vehicleInputs) && trafficLight == old(trafficLight)
      ensures autopilotControl == old(autopilotControl)
    {
      while targetLocations != []
        invariant targetTimes == old(targetTimes)
        invariant autopilotEnabled == old(autopilotEnabled) && aiState == old(aiState)
        invariant vehicleInputs == old(vehicleInputs) && trafficLight == old(trafficLight)
        invariant autopilotControl == old(autopilotControl)
        decreases |targetLocations|
      {
        targetLocations := targetLocations[1..];
      }
      while targetTimes != []
        invariant targetLocations == []
        invariant autopilotEnabled == old(autopilotEnabled) && aiState == old(aiState)
        invariant vehicleInputs == old(vehicleInputs) && trafficLight == old(trafficLight)
        invariant autopilotControl == old(autopilotControl)
        decreases |targetTimes|
      {
        targetTimes := targetTimes[1..];
      }
      for i := 0 to |control.points|
        invariant targetLocations == control.points[..i]
        invariant targetTimes == control.times[..i]
        invariant autopilotEnabled == old(autopilotEnabled) && aiState == old(aiState)
        invariant vehicleInputs == old(vehicleInputs) && trafficLight == old(trafficLight)
        invariant autopilotControl == old(autopilotControl)
      {
        targetLocations := targetLocations + [control.points[i]];
        targetTimes := targetTimes + [control.times[i]];
        assert control.points[..i + 1] == control.points[..i] + [control.points[i]];
        assert control.times[..i + 1] == control.times[..i] + [control.times[i]];
      }
      assert control.points[..|control.points|] == control.points;
      trackTrajectory := true;
    }

    /** Road-following; sets FreeDriving. */
    method CalcStreeringValue(actorAngle: real, probe: RoadProbe) returns (steering: real)
      requires Valid()
      modifies this`aiState
      ensures steering == RoadSteering(probe, actorAngle, maximumSteerAngle)
      ensures aiState == FreeDriving
    {
      steering := 0.0;
      if !probe.right.isRoad {
        steering := steering - 0.2;
      }
      if !probe.left.isRoad {
        steering := steering + 0.2;
      }
      if !probe.center.isRoad {
        steering := -1.0;
      } else if probe.center.hasDirection {
        var dirAngle := probe.center.heading;
        if OutsideLaneWindow(probe.right.heading, dirAngle) {
          steering := steering - 0.2;
        }
        if OutsideLaneWindow(probe.left.heading, dirAngle) {
          steering := steering + 0.2;
        }
        var angle := WrapAngle(dirAngle - actorAngle);
        if angle < -maximumSteerAngle {
          steering := -1.0;
        } else if angle > maximumSteerAngle {
          steering := 1.0;
        } else {
          HeadingSteeringWithinLock(angle, maximumSteerAngle);
          steering := steering + angle / maximumSteerAngle;
        }
      }
      aiState := FreeDriving;
    }

    /** The saturated heading error toward `target`, seen from `current`. */
    method SteerToward(target: Vector3, current: Vector3, actorAngle: real, headingOf: Vector3 -> real)
      returns (steering: real)
      requires Valid()
      ensures steering == HeadingSteering(WrapAngle(headingOf(Sub(target, current)) - actorAngle), maximumSteerAngle)
      ensures -1.0 <= steering <= 1.0
    {
      var direction := Sub(target, current);
      var angle := headingOf(direction) - actorAngle;
      if angle > 180.0 {
        angle := angle - 360.0;
      } else if angle < -180.0 {
        angle := angle + 360.0;
      }
      assert angle == WrapAngle(headingOf(direction) - actorAngle);
      steering := 0.0;
      if angle < -maximumSteerAngle {
        steering := -1.0;
        assert steering == HeadingSteering(angle, maximumSteerAngle);
      } else if angle > maximumSteerAngle {
        steering := 1.0;
        assert steering == HeadingSteering(angle, maximumSteerAngle);
      } else {
        HeadingSteeringWithinLock(angle, maximumSteerAngle);
        steering := steering + angle / maximumSteerAngle;
        assert steering == HeadingSteering(angle, maximumSteerAngle);
      }
    }

    /** Drops the reached targets, then steers toward the next one or falls back to road-following. */
    method GoToNextTargetLocation(
      current: Vector3, actorAngle: real, headingOf: Vector3 -> real, probe: RoadProbe)
      returns (steering: real)
      requires Valid() && targetLocations != []
      modifies this`targetLocations, this`aiState
      decreases |targetLocations|
      ensures targetLocations == DropReached(old(targetLocations), current)
      ensures Steering(steering, aiState) ==
                FollowRoute(old(targetLocations), current, actorAngle, headingOf, probe, maximumSteerAngle)
    {
      if Reached(targetLocations[0], current) {
        FollowRouteSkipsReached(targetLocations, current, actorAngle, headingOf, probe, maximumSteerAngle);
        targetLocations := targetLocations[1..];
        if targetLocations != [] {
          steering := GoToNextTargetLocation(current, actorAngle, headingOf, probe);
        } else {
          assert FollowRoute([], current, actorAngle, headingOf, probe, maximumSteerAngle)
                 == Steering(RoadSteering(probe, actorAngle, maximumSteerAngle), FreeDriving);
          steering := CalcStreeringValue(actorAngle, probe);
        }
      } else {
        FollowRouteTowardHead(targetLocations, current, actorAngle, headingOf, probe, maximumSteerAngle);
        steering := SteerToward(SteeringTarget(targetLocations[0], current), current, actorAngle, headingOf);
        aiState := FollowingFixedRoute;
      }
    }

    /** The steering of a tick: the route while targets remain, road-following otherwise. */
    method FollowRouteStep(current: Vector3, actorAngle: real, headingOf: Vector3 -> real, probe: RoadProbe)
      returns (steering: real)
      requires Valid()
      modifies this`targetLocations, this`aiState
      ensures targetLocations == DropReached(old(targetLocations), current)
      ensures Steering(steering, aiState) ==
                FollowRoute(old(targetLocations), current, actorAngle, headingOf, probe, maximumSteerAngle)
    {
      if targetLocations != [] {
        steering := GoToNextTargetLocation(current, actorAngle, headingOf, probe);
      } else {
        assert FollowRoute([], current, actorAngle, headingOf, probe, maximumSteerAngle)
               == Steering(RoadSteering(probe, actorAngle, maximumSteerAngle), FreeDriving);
        steering := CalcStreeringValue(actorAngle, probe);
      }
    }

    /** The throttle of a tick: the light first, then the obstacle probe, then the speed law. */
    method DecideThrottle(speed: real, obstacleAhead: bool) returns (throttle: real)
      requires Valid()
      modifies this`aiState
      ensures var decision := ThrottleDecision(trafficLight, speed, obstacleAhead, speedLimit);
              throttle == decision.throttle
              && aiState == (if decision.state.Some? then decision.state.value else old(aiState))
    {
      if trafficLight != Green {
        aiState := WaitingForRedLight;
        throttle := Stop(speed, speedLimit);
      } else if obstacleAhead {
        aiState := ObstacleAhead;
        throttle := Stop(speed, speedLimit);
      } else {
        throttle := Move(speed, speedLimit);
      }
    }

    /** The brake mapping and the steering written into AutopilotControl. */
    method WriteAutopilotControl(throttle: real, steering: real)
      modifies this`autopilotControl
      ensures autopilotControl == ControlFromThrottle(old(autopilotControl), throttle, steering)
    {
      if throttle < MinThrottle {
        autopilotControl := autopilotControl.(brake := 1.0, throttle := 0.0);
      } else {
        autopilotControl := autopilotControl.(brake := 0.0, throttle := throttle);
      }
      autopilotControl := autopilotControl.(steer := steering);
    }

    /**
     * One autopilot decision: nothing without a road map; otherwise the
     * route's steering, the light / obstacle / speed throttle and the brake
     * mapping into AutopilotControl.
     */
    method TickAutopilotController(
      roadMapPresent: bool, current: Vector3, actorAngle: real, headingOf: Vector3 -> real,
      probe: RoadProbe, forwardSpeed: real, obstacleAhead: bool)
      requires Valid()
      modifies this`targetLocations, this`aiState, this`autopilotControl
      ensures !roadMapPresent ==> unchanged(this)
      ensures roadMapPresent ==>
                var route := FollowRoute(old(targetLocations), current, actorAngle, headingOf, probe, maximumSteerAngle);
                var decision := ThrottleDecision(old(trafficLight), forwardSpeed * SpeedToKmh, obstacleAhead, speedLimit);
                && targetLocations == DropReached(old(targetLocations), current)
                && autopilotControl == ControlFromThrottle(old(autopilotControl), decision.throttle, route.value)
                && aiState == (if decision.state.Some? then decision.state.value else route.state)
    {
      if !roadMapPresent {
        return;
      }
      var steering := FollowRouteStep(current, actorAngle, headingOf, probe);
      var speed := forwardSpeed * SpeedToKmh;
      var throttle := DecideThrottle(speed, obstacleAhead);
      WriteAutopilotControl(throttle, steering);
    }

    /** Tick: decide, then hand the autopilot's control to the vehicle when the autopilot is on. */
    method Tick(
      roadMapPresent: bool, current: Vector3, actorAngle: real, headingOf: Vector3 -> real,
      probe: RoadProbe, forwardSpeed: real, obstacleAhead: bool)
      requires Valid()
      modifies this`targetLocations, this`aiState, this`autopilotControl, this`vehicleInputs
      ensures vehicleInputs == (if autopilotEnabled then autopilotControl else old(vehicleInputs))
      ensures !roadMapPresent ==>
                && targetLocations == old(targetLocations) && aiState == old(aiState)
                && autopilotControl == old(autopilotControl)
      ensures roadMapPresent ==>
                var route := FollowRoute(old(targetLocations), current, actorAngle, headingOf, probe, maximumSteerAngle);
                var decision := ThrottleDecision(old(trafficLight), forwardSpeed * SpeedToKmh, obstacleAhead, speedLimit);
                && targetLocations == DropReached(old(targetLocations), current)
                && autopilotControl == ControlFromThrottle(old(autopilotControl), decision.throttle, route.value)
                && aiState == (if decision.state.Some? then decision.state.value else route.state)
    {
      TickAutopilotController(roadMapPresent, current, actorAngle, headingOf, probe, forwardSpeed, obstacleAhead);
      if autopilotEnabled {
        vehicleInputs := autopilotControl;
      }
    }
  }
}
