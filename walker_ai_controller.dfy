/**
 * The pedestrian controller (Walker/WalkerAIController.cpp): a FIFO of timed
 * waypoints that an external client fills, the navigation step that turns
 * its head into a path request with a bounded walking speed, and the status
 * machine driven by ticks, perception, damage and move completion.
 *
 * Engine collaborators are inputs: `NavOracle` gives the outcome of the
 * teleport (SetActorLocation), of the move request (MoveToLocation) and the
 * length of the path found; `MoveRequestOracle` whether the current move
 * request id is valid and whether PauseMove / ResumeMove succeeded;
 * the path-following status is a `PathFollowingStatus` argument; segment
 * intersection is a function argument.
 */
module WalkerNavigation {
  import opened CarlaTypes

  const WalkerMaxTimePaused: real := 5.0
  const MinWalkSpeed: real := 50.0
  const MaxWalkSpeed: real := 200.0
  const VehicleSafetyRadius: real := 600.0
  const PrevisionTimeInSeconds: real := 5.0
  const WalkerSightRadius: real := 100.0
  const WalkerSpeedDamping: real := 4.0

  /** EWalkerStatus */
  datatype WalkerStatus = Moving | Paused | RunOver | Stuck | MoveCompleted

  /** EPathFollowingStatus, as reported by the path-following component. */
  datatype PathFollowingStatus = FollowIdle | FollowWaiting | FollowPaused | FollowMoving

  /** TPair<float, FVector>: a time budget and a target point. */
  datatype Waypoint = Waypoint(time: real, point: Vector3)

  /** The value stored in MaxWalkSpeed: a number, or NaN from 0 / 0. */
  datatype WalkSpeed = Speed(value: real) | NotANumber

  datatype NavOracle = NavOracle(teleportOk: bool, moveOk: bool, pathLength: real)

  datatype MoveRequestOracle = MoveRequestOracle(idValid: bool, accepted: bool)

  // ---------------------------------------------------------------------------
  // Walking speed
  // ---------------------------------------------------------------------------

  /** The speed limited to [50, 200]. */
  function ClampSpeed(speed: real): (r: real)
    ensures MinWalkSpeed <= r <= MaxWalkSpeed
    ensures MinWalkSpeed <= speed <= MaxWalkSpeed ==> r == speed
    ensures speed > MaxWalkSpeed ==> r == MaxWalkSpeed
    ensures speed < MinWalkSpeed ==> r == MinWalkSpeed
  {
    if speed > MaxWalkSpeed then MaxWalkSpeed
    else if speed < MinWalkSpeed then MinWalkSpeed
    else speed
  }

  /**
   * Distance / Time, then the clamp, with the division taken in IEEE
   * floating point for a budget that is not positive: +inf for a positive
   * distance over zero (clamped to 200), NaN for 0 / 0 (which no comparison
   * clamps), and a non-positive quotient for a negative budget (clamped to 50).
   */
  function RequiredSpeed(distance: real, time: real): (r: WalkSpeed)
    requires distance >= 0.0
    ensures time > 0.0 ==> r == Speed(ClampSpeed(distance / time))
    ensures r.Speed? ==> MinWalkSpeed <= r.value <= MaxWalkSpeed
    ensures r.NotANumber? <==> time == 0.0 && distance == 0.0
  {
    if time > 0.0 then Speed(ClampSpeed(distance / time))
    else if time == 0.0 then (if distance > 0.0 then Speed(MaxWalkSpeed) else NotANumber)
    else Speed(MinWalkSpeed)
  }

  /** With a positive budget, a path walkable within [50, 200] gets exactly its required speed. */
  lemma RequiredSpeedExact(distance: real, time: real)
    requires distance >= 0.0 && time > 0.0
    requires MinWalkSpeed * time <= distance <= MaxWalkSpeed * time
    ensures RequiredSpeed(distance, time) == Speed(distance / time)
  {
    assert MinWalkSpeed <= distance / time <= MaxWalkSpeed by {
      assert (distance / time) * time == distance;
    }
  }

  // ---------------------------------------------------------------------------
  // The waypoint queue
  // ---------------------------------------------------------------------------

  /** The supplied pairs (Times[i], Points[i]) in index order. */
  function Pairs(points: seq<Vector3>, times: seq<real>): (r: seq<Waypoint>)
    requires |times| >= |points|
    ensures |r| == |points|
    ensures forall i :: 0 <= i < |points| ==> r[i] == Waypoint(times[i], points[i])
  {
    seq(|points|, i requires 0 <= i < |points| => Waypoint(times[i], points[i]))
  }

  /** The queue after SetControl's fill loop. */
  function Enqueued(queue: seq<Waypoint>, control: WalkerControl): (r: seq<Waypoint>)
    requires |control.times| >= |control.points|
    ensures control.reset ==> r == Pairs(control.points, control.times)
    ensures !control.reset ==> |queue| <= |r| && r[..|queue|] == queue
    ensures !control.reset ==> r == queue + Pairs(control.points, control.times)
    ensures |r| == (if control.reset then 0 else |queue|) + |control.points|
  {
    (if control.reset then [] else queue) + Pairs(control.points, control.times)
  }

  /**
   * What SetNavWaypoint does to the queue: `navigated` is its result,
   * `rest` the queue afterwards, `teleport` the point the pawn was moved to
   * and `request` the waypoint a path was requested to.
   */
  datatype NavStep = NavStep(
    navigated: bool,
    rest: seq<Waypoint>,
    teleport: Option<Vector3>,
    request: Option<Waypoint>)

  function NavigateNext(queue: seq<Waypoint>, teleportOk: bool, moveOk: bool): (r: NavStep)
    ensures queue == [] ==> r == NavStep(false, [], None, None)
    ensures queue != [] ==> |r.rest| < |queue| && IsSuffix(r.rest, queue)
    ensures queue != [] ==>
              |r.rest| == |queue| - (if queue[0].time <= 0.0 && teleportOk && |queue| > 1 then 2 else 1)
    ensures r.teleport.Some? <==> queue != [] && queue[0].time <= 0.0 && teleportOk
    ensures r.teleport.Some? ==> r.teleport.value == queue[0].point
    ensures r.request.Some? ==> r.request.value == queue[|queue| - |r.rest| - 1]
    ensures r.request.None? <==> queue == [] || (r.teleport.Some? && |queue| == 1)
    ensures r.request.None? ==> r.navigated == (queue != [])
    ensures r.request.Some? ==> r.navigated == moveOk
  {
    if queue == [] then NavStep(false, [], None, None)
    else
      var head, tail := queue[0], queue[1..];
      if head.time <= 0.0 && teleportOk then
        if tail == [] then NavStep(true, [], Some(head.point), None)
        else NavStep(moveOk, tail[1..], Some(head.point), Some(tail[0]))
      else NavStep(moveOk, tail, None, Some(head))
  }

  /**
   * A waypoint with a zero budget followed by another: the pawn is moved to
   * the first and the path request goes to the second, with its budget.
   */
  lemma ZeroBudgetTeleportsBeforeRequest(p: Vector3, next: Waypoint, rest: seq<Waypoint>)
    ensures var r := NavigateNext([Waypoint(0.0, p), next] + rest, true, true);
            r.teleport == Some(p) && r.request == Some(next) && r.rest == rest
  {
    var q := [Waypoint(0.0, p), next] + rest;
    assert q[1..][1..] == rest;
  }

  // ---------------------------------------------------------------------------
  // The controller's observable state and the step functions on it
  // ---------------------------------------------------------------------------

  /**
   * Status, TimeInState, bClientControlled and ControlWaypoints of the
   * controller, with the pawn's location and MaxWalkSpeed and the goal of
   * the last move request handed to the path-following component.
   */
  datatype WalkerView = WalkerView(
    status: WalkerStatus,
    timeInState: real,
    clientControlled: bool,
    queue: seq<Waypoint>,
    location: Vector3,
    maxWalkSpeed: WalkSpeed,
    requestedGoal: Option<Vector3>)

  /** ChangeStatus: nothing when the status is already `s`, else the clock restarts. */
  function StatusChanged(v: WalkerView, s: WalkerStatus): (r: WalkerView)
    ensures r.status == s
    ensures s == v.status ==> r == v
    ensures s != v.status ==> r.timeInState == 0.0 && r == v.(status := s, timeInState := 0.0)
  {
    if s == v.status then v else v.(status := s, timeInState := 0.0)
  }

  /** MoveTo: a move request to `goal` enters the Moving status. */
  function MoveRequested(v: WalkerView, goal: Vector3): (r: WalkerView)
    ensures r.status == Moving && r.requestedGoal == Some(goal)
  {
    StatusChanged(v, Moving).(requestedGoal := Some(goal))
  }

  /** SetNavWaypoint: the new state and the returned flag. */
  function NavWaypointStep(v: WalkerView, o: NavOracle): (r: (WalkerView, bool))
    requires o.pathLength >= 0.0
    ensures r.0.clientControlled == v.clientControlled
    ensures |r.0.queue| <= |v.queue| && IsSuffix(r.0.queue, v.queue)
    ensures v.queue != [] ==> |r.0.queue| < |v.queue|
    ensures r.0.status == v.status || r.0.status == Moving
    ensures r.1 ==> v.queue != []
  {
    var step := NavigateNext(v.queue, o.teleportOk, o.moveOk);
    var moved := v.(queue := step.rest,
                    location := if step.teleport.Some? then step.teleport.value else v.location);
    match step.request
    case None => (moved, step.navigated)
    case Some(target) =>
      (MoveRequested(moved, target.point).(maxWalkSpeed := RequiredSpeed(o.pathLength, target.time)),
       step.navigated)
  }

  /**
   * SetNavWaypoint never touches bClientControlled; it changes the status
   * only to Moving and only with a path request, and it sets the speed limit
   * from the requested waypoint's budget.
   */
  lemma NavWaypointStepEffects(v: WalkerView, o: NavOracle)
    requires o.pathLength >= 0.0
    ensures var (w, ok) := NavWaypointStep(v, o);
            var step := NavigateNext(v.queue, o.teleportOk, o.moveOk);
            && w.clientControlled == v.clientControlled
            && w.queue == step.rest
            && ok == step.navigated
            && (v.queue == [] ==> w == v && !ok)
            && (step.request.None? ==> w.status == v.status && w.timeInState == v.timeInState
                                       && w.maxWalkSpeed == v.maxWalkSpeed)
            && (step.request.Some? ==>
                  w.status == Moving && w.requestedGoal == Some(step.request.value.point)
                  && w.maxWalkSpeed == RequiredSpeed(o.pathLength, step.request.value.time))
  {
  }

  /** SetControl: fill the queue, then navigate if not yet client-controlled or on reset. */
  function ControlApplied(v: WalkerView, control: WalkerControl, o: NavOracle): (r: WalkerView)
    requires |control.times| >= |control.points| && o.pathLength >= 0.0
    ensures var q := Enqueued(v.queue, control);
            |r.queue| <= |q| && IsSuffix(r.queue, q)
    ensures v.clientControlled && !control.reset ==> r.clientControlled
    ensures r.clientControlled ==> v.clientControlled || Enqueued(v.queue, control) != []
    ensures r.status == v.status || r.status == Moving
  {
    var filled := v.(queue := Enqueued(v.queue, control));
    if !v.clientControlled || control.reset then
      var (w, ok) := NavWaypointStep(filled, o);
      w.(clientControlled := ok)
    else
      filled
  }

  /**
   * After SetControl with bReset the queue is exactly the supplied pairs,
   * less the one or two waypoints the navigation step took, whatever it held
   * before.
   */
  lemma ResetControlReplacesQueue(v: WalkerView, control: WalkerControl, o: NavOracle)
    requires |control.times| >= |control.points| && o.pathLength >= 0.0
    requires control.reset
    ensures var supplied := Pairs(control.points, control.times);
            var step := NavigateNext(supplied, o.teleportOk, o.moveOk);
            && ControlApplied(v, control, o).queue == step.rest
            && ControlApplied(v, control, o).clientControlled == step.navigated
  {
    var filled := v.(queue := Enqueued(v.queue, control));
    assert filled.queue == Pairs(control.points, control.times);
    var (w, ok) := NavWaypointStep(filled, o);
    NavWaypointStepEffects(filled, o);
    assert ControlApplied(v, control, o) == w.(clientControlled := ok);
  }

  /**
   * Without bReset, an already client-controlled walker only queues the
   * supplied pairs after the existing ones; nothing else changes.
   */
  lemma ControlAppendsWhenClientControlled(v: WalkerView, control: WalkerControl, o: NavOracle)
    requires |control.times| >= |control.points| && o.pathLength >= 0.0
    requires v.clientControlled && !control.reset
    ensures ControlApplied(v, control, o) == v.(queue := v.queue + Pairs(control.points, control.times))
  {
  }

  /**
   * SetControl's outcome on the filled queue `q`.  With the navigation step
   * (the walker was not client-controlled, or bReset), bClientControlled
   * becomes the step's result and the queue loses what the step took; the
   * walker enters Moving exactly when a path is requested.  Without it, only
   * the queue changes.
   */
  lemma ControlNavigatesIff(v: WalkerView, control: WalkerControl, o: NavOracle)
    requires |control.times| >= |control.points| && o.pathLength >= 0.0
    ensures var q := Enqueued(v.queue, control);
            var s := NavigateNext(q, o.teleportOk, o.moveOk);
            var r := ControlApplied(v, control, o);
            && (!v.clientControlled || control.reset ==>
                  && r.clientControlled == s.navigated
                  && r.queue == s.rest
                  && (s.request.Some? ==> r.status == Moving && r.requestedGoal == Some(s.request.value.point))
                  && (s.request.None? ==> r.status == v.status && r.timeInState == v.timeInState))
            && (v.clientControlled && !control.reset ==>
                  && r.clientControlled == v.clientControlled
                  && r.queue == q
                  && r.status == v.status && r.timeInState == v.timeInState
                  && r.location == v.location && r.maxWalkSpeed == v.maxWalkSpeed
                  && r.requestedGoal == v.requestedGoal)
  {
    var filled := v.(queue := Enqueued(v.queue, control));
    NavWaypointStepEffects(filled, o);
  }

  /** TryResumeMovement */
  function ResumeAttempted(v: WalkerView, req: MoveRequestOracle): (r: WalkerView)
    ensures v.status == Moving ==> r == v
    ensures r != v ==> r == StatusChanged(v, Moving)
  {
    if v.status != Moving && req.idValid && req.accepted then StatusChanged(v, Moving) else v
  }

  /** TryPauseMovement */
  function PauseAttempted(v: WalkerView, itWasRunOver: bool, req: MoveRequestOracle): (r: WalkerView)
    ensures v.status == Paused || v.status == RunOver ==> r == v
    ensures r != v ==> r == StatusChanged(v, if itWasRunOver then RunOver else Paused)
  {
    if v.status != Paused && v.status != RunOver && req.idValid && req.accepted
    then StatusChanged(v, if itWasRunOver then RunOver else Paused)
    else v
  }

  /** A successful pause of a walker that is neither paused nor run over. */
  lemma PauseSucceeds(v: WalkerView, itWasRunOver: bool, req: MoveRequestOracle)
    requires v.status != Paused && v.status != RunOver && req.idValid && req.accepted
    ensures PauseAttempted(v, itWasRunOver, req).status == (if itWasRunOver then RunOver else Paused)
    ensures PauseAttempted(v, itWasRunOver, req).timeInState == 0.0
  {
  }

  /** OnPawnTookDamage: try a run-over pause, then force RunOver. */
  function DamageTaken(v: WalkerView, req: MoveRequestOracle): (r: WalkerView)
    ensures r.status == RunOver
    ensures r.queue == v.queue && r.clientControlled == v.clientControlled
  {
    StatusChanged(PauseAttempted(v, true, req), RunOver)
  }

  /** Damage to a walker that is not yet run over restarts its clock, whether the pause succeeded or not. */
  lemma DamageRestartsClock(v: WalkerView, req: MoveRequestOracle)
    requires v.status != RunOver
    ensures DamageTaken(v, req).timeInState == 0.0
  {
  }

  /** OnMoveCompleted */
  function MoveCompletedStep(v: WalkerView, o: NavOracle): (r: WalkerView)
    requires o.pathLength >= 0.0
    ensures r.clientControlled == v.clientControlled
    ensures |r.queue| <= |v.queue| && IsSuffix(r.queue, v.queue)
    ensures r.status == MoveCompleted || r.status == Moving || r.status == v.status
  {
    if v.clientControlled && v.queue != [] then NavWaypointStep(v, o).0
    else StatusChanged(v, MoveCompleted)
  }

  /**
   * A completed move advances a client-controlled walker with queued
   * waypoints by one navigation step (whose result is dropped); any other
   * walker ends in MoveCompleted with its queue untouched.
   */
  lemma MoveCompletedAdvancesOrCompletes(v: WalkerView, o: NavOracle)
    requires o.pathLength >= 0.0
    ensures v.clientControlled && v.queue != [] ==>
              MoveCompletedStep(v, o).queue == NavigateNext(v.queue, o.teleportOk, o.moveOk).rest
              && |MoveCompletedStep(v, o).queue| < |v.queue|
              && MoveCompletedStep(v, o).clientControlled
    ensures !(v.clientControlled && v.queue != []) ==>
              MoveCompletedStep(v, o).status == MoveCompleted && MoveCompletedStep(v, o).queue == v.queue
    ensures !v.clientControlled ==> MoveCompletedStep(v, o).status == MoveCompleted
  {
  }

  /** Tick */
  function Ticked(v: WalkerView, dt: real, moveStatus: PathFollowingStatus, o: NavOracle, req: MoveRequestOracle): (r: WalkerView)
    requires o.pathLength >= 0.0
    ensures r.clientControlled == v.clientControlled
    ensures |r.queue| <= |v.queue| && IsSuffix(r.queue, v.queue)
    ensures v.status == RunOver ==> r.status == RunOver
    ensures r.status == v.status || r.status == Moving || r.status == Stuck
    ensures r.status != v.status ==> r.timeInState == 0.0
  {
    var w := v.(timeInState := v.timeInState + dt);
    if w.status == RunOver then w else Followed(w, moveStatus, o, req)
  }

  /**
   * Tick's reaction to the path-following status: an idle walker retries
   * (client-controlled) or is Stuck, a paused one resumes after five seconds.
   */
  function Followed(w: WalkerView, moveStatus: PathFollowingStatus, o: NavOracle, req: MoveRequestOracle): (r: WalkerView)
    requires o.pathLength >= 0.0
    ensures r.clientControlled == w.clientControlled
    ensures |r.queue| <= |w.queue| && IsSuffix(r.queue, w.queue)
    ensures r.status == w.status || r.status == Moving || r.status == Stuck
    ensures r.status != w.status ==> r.timeInState == 0.0
    ensures moveStatus == FollowWaiting || moveStatus == FollowMoving ==> r == w
  {
    match moveStatus
    case FollowIdle =>
      if w.clientControlled then NavWaypointStep(w, o).0 else StatusChanged(w, Stuck)
    case FollowPaused =>
      if w.timeInState > WalkerMaxTimePaused then ResumeAttempted(w, req) else w
    case _ => w
  }

  /** A run-over walker only accumulates time: no retry, no Stuck, no resume. */
  lemma TickRunOverOnlyAdvancesClock(v: WalkerView, dt: real, m: PathFollowingStatus, o: NavOracle, req: MoveRequestOracle)
    requires o.pathLength >= 0.0 && v.status == RunOver
    ensures Ticked(v, dt, m, o, req) == v.(timeInState := v.timeInState + dt)
  {
  }

  /** An idle walker that is not client-controlled becomes Stuck. */
  lemma TickIdleUncontrolledGetsStuck(v: WalkerView, dt: real, o: NavOracle, req: MoveRequestOracle)
    requires o.pathLength >= 0.0 && v.status != RunOver && !v.clientControlled
    ensures Ticked(v, dt, FollowIdle, o, req).status == Stuck
    ensures Ticked(v, dt, FollowIdle, o, req).queue == v.queue
  {
  }

  /** An idle client-controlled walker retries navigation. */
  lemma TickIdleControlledRetries(v: WalkerView, dt: real, o: NavOracle, req: MoveRequestOracle)
    requires o.pathLength >= 0.0 && v.status != RunOver && v.clientControlled
    ensures Ticked(v, dt, FollowIdle, o, req) == NavWaypointStep(v.(timeInState := v.timeInState + dt), o).0
  {
    var w := v.(timeInState := v.timeInState + dt);
    assert Ticked(v, dt, FollowIdle, o, req) == Followed(w, FollowIdle, o, req);
    assert Followed(w, FollowIdle, o, req) == NavWaypointStep(w, o).0;
  }

  /**
   * A walker whose movement is paused attempts a resume once its time in
   * state exceeds five seconds, and not before.
   */
  lemma TickPausedResumesAfterFiveSeconds(v: WalkerView, dt: real, o: NavOracle, req: MoveRequestOracle)
    requires o.pathLength >= 0.0 && v.status != RunOver
    ensures var w := v.(timeInState := v.timeInState + dt);
            Ticked(v, dt, FollowPaused, o, req) ==
              if w.timeInState > WalkerMaxTimePaused then ResumeAttempted(w, req) else w
    ensures v.status != Moving && v.timeInState + dt > WalkerMaxTimePaused && req.idValid && req.accepted ==>
              Ticked(v, dt, FollowPaused, o, req).status == Moving
              && Ticked(v, dt, FollowPaused, o, req).timeInState == 0.0
  {
    var w := v.(timeInState := v.timeInState + dt);
    assert Ticked(v, dt, FollowPaused, o, req) == Followed(w, FollowPaused, o, req);
  }

  /**
   * Ticks, perception and further damage leave a run-over walker in RunOver,
   * and a resume leaves it exactly when the move request accepts.  This is not
   * terminal: OnMoveCompleted has no RunOver guard, so a completed move still
   * takes the walker to MoveCompleted or, when client-controlled with queued
   * waypoints, into a navigation step.
   */
  lemma RunOverSurvivesTicksAndDamage(
    v: WalkerView, dt: real, m: PathFollowingStatus, o: NavOracle, req: MoveRequestOracle, hit: bool, pawn: bool)
    requires o.pathLength >= 0.0 && v.status == RunOver
    ensures Ticked(v, dt, m, o, req).status == RunOver
    ensures ActorsSensed(v, pawn, hit, req).status == RunOver
    ensures ResumeAttempted(v, req).status == Moving <==> req.idValid && req.accepted
    ensures DamageTaken(v, req) == v
    ensures !v.clientControlled ==> MoveCompletedStep(v, o).status == MoveCompleted
  {
  }

  // ---------------------------------------------------------------------------
  // Perception
  // ---------------------------------------------------------------------------

  /** An actor as perception reports it: a wheeled vehicle with its pose and speed, or anything else. */
  datatype Actor = VehicleActor(location: Vector3, forward: Vector3, forwardSpeed: real) | OtherActor

  datatype Segment = Segment(start: Vector3, end: Vector3)

  function Planar(v: Vector3): Vector3
  {
    Vector3(v.x, v.y, 0.0)
  }

  /** PawnPath of a walker: its sight line, 4 x 100 along its heading. */
  function WalkerPath(location: Vector3, forward: Vector3): (r: Segment)
    ensures r.start == Planar(location)
    ensures Sub(r.end, r.start) == Scale(forward, WalkerSpeedDamping * WalkerSightRadius)
  {
    Segment(Planar(location), Add(Planar(location), Scale(Scale(forward, WalkerSpeedDamping), WalkerSightRadius)))
  }

  /** PawnPath of a vehicle: 600 behind it to 600 plus five seconds of travel ahead. */
  function VehiclePath(location: Vector3, forward: Vector3, speed: real): (r: Segment)
    ensures Sub(Planar(location), r.start) == Scale(forward, VehicleSafetyRadius)
    ensures Sub(r.end, r.start) == Scale(forward, 2.0 * VehicleSafetyRadius + speed * PrevisionTimeInSeconds)
  {
    Segment(Sub(Planar(location), Scale(forward, VehicleSafetyRadius)),
            Add(Planar(location), Scale(forward, VehicleSafetyRadius + speed * PrevisionTimeInSeconds)))
  }

  /** Whether `actor` is a wheeled vehicle whose path crosses the walker's sight line. */
  function VehicleCrosses(
    location: Vector3, forward: Vector3, actor: Actor, segmentsIntersect: (Segment, Segment) -> bool): (r: bool)
    ensures r ==> actor.VehicleActor?
    ensures r ==> segmentsIntersect(WalkerPath(location, forward),
                                    VehiclePath(actor.location, actor.forward, actor.forwardSpeed))
  {
    actor.VehicleActor? &&
    segmentsIntersect(WalkerPath(location, forward), VehiclePath(actor.location, actor.forward, actor.forwardSpeed))
  }

  /** Both paths are taken at height zero: neither pawn's height changes the crossing test. */
  lemma CrossingIsPlanar(
    location: Vector3, forward: Vector3, actor: Actor, segmentsIntersect: (Segment, Segment) -> bool,
    walkerHeight: real, vehicleHeight: real)
    ensures VehicleCrosses(location.(z := walkerHeight), forward, actor, segmentsIntersect)
            == VehicleCrosses(location, forward, actor, segmentsIntersect)
    ensures actor.VehicleActor? ==>
              VehicleCrosses(location, forward, actor.(location := actor.location.(z := vehicleHeight)), segmentsIntersect)
              == VehicleCrosses(location, forward, actor, segmentsIntersect)
  {
  }

  /** IntersectsWithVehicle: some perceived vehicle's path crosses the walker's sight line. */
  method IntersectsWithVehicle(
    location: Vector3, forward: Vector3, actors: seq<Actor>, segmentsIntersect: (Segment, Segment) -> bool)
    returns (hit: bool)
    ensures hit <==> exists k :: 0 <= k < |actors| && VehicleCrosses(location, forward, actors[k], segmentsIntersect)
  {
    for i := 0 to |actors|
      invariant forall k :: 0 <= k < i ==> !VehicleCrosses(location, forward, actors[k], segmentsIntersect)
    {
      var actor := actors[i];
      if actor.VehicleActor? &&
         segmentsIntersect(WalkerPath(location, forward),
                           VehiclePath(actor.location, actor.forward, actor.forwardSpeed)) {
        return true;
      }
    }
    return false;
  }

  /** SenseActors, given whether there is a pawn and whether a vehicle crosses its path. */
  function ActorsSensed(v: WalkerView, pawnPresent: bool, vehicleCrosses: bool, req: MoveRequestOracle): (r: WalkerView)
    ensures r != v ==> v.status == Moving && vehicleCrosses && !v.clientControlled
  {
    if v.status == Moving && pawnPresent && vehicleCrosses && !v.clientControlled
    then PauseAttempted(v, false, req)
    else v
  }

  /**
   * A moving, autonomous walker whose path a vehicle crosses pauses, with its
   * clock restarted, when the pause request succeeds.
   */
  lemma CrossingVehiclePausesWalker(v: WalkerView, req: MoveRequestOracle)
    requires v.status == Moving && !v.clientControlled && req.idValid && req.accepted
    ensures ActorsSensed(v, true, true, req).status == Paused
    ensures ActorsSensed(v, true, true, req).timeInState == 0.0
  {
  }

  // ---------------------------------------------------------------------------
  // AWalkerAIController
  // ---------------------------------------------------------------------------

  class WalkerAIController {
    var status: WalkerStatus
    var timeInState: real
    var clientControlled: bool
    var controlWaypoints: seq<Waypoint>
    /** The possessed pawn's location, moved by a teleport. */
    var pawnLocation: Vector3
    /** The pawn's movement component's MaxWalkSpeed. */
    var maxWalkSpeed: WalkSpeed
    /** The goal of the last move request handed to the path-following component. */
    var requestedGoal: Option<Vector3>

    ghost function View(): WalkerView
      reads this
    {
      WalkerView(status, timeInState, clientControlled, controlWaypoints, pawnLocation, maxWalkSpeed, requestedGoal)
    }

    constructor (status: WalkerStatus, clientControlled: bool, location: Vector3, walkSpeed: real)
      ensures View() == WalkerView(status, 0.0, clientControlled, [], location, Speed(walkSpeed), None)
    {
      this.status := status;
      this.timeInState := 0.0;
      this.clientControlled := clientControlled;
      this.controlWaypoints := [];
      this.pawnLocation := location;
      this.maxWalkSpeed := Speed(walkSpeed);
      this.requestedGoal := None;
    }

    method ChangeStatus(s: WalkerStatus)
      modifies this
      ensures View() == StatusChanged(old(View()), s)
    {
      if s == status {
        return;
      }
      timeInState := 0.0;
      status := s;
    }

    /** MoveTo: every move request enters Moving before the path follower takes it. */
    method MoveTo(goal: Vector3, accepted: bool) returns (requested: bool)
      modifies this
      ensures View() == MoveRequested(old(View()), goal)
      ensures requested == accepted
    {
      ChangeStatus(Moving);
      requestedGoal := Some(goal);
      requested := accepted;
    }

    method SetNavWaypoint(o: NavOracle) returns (ok: bool)
      requires o.pathLength >= 0.0
      modifies this
      ensures (View(), ok) == NavWaypointStep(old(View()), o)
    {
      if controlWaypoints == [] {
        return false;
      }
      var target := controlWaypoints[0];
      controlWaypoints := controlWaypoints[1..];
      var timeToNavigate, waypoint := target.time, target.point;
      if timeToNavigate <= 0.0 {
        var success := o.teleportOk;
        if success {
          pawnLocation := waypoint;
          if controlWaypoints != [] {
            target := controlWaypoints[0];
            controlWaypoints := controlWaypoints[1..];
            timeToNavigate, waypoint := target.time, target.point;
          } else {
            return true;
          }
        }
      }
      ok := MoveTo(waypoint, o.moveOk);
      maxWalkSpeed := RequiredSpeed(o.pathLength, timeToNavigate);
    }

    method RetryMovement(o: NavOracle)
      requires o.pathLength >= 0.0
      modifies this
      ensures View() == NavWaypointStep(old(View()), o).0
    {
      var _ := SetNavWaypoint(o);
    }

    method SetControl(agentControl: SingleAgentControl, o: NavOracle)
      requires |agentControl.walkerControl.times| >= |agentControl.walkerControl.points| && o.pathLength >= 0.0
      modifies this
      ensures View() == ControlApplied(old(View()), agentControl.walkerControl, o)
    {
      var control := agentControl.walkerControl;
      if control.reset {
        controlWaypoints := [];
      }
      ghost var start := controlWaypoints;
      for i := 0 to |control.points|
        invariant controlWaypoints == start + Pairs(control.points, control.times)[..i]
        invariant status == old(status) && timeInState == old(timeInState)
        invariant clientControlled == old(clientControlled) && pawnLocation == old(pawnLocation)
        invariant maxWalkSpeed == old(maxWalkSpeed) && requestedGoal == old(requestedGoal)
      {
        var waypoint := Waypoint(control.times[i], control.points[i]);
        controlWaypoints := controlWaypoints + [waypoint];
        assert Pairs(control.points, control.times)[..i + 1] ==
               Pairs(control.points, control.times)[..i] + [waypoint];
      }
      assert Pairs(control.points, control.times)[..|control.points|] == Pairs(control.points, control.times);
      if !clientControlled || control.reset {
        clientControlled := SetNavWaypoint(o);
      }
    }

    method TryResumeMovement(req: MoveRequestOracle)
      modifies this
      ensures View() == ResumeAttempted(old(View()), req)
    {
      if status != Moving {
        if req.idValid && req.accepted {
          ChangeStatus(Moving);
        }
      }
    }

    method TryPauseMovement(itWasRunOver: bool, req: MoveRequestOracle)
      modifies this
      ensures View() == PauseAttempted(old(View()), itWasRunOver, req)
    {
      if status != Paused && status != RunOver {
        if req.idValid && req.accepted {
          ChangeStatus(if itWasRunOver then RunOver else Paused);
        }
      }
    }

    method OnPawnTookDamage(req: MoveRequestOracle)
      modifies this
      ensures View() == DamageTaken(old(View()), req)
    {
      TryPauseMovement(true, req);
      ChangeStatus(RunOver);
    }

    method OnMoveCompleted(o: NavOracle)
      requires o.pathLength >= 0.0
      modifies this
      ensures View() == MoveCompletedStep(old(View()), o)
    {
      if clientControlled && controlWaypoints != [] {
        var _ := SetNavWaypoint(o);
      } else {
        ChangeStatus(MoveCompleted);
      }
    }

    method Tick(dt: real, moveStatus: PathFollowingStatus, o: NavOracle, req: MoveRequestOracle)
      requires o.pathLength >= 0.0
      modifies this
      ensures View() == Ticked(old(View()), dt, moveStatus, o, req)
    {
      ghost var v := View();
      AdvanceClock(dt);
      assert Ticked(v, dt, moveStatus, o, req) ==
             if status == RunOver then View() else Followed(View(), moveStatus, o, req);
      if status != RunOver {
        FollowStatus(moveStatus, o, req);
      }
    }

    /** Tick's first step: the time in the current status grows by the frame time. */
    method AdvanceClock(dt: real)
      modifies this
      ensures View() == old(View()).(timeInState := old(timeInState) + dt)
    {
      timeInState := timeInState + dt;
    }

    /** Tick's switch on the path-following status. */
    method FollowStatus(moveStatus: PathFollowingStatus, o: NavOracle, req: MoveRequestOracle)
      requires o.pathLength >= 0.0
      modifies this
      ensures View() == Followed(old(View()), moveStatus, o, req)
    {
      match moveStatus {
        case FollowIdle =>
          if clientControlled {
            RetryMovement(o);
          } else {
            ChangeStatus(Stuck);
          }
        case FollowPaused =>
          if timeInState > WalkerMaxTimePaused {
            TryResumeMovement(req);
          }
        case _ =>
      }
    }

    /**
     * SenseActors: `forward` is the pawn's heading, `pawnPresent` whether the
     * controller has a pawn.
     */
    method SenseActors(
      actors: seq<Actor>, pawnPresent: bool, forward: Vector3,
      segmentsIntersect: (Segment, Segment) -> bool, req: MoveRequestOracle)
      modifies this
      ensures var crosses := exists k :: 0 <= k < |actors| &&
                               VehicleCrosses(old(pawnLocation), forward, actors[k], segmentsIntersect);
              View() == ActorsSensed(old(View()), pawnPresent, crosses, req)
    {
      if status == Moving && pawnPresent {
        var crosses := IntersectsWithVehicle(pawnLocation, forward, actors, segmentsIntersect);
        if crosses && !clientControlled {
          TryPauseMovement(false, req);
        }
      }
    }
  }
}
