/**
 * The server library's protocol encoder (carla/server/CarlaEncoder.cpp):
 * decoding of the control, new-episode and episode-start messages into the
 * C API's structures, and the sensor, agent and traffic-light mappings used
 * when encoding the scene and the measurements.
 *
 * A parsed protobuf message is a datatype value whose `initialized` field is
 * the outcome of `ParseFromString` followed by `IsInitialized`.
 */
module ServerEncoder {
  import opened CarlaTypes

  // ---------------------------------------------------------------------------
  // Parsed control message (cs::Control)
  // ---------------------------------------------------------------------------

  datatype TeleportParams = TeleportParams(location: Vector3, yaw: real)

  datatype VehicleControlMsg = VehicleControlMsg(
    steer: real,
    throttle: real,
    brake: real,
    handBrake: bool,
    reverse: bool,
    teleport: bool,
    teleportParams: TeleportParams)

  datatype WalkerControlMsg = WalkerControlMsg(waypoints: seq<Vector3>, waypointTimes: seq<real>)

  /** One `agent_controls` entry; `has_walker_control` / `has_vehicle_control` are the two options. */
  datatype AgentControlMsg = AgentControlMsg(
    id: int,
    walkerControl: Option<WalkerControlMsg>,
    vehicleControl: Option<VehicleControlMsg>)

  datatype ControlMsg = ControlMsg(
    initialized: bool,
    steer: real,
    throttle: real,
    brake: real,
    handBrake: bool,
    reverse: bool,
    agentControls: seq<AgentControlMsg>)

  /** carla_vehicle_control, the vehicle half of a decoded agent slot. */
  datatype VehicleControlSlot = VehicleControlSlot(
    steer: real,
    throttle: real,
    brake: real,
    handBrake: bool,
    reverse: bool,
    teleport: bool,
    teleportParams: TeleportParams)

  const DefaultVehicleSlot: VehicleControlSlot :=
    VehicleControlSlot(0.0, 0.0, 0.0, false, false, false, TeleportParams(Origin, 0.0))

  // ---------------------------------------------------------------------------
  // Counts
  // ---------------------------------------------------------------------------

  /** A length received from the sender, limited to a fixed capacity. */
  function ClampCount(n: nat, cap: nat): (r: nat)
    ensures r <= cap && r <= n
    ensures r == n || r == cap
  {
    if n > cap then cap else n
  }

  /** `number_of_agent_controls` for a message, given MAX_CONTROL_AGENTS. */
  function AgentCount(msg: ControlMsg, maxAgents: nat): (r: nat)
    ensures r <= maxAgents && r <= |msg.agentControls|
    ensures |msg.agentControls| <= maxAgents ==> r == |msg.agentControls|
    ensures |msg.agentControls| > maxAgents ==> r == maxAgents
  {
    ClampCount(|msg.agentControls|, maxAgents)
  }

  /**
   * The waypoint count the source computes: `waypoints_size` limited to
   * MAX_AGENT_CONTROL_WAYPOINTS.  Both copy loops run up to this bound, the
   * first one reading `waypoint_times(i)`, whose size is never consulted.
   */
  function AsWrittenWaypointCount(w: WalkerControlMsg, maxWaypoints: nat): (r: nat)
    ensures r <= maxWaypoints && r <= |w.waypoints|
    ensures |w.waypoints| <= maxWaypoints ==> r == |w.waypoints|
    ensures |w.waypoints| > maxWaypoints ==> r == maxWaypoints
  {
    ClampCount(|w.waypoints|, maxWaypoints)
  }

  /**
   * The waypoint count this model decodes: only indices present in both
   * repeated fields are read, limited to MAX_AGENT_CONTROL_WAYPOINTS.
   */
  function WaypointCount(w: WalkerControlMsg, maxWaypoints: nat): (r: nat)
    ensures r <= maxWaypoints && r <= |w.waypoints| && r <= |w.waypointTimes|
  {
    ClampCount(MinNat(|w.waypoints|, |w.waypointTimes|), maxWaypoints)
  }

  /** A message with one waypoint and no time makes the source read `waypoint_times(0)`. */
  lemma AsWrittenReadsPastWaypointTimes()
    ensures var w := WalkerControlMsg([Origin], []);
            AsWrittenWaypointCount(w, 1) > |w.waypointTimes|
  {
  }

  /**
   * Whenever the source's reads stay inside `waypoint_times` (in particular
   * when times and waypoints come in pairs), the decoded count is the source's
   * min(waypoints_size, MAX_AGENT_CONTROL_WAYPOINTS).
   */
  lemma WaypointCountMatchesSource(w: WalkerControlMsg, maxWaypoints: nat)
    requires AsWrittenWaypointCount(w, maxWaypoints) <= |w.waypointTimes|
    ensures WaypointCount(w, maxWaypoints) == AsWrittenWaypointCount(w, maxWaypoints)
    ensures |w.waypointTimes| >= |w.waypoints| ==>
              WaypointCount(w, maxWaypoints) == ClampCount(|w.waypoints|, maxWaypoints)
  {
  }

  /**
   * The decoded count differs from the source's exactly when the source
   * reads `waypoint_times` out of range.
   */
  lemma WaypointCountDiffersOnlyOnOverread(w: WalkerControlMsg, maxWaypoints: nat)
    ensures WaypointCount(w, maxWaypoints) != AsWrittenWaypointCount(w, maxWaypoints)
            <==> AsWrittenWaypointCount(w, maxWaypoints) > |w.waypointTimes|
  {
  }

  // ---------------------------------------------------------------------------
  // Which slot entries a decode writes
  // ---------------------------------------------------------------------------

  /** Entry j is decoded and carries a walker control. */
  predicate WalkerAt(msg: ControlMsg, j: nat, maxAgents: nat)
  {
    j < AgentCount(msg, maxAgents) && msg.agentControls[j].walkerControl.Some?
  }

  /** Entry j is decoded, carries a vehicle control and no walker control. */
  predicate VehicleAt(msg: ControlMsg, j: nat, maxAgents: nat)
  {
    j < AgentCount(msg, maxAgents)
    && msg.agentControls[j].walkerControl.None?
    && msg.agentControls[j].vehicleControl.Some?
  }

  /** Waypoint i of slot j is written by the decode. */
  predicate WaypointWritten(msg: ControlMsg, j: nat, i: nat, maxAgents: nat, maxWaypoints: nat)
  {
    WalkerAt(msg, j, maxAgents)
    && i < WaypointCount(msg.agentControls[j].walkerControl.value, maxWaypoints)
  }

  /**
   * The vehicle half of a slot after decoding `v` over `prev`: the inputs and
   * the flag are copied; the teleport parameters only when the flag is set.
   */
  function DecodeVehicleSlot(prev: VehicleControlSlot, v: VehicleControlMsg): (r: VehicleControlSlot)
    ensures r.teleport == v.teleport
    ensures r.teleportParams == if v.teleport then v.teleportParams else prev.teleportParams
    ensures r.steer == v.steer && r.throttle == v.throttle && r.brake == v.brake
    ensures r.handBrake == v.handBrake && r.reverse == v.reverse
  {
    var slot := prev.(steer := v.steer, throttle := v.throttle, brake := v.brake,
                      handBrake := v.handBrake, reverse := v.reverse, teleport := v.teleport);
    if slot.teleport then slot.(teleportParams := v.teleportParams) else slot
  }

  /** Decoding a vehicle entry without the teleport flag keeps the old teleport parameters. */
  lemma TeleportIgnoredWithoutFlag(prev: VehicleControlSlot, v: VehicleControlMsg, other: TeleportParams)
    requires !v.teleport
    ensures DecodeVehicleSlot(prev, v) == DecodeVehicleSlot(prev, v.(teleportParams := other))
  {
  }

  // ---------------------------------------------------------------------------
  // carla_control: fixed-capacity storage filled by Decode
  // ---------------------------------------------------------------------------

  /**
   * carla_control.  The per-agent array `agent_controls[MAX_CONTROL_AGENTS]`
   * is stored column-wise: ids, walker waypoint counts, the walker waypoint
   * and time buffers (row j, column i) and the vehicle halves.  The array
   * lengths are MAX_CONTROL_AGENTS and MAX_AGENT_CONTROL_WAYPOINTS.
   */
  class CarlaControl {
    var steer: real
    var throttle: real
    var brake: real
    var handBrake: bool
    var reverse: bool
    var numberOfAgentControls: nat
    const agentIds: array<int>
    const walkerWaypointCounts: array<nat>
    const walkerWaypoints: array2<Vector3>
    const walkerWaypointTimes: array2<real>
    const vehicleControls: array<VehicleControlSlot>

    ghost predicate Valid()
      reads this
    {
      && walkerWaypointCounts.Length == agentIds.Length
      && vehicleControls.Length == agentIds.Length
      && walkerWaypoints.Length0 == agentIds.Length
      && walkerWaypointTimes.Length0 == agentIds.Length
      && walkerWaypointTimes.Length1 == walkerWaypoints.Length1
      && numberOfAgentControls <= agentIds.Length
    }

    /** MAX_CONTROL_AGENTS */
    function MaxAgents(): nat
    {
      agentIds.Length
    }

    /** MAX_AGENT_CONTROL_WAYPOINTS */
    function MaxWaypoints(): nat
    {
      walkerWaypoints.Length1
    }

    constructor (maxAgents: nat, maxWaypoints: nat)
      ensures Valid()
      ensures MaxAgents() == maxAgents && MaxWaypoints() == maxWaypoints
      ensures numberOfAgentControls == 0
      ensures fresh(agentIds) && fresh(walkerWaypointCounts) && fresh(walkerWaypoints)
      ensures fresh(walkerWaypointTimes) && fresh(vehicleControls)
    {
      steer, throttle, brake, handBrake, reverse := 0.0, 0.0, 0.0, false, false;
      numberOfAgentControls := 0;
      agentIds := new int[maxAgents];
      walkerWaypointCounts := new nat[maxAgents];
      walkerWaypoints := new Vector3[maxAgents, maxWaypoints]((_, _) => Origin);
      walkerWaypointTimes := new real[maxAgents, maxWaypoints];
      vehicleControls := new VehicleControlSlot[maxAgents](_ => DefaultVehicleSlot);
    }

    /**
     * Copies the walker control `w` into slot j: first the times, then the
     * points, then the count.  Nothing outside row j, and nothing at or past
     * the decoded count, is written.
     */
    method DecodeWalkerRow(j: nat, w: WalkerControlMsg)
      requires Valid() && j < MaxAgents()
      modifies walkerWaypointCounts, walkerWaypoints, walkerWaypointTimes
      ensures walkerWaypointCounts[..] == old(walkerWaypointCounts[..])[j := WaypointCount(w, MaxWaypoints())]
      ensures forall k, i :: 0 <= k < walkerWaypoints.Length0 && 0 <= i < walkerWaypoints.Length1 ==>
                walkerWaypoints[k, i] ==
                  if k == j && i < WaypointCount(w, MaxWaypoints()) then w.waypoints[i]
                  else old(walkerWaypoints[k, i])
      ensures forall k, i :: 0 <= k < walkerWaypointTimes.Length0 && 0 <= i < walkerWaypointTimes.Length1 ==>
                walkerWaypointTimes[k, i] ==
                  if k == j && i < WaypointCount(w, MaxWaypoints()) then w.waypointTimes[i]
                  else old(walkerWaypointTimes[k, i])
    {
      var n := WaypointCount(w, MaxWaypoints());
      var i := 0;
      while i < n
        invariant 0 <= i <= n
        invariant forall k, m :: 0 <= k < walkerWaypointTimes.Length0 && 0 <= m < walkerWaypointTimes.Length1 ==>
                    walkerWaypointTimes[k, m] ==
                      if k == j && m < i then w.waypointTimes[m] else old(walkerWaypointTimes[k, m])
        invariant unchanged(walkerWaypoints)
        invariant unchanged(walkerWaypointCounts)
      {
        walkerWaypointTimes[j, i] := w.waypointTimes[i];
        i := i + 1;
      }
      i := 0;
      while i < n
        invariant 0 <= i <= n
        invariant forall k, m :: 0 <= k < walkerWaypoints.Length0 && 0 <= m < walkerWaypoints.Length1 ==>
                    walkerWaypoints[k, m] ==
                      if k == j && m < i then w.waypoints[m] else old(walkerWaypoints[k, m])
        invariant forall k, m :: 0 <= k < walkerWaypointTimes.Length0 && 0 <= m < walkerWaypointTimes.Length1 ==>
                    walkerWaypointTimes[k, m] ==
                      if k == j && m < n then w.waypointTimes[m] else old(walkerWaypointTimes[k, m])
        invariant unchanged(walkerWaypointCounts)
      {
        walkerWaypoints[j, i] := w.waypoints[i];
        i := i + 1;
      }
      walkerWaypointCounts[j] := n;
    }

    /**
     * One iteration of Decode's loop: entry j's id, then its walker row or
     * (only without a walker control) its vehicle half.
     */
    method DecodeEntry(msg: ControlMsg, j: nat)
      requires Valid() && j < AgentCount(msg, MaxAgents())
      modifies agentIds, walkerWaypointCounts, walkerWaypoints, walkerWaypointTimes, vehicleControls
      ensures agentIds[..] == old(agentIds[..])[j := msg.agentControls[j].id]
      ensures walkerWaypointCounts[..] ==
                if WalkerAt(msg, j, MaxAgents())
                then old(walkerWaypointCounts[..])[j := WaypointCount(msg.agentControls[j].walkerControl.value, MaxWaypoints())]
                else old(walkerWaypointCounts[..])
      ensures forall k, i :: 0 <= k < walkerWaypoints.Length0 && 0 <= i < walkerWaypoints.Length1 ==>
                walkerWaypoints[k, i] ==
                  if k == j && WaypointWritten(msg, k, i, MaxAgents(), MaxWaypoints())
                  then msg.agentControls[k].walkerControl.value.waypoints[i]
                  else old(walkerWaypoints[k, i])
      ensures forall k, i :: 0 <= k < walkerWaypointTimes.Length0 && 0 <= i < walkerWaypointTimes.Length1 ==>
                walkerWaypointTimes[k, i] ==
                  if k == j && WaypointWritten(msg, k, i, MaxAgents(), MaxWaypoints())
                  then msg.agentControls[k].walkerControl.value.waypointTimes[i]
                  else old(walkerWaypointTimes[k, i])
      ensures vehicleControls[..] ==
                if VehicleAt(msg, j, MaxAgents())
                then old(vehicleControls[..])[j := DecodeVehicleSlot(old(vehicleControls[j]), msg.agentControls[j].vehicleControl.value)]
                else old(vehicleControls[..])
    {
      var entry := msg.agentControls[j];
      agentIds[j] := entry.id;
      if entry.walkerControl.Some? {
        DecodeWalkerRow(j, entry.walkerControl.value);
      } else if entry.vehicleControl.Some? {
        vehicleControls[j] := DecodeVehicleSlot(vehicleControls[j], entry.vehicleControl.value);
      }
    }

    /**
     * Decode(str, carla_control&).  An uninitialized message is refused and
     * nothing is written.  Otherwise the ego inputs are copied, the agent
     * count is limited to MAX_CONTROL_AGENTS, and each retained entry j writes
     * its id and either its walker row (a walker control takes precedence) or
     * its vehicle half.  Every write lands below the array capacities.
     */
    method Decode(msg: ControlMsg) returns (ok: bool)
      requires Valid()
      modifies this, agentIds, walkerWaypointCounts, walkerWaypoints, walkerWaypointTimes, vehicleControls
      ensures Valid()
      ensures ok == msg.initialized
      ensures !ok ==> unchanged(this, agentIds, walkerWaypointCounts, walkerWaypoints, walkerWaypointTimes, vehicleControls)
      ensures ok ==> steer == msg.steer && throttle == msg.throttle && brake == msg.brake
      ensures ok ==> handBrake == msg.handBrake && reverse == msg.reverse
      ensures ok ==> numberOfAgentControls == AgentCount(msg, MaxAgents())
      ensures ok ==> forall j :: 0 <= j < agentIds.Length ==>
                agentIds[j] == if j < numberOfAgentControls then msg.agentControls[j].id else old(agentIds[j])
      ensures ok ==> forall j :: 0 <= j < walkerWaypointCounts.Length ==>
                walkerWaypointCounts[j] ==
                  if WalkerAt(msg, j, MaxAgents())
                  then WaypointCount(msg.agentControls[j].walkerControl.value, MaxWaypoints())
                  else old(walkerWaypointCounts[j])
      ensures ok ==> forall j, i :: 0 <= j < walkerWaypoints.Length0 && 0 <= i < walkerWaypoints.Length1 ==>
                walkerWaypoints[j, i] ==
                  if WaypointWritten(msg, j, i, MaxAgents(), MaxWaypoints())
                  then msg.agentControls[j].walkerControl.value.waypoints[i]
                  else old(walkerWaypoints[j, i])
      ensures ok ==> forall j, i :: 0 <= j < walkerWaypointTimes.Length0 && 0 <= i < walkerWaypointTimes.Length1 ==>
                walkerWaypointTimes[j, i] ==
                  if WaypointWritten(msg, j, i, MaxAgents(), MaxWaypoints())
                  then msg.agentControls[j].walkerControl.value.waypointTimes[i]
                  else old(walkerWaypointTimes[j, i])
      ensures ok ==> forall j :: 0 <= j < vehicleControls.Length ==>
                vehicleControls[j] ==
                  if VehicleAt(msg, j, MaxAgents())
                  then DecodeVehicleSlot(old(vehicleControls[j]), msg.agentControls[j].vehicleControl.value)
                  else old(vehicleControls[j])
    {
      if !msg.initialized {
        return false;
      }
      steer, throttle, brake, handBrake, reverse := msg.steer, msg.throttle, msg.brake, msg.handBrake, msg.reverse;
      var count := ClampCount(|msg.agentControls|, agentIds.Length);
      var j := 0;
      while j < count
        invariant 0 <= j <= count
        invariant Valid() && numberOfAgentControls == old(numberOfAgentControls)
        invariant steer == msg.steer && throttle == msg.throttle && brake == msg.brake
        invariant handBrake == msg.handBrake && reverse == msg.reverse
        invariant forall k :: 0 <= k < agentIds.Length ==>
                    agentIds[k] == if k < j then msg.agentControls[k].id else old(agentIds[k])
        invariant forall k :: 0 <= k < walkerWaypointCounts.Length ==>
                    walkerWaypointCounts[k] ==
                      if k < j && WalkerAt(msg, k, MaxAgents())
                      then WaypointCount(msg.agentControls[k].walkerControl.value, MaxWaypoints())
                      else old(walkerWaypointCounts[k])
        invariant forall k, i :: 0 <= k < walkerWaypoints.Length0 && 0 <= i < walkerWaypoints.Length1 ==>
                    walkerWaypoints[k, i] ==
                      if k < j && WaypointWritten(msg, k, i, MaxAgents(), MaxWaypoints())
                      then msg.agentControls[k].walkerControl.value.waypoints[i]
                      else old(walkerWaypoints[k, i])
        invariant forall k, i :: 0 <= k < walkerWaypointTimes.Length0 && 0 <= i < walkerWaypointTimes.Length1 ==>
                    walkerWaypointTimes[k, i] ==
                      if k < j && WaypointWritten(msg, k, i, MaxAgents(), MaxWaypoints())
                      then msg.agentControls[k].walkerControl.value.waypointTimes[i]
                      else old(walkerWaypointTimes[k, i])
        invariant forall k :: 0 <= k < vehicleControls.Length ==>
                    vehicleControls[k] ==
                      if k < j && VehicleAt(msg, k, MaxAgents())
                      then DecodeVehicleSlot(old(vehicleControls[k]), msg.agentControls[k].vehicleControl.value)
                      else old(vehicleControls[k])
      {
        DecodeEntry(msg, j);
        j := j + 1;
      }
      numberOfAgentControls := count;
      ok := true;
    }
  }

  // ---------------------------------------------------------------------------
  // RequestNewEpisode and carla_episode_start
  // ---------------------------------------------------------------------------

  datatype NewEpisodeMsg = NewEpisodeMsg(initialized: bool, iniFile: string)

  /** carla_request_new_episode: the ini file's characters and their count. */
  datatype RequestNewEpisode = RequestNewEpisode(iniFile: string, iniFileLength: nat)

  /**
   * Decode(str, RequestNewEpisode&): the decoded value and whether it was
   * accepted; `values` is left as it was when the message is not initialized.
   */
  function DecodeRequestNewEpisode(msg: NewEpisodeMsg, values: RequestNewEpisode): (r: (bool, RequestNewEpisode))
    ensures r.0 == msg.initialized
    ensures !r.0 ==> r.1 == values
    ensures r.0 ==> r.1.iniFile == msg.iniFile && r.1.iniFileLength == |msg.iniFile|
  {
    if msg.initialized then (true, RequestNewEpisode(msg.iniFile, |msg.iniFile|))
    else (false, values)
  }

  datatype EpisodeStartMsg = EpisodeStartMsg(initialized: bool, playerStartSpotIndex: int)

  /** carla_episode_start */
  datatype EpisodeStart = EpisodeStart(playerStartSpotIndex: int)

  /** Decode(str, carla_episode_start&) */
  function DecodeEpisodeStart(msg: EpisodeStartMsg, values: EpisodeStart): (r: (bool, EpisodeStart))
    ensures r.0 == msg.initialized
    ensures r.1 == if msg.initialized then EpisodeStart(msg.playerStartSpotIndex) else values
  {
    if msg.initialized then (true, EpisodeStart(msg.playerStartSpotIndex)) else (false, values)
  }

  // ---------------------------------------------------------------------------
  // Sensor, agent and traffic-light mappings
  // ---------------------------------------------------------------------------

  /** carla_sensor_type; `SensorOther` stands for every other value of the C enum. */
  datatype SensorType = SensorCamera | SensorLidarRayCast | SensorOther(code: int)

  /** cs::Sensor::Type */
  datatype SensorMsgType = MsgCamera | MsgLidarRayCast | MsgUnknown

  function EncodeSensorType(t: SensorType): (r: SensorMsgType)
    ensures r == MsgCamera <==> t == SensorCamera
    ensures r == MsgLidarRayCast <==> t == SensorLidarRayCast
    ensures r == MsgUnknown <==> t.SensorOther?
  {
    match t
    case SensorCamera => MsgCamera
    case SensorLidarRayCast => MsgLidarRayCast
    case SensorOther(_) => MsgUnknown
  }

  /** The receiving side's reading of a sensor type. */
  function DecodeSensorType(m: SensorMsgType): Option<SensorType>
  {
    match m
    case MsgCamera => Some(SensorCamera)
    case MsgLidarRayCast => Some(SensorLidarRayCast)
    case MsgUnknown => None
  }

  /** Known sensor types survive the round trip; every other value reads back as unknown. */
  lemma SensorTypeRoundTrip(t: SensorType)
    ensures DecodeSensorType(EncodeSensorType(t)) == if t.SensorOther? then None else Some(t)
  {
  }

  datatype SensorDefinition = SensorDefinition(id: int, name: string, sensorType: SensorType)

  datatype SensorMsg = SensorMsg(id: int, name: string, sensorType: SensorMsgType)

  /** Set(cs::Sensor*, carla_sensor_definition) */
  function EncodeSensor(s: SensorDefinition): (r: SensorMsg)
    ensures r.id == s.id && r.name == s.name
    ensures r.sensorType == EncodeSensorType(s.sensorType)
  {
    SensorMsg(s.id, s.name, EncodeSensorType(s.sensorType))
  }

  datatype Rotation = Rotation(pitch: real, roll: real, yaw: real)

  /** carla_transform; the message's Transform has the same fields. */
  datatype Transform = Transform(location: Vector3, orientation: Vector3, rotation: Rotation)

  datatype BoundingBox = BoundingBox(transform: Transform, extent: Vector3)

  /** carla_agent's type; `AgentTypeOther` stands for every other value of the C enum. */
  datatype AgentType =
    | AgentVehicle
    | AgentPedestrian
    | AgentSpeedLimitSign
    | AgentTrafficLightGreen
    | AgentTrafficLightYellow
    | AgentTrafficLightRed
    | AgentTypeOther(code: int)

  datatype CarlaAgent = CarlaAgent(
    id: int,
    agentType: AgentType,
    transform: Transform,
    boundingBox: BoundingBox,
    forwardSpeed: real)

  /** cs::TrafficLight::State */
  datatype TrafficLightState = Green | Yellow | Red

  /** The oneof of cs::Agent; `NoBody` when none of its members was set. */
  datatype AgentBody =
    | VehicleBody(transform: Transform, boundingBox: BoundingBox, forwardSpeed: real)
    | PedestrianBody(transform: Transform, boundingBox: BoundingBox, forwardSpeed: real)
    | SpeedLimitSignBody(transform: Transform, speedLimit: real)
    | TrafficLightBody(transform: Transform, state: TrafficLightState)
    | NoBody

  datatype AgentMsg = AgentMsg(id: int, body: AgentBody)

  /** The light state a traffic-light agent type is encoded with. */
  function TrafficLightStateOf(t: AgentType): (r: Option<TrafficLightState>)
    ensures r == Some(Green) <==> t == AgentTrafficLightGreen
    ensures r == Some(Yellow) <==> t == AgentTrafficLightYellow
    ensures r == Some(Red) <==> t == AgentTrafficLightRed
  {
    match t
    case AgentTrafficLightGreen => Some(Green)
    case AgentTrafficLightYellow => Some(Yellow)
    case AgentTrafficLightRed => Some(Red)
    case _ => None
  }

  /**
   * Set(cs::Agent*, carla_agent): the id is always written; the type picks
   * which member of the oneof is filled.  A speed-limit sign carries its
   * limit in `forward_speed`.  An invalid type is logged and leaves the
   * oneof empty.
   */
  function EncodeAgent(a: CarlaAgent): (r: AgentMsg)
    ensures r.id == a.id
    ensures r.body.NoBody? <==> a.agentType.AgentTypeOther?
    ensures r.body.TrafficLightBody? <==> TrafficLightStateOf(a.agentType).Some?
    ensures r.body.TrafficLightBody? ==> Some(r.body.state) == TrafficLightStateOf(a.agentType)
    ensures r.body.SpeedLimitSignBody? ==> r.body.speedLimit == a.forwardSpeed
    ensures !r.body.NoBody? ==> r.body.transform == a.transform
  {
    var body :=
      match a.agentType
      case AgentVehicle => VehicleBody(a.transform, a.boundingBox, a.forwardSpeed)
      case AgentPedestrian => PedestrianBody(a.transform, a.boundingBox, a.forwardSpeed)
      case AgentSpeedLimitSign => SpeedLimitSignBody(a.transform, a.forwardSpeed)
      case AgentTrafficLightGreen => TrafficLightBody(a.transform, Green)
      case AgentTrafficLightYellow => TrafficLightBody(a.transform, Yellow)
      case AgentTrafficLightRed => TrafficLightBody(a.transform, Red)
      case AgentTypeOther(_) => NoBody;
    AgentMsg(a.id, body)
  }

  /** The receiving side's reading of an encoded agent's type. */
  function AgentTypeOf(body: AgentBody): Option<AgentType>
  {
    match body
    case VehicleBody(_, _, _) => Some(AgentVehicle)
    case PedestrianBody(_, _, _) => Some(AgentPedestrian)
    case SpeedLimitSignBody(_, _) => Some(AgentSpeedLimitSign)
    case TrafficLightBody(_, Green) => Some(AgentTrafficLightGreen)
    case TrafficLightBody(_, Yellow) => Some(AgentTrafficLightYellow)
    case TrafficLightBody(_, Red) => Some(AgentTrafficLightRed)
    case NoBody => None
  }

  /** Every valid agent type can be read back from the encoded agent. */
  lemma AgentTypeRoundTrip(a: CarlaAgent)
    ensures AgentTypeOf(EncodeAgent(a).body) == if a.agentType.AgentTypeOther? then None else Some(a.agentType)
  {
  }

  /** The non-player agents of a measurements message, one per input agent, in order. */
  function EncodeAgents(agents: seq<CarlaAgent>): (r: seq<AgentMsg>)
    ensures |r| == |agents|
    ensures forall i :: 0 <= i < |agents| ==> r[i] == EncodeAgent(agents[i])
  {
    if agents == [] then [] else [EncodeAgent(agents[0])] + EncodeAgents(agents[1..])
  }

  /** The part of carla_measurements that this model encodes. */
  datatype Measurements = Measurements(
    frameNumber: int,
    platformTimestamp: int,
    gameTimestamp: int,
    nonPlayerAgents: seq<CarlaAgent>)

  datatype MeasurementsMsg = MeasurementsMsg(
    frameNumber: int,
    platformTimestamp: int,
    gameTimestamp: int,
    nonPlayerAgents: seq<AgentMsg>)

  /**
   * The thread-local cs::Measurements message that Encode(carla_measurements)
   * reuses from one call to the next.
   */
  class MeasurementsEncoder {
    var cached: MeasurementsMsg

    constructor ()
      ensures cached == MeasurementsMsg(0, 0, 0, [])
    {
      cached := MeasurementsMsg(0, 0, 0, []);
    }

    /**
     * Encode(carla_measurements): the header fields are overwritten and the
     * cached agent list is cleared before the agents are appended, so the
     * encoded list is exactly the input's, whatever an earlier call left.
     */
    method EncodeMeasurements(values: Measurements) returns (wire: MeasurementsMsg)
      modifies this
      ensures wire == cached
      ensures wire.frameNumber == values.frameNumber
      ensures wire.platformTimestamp == values.platformTimestamp
      ensures wire.gameTimestamp == values.gameTimestamp
      ensures wire.nonPlayerAgents == EncodeAgents(values.nonPlayerAgents)
    {
      cached := cached.(frameNumber := values.frameNumber,
                        platformTimestamp := values.platformTimestamp,
                        gameTimestamp := values.gameTimestamp);
      cached := cached.(nonPlayerAgents := []);
      var i := 0;
      while i < |values.nonPlayerAgents|
        invariant 0 <= i <= |values.nonPlayerAgents|
        invariant cached.frameNumber == values.frameNumber
        invariant cached.platformTimestamp == values.platformTimestamp
        invariant cached.gameTimestamp == values.gameTimestamp
        invariant cached.nonPlayerAgents == EncodeAgents(values.nonPlayerAgents[..i])
      {
        EncodeAgentsAppend(values.nonPlayerAgents[..i], values.nonPlayerAgents[i]);
        assert values.nonPlayerAgents[..i + 1] == values.nonPlayerAgents[..i] + [values.nonPlayerAgents[i]];
        cached := cached.(nonPlayerAgents := cached.nonPlayerAgents + [EncodeAgent(values.nonPlayerAgents[i])]);
        i := i + 1;
      }
      assert values.nonPlayerAgents[..i] == values.nonPlayerAgents;
      wire := cached;
    }
  }

  /** Encoding one more agent appends its message at the end. */
  lemma {:induction false} EncodeAgentsAppend(agents: seq<CarlaAgent>, a: CarlaAgent)
    ensures EncodeAgents(agents + [a]) == EncodeAgents(agents) + [EncodeAgent(a)]
  {
    if agents != [] {
      assert (agents + [a])[1..] == agents[1..] + [a];
      EncodeAgentsAppend(agents[1..], a);
    }
  }
}
