/**
 * The Unreal plugin's side of the protocol (Server/CarlaEncoder.h): turning
 * the C API's control and new-episode structures into Unreal values.
 *
 * This header reads the control structure with a single `agent_control`
 * member (id, waypoint count and two pointers), not the `agent_controls[j]`
 * array the server library fills; `ControlData` models that layout.
 */
module UnrealEncoder {
  import opened CarlaTypes
  import ServerEncoder

  /** carla_control.agent_control as this header reads it. */
  datatype AgentControlData = AgentControlData(
    id: int,
    numberOfWaypoints: nat,
    waypoints: seq<Vector3>,
    waypointTimes: seq<real>)

  /** carla_control as this header reads it. */
  datatype ControlData = ControlData(
    steer: real,
    throttle: real,
    brake: real,
    handBrake: bool,
    reverse: bool,
    agentControl: AgentControlData)

  /** The memory Decode reads: `n` times, and the first waypoint whenever n > 0. */
  predicate Readable(d: AgentControlData)
  {
    |d.waypointTimes| >= d.numberOfWaypoints
    && (d.numberOfWaypoints > 0 ==> |d.waypoints| > 0)
  }

  /** FAgentControl: an id and two growable arrays. */
  class AgentControl {
    var id: int
    var waypoints: seq<Vector3>
    var waypointTimes: seq<real>

    constructor (id: int, waypoints: seq<Vector3>, waypointTimes: seq<real>)
      ensures this.id == id && this.waypoints == waypoints && this.waypointTimes == waypointTimes
    {
      this.id := id;
      this.waypoints := waypoints;
      this.waypointTimes := waypointTimes;
    }
  }

  /**
   * The waypoints Decode appends, as written: the loop reads through the
   * pointer `waypoints` without advancing it, so every appended point is the
   * first one.
   */
  function AppendedWaypoints(d: AgentControlData): (r: seq<Vector3>)
    requires Readable(d)
    ensures |r| == d.numberOfWaypoints
    ensures forall i :: 0 <= i < |r| ==> r[i] == d.waypoints[0]
  {
    seq(d.numberOfWaypoints, _ requires d.numberOfWaypoints > 0 => d.waypoints[0])
  }

  /**
   * Two different waypoints come out as two copies of the first: the
   * appended points are not the received ones.
   */
  lemma AppendedWaypointsLoseSecondPoint()
    ensures var d := AgentControlData(7, 2, [Origin, Vector3(1.0, 0.0, 0.0)], [1.0, 2.0]);
            Readable(d) && AppendedWaypoints(d) != d.waypoints[..2]
  {
    var d := AgentControlData(7, 2, [Origin, Vector3(1.0, 0.0, 0.0)], [1.0, 2.0]);
    assert AppendedWaypoints(d)[1] == Origin;
  }

  /**
   * As written, the appended points equal the received ones exactly when all
   * the received points read are the same as the first.
   */
  lemma {:induction false} AppendedWaypointsFaithfulIff(d: AgentControlData)
    requires Readable(d) && |d.waypoints| >= d.numberOfWaypoints
    ensures AppendedWaypoints(d) == d.waypoints[..d.numberOfWaypoints]
            <==> forall i :: 0 <= i < d.numberOfWaypoints ==> d.waypoints[i] == d.waypoints[0]
  {
    var n := d.numberOfWaypoints;
    if forall i :: 0 <= i < n ==> d.waypoints[i] == d.waypoints[0] {
      assert forall i :: 0 <= i < n ==> AppendedWaypoints(d)[i] == d.waypoints[..n][i];
    } else {
      var i :| 0 <= i < n && d.waypoints[i] != d.waypoints[0];
      assert AppendedWaypoints(d)[i] != d.waypoints[..n][i];
    }
  }

  /**
   * Decode(carla_control, FVehicleControl&, FAgentControl&) as written: the
   * ego inputs are copied, the agent id is set, and n pairs are appended
   * after what both arrays already held (the points all being the first
   * waypoint, see AppendedWaypoints).
   */
  method Decode(data: ControlData, agentControl: AgentControl) returns (vehicleControl: VehicleControl)
    requires Readable(data.agentControl)
    modifies agentControl
    ensures vehicleControl == VehicleControl(data.steer, data.throttle, data.brake, data.handBrake, data.reverse)
    ensures agentControl.id == data.agentControl.id
    ensures agentControl.waypoints == old(agentControl.waypoints) + AppendedWaypoints(data.agentControl)
    ensures agentControl.waypointTimes ==
              old(agentControl.waypointTimes) + data.agentControl.waypointTimes[..data.agentControl.numberOfWaypoints]
    ensures |agentControl.waypoints| - |agentControl.waypointTimes| ==
              old(|agentControl.waypoints| - |agentControl.waypointTimes|)
  {
    vehicleControl := VehicleControl(data.steer, data.throttle, data.brake, data.handBrake, data.reverse);
    var a := data.agentControl;
    agentControl.id := a.id;
    var i := 0;
    while i < a.numberOfWaypoints
      invariant 0 <= i <= a.numberOfWaypoints
      invariant agentControl.id == a.id
      invariant agentControl.waypoints == old(agentControl.waypoints) + AppendedWaypoints(a)[..i]
      invariant agentControl.waypointTimes == old(agentControl.waypointTimes) + a.waypointTimes[..i]
    {
      var waypoint := a.waypoints[0];
      agentControl.waypoints := agentControl.waypoints + [waypoint];
      agentControl.waypointTimes := agentControl.waypointTimes + [a.waypointTimes[i]];
      assert AppendedWaypoints(a)[..i + 1] == AppendedWaypoints(a)[..i] + [waypoint];
      assert a.waypointTimes[..i + 1] == a.waypointTimes[..i] + [a.waypointTimes[i]];
      i := i + 1;
    }
    assert AppendedWaypoints(a)[..i] == AppendedWaypoints(a);
  }

  /**
   * The evidently intended Decode: the pointer advances with i, so the
   * appended points are the first n received points, in order.
   */
  method DecodeAdvancing(data: ControlData, agentControl: AgentControl) returns (vehicleControl: VehicleControl)
    requires Readable(data.agentControl) && |data.agentControl.waypoints| >= data.agentControl.numberOfWaypoints
    modifies agentControl
    ensures vehicleControl == VehicleControl(data.steer, data.throttle, data.brake, data.handBrake, data.reverse)
    ensures agentControl.id == data.agentControl.id
    ensures agentControl.waypoints ==
              old(agentControl.waypoints) + data.agentControl.waypoints[..data.agentControl.numberOfWaypoints]
    ensures agentControl.waypointTimes ==
              old(agentControl.waypointTimes) + data.agentControl.waypointTimes[..data.agentControl.numberOfWaypoints]
  {
    vehicleControl := VehicleControl(data.steer, data.throttle, data.brake, data.handBrake, data.reverse);
    var a := data.agentControl;
    agentControl.id := a.id;
    var i := 0;
    while i < a.numberOfWaypoints
      invariant 0 <= i <= a.numberOfWaypoints
      invariant agentControl.id == a.id
      invariant agentControl.waypoints == old(agentControl.waypoints) + a.waypoints[..i]
      invariant agentControl.waypointTimes == old(agentControl.waypointTimes) + a.waypointTimes[..i]
    {
      agentControl.waypoints := agentControl.waypoints + [a.waypoints[i]];
      agentControl.waypointTimes := agentControl.waypointTimes + [a.waypointTimes[i]];
      assert a.waypoints[..i + 1] == a.waypoints[..i] + [a.waypoints[i]];
      assert a.waypointTimes[..i + 1] == a.waypointTimes[..i] + [a.waypointTimes[i]];
      i := i + 1;
    }
  }

  /**
   * Decode(carla_request_new_episode, FString&): the string made of the
   * first `ini_file_length` characters.
   */
  function DecodeIniFile(data: ServerEncoder.RequestNewEpisode): (iniFile: string)
    requires data.iniFileLength <= |data.iniFile|
    ensures |iniFile| == data.iniFileLength
    ensures iniFile <= data.iniFile
  {
    data.iniFile[..data.iniFileLength]
  }

  /**
   * A request decoded by the server library and then read by the plugin
   * gives back the ini file the client sent.
   */
  lemma IniFileRoundTrip(msg: ServerEncoder.NewEpisodeMsg, previous: ServerEncoder.RequestNewEpisode)
    requires msg.initialized
    ensures var decoded := ServerEncoder.DecodeRequestNewEpisode(msg, previous).1;
            decoded.iniFileLength <= |decoded.iniFile| && DecodeIniFile(decoded) == msg.iniFile
  {
  }
}
