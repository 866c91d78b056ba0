# CARLA control path: a Dafny model

This project models how a control message from a CARLA client reaches the
actors of the simulation, in the 0.8-era layout of the repository:

- **Server library encoder** (`ServerEncoder`, `server_encoder.dfy`).
  - It decodes the protobuf `Control` message into the fixed-capacity C
    structure `carla_control`: the ego vehicle's inputs, then one slot per
    agent with either a walker waypoint list or a vehicle control.
  - It decodes the `RequestNewEpisode` and `EpisodeStart` messages.
  - It maps sensor types, agent types and traffic-light states when encoding
    the scene and the measurements.
  - The measurements encoder reuses a cached message.
- **Unreal plugin encoder** (`UnrealEncoder`, `unreal_encoder.dfy`).
  - It turns `carla_control` into an `FVehicleControl` and an `FAgentControl`.
  - It turns the new-episode request into the ini-file string.
- **Data router** (`DataRouter`, `data_router.dfy`).
  - It keeps the registry of agent components, the player and the
    sensor-data sink.
  - It dispatches a batch of per-agent controls to the registered agents,
    matching them by id.
- **Walker controller** (`WalkerNavigation`, `walker_ai_controller.dfy`).
  - It holds a FIFO of timed waypoints.
  - Its navigation step teleports or requests a path and sets a walking
    speed bounded to [50, 200].
  - Its status machine (Moving, Paused, RunOver, Stuck, MoveCompleted) is
    driven by ticks, perception of crossing vehicles, damage and move
    completion.
- **Vehicle autopilot** (`VehicleAutopilot`, `vehicle_ai_controller.dfy`).
  - It applies the throttle laws `Stop` and `Move`.
  - A red light takes precedence over the obstacle probe, and a throttle
    below 0.001 becomes a full brake.
  - It keeps the fixed-route queues and drains reached targets before
    steering toward the next one.
  - Road-following is the fallback.

Shared value types live in `CarlaTypes` (`types.dfy`). Floats are `real`.
`CarlaTypes.IsSuffix` says one waypoint queue is what is left of another
after elements were taken from its front; `IsSuffixIff` proves it equivalent to
`|a| <= |b|` together with the slice form `a == b[|b| - |a|..]`.

- **Objects updated in place are classes** with `modifies` clauses: the C
  control structure, `FAgentControl`, the router, and both controllers.
- **The walker controller's methods are specified by pure step functions.**
  Each method ensures `View() == Step(old(View()), …)`, where `View()` is
  the controller's observable state. The properties are lemmas about those
  step functions.
- **Engine queries are parameters.** These cover teleport and move-request
  outcomes, path length, path-following status, move-request validity,
  pause and resume outcomes, road-map samples, the line-trace obstacle
  probe, headings and segment intersection.

## Model

The source paths below are relative to the repository root. `CarlaEncoder.cpp` is `Util/CarlaServer/source/carla/server/CarlaEncoder.cpp`; the Unreal files are under `Unreal/CarlaUE4/Plugins/Carla/Source/Carla/`.

| member | source | states |
|---|---|---|
| `ServerEncoder.ClampCount` | Util/CarlaServer/source/carla/server/CarlaEncoder.cpp:224-228 | A received count limited to a capacity is at most both the count and the capacity, and equals one of them. |
| `ServerEncoder.AgentCount` | Util/CarlaServer/source/carla/server/CarlaEncoder.cpp:224-228 | The number of agent controls decoded is at most MAX_CONTROL_AGENTS and at most the number received: all of them when they fit, exactly the maximum when more arrive. |
| `ServerEncoder.WaypointCount` | Util/CarlaServer/source/carla/server/CarlaEncoder.cpp:238-254 | The decoded waypoint count is within MAX_AGENT_CONTROL_WAYPOINTS and within the sizes of both repeated fields, so every read is in range. |
| `ServerEncoder.AsWrittenWaypointCount` | Util/CarlaServer/source/carla/server/CarlaEncoder.cpp:238-244 | The source's loop bound: the waypoint count limited to MAX_AGENT_CONTROL_WAYPOINTS, all of them when they fit and exactly the maximum otherwise. It depends only on the waypoints, never on how many waypoint times were received. |
| `ServerEncoder.AsWrittenReadsPastWaypointTimes` | Util/CarlaServer/source/carla/server/CarlaEncoder.cpp:238-248 | The source's count for one waypoint and no times exceeds the size of `waypoint_times`, so the source reads out of range. |
| `ServerEncoder.WaypointCountMatchesSource` | Util/CarlaServer/source/carla/server/CarlaEncoder.cpp:238-244 | When the source's reads stay in range, and in particular when times and waypoints are paired, the decoded count is the source's min(waypoints_size, MAX). |
| `ServerEncoder.WaypointCountDiffersOnlyOnOverread` | Util/CarlaServer/source/carla/server/CarlaEncoder.cpp:238-248 | The decoded count differs from the source's exactly when the source would read `waypoint_times` out of range. |
| `ServerEncoder.DecodeVehicleSlot` | Util/CarlaServer/source/carla/server/CarlaEncoder.cpp:256-274 | The five inputs and the teleport flag are copied. The teleport parameters are taken from the message when the flag is set, and otherwise keep their previous value. |
| `ServerEncoder.TeleportIgnoredWithoutFlag` | Util/CarlaServer/source/carla/server/CarlaEncoder.cpp:266-274 | Without the teleport flag, the message's teleport parameters have no effect on the decoded slot. |
| `ServerEncoder.CarlaControl.DecodeWalkerRow` | Util/CarlaServer/source/carla/server/CarlaEncoder.cpp:236-254 | Row j of the time and waypoint buffers gets the first n received pairs, in order, and slot j's count becomes n. No other row or column changes. |
| `ServerEncoder.CarlaControl.DecodeEntry` | Util/CarlaServer/source/carla/server/CarlaEncoder.cpp:230-277 | Entry j's id is written. Then either its walker row is written, or, only when there is no walker control, its vehicle half. Every other slot is unchanged. |
| `ServerEncoder.CarlaControl.Decode` | Util/CarlaServer/source/carla/server/CarlaEncoder.cpp:213-285 | An uninitialized message is refused and nothing changes. Otherwise: the ego inputs are copied; the agent count is limited to MAX_CONTROL_AGENTS; each retained slot holds its entry's id, walker row or vehicle half; every other slot, and everything past the counts, keeps its old contents. |
| `ServerEncoder.DecodeRequestNewEpisode` | Util/CarlaServer/source/carla/server/CarlaEncoder.cpp:183-199 | Succeeds exactly for an initialized message. It then yields the ini file and its length; otherwise the previous values are kept. |
| `ServerEncoder.DecodeEpisodeStart` | Util/CarlaServer/source/carla/server/CarlaEncoder.cpp:201-212 | Succeeds exactly for an initialized message, and then yields the start-spot index; otherwise the previous values are kept. |
| `ServerEncoder.EncodeSensorType` | Util/CarlaServer/source/carla/server/CarlaEncoder.cpp:67-73 | CAMERA maps to CAMERA and LIDAR_RAY_CAST to LIDAR_RAY_CAST, each in both directions. Every other type maps to UNKNOWN. |
| `ServerEncoder.SensorTypeRoundTrip` | Util/CarlaServer/source/carla/server/CarlaEncoder.cpp:67-73 | Known sensor types read back unchanged, and any other type reads back as unknown. |
| `ServerEncoder.EncodeSensor` | Util/CarlaServer/source/carla/server/CarlaEncoder.cpp:63-74 | The id and name are copied, and the type is mapped. |
| `ServerEncoder.TrafficLightStateOf` | Util/CarlaServer/source/carla/server/CarlaEncoder.cpp:121-126 | The green, yellow and red light agent types map to the GREEN, YELLOW and RED states, each in both directions. |
| `ServerEncoder.EncodeAgent` | Util/CarlaServer/source/carla/server/CarlaEncoder.cpp:85-130 | The id is always written. The agent type selects the oneof member. A speed-limit sign carries `forward_speed` as its limit. A traffic light gets the state of its type. An invalid type leaves the oneof empty. |
| `ServerEncoder.AgentTypeRoundTrip` | Util/CarlaServer/source/carla/server/CarlaEncoder.cpp:111-130 | Every valid agent type can be recovered from the encoded agent, and an invalid one cannot. |
| `ServerEncoder.EncodeAgents` | Util/CarlaServer/source/carla/server/CarlaEncoder.cpp:176-179 | There is one message per input agent, in order, each the encoding of that agent. |
| `ServerEncoder.EncodeAgentsAppend` | Util/CarlaServer/source/carla/server/CarlaEncoder.cpp:177-179 | Encoding one more agent appends exactly its message. |
| `ServerEncoder.MeasurementsEncoder.EncodeMeasurements` | Util/CarlaServer/source/carla/server/CarlaEncoder.cpp:156-181 | The cached agent list is cleared before appending. The encoded list is therefore exactly the encoding of the input agents, with the same count, whatever an earlier call left in the cache. |
| `UnrealEncoder.AppendedWaypoints` | Unreal/CarlaUE4/Plugins/Carla/Source/Carla/Server/CarlaEncoder.h:64-66 | As written, n points are appended and every one is the first waypoint. |
| `UnrealEncoder.AppendedWaypointsLoseSecondPoint` | Unreal/CarlaUE4/Plugins/Carla/Source/Carla/Server/CarlaEncoder.h:64-66 | Two distinct waypoints come out as two copies of the first. |
| `UnrealEncoder.AppendedWaypointsFaithfulIff` | Unreal/CarlaUE4/Plugins/Carla/Source/Carla/Server/CarlaEncoder.h:64-66 | The appended points equal the received ones exactly when all the received points read equal the first. |
| `UnrealEncoder.Decode` | Unreal/CarlaUE4/Plugins/Carla/Source/Carla/Server/CarlaEncoder.h:55-72 | As written: the ego inputs are copied unchanged and the id is set. Both arrays grow by exactly `number_of_waypoints`, so their length difference is kept. The appended times are `waypoint_times[0..n)` in order. |
| `UnrealEncoder.DecodeAdvancing` | Unreal/CarlaUE4/Plugins/Carla/Source/Carla/Server/CarlaEncoder.h:55-72 | Corrected: as Decode, but the appended points are the first n received waypoints, in order. |
| `UnrealEncoder.DecodeIniFile` | Unreal/CarlaUE4/Plugins/Carla/Source/Carla/Server/CarlaEncoder.h:50-53 | The string is the first `ini_file_length` characters. |
| `UnrealEncoder.IniFileRoundTrip` | Unreal/CarlaUE4/Plugins/Carla/Source/Carla/Server/CarlaEncoder.h:50-53 | Decoding a request in the server library and then in the plugin gives back the ini file the client sent. |
| `DataRouter.Dispatch` | Unreal/CarlaUE4/Plugins/Carla/Source/Carla/Game/DataRouter.h:68-79 | There are at most as many calls as registered agents. Each call goes to a registered agent whose id has an entry, and carries that entry. |
| `DataRouter.DispatchCallsEachMatchingAgent` | Unreal/CarlaUE4/Plugins/Carla/Source/Carla/Game/DataRouter.h:74-78 | An agent whose id has an entry is called exactly as often as it is registered; every other agent is never called. |
| `DataRouter.DispatchAppend` | Unreal/CarlaUE4/Plugins/Carla/Source/Carla/Game/DataRouter.h:74-78 | Registering one more agent appends only that agent's call, after the others, in registry order. |
| `DataRouter.DispatchEmptyBatch` | Unreal/CarlaUE4/Plugins/Carla/Source/Carla/Game/DataRouter.h:70-72 | An empty batch produces no call, whatever the registry. |
| `DataRouter.RemoveAtSwap` | Unreal/CarlaUE4/Plugins/Carla/Source/Carla/Game/DataRouter.h:48 | Removing at i shortens the registry by one and keeps everything before i. |
| `DataRouter.RemoveAtSwapMovesLast` | Unreal/CarlaUE4/Plugins/Carla/Source/Carla/Game/DataRouter.h:48 | When i is not the last index, the last element moves into slot i and the elements between i and the last keep their order. |
| `DataRouter.RemoveAtSwapMultiset` | Unreal/CarlaUE4/Plugins/Carla/Source/Carla/Game/DataRouter.h:48 | Removing at i takes out exactly one occurrence of the element at i. |
| `DataRouter.Router.constructor` | Unreal/CarlaUE4/Plugins/Carla/Source/Carla/Game/DataRouter.h:85-89 | A new router has no agents, no player and no sink. |
| `DataRouter.Router.SetSensorDataSink` | Unreal/CarlaUE4/Plugins/Carla/Source/Carla/Game/DataRouter.h:26-30 | A sink may be set only while none is set, and nothing else changes. |
| `DataRouter.Router.RegisterPlayer` | Unreal/CarlaUE4/Plugins/Carla/Source/Carla/Game/DataRouter.h:32-35 | The player is replaced, and nothing else changes. |
| `DataRouter.Router.RegisterAgent` | Unreal/CarlaUE4/Plugins/Carla/Source/Carla/Game/DataRouter.h:39-43 | A non-null agent is appended, and earlier entries keep their places. |
| `DataRouter.Router.DeregisterAgent` | Unreal/CarlaUE4/Plugins/Carla/Source/Carla/Game/DataRouter.h:45-49 | Every occurrence of the agent is removed and every other agent keeps its multiplicity. The length drops by the agent's count. An absent agent changes nothing. |
| `DataRouter.Router.GetPlayerState` | Unreal/CarlaUE4/Plugins/Carla/Source/Carla/Game/DataRouter.h:51-55 | Requires a registered player and returns its player state. |
| `DataRouter.Router.ApplyVehicleControl` | Unreal/CarlaUE4/Plugins/Carla/Source/Carla/Game/DataRouter.h:62-66 | Requires a player that is possessing a vehicle. The control reaches that vehicle. |
| `DataRouter.Router.ApplyAgentControl` | Unreal/CarlaUE4/Plugins/Carla/Source/Carla/Game/DataRouter.h:68-79 | An empty batch makes no call. Otherwise the calls made are `Dispatch` of the registry: one per agent with an entry, in registry order. |
| `WalkerNavigation.ClampSpeed` | Unreal/CarlaUE4/Plugins/Carla/Source/Carla/Walker/WalkerAIController.cpp:291-295 | The speed lies in [50, 200]. It is unchanged inside the range and saturates outside it. |
| `WalkerNavigation.RequiredSpeed` | Unreal/CarlaUE4/Plugins/Carla/Source/Carla/Walker/WalkerAIController.cpp:287-296 | For a positive budget, MaxWalkSpeed is clamp(distance / time, 50, 200). Any numeric result lies in [50, 200]. It is NaN exactly for 0 / 0. |
| `WalkerNavigation.RequiredSpeedExact` | Unreal/CarlaUE4/Plugins/Carla/Source/Carla/Walker/WalkerAIController.cpp:287-296 | A path walkable within the budget at a speed in [50, 200] gets exactly distance / time. |
| `WalkerNavigation.Pairs` | Unreal/CarlaUE4/Plugins/Carla/Source/Carla/Walker/WalkerAIController.cpp:380-387 | The queued pairs are (Times[i], Points[i]), one per point, in index order. |
| `WalkerNavigation.Enqueued` | Unreal/CarlaUE4/Plugins/Carla/Source/Carla/Walker/WalkerAIController.cpp:376-387 | With bReset the queue is exactly the supplied pairs. Without it, the old queue is a prefix and the supplied pairs follow it. |
| `WalkerNavigation.NavigateNext` | Unreal/CarlaUE4/Plugins/Carla/Source/Carla/Walker/WalkerAIController.cpp:242-266 | An empty queue returns false and changes nothing. Otherwise exactly one item is dequeued, or two when the head's time is ≤ 0, the teleport succeeds and a second item exists. The teleport goes to the head. The path request goes to the last item dequeued. A teleport into an emptied queue returns true with no request. |
| `WalkerNavigation.ZeroBudgetTeleportsBeforeRequest` | Unreal/CarlaUE4/Plugins/Carla/Source/Carla/Walker/WalkerAIController.cpp:251-258 | A zero-budget waypoint followed by another moves the pawn to the first and requests a path to the second. |
| `WalkerNavigation.StatusChanged` | Unreal/CarlaUE4/Plugins/Carla/Source/Carla/Walker/WalkerAIController.cpp:317-324 | Changing to the current status is a no-op. Changing to another status sets it and restarts TimeInState at 0. |
| `WalkerNavigation.MoveRequested` | Unreal/CarlaUE4/Plugins/Carla/Source/Carla/Walker/WalkerAIController.cpp:203-216 | Every move request puts the walker in Moving and records the goal. |
| `WalkerNavigation.NavWaypointStepEffects` | Unreal/CarlaUE4/Plugins/Carla/Source/Carla/Walker/WalkerAIController.cpp:240-299 | SetNavWaypoint never touches bClientControlled. It changes status and speed only when it issues a path request: the status becomes Moving and the speed is RequiredSpeed of the requested waypoint's budget. On an empty queue it returns false with no change. |
| `WalkerNavigation.NavWaypointStep` | Unreal/CarlaUE4/Plugins/Carla/Source/Carla/Walker/WalkerAIController.cpp:240-299 | One SetNavWaypoint: bClientControlled is kept, the queue becomes a suffix of itself and strictly shorter when it was not empty, the status is kept or becomes Moving, and a true result needs a non-empty queue. |
| `WalkerNavigation.ControlApplied` | Unreal/CarlaUE4/Plugins/Carla/Source/Carla/Walker/WalkerAIController.cpp:373-392 | One SetControl: the queue afterwards is a suffix of the filled queue, a client-controlled walker stays client-controlled without bReset, it becomes client-controlled only when there was something to navigate to, and the status is kept or becomes Moving. |
| `WalkerNavigation.ResetControlReplacesQueue` | Unreal/CarlaUE4/Plugins/Carla/Source/Carla/Walker/WalkerAIController.cpp:376-391 | With bReset, the queue becomes exactly the supplied pairs, minus what one navigation step takes. bClientControlled becomes that step's result. |
| `WalkerNavigation.ControlAppendsWhenClientControlled` | Unreal/CarlaUE4/Plugins/Carla/Source/Carla/Walker/WalkerAIController.cpp:380-391 | A client-controlled walker without bReset only gets the pairs appended after its queue. Nothing else changes. |
| `WalkerNavigation.ControlNavigatesIff` | Unreal/CarlaUE4/Plugins/Carla/Source/Carla/Walker/WalkerAIController.cpp:389-391 | When the walker is not client-controlled or bReset is set, bClientControlled becomes the navigation step's result, the queue is what the step leaves of the filled queue, and the walker enters Moving toward the requested point exactly when a path is requested. Otherwise only the queue changes, to the filled queue. |
| `WalkerNavigation.ResumeAttempted` | Unreal/CarlaUE4/Plugins/Carla/Source/Carla/Walker/WalkerAIController.cpp:326-341 | A moving walker is untouched. Any change is the change to Moving. |
| `WalkerNavigation.PauseAttempted` | Unreal/CarlaUE4/Plugins/Carla/Source/Carla/Walker/WalkerAIController.cpp:343-358 | There is no effect in Paused or RunOver. Any change is the change to RunOver when bItWasRunOver is set, and to Paused otherwise. |
| `WalkerNavigation.PauseSucceeds` | Unreal/CarlaUE4/Plugins/Carla/Source/Carla/Walker/WalkerAIController.cpp:343-358 | A valid, accepted pause of a walker that is neither paused nor run over lands in RunOver or Paused with its clock restarted. |
| `WalkerNavigation.DamageTaken` | Unreal/CarlaUE4/Plugins/Carla/Source/Carla/Walker/WalkerAIController.cpp:360-371 | Damage always leaves the walker in RunOver, with its queue and client flag untouched. |
| `WalkerNavigation.DamageRestartsClock` | Unreal/CarlaUE4/Plugins/Carla/Source/Carla/Walker/WalkerAIController.cpp:367-370 | Damage to a walker that is not yet run over restarts TimeInState, whether the pause succeeded or not. |
| `WalkerNavigation.MoveCompletedAdvancesOrCompletes` | Unreal/CarlaUE4/Plugins/Carla/Source/Carla/Walker/WalkerAIController.cpp:229-233 | A client-controlled walker with queued waypoints advances and its queue shrinks. Any other walker becomes MoveCompleted with its queue untouched, whatever its status, RunOver included. |
| `WalkerNavigation.MoveCompletedStep` | Unreal/CarlaUE4/Plugins/Carla/Source/Carla/Walker/WalkerAIController.cpp:229-233 | One OnMoveCompleted: bClientControlled is kept, the queue becomes a suffix of itself, and the status is kept or becomes MoveCompleted or Moving. |
| `WalkerNavigation.Ticked` | Unreal/CarlaUE4/Plugins/Carla/Source/Carla/Walker/WalkerAIController.cpp:176-201 | One Tick: bClientControlled is kept, the queue becomes a suffix of itself, RunOver is kept, the status otherwise stays or becomes Moving or Stuck, and any status change restarts the clock. |
| `WalkerNavigation.Followed` | Unreal/CarlaUE4/Plugins/Carla/Source/Carla/Walker/WalkerAIController.cpp:181-199 | Tick's switch on the path-following status: bClientControlled is kept, the queue becomes a suffix of itself, the status stays or becomes Moving or Stuck, a status change restarts the clock, and the Waiting and Moving statuses change nothing. |
| `WalkerNavigation.TickRunOverOnlyAdvancesClock` | Unreal/CarlaUE4/Plugins/Carla/Source/Carla/Walker/WalkerAIController.cpp:179-180 | In RunOver, a tick only adds DeltaSeconds to TimeInState. |
| `WalkerNavigation.TickIdleUncontrolledGetsStuck` | Unreal/CarlaUE4/Plugins/Carla/Source/Carla/Walker/WalkerAIController.cpp:184-192 | An idle walker that is not client-controlled becomes Stuck, with its queue untouched. |
| `WalkerNavigation.TickIdleControlledRetries` | Unreal/CarlaUE4/Plugins/Carla/Source/Carla/Walker/WalkerAIController.cpp:184-188 | An idle client-controlled walker retries navigation after its clock advances. |
| `WalkerNavigation.TickPausedResumesAfterFiveSeconds` | Unreal/CarlaUE4/Plugins/Carla/Source/Carla/Walker/WalkerAIController.cpp:193-197 | With paused movement, a resume is attempted only once TimeInState exceeds 5. A successful resume gives Moving with the clock restarted. |
| `WalkerNavigation.RunOverSurvivesTicksAndDamage` | Unreal/CarlaUE4/Plugins/Carla/Source/Carla/Walker/WalkerAIController.cpp:176-233 | Ticks, perception and further damage never take a walker out of RunOver, and a resume does so exactly when the move request accepts. RunOver is not terminal: a completed move still takes a walker that is not client-controlled to MoveCompleted. |
| `WalkerNavigation.WalkerPath` | Unreal/CarlaUE4/Plugins/Carla/Source/Carla/Walker/WalkerAIController.cpp:74-78 | The walker's path starts at its location at height zero and runs 4 × 100 along its forward vector. |
| `WalkerNavigation.VehiclePath` | Unreal/CarlaUE4/Plugins/Carla/Source/Carla/Walker/WalkerAIController.cpp:67-71 | The vehicle's path starts 600 behind its location at height zero and spans 2 × 600 plus five seconds of travel at its forward speed along its forward vector. |
| `WalkerNavigation.VehicleCrosses` | Unreal/CarlaUE4/Plugins/Carla/Source/Carla/Walker/WalkerAIController.cpp:115-118 | An actor crosses only when it is a wheeled vehicle whose path intersects the walker's path. |
| `WalkerNavigation.CrossingIsPlanar` | Unreal/CarlaUE4/Plugins/Carla/Source/Carla/Walker/WalkerAIController.cpp:41-45 | Both locations are taken at height zero, so neither the walker's nor the vehicle's height changes the crossing test. |
| `WalkerNavigation.IntersectsWithVehicle` | Unreal/CarlaUE4/Plugins/Carla/Source/Carla/Walker/WalkerAIController.cpp:130-139 | True exactly when some perceived actor is a wheeled vehicle whose path crosses the walker's sight line. |
| `WalkerNavigation.ActorsSensed` | Unreal/CarlaUE4/Plugins/Carla/Source/Carla/Walker/WalkerAIController.cpp:301-307 | Perception changes the walker only when it is Moving, autonomous and a vehicle crosses its path. |
| `WalkerNavigation.CrossingVehiclePausesWalker` | Unreal/CarlaUE4/Plugins/Carla/Source/Carla/Walker/WalkerAIController.cpp:301-306 | A moving autonomous walker with a crossing vehicle pauses, with its clock restarted, when the pause succeeds. |
| `WalkerNavigation.WalkerAIController.constructor` | Unreal/CarlaUE4/Plugins/Carla/Source/Carla/Walker/WalkerAIController.cpp:145-167 | A new controller has TimeInState 0 and an empty waypoint queue. |
| `WalkerNavigation.WalkerAIController.ChangeStatus` | Unreal/CarlaUE4/Plugins/Carla/Source/Carla/Walker/WalkerAIController.cpp:317-324 | The new state is `StatusChanged` of the old. |
| `WalkerNavigation.WalkerAIController.MoveTo` | Unreal/CarlaUE4/Plugins/Carla/Source/Carla/Walker/WalkerAIController.cpp:203-216 | The new state is `MoveRequested` of the old, and the request's outcome is returned. |
| `WalkerNavigation.WalkerAIController.SetNavWaypoint` | Unreal/CarlaUE4/Plugins/Carla/Source/Carla/Walker/WalkerAIController.cpp:240-299 | The new state and the result are `NavWaypointStep` of the old state. |
| `WalkerNavigation.WalkerAIController.RetryMovement` | Unreal/CarlaUE4/Plugins/Carla/Source/Carla/Walker/WalkerAIController.cpp:236-238 | One navigation step, whose result is dropped. |
| `WalkerNavigation.WalkerAIController.SetControl` | Unreal/CarlaUE4/Plugins/Carla/Source/Carla/Walker/WalkerAIController.cpp:373-392 | The new state is `ControlApplied` of the old: fill the queue, then navigate when not client-controlled or on reset. |
| `WalkerNavigation.WalkerAIController.TryResumeMovement` | Unreal/CarlaUE4/Plugins/Carla/Source/Carla/Walker/WalkerAIController.cpp:326-341 | The new state is `ResumeAttempted` of the old. |
| `WalkerNavigation.WalkerAIController.TryPauseMovement` | Unreal/CarlaUE4/Plugins/Carla/Source/Carla/Walker/WalkerAIController.cpp:343-358 | The new state is `PauseAttempted` of the old. |
| `WalkerNavigation.WalkerAIController.OnPawnTookDamage` | Unreal/CarlaUE4/Plugins/Carla/Source/Carla/Walker/WalkerAIController.cpp:360-371 | The new state is `DamageTaken` of the old. |
| `WalkerNavigation.WalkerAIController.OnMoveCompleted` | Unreal/CarlaUE4/Plugins/Carla/Source/Carla/Walker/WalkerAIController.cpp:218-234 | The new state is `MoveCompletedStep` of the old. |
| `WalkerNavigation.WalkerAIController.Tick` | Unreal/CarlaUE4/Plugins/Carla/Source/Carla/Walker/WalkerAIController.cpp:176-201 | The new state is `Ticked` of the old. |
| `WalkerNavigation.WalkerAIController.AdvanceClock` | Unreal/CarlaUE4/Plugins/Carla/Source/Carla/Walker/WalkerAIController.cpp:179 | TimeInState grows by the frame time; nothing else changes. |
| `WalkerNavigation.WalkerAIController.FollowStatus` | Unreal/CarlaUE4/Plugins/Carla/Source/Carla/Walker/WalkerAIController.cpp:181-199 | The new state is `Followed` of the old. |
| `WalkerNavigation.WalkerAIController.SenseActors` | Unreal/CarlaUE4/Plugins/Carla/Source/Carla/Walker/WalkerAIController.cpp:301-307 | The new state is `ActorsSensed` of the old, with the crossing test being IntersectsWithVehicle's. |
| `VehicleAutopilot.Stop` | Unreal/CarlaUE4/Plugins/Carla/Source/Carla/Vehicle/WheeledVehicleAIController.cpp:348-350 | For a positive limit the throttle is never positive. It is 0 below 1 km/h, and otherwise −Speed/SpeedLimit, which is negative. |
| `VehicleAutopilot.Move` | Unreal/CarlaUE4/Plugins/Carla/Source/Carla/Vehicle/WheeledVehicleAIController.cpp:352-360 | The throttle is Stop at or above the limit, 0.5 within 10 km/h below it, and 1 otherwise. |
| `VehicleAutopilot.ControlFromThrottle` | Unreal/CarlaUE4/Plugins/Carla/Source/Carla/Vehicle/WheeledVehicleAIController.cpp:194-201 | Below 0.001 the control gets Brake 1 and Throttle 0; otherwise Brake 0 and exactly the given throttle. Brake and throttle are never applied together. Steer is always the steering, and the hand brake and reverse are kept. |
| `VehicleAutopilot.ThrottleDecision` | Unreal/CarlaUE4/Plugins/Carla/Source/Carla/Vehicle/WheeledVehicleAIController.cpp:184-192 | A non-green light sets WaitingForRedLight. Under green an obstacle sets ObstacleAhead. The state is left alone exactly under green with no obstacle. Whenever a state is set, the throttle is not positive. |
| `VehicleAutopilot.RedLightTakesPrecedence` | Unreal/CarlaUE4/Plugins/Carla/Source/Carla/Vehicle/WheeledVehicleAIController.cpp:184-191 | Under a non-green light the obstacle probe's answer changes nothing. |
| `VehicleAutopilot.BrakesIff` | Unreal/CarlaUE4/Plugins/Carla/Source/Carla/Vehicle/WheeledVehicleAIController.cpp:184-200 | Full brake is applied exactly when the light is not green, an obstacle is ahead, or the speed has reached the limit. |
| `VehicleAutopilot.GreenClearThrottle` | Unreal/CarlaUE4/Plugins/Carla/Source/Carla/Vehicle/WheeledVehicleAIController.cpp:190-200 | Under green with a clear road and below the limit: no brake, and throttle 1, or 0.5 within 10 km/h of the limit. |
| `VehicleAutopilot.WrapAngle` | Unreal/CarlaUE4/Plugins/Carla/Source/Carla/Vehicle/WheeledVehicleAIController.cpp:237-241 | The angle is the same modulo one turn, and lies in [−180, 180] for any difference of two headings in [−180, 180]. |
| `VehicleAutopilot.HeadingSteering` | Unreal/CarlaUE4/Plugins/Carla/Source/Carla/Vehicle/WheeledVehicleAIController.cpp:243-250 | For MaximumSteerAngle > 0 the steering lies in [−1, 1] and is full lock beyond ±MaximumSteerAngle. |
| `VehicleAutopilot.HeadingSteeringWithinLock` | Unreal/CarlaUE4/Plugins/Carla/Source/Carla/Vehicle/WheeledVehicleAIController.cpp:249 | Within full lock the steering is angle / MaximumSteerAngle: it times MaximumSteerAngle gives back the angle. |
| `VehicleAutopilot.OutsideLaneWindow` | Unreal/CarlaUE4/Plugins/Carla/Source/Carla/Vehicle/WheeledVehicleAIController.cpp:315-327 | A side sensor's lane points elsewhere when its heading is more than 90 degrees below or above the lane heading; for a lane heading beyond ±90 the window wraps, and the heading counts as outside when it lies strictly in the opposite arc. |
| `VehicleAutopilot.RoadSteering` | Unreal/CarlaUE4/Plugins/Carla/Source/Carla/Vehicle/WheeledVehicleAIController.cpp:289-345 | Off the road the steering is −1. On a road pixel without direction it is exactly the edge nudges: −0.2 for an off-road right sensor plus 0.2 for an off-road left sensor. On a lane with a direction it saturates to ±1 when the wrapped heading error is beyond the maximum steer angle. Always within [−1.4, 1.4]. |
| `VehicleAutopilot.RoadSteeringWithinLock` | Unreal/CarlaUE4/Plugins/Carla/Source/Carla/Vehicle/WheeledVehicleAIController.cpp:329-341 | On a lane with a direction and within full lock, the steering is the heading steering plus at most 0.4 of side nudges either way. |
| `VehicleAutopilot.Reached` | Unreal/CarlaUE4/Plugins/Carla/Source/Carla/Vehicle/WheeledVehicleAIController.cpp:213-218 | A route target is reached exactly when it is within 80 of the wheels' midpoint in x and in y. |
| `VehicleAutopilot.ReachedIsPlanar` | Unreal/CarlaUE4/Plugins/Carla/Source/Carla/Vehicle/WheeledVehicleAIController.cpp:213-218 | A target is reached exactly when it is within 80 of the wheels' midpoint in both x and y. Its height is irrelevant. |
| `VehicleAutopilot.DropReached` | Unreal/CarlaUE4/Plugins/Carla/Source/Carla/Vehicle/WheeledVehicleAIController.cpp:218-224 | The drained queue is a suffix. Every target removed was reached, and the new head, if any, is not reached. |
| `VehicleAutopilot.DropReachedShrinks` | Unreal/CarlaUE4/Plugins/Carla/Source/Carla/Vehicle/WheeledVehicleAIController.cpp:218-221 | A reached head is always removed, so the queue strictly shrinks. |
| `VehicleAutopilot.FollowRouteDependsOnDrain` | Unreal/CarlaUE4/Plugins/Carla/Source/Carla/Vehicle/WheeledVehicleAIController.cpp:204-254 | Two queues that drain to the same remainder give the same steering and state. |
| `VehicleAutopilot.FollowRouteSkipsReached` | Unreal/CarlaUE4/Plugins/Carla/Source/Carla/Vehicle/WheeledVehicleAIController.cpp:218-224 | A reached head is skipped: the drained queue and the route's steering and state are those of the rest of the queue. |
| `VehicleAutopilot.FollowRouteTowardHead` | Unreal/CarlaUE4/Plugins/Carla/Source/Carla/Vehicle/WheeledVehicleAIController.cpp:227-253 | An unreached head stays, and the route steers toward it at the wheels' height with the saturated, wrapped heading error, in FollowingFixedRoute. |
| `VehicleAutopilot.SteeringTarget` | Unreal/CarlaUE4/Plugins/Carla/Source/Carla/Vehicle/WheeledVehicleAIController.cpp:213-216 | The target steered toward is the route location at the wheels' height, so the direction to it is horizontal. |
| `VehicleAutopilot.FollowRoute` | Unreal/CarlaUE4/Plugins/Carla/Source/Carla/Vehicle/WheeledVehicleAIController.cpp:204-254 | If the queue drains, the result is road-following with FreeDriving. Otherwise it is FollowingFixedRoute with steering in [−1, 1]. |
| `VehicleAutopilot.RouteSteering` | Unreal/CarlaUE4/Plugins/Carla/Source/Carla/Vehicle/WheeledVehicleAIController.cpp:213-253 | On the drained queue: road-following with FreeDriving exactly when it is empty, else FollowingFixedRoute with steering in [−1, 1]. |
| `VehicleAutopilot.RouteSteeringBounded` | Unreal/CarlaUE4/Plugins/Carla/Source/Carla/Vehicle/WheeledVehicleAIController.cpp:227-250 | With both headings in [−180, 180], the wrapped error lies in [−180, 180] and the steering in [−1, 1]. |
| `VehicleAutopilot.WheeledVehicleAIController.constructor` | Unreal/CarlaUE4/Plugins/Carla/Source/Carla/Vehicle/WheeledVehicleAIController.cpp:88-101 | Possess requires MaximumSteerAngle > 0 and leaves the autopilot configured: neutral inputs, green light, empty route, FreeDriving or AutopilotOff. |
| `VehicleAutopilot.WheeledVehicleAIController.ConfigureAutopilot` | Unreal/CarlaUE4/Plugins/Carla/Source/Carla/Vehicle/WheeledVehicleAIController.cpp:118-133 | Sets the flag, zeroes steer, throttle and brake, clears reverse and handbrake, sets the light to Green and empties TargetLocations. The state becomes FreeDriving or AutopilotOff. TargetTimes is left untouched. |
| `VehicleAutopilot.WheeledVehicleAIController.SetFixedRoute` | Unreal/CarlaUE4/Plugins/Carla/Source/Carla/Vehicle/WheeledVehicleAIController.cpp:139-149 | The queue is cleared first exactly when bOverwriteCurrent is set, and then the locations are appended in order. |
| `VehicleAutopilot.WheeledVehicleAIController.ApplyAIControl` | Unreal/CarlaUE4/Plugins/Carla/Source/Carla/Vehicle/WheeledVehicleAIController.cpp:362-372 | Both queues are replaced by Points and Times[0..n), in index order and of equal length, and bTrackTrajectory is set. |
| `VehicleAutopilot.WheeledVehicleAIController.CalcStreeringValue` | Unreal/CarlaUE4/Plugins/Carla/Source/Carla/Vehicle/WheeledVehicleAIController.cpp:256-346 | Returns `RoadSteering` of the samples and sets FreeDriving; its frame allows only the vehicle state to change. |
| `VehicleAutopilot.WheeledVehicleAIController.SteerToward` | Unreal/CarlaUE4/Plugins/Carla/Source/Carla/Vehicle/WheeledVehicleAIController.cpp:227-250 | The imperative angle wrap and saturation give exactly `HeadingSteering` of the wrapped heading error, always in [−1, 1]. |
| `VehicleAutopilot.WheeledVehicleAIController.GoToNextTargetLocation` | Unreal/CarlaUE4/Plugins/Carla/Source/Carla/Vehicle/WheeledVehicleAIController.cpp:204-254 | The queue becomes `DropReached` of the old. The steering and vehicle state are `FollowRoute` of the old queue. Its frame allows only the queue and the vehicle state to change. |
| `VehicleAutopilot.WheeledVehicleAIController.FollowRouteStep` | Unreal/CarlaUE4/Plugins/Carla/Source/Carla/Vehicle/WheeledVehicleAIController.cpp:173-178 | The route's steering when targets remain, road-following otherwise: the queue is drained and the steering and state are `FollowRoute` of the old queue. |
| `VehicleAutopilot.WheeledVehicleAIController.DecideThrottle` | Unreal/CarlaUE4/Plugins/Carla/Source/Carla/Vehicle/WheeledVehicleAIController.cpp:183-192 | The throttle and state are `ThrottleDecision` of the light, speed and probe; only the vehicle state may change. |
| `VehicleAutopilot.WheeledVehicleAIController.WriteAutopilotControl` | Unreal/CarlaUE4/Plugins/Carla/Source/Carla/Vehicle/WheeledVehicleAIController.cpp:194-201 | AutopilotControl becomes `ControlFromThrottle` of the old one and is the only field that changes. |
| `VehicleAutopilot.WheeledVehicleAIController.TickAutopilotController` | Unreal/CarlaUE4/Plugins/Carla/Source/Carla/Vehicle/WheeledVehicleAIController.cpp:155-202 | Without a road map nothing changes. Otherwise: the route is drained; AutopilotControl gets the brake mapping of the decision's throttle and the route's steering; the state is the decision's, or the route's when the decision sets none. Its frame leaves every other field as it was. |
| `VehicleAutopilot.WheeledVehicleAIController.Tick` | Unreal/CarlaUE4/Plugins/Carla/Source/Carla/Vehicle/WheeledVehicleAIController.cpp:103-112 | After the decision, the vehicle's inputs are the autopilot's control exactly when the autopilot is enabled. Without a road map the route, the state and the autopilot control are unchanged; with one the route is drained by `DropReached`, the control is `ControlFromThrottle` of the decision's throttle and the route's steering, and the state is the decision's, else the route's. Its frame leaves target times, trajectory tracking, the light and the enable flag as they were. |

## Left out

- Protobuf parsing, `IsInitialized`, `Protobuf::Encode` and the thread-local message objects: a parsed message is a datatype value with an `initialized` flag.
- The `memcpy`, `new[]` and `delete[]` memory handling of both encoders, and the lifetime of the ini-file buffer.
- The values of MAX_CONTROL_AGENTS and MAX_AGENT_CONTROL_WAYPOINTS: carla_server.h is not part of this model. They are the lengths of the fixed arrays, chosen at construction, and every property holds for any value.
- The scene-description and episode-ready encoders, the start-spot and player-measurement field copies, and the transform and bounding-box copies: these are field-for-field copies with no decisions in them. `Transform` and `BoundingBox` are carried whole.
- `Set(cs::Control*, carla_control)`: a field-for-field copy of the five ego inputs.
- The two layouts of the control structure: the plugin header reads a single `agent_control` (id, count, two pointers), while the server library fills the `agent_controls[j]` array. Each encoder is modelled against the layout it uses, and the two are not connected.
- `FSingleAgentControl`, `FAgentControl` and `FWalkerControl` declarations are not part of this model. `SingleAgentControl` carries the members their users read: the walker's control, and the vehicle's Points and Times.
- `ANSI_TO_TCHAR`: the ini file is a sequence of characters on both sides, with no encoding conversion. The conversion reads the buffer as a NUL-terminated C string, so an ini text containing a NUL character, or a buffer without a terminator, would be cut short or over-read; the model does not capture either case.
- UnrealEncoder.DecodeIniFile: requires `ini_file_length` characters to be present, which the C side guarantees and the header assumes without checking.
- `DataRouter.Router.ApplyAgentControl`: returns the ordered list of `ApplyAIControl` calls instead of performing them. What a call does is the walker's `SetControl` or the vehicle controller's `ApplyAIControl`, modelled in their own modules. The agent component's forwarding to them is not modelled.
- `RegisterSensor`, `GetAgents` and `RestartLevel` of the router: they are declared there but defined elsewhere.
- The walker constructor's perception and sight configuration, `Possess`'s damage-delegate binding, `TrySetMovement`, the logging macros and the debug drawing.
- The walker's path finding: the path length, move-request outcome and path-following status are inputs. `requestedGoal` stands for the move request handed to the path-following component.
- UnrealEncoder.Decode: requires `Readable`, that is at least `number_of_waypoints` waypoint times and, when that count is positive, a first waypoint. The header dereferences both pointers that many times without a check, and what an out-of-range read yields is not modelled.
- VehicleAutopilot.WheeledVehicleAIController.ApplyAIControl: requires at least as many times as points, since the source indexes `Control.Times[i]` for every point without a check; an out-of-range read is not modelled.
- WalkerNavigation.WalkerAIController.SetControl: requires at least as many times as points, since the source indexes Times[i] for every point.
- `PawnPath`'s segment intersection (`FMath::SegmentIntersection2D`) is an input predicate. The walker's and vehicles' locations, headings and speeds are inputs, while the segment end points follow the source's formulas.
- The autopilot's line-trace obstacle probe (`RayTrace`, `IsThereAnObstacleAhead`) is a boolean input. The `Direction` it is given is therefore not modelled.
- `UnitCartesianToSpherical`, `GetSafeNormal` and the radian-to-degree conversion: headings in degrees are inputs, and `headingOf` is applied to the un-normalised direction.
- `CalcStreeringValue`'s acos, sin and cos sensor placement: the road-map samples at the vehicle and at its two side sensors are inputs.
- The front-wheel midpoint computation and its wheel-count check: the midpoint is an input.
- VehicleAutopilot.Stop: requires a positive SpeedLimit. SpeedLimit's declaration and setter are not part of this model, so the IEEE result of a division by a zero limit is not modelled.
- `VehicleAutopilot.WheeledVehicleAIController.constructor`: the header's defaults for bAutopilotEnabled, bTrackTrajectory and SpeedLimit are not part of this model. They are constructor arguments, or false for bTrackTrajectory. The random engine, the tick settings and the "already possessing" early return are not modelled.
- The `WITH_EDITOR` null-vehicle path of TickAutopilotController and the road-map error log.
- Floating point is modelled as exact reals. The one IEEE case the source relies on, a non-positive walking budget, is modelled explicitly in `RequiredSpeed` (NaN for 0 / 0, saturation otherwise).
- The Python client (`PythonClient/control_vehicles.py`): it is a user interface and a TCP loop.

## Findings

| source | as written | input that shows it | evidently intended | confidence | as-written member | corrected member |
|---|---|---|---|---|---|---|
| Util/CarlaServer/source/carla/server/CarlaEncoder.cpp:238-248 | The copy loops run up to min(`waypoints_size`, MAX) and read `waypoint_times(i)` without consulting `waypoint_times_size`. | A walker control with one waypoint and no waypoint time. | Copy only the indices present in both repeated fields, or refuse the message. | not executed | `ServerEncoder.AsWrittenWaypointCount`, `ServerEncoder.AsWrittenReadsPastWaypointTimes` | `ServerEncoder.WaypointCount`, used by `ServerEncoder.CarlaControl.Decode` |
| Unreal/CarlaUE4/Plugins/Carla/Source/Carla/Server/CarlaEncoder.h:64-66 | The pointer `waypoint` is reset to `agent_control.waypoints` on every iteration and never offset by `i`, so every appended point is the first waypoint. | `number_of_waypoints` = 2, waypoints (0,0,0) and (1,0,0). | Append `waypoints[i]`, as the times loop does with `waypoint_times + i`. | not executed | `UnrealEncoder.Decode`, `UnrealEncoder.AppendedWaypointsLoseSecondPoint` | `UnrealEncoder.DecodeAdvancing` |
