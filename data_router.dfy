/**
 * The plugin's data router (Game/DataRouter.h): the registry of agent
 * components, the player and the sensor-data sink, and the dispatch of a
 * decoded agent-control batch to the registered agents.
 *
 * Dispatch returns the ordered list of `ApplyAIControl` calls it makes, each
 * an (agent, control) pair; what a call does to a walker is
 * WalkerNavigation.WalkerAIController.SetControl, to a vehicle
 * VehicleAutopilot.WheeledVehicleAIController.ApplyAIControl.
 */
module DataRouter {
  import opened CarlaTypes

  /** UAgentComponent: identified by the object, addressed by its id. */
  class AgentComponent {
    const id: int

    constructor (id: int)
      ensures this.id == id
    {
      this.id := id;
    }
  }

  class SensorDataSink {
    constructor ()
    {
    }
  }

  class PlayerState {
    constructor ()
    {
    }
  }

  /** The pawn a player controller possesses, reduced to its last applied control. */
  class WheeledVehicle {
    var control: VehicleControl

    constructor ()
      ensures control == NeutralControl
    {
      control := NeutralControl;
    }
  }

  /** ACarlaVehicleController, reduced to its player state and possessed vehicle. */
  class PlayerController {
    const playerState: PlayerState
    var possessedVehicle: WheeledVehicle?

    constructor (playerState: PlayerState, possessedVehicle: WheeledVehicle?)
      ensures this.playerState == playerState && this.possessedVehicle == possessedVehicle
    {
      this.playerState := playerState;
      this.possessedVehicle := possessedVehicle;
    }

    predicate IsPossessingAVehicle()
      reads this
    {
      possessedVehicle != null
    }
  }

  /** The call `Agents[i]->ApplyAIControl(Control)`. */
  datatype Call = Call(agent: AgentComponent, control: SingleAgentControl)

  /** The calls made for one registered agent. */
  function CallsFor(a: AgentComponent, controls: map<int, SingleAgentControl>): seq<Call>
  {
    if a.id in controls then [Call(a, controls[a.id])] else []
  }

  /**
   * The calls ApplyAgentControl makes for a registry: one per agent whose id
   * has an entry, carrying that entry, in registry order.
   */
  function Dispatch(agents: seq<AgentComponent>, controls: map<int, SingleAgentControl>): (r: seq<Call>)
    ensures |r| <= |agents|
    ensures forall k :: 0 <= k < |r| ==> r[k].agent in agents
    ensures forall k :: 0 <= k < |r| ==> r[k].agent.id in controls && r[k].control == controls[r[k].agent.id]
  {
    if agents == [] then []
    else Dispatch(agents[..|agents| - 1], controls) + CallsFor(agents[|agents| - 1], controls)
  }

  function CalledAgents(calls: seq<Call>): (r: seq<AgentComponent>)
    ensures |r| == |calls| && forall k :: 0 <= k < |calls| ==> r[k] == calls[k].agent
  {
    if calls == [] then [] else CalledAgents(calls[..|calls| - 1]) + [calls[|calls| - 1].agent]
  }

  lemma CalledAgentsAppend(a: seq<Call>, b: seq<Call>)
    ensures CalledAgents(a + b) == CalledAgents(a) + CalledAgents(b)
  {
    assert |CalledAgents(a + b)| == |CalledAgents(a) + CalledAgents(b)|;
  }

  /**
   * Every registered agent is called exactly as often as it is registered
   * when its id has an entry, and never otherwise; in particular an entry
   * whose id matches no registered agent produces no call.
   */
  lemma {:induction false} DispatchCallsEachMatchingAgent(
    agents: seq<AgentComponent>, controls: map<int, SingleAgentControl>, a: AgentComponent)
    ensures multiset(CalledAgents(Dispatch(agents, controls)))[a] ==
              if a.id in controls then multiset(agents)[a] else 0
  {
    if agents != [] {
      var init, last := agents[..|agents| - 1], agents[|agents| - 1];
      assert agents == init + [last];
      var earlier, own := Dispatch(init, controls), CallsFor(last, controls);
      assert Dispatch(agents, controls) == earlier + own;
      DispatchCallsEachMatchingAgent(init, controls, a);
      CalledAgentsAppend(earlier, own);
      assert CalledAgents(own) == if last.id in controls then [last] else [];
      assert multiset(agents) == multiset(init) + multiset{last};
    }
  }

  /**
   * The calls for a registry extended by one agent extend the registry's
   * calls: the unfolding of `Dispatch` that the loop of ApplyAgentControl
   * takes one agent at a time.
   */
  lemma DispatchAppend(agents: seq<AgentComponent>, a: AgentComponent, controls: map<int, SingleAgentControl>)
    ensures Dispatch(agents + [a], controls) == Dispatch(agents, controls) + CallsFor(a, controls)
  {
    assert (agents + [a])[..|agents|] == agents;
  }

  /** An empty batch produces no call, whatever the registry. */
  lemma {:induction false} DispatchEmptyBatch(agents: seq<AgentComponent>, controls: map<int, SingleAgentControl>)
    requires |controls| == 0
    ensures Dispatch(agents, controls) == []
  {
    if agents != [] {
      DispatchEmptyBatch(agents[..|agents| - 1], controls);
    }
  }

  /** The registry with the element at index i replaced by the last one (TArray::RemoveAtSwap). */
  function RemoveAtSwap(s: seq<AgentComponent>, i: nat): (r: seq<AgentComponent>)
    requires i < |s|
    ensures |r| == |s| - 1
    ensures r[..i] == s[..i]
  {
    if i == |s| - 1 then s[..i] else s[..i] + [s[|s| - 1]] + s[i + 1..|s| - 1]
  }

  /**
   * One removal of RemoveSwap's loop: the occurrence at i goes, none
   * reappears before i, and every other agent keeps its multiplicity.
   */
  lemma RemoveOccurrence(s: seq<AgentComponent>, i: nat, a: AgentComponent)
    requires i < |s| && s[i] == a && a !in s[..i]
    ensures |RemoveAtSwap(s, i)| == |s| - 1
    ensures a !in RemoveAtSwap(s, i)[..i]
    ensures multiset(RemoveAtSwap(s, i))[a := 0] == multiset(s)[a := 0]
    ensures multiset(RemoveAtSwap(s, i))[a] + 1 == multiset(s)[a]
  {
    RemoveAtSwapMultiset(s, i);
  }

  /** Two multisets that agree once `a` is zeroed agree on every other element. */
  lemma OthersKept(m: multiset<AgentComponent>, n: multiset<AgentComponent>, a: AgentComponent)
    requires m[a := 0] == n[a := 0]
    ensures forall x :: x != a ==> m[x] == n[x]
  {
    forall x | x != a
      ensures m[x] == n[x]
    {
      assert m[a := 0][x] == n[a := 0][x];
    }
  }

  /** The hole at i is filled by the last element; the elements between stay in place. */
  lemma RemoveAtSwapMovesLast(s: seq<AgentComponent>, i: nat)
    requires i < |s| - 1
    ensures RemoveAtSwap(s, i)[i] == s[|s| - 1]
    ensures RemoveAtSwap(s, i)[i + 1..] == s[i + 1..|s| - 1]
  {
  }

  /** RemoveAtSwap takes out exactly one occurrence of the element at i. */
  lemma RemoveAtSwapMultiset(s: seq<AgentComponent>, i: nat)
    requires i < |s|
    ensures multiset(RemoveAtSwap(s, i)) == multiset(s) - multiset{s[i]}
  {
    var last := |s| - 1;
    assert s == s[..last] + [s[last]];
    assert s[..last] == s[..i] + s[i..last];
    if i < last {
      var between := s[i + 1..last];
      assert s[i..last] == [s[i]] + between;
      assert RemoveAtSwap(s, i) == s[..i] + ([s[last]] + between);
    }
  }


  /** FDataRouter */
  class Router {
    var agents: seq<AgentComponent>
    var player: PlayerController?
    var sensorDataSink: SensorDataSink?

    constructor ()
      ensures agents == [] && player == null && sensorDataSink == null
    {
      agents := [];
      player := null;
      sensorDataSink := null;
    }

    /** A sink may be set only once. */
    method SetSensorDataSink(sink: SensorDataSink?)
      requires sensorDataSink == null
      modifies this
      ensures sensorDataSink == sink
      ensures agents == old(agents) && player == old(player)
    {
      sensorDataSink := sink;
    }

    method RegisterPlayer(p: PlayerController)
      modifies this
      ensures player == p
      ensures agents == old(agents) && sensorDataSink == old(sensorDataSink)
    {
      player := p;
    }

    /** Appends a non-null agent; earlier entries keep their places. */
    method RegisterAgent(agent: AgentComponent?)
      requires agent != null
      modifies this
      ensures agents == old(agents) + [agent]
      ensures player == old(player) && sensorDataSink == old(sensorDataSink)
    {
      agents := agents + [agent];
    }

    /**
     * TArray::RemoveSwap: every occurrence of the agent is removed, each hole
     * being filled by the last element; every other agent stays, though not
     * necessarily in its place.
     */
    method DeregisterAgent(agent: AgentComponent?)
      requires agent != null
      modifies this
      ensures agent !in agents
      ensures forall x :: x != agent ==> multiset(agents)[x] == old(multiset(agents))[x]
      ensures |agents| == old(|agents| - multiset(agents)[agent])
      ensures agent !in old(agents) ==> agents == old(agents)
      ensures player == old(player) && sensorDataSink == old(sensorDataSink)
    {
      var remaining := agents;
      var i := 0;
      ghost var removed := 0;
      while i < |remaining|
        invariant 0 <= i <= |remaining|
        invariant agent !in remaining[..i]
        invariant multiset(remaining)[agent := 0] == multiset(agents)[agent := 0]
        invariant multiset(remaining)[agent] + removed == multiset(agents)[agent]
        invariant |remaining| + removed == |agents|
        invariant agent !in agents ==> remaining == agents
        modifies {}
        decreases |remaining| - i
      {
        if remaining[i] == agent {
          RemoveOccurrence(remaining, i, agent);
          remaining := RemoveAtSwap(remaining, i);
          removed := removed + 1;
        } else {
          assert remaining[..i + 1] == remaining[..i] + [remaining[i]];
          i := i + 1;
        }
      }
      assert remaining[..i] == remaining;
      OthersKept(multiset(remaining), multiset(agents), agent);
      agents := remaining;
    }

    method GetPlayerState() returns (state: PlayerState)
      requires player != null
      ensures state == player.playerState
    {
      state := player.playerState;
    }

    /** Hands the control to the vehicle the player possesses. */
    method ApplyVehicleControl(control: VehicleControl)
      requires player != null && player.IsPossessingAVehicle()
      modifies player.possessedVehicle
      ensures player.possessedVehicle.control == control
    {
      player.possessedVehicle.control := control;
    }

    /**
     * ApplyAgentControl: nothing for an empty batch; otherwise each
     * registered agent, in registry order, whose id has an entry receives
     * that entry.  The registry itself is left as it is.
     */
    method ApplyAgentControl(controls: map<int, SingleAgentControl>) returns (calls: seq<Call>)
      ensures calls == Dispatch(agents, controls)
      ensures |controls| == 0 ==> calls == []
    {
      if |controls| <= 0 {
        DispatchEmptyBatch(agents, controls);
        return [];
      }
      calls := [];
      for i := 0 to |agents|
        invariant calls == Dispatch(agents[..i], controls)
      {
        DispatchAppend(agents[..i], agents[i], controls);
        assert agents[..i + 1] == agents[..i] + [agents[i]];
        var agent := agents[i];
        if agent.id in controls {
          calls := calls + [Call(agent, controls[agent.id])];
        }
      }
      assert agents[..|agents|] == agents;
    }
  }
}
