/**
 `workspace_agents` and `bearer_tokens`: identity exchange, heartbeats, the
 drain lifecycle and the liveness sweep. One call is one transaction, and the
 bearer check belongs to the transaction of the request it guards.
 */
module AgentRegistry {
  import opened Basics

  const STALE_THRESHOLD_SECONDS: nat := 60
  const OFFLINE_THRESHOLD_SECONDS: nat := 300
  const BEARER_TTL_SECONDS: nat := 3600

  type OrgId = nat
  type InstanceId = nat

  /** A bearer is looked up by the hash of its plaintext; hashes are injective, so the
      plaintext itself identifies the ledger row. */
  type BearerId = nat

  datatype Liveness = Reachable | Lagging | Offline

  datatype Agent = Agent(
    org: OrgId,
    instance: InstanceId,
    lifecycle: Lifecycle,
    state: Liveness,
    lastHeartbeat: Option<Time>,
    lastShutdown: Option<Time>,
    workspaceCount: nat)

  datatype Bearer = Bearer(agent: AgentId, expiresAt: Time, revoked: bool)

  datatype Registry = Registry(
    agents: map<AgentId, Agent>,
    bearers: map<BearerId, Bearer>,
    nextAgent: AgentId,
    nextBearer: BearerId)

  // ----- Identity exchange -----

  function RowsOf(r: Registry, org: OrgId, instance: InstanceId): set<AgentId> {
    set id | id in r.agents && r.agents[id].org == org && r.agents[id].instance == instance
  }

  /** The upsert on `(org_id, instance_id)`: a known row becomes reachable and keeps its
      lifecycle, except that a shut-down row starts over. */
  function EnsureAgentRow(r: Registry, org: OrgId, instance: InstanceId, now: Time): (Registry, AgentId) {
    var known := RowsOf(r, org, instance);
    if known == {} then
      var row := Agent(org, instance, Unconfigured, Reachable, Some(now), None, 0);
      (r.(agents := r.agents[r.nextAgent := row], nextAgent := r.nextAgent + 1), r.nextAgent)
    else
      var id := Least(known);
      var row := r.agents[id];
      var lifecycle := if row.lifecycle == Shutdown then Unconfigured else row.lifecycle;
      (r.(agents := r.agents[id := row.(state := Reachable, lastHeartbeat := Some(now), lifecycle := lifecycle)]), id)
  }

  function Issue(r: Registry, agent: AgentId, now: Time): (Registry, BearerId) {
    var bearer := Bearer(agent, now + BEARER_TTL_SECONDS, false);
    (r.(bearers := r.bearers[r.nextBearer := bearer], nextBearer := r.nextBearer + 1), r.nextBearer)
  }

  function Exchange(r: Registry, org: OrgId, instance: InstanceId, now: Time): (Registry, AgentId, BearerId) {
    var (r1, agent) := EnsureAgentRow(r, org, instance, now);
    var (r2, bearer) := Issue(r1, agent, now);
    (r2, agent, bearer)
  }

  // ----- Bearers -----

  /** Expired, revoked and unknown tokens are refused alike. */
  function Verify(r: Registry, token: BearerId, now: Time): Option<AgentId> {
    if token in r.bearers && !r.bearers[token].revoked && r.bearers[token].expiresAt > now
    then Some(r.bearers[token].agent)
    else None
  }

  function Revoke(r: Registry, token: BearerId): Registry {
    if token in r.bearers
    then r.(bearers := r.bearers[token := r.bearers[token].(revoked := true)])
    else r
  }

  function RevokeAllFor(r: Registry, agents: set<AgentId>): Registry {
    r.(bearers := map t | t in r.bearers ::
                    if r.bearers[t].agent in agents then r.bearers[t].(revoked := true) else r.bearers[t])
  }

  // ----- Heartbeat and deregistration -----

  /** The heartbeat's effect on the row, once its bearer has been accepted. */
  function Beat(r: Registry, agent: AgentId, count: nat, now: Time): Registry {
    if agent in r.agents
    then r.(agents := r.agents[agent :=
        r.agents[agent].(lastHeartbeat := Some(now), state := Reachable, workspaceCount := count)])
    else r
  }

  function Heartbeat(r: Registry, token: BearerId, count: nat, now: Time): Registry {
    match Verify(r, token, now)
    case Some(agent) => Beat(r, agent, count, now)
    case None => r
  }

  /** CAS `draining -> shutdown`; the winner also takes the row offline and revokes its bearers. */
  function MarkShutdownComplete(r: Registry, agent: AgentId, now: Time): Registry {
    if agent in r.agents && r.agents[agent].lifecycle == Draining
    then
      var row := r.agents[agent].(lifecycle := Shutdown, state := Offline, lastShutdown := Some(now));
      RevokeAllFor(r.(agents := r.agents[agent := row]), {agent})
    else r
  }

  function MarkOffline(r: Registry, agent: AgentId, now: Time): Registry {
    if agent in r.agents
    then r.(agents := r.agents[agent := r.agents[agent].(state := Offline, lastShutdown := Some(now))])
    else r
  }

  function MarkDisconnected(r: Registry, agent: AgentId, token: BearerId, now: Time): Registry {
    Revoke(MarkOffline(r, agent, now), token)
  }

  function Deregister(r: Registry, token: BearerId, now: Time): Registry {
    match Verify(r, token, now)
    case None => r
    case Some(agent) =>
      var lifecycle := if agent in r.agents then r.agents[agent].lifecycle else Active;
      match lifecycle
      case Shutdown => r
      case Draining => MarkShutdownComplete(r, agent, now)
      case _ => MarkDisconnected(r, agent, token, now)
  }

  // ----- Compare-and-set flips -----

  function MarkConfigured(r: Registry, agent: AgentId): Registry {
    if agent in r.agents && r.agents[agent].lifecycle == Unconfigured
    then r.(agents := r.agents[agent := r.agents[agent].(lifecycle := Active)])
    else r
  }

  datatype DrainOutcome = DrainStarted | AlreadyDraining | AlreadyShutdown | NotFound

  function DrainOutcomeOf(r: Registry, org: OrgId, agent: AgentId): DrainOutcome {
    if agent !in r.agents || r.agents[agent].org != org then NotFound
    else match r.agents[agent].lifecycle
         case Shutdown => AlreadyShutdown
         case Draining => AlreadyDraining
         case _ => DrainStarted
  }

  function Drain(r: Registry, org: OrgId, agent: AgentId): Registry {
    if DrainOutcomeOf(r, org, agent) == DrainStarted
    then r.(agents := r.agents[agent := r.agents[agent].(lifecycle := Draining)])
    else r
  }

  datatype CancelOutcome = Resumed | NotDraining | CancelTooLate | CancelNotFound

  function CancelOutcomeOf(r: Registry, org: OrgId, agent: AgentId): CancelOutcome {
    if agent !in r.agents || r.agents[agent].org != org then CancelNotFound
    else match r.agents[agent].lifecycle
         case Shutdown => CancelTooLate
         case Draining => Resumed
         case _ => NotDraining
  }

  function CancelDrain(r: Registry, org: OrgId, agent: AgentId): Registry {
    if CancelOutcomeOf(r, org, agent) == Resumed
    then r.(agents := r.agents[agent := r.agents[agent].(lifecycle := Active)])
    else r
  }

  // ----- Liveness sweep -----

  /** The state an agent of this age is shown in. */
  function LivenessAt(heartbeat: Time, now: Time): Liveness {
    if now - heartbeat > OFFLINE_THRESHOLD_SECONDS then Offline
    else if now - heartbeat > STALE_THRESHOLD_SECONDS then Lagging
    else Reachable
  }

  predicate SweepSees(r: Registry, id: AgentId, locked: set<AgentId>) {
    id in r.agents && id !in locked && r.agents[id].lifecycle != Shutdown && r.agents[id].lastHeartbeat.Some?
  }

  function Swept(row: Agent, now: Time): Agent
    requires row.lastHeartbeat.Some?
  {
    var target := LivenessAt(row.lastHeartbeat.value, now);
    if row.state == target then row
    else if target == Offline && row.lifecycle == Draining
    then row.(lifecycle := Shutdown, state := Offline, lastShutdown := Some(now))
    else row.(state := target)
  }

  predicate TurnsOffline(row: Agent, now: Time)
    requires row.lastHeartbeat.Some?
  {
    row.state != Offline && LivenessAt(row.lastHeartbeat.value, now) == Offline
  }

  function NewlyOffline(r: Registry, now: Time, locked: set<AgentId>): set<AgentId> {
    set id | id in r.agents && SweepSees(r, id, locked) && TurnsOffline(r.agents[id], now)
  }

  function SweepRows(r: Registry, ids: set<AgentId>, now: Time, locked: set<AgentId>): Registry {
    var settled := set id | id in r.agents && id in ids && SweepSees(r, id, locked)
                            && TurnsOffline(r.agents[id], now) && r.agents[id].lifecycle == Draining;
    RevokeAllFor(
      r.(agents := map id | id in r.agents ::
                     if id in ids && SweepSees(r, id, locked) then Swept(r.agents[id], now) else r.agents[id]),
      settled)
  }

  function Sweep(r: Registry, now: Time, locked: set<AgentId>): Registry {
    SweepRows(r, r.agents.Keys, now, locked)
  }

  class AgentService {
    var agents: map<AgentId, Agent>
    var bearers: map<BearerId, Bearer>
    var nextAgent: AgentId
    var nextBearer: BearerId

    function State(): Registry
      reads this
    {
      Registry(agents, bearers, nextAgent, nextBearer)
    }

    constructor ()
      ensures State() == Registry(map[], map[], 0, 0)
    {
      agents, bearers, nextAgent, nextBearer := map[], map[], 0, 0;
    }

    method ExchangeIdentity(org: OrgId, instance: InstanceId, now: Time) returns (agent: AgentId, token: BearerId)
      modifies this
      ensures (State(), agent, token) == Exchange(old(State()), org, instance, now)
    {
      var known := RowsOf(State(), org, instance);
      if known == {} {
        agent := nextAgent;
        agents := agents[agent := Agent(org, instance, Unconfigured, Reachable, Some(now), None, 0)];
        nextAgent := nextAgent + 1;
      } else {
        agent := Least(known);
        var row := agents[agent];
        if row.lifecycle == Shutdown {
          row := row.(lifecycle := Unconfigured);
        }
        agents := agents[agent := row.(state := Reachable, lastHeartbeat := Some(now))];
      }
      token := nextBearer;
      bearers := bearers[token := Bearer(agent, now + BEARER_TTL_SECONDS, false)];
      nextBearer := nextBearer + 1;
    }

    method RecordHeartbeat(token: BearerId, count: nat, now: Time) returns (accepted: bool)
      modifies this
      ensures State() == Heartbeat(old(State()), token, count, now)
      ensures accepted <==> Verify(old(State()), token, now).Some?
    {
      var caller := Verify(State(), token, now);
      accepted := caller.Some?;
      if accepted && caller.value in agents {
        agents := agents[caller.value :=
            agents[caller.value].(lastHeartbeat := Some(now), state := Reachable, workspaceCount := count)];
      }
    }

    /** Each unrevoked bearer of `agent` is visited once. */
    method RevokeAllForAgent(agent: AgentId) returns (count: nat)
      modifies this
      ensures State() == RevokeAllFor(old(State()), {agent})
      ensures count == |set t | t in old(bearers) && old(bearers)[t].agent == agent && !old(bearers)[t].revoked|
    {
      var active := set t | t in bearers && bearers[t].agent == agent && !bearers[t].revoked;
      count := |active|;
      bearers := map t | t in bearers :: if t in active then bearers[t].(revoked := true) else bearers[t];
      assert State() == RevokeAllFor(old(State()), {agent});
    }

    /** Returns whether this caller won the compare-and-set. */
    method CompleteShutdown(agent: AgentId, now: Time) returns (won: bool)
      modifies this
      ensures State() == MarkShutdownComplete(old(State()), agent, now)
      ensures won <==> agent in old(agents) && old(agents)[agent].lifecycle == Draining
    {
      won := agent in agents && agents[agent].lifecycle == Draining;
      if won {
        agents := agents[agent := agents[agent].(lifecycle := Shutdown, state := Offline, lastShutdown := Some(now))];
        var _ := RevokeAllForAgent(agent);
      }
    }

    method DeregisterIdentity(token: BearerId, now: Time)
      modifies this
      ensures State() == Deregister(old(State()), token, now)
    {
      var caller := Verify(State(), token, now);
      if caller == None {
        return;
      }
      var agent := caller.value;
      var lifecycle := if agent in agents then agents[agent].lifecycle else Active;
      if lifecycle == Shutdown {
        return;
      }
      if lifecycle == Draining {
        var _ := CompleteShutdown(agent, now);
        return;
      }
      if agent in agents {
        agents := agents[agent := agents[agent].(state := Offline, lastShutdown := Some(now))];
      }
      bearers := bearers[token := bearers[token].(revoked := true)];
    }

    /** Visits the rows in any order; `offline` lists those that turned offline. */
    method ComputeAgentLivenessTransitions(now: Time, locked: set<AgentId>) returns (offline: set<AgentId>)
      modifies this
      ensures State() == Sweep(old(State()), now, locked)
      ensures offline == NewlyOffline(old(State()), now, locked)
    {
      ghost var start := State();
      var todo := set id | id in agents && SweepSees(State(), id, locked);
      ghost var visited := agents.Keys - todo;
      offline := {};
      SweepNothing(start, visited, now, locked);
      while todo != {}
        invariant todo !! visited && todo + visited == start.agents.Keys
        invariant forall id :: id in todo ==> SweepSees(start, id, locked)
        invariant State() == SweepRows(start, visited, now, locked)
        invariant offline == NewlyOffline(start, now, locked) * visited
        decreases todo
      {
        var id :| id in todo;
        var row := agents[id];
        assert row == start.agents[id];
        SweepOneMore(start, visited, id, now, locked);
        var target := LivenessAt(row.lastHeartbeat.value, now);
        if row.state != target {
          agents := agents[id := row.(state := target)];
          if target == Offline {
            offline := offline + {id};
            var _ := CompleteShutdown(id, now);
          }
        }
        todo, visited := todo - {id}, visited + {id};
      }
      assert visited == start.agents.Keys;
    }
  }

  lemma SweepNothing(r: Registry, ids: set<AgentId>, now: Time, locked: set<AgentId>)
    requires forall id :: id in ids ==> !SweepSees(r, id, locked)
    ensures SweepRows(r, ids, now, locked) == r
    ensures NewlyOffline(r, now, locked) * ids == {}
  {
    var r' := SweepRows(r, ids, now, locked);
    assert r'.agents == r.agents;
    assert r'.bearers == r.bearers;
  }

  /** What sweeping one more row adds. */
  lemma SweepOneMore(r: Registry, visited: set<AgentId>, id: AgentId, now: Time, locked: set<AgentId>)
    requires id !in visited && SweepSees(r, id, locked)
    ensures var part := SweepRows(r, visited, now, locked);
            var row := r.agents[id];
            var target := LivenessAt(row.lastHeartbeat.value, now);
            var touched := part.(agents := part.agents[id := row.(state := target)]);
            && id in part.agents && part.agents[id] == row
            && SweepRows(r, visited + {id}, now, locked)
               == (if row.state == target then part
                   else if target == Offline then MarkShutdownComplete(touched, id, now)
                   else touched)
    ensures NewlyOffline(r, now, locked) * (visited + {id})
            == NewlyOffline(r, now, locked) * visited + (if TurnsOffline(r.agents[id], now) then {id} else {})
  {
    var part := SweepRows(r, visited, now, locked);
    var row := r.agents[id];
    var target := LivenessAt(row.lastHeartbeat.value, now);
    var touched := part.(agents := part.agents[id := row.(state := target)]);
    var want := if row.state == target then part
                else if target == Offline then MarkShutdownComplete(touched, id, now)
                else touched;
    var whole := SweepRows(r, visited + {id}, now, locked);
    assert whole.agents == want.agents;
    assert whole.bearers == want.bearers;
  }
}
