/** Runs of the agent registry: a shutdown is settled, and what the liveness sweep guarantees. */
module RegistryRuns {
  import opened Basics
  import opened AgentRegistry

  datatype Step =
    | DoExchange(org: OrgId, instance: InstanceId, now: Time)
    | DoHeartbeat(token: BearerId, count: nat, now: Time)
    | DoDeregister(token: BearerId, now: Time)
    | DoConfigured(agent: AgentId)
    | DoDrain(org: OrgId, agent: AgentId)
    | DoCancel(org: OrgId, agent: AgentId)
    | DoSweep(now: Time, locked: set<AgentId>)
    | DoRevoke(agents: set<AgentId>)

  function Apply(r: Registry, s: Step): Registry {
    match s
    case DoExchange(org, instance, now) => Exchange(r, org, instance, now).0
    case DoHeartbeat(token, count, now) => Heartbeat(r, token, count, now)
    case DoDeregister(token, now) => Deregister(r, token, now)
    case DoConfigured(agent) => MarkConfigured(r, agent)
    case DoDrain(org, agent) => Drain(r, org, agent)
    case DoCancel(org, agent) => CancelDrain(r, org, agent)
    case DoSweep(now, locked) => Sweep(r, now, locked)
    case DoRevoke(agents) => RevokeAllFor(r, agents)
  }

  function Run(r: Registry, steps: seq<Step>): Registry
    decreases |steps|
  {
    if steps == [] then r else Run(Apply(r, steps[0]), steps[1..])
  }

  // ----- Shutdown is settled -----

  ghost predicate Unrevoked(r: Registry, agent: AgentId) {
    exists t :: t in r.bearers && r.bearers[t].agent == agent && !r.bearers[t].revoked
  }

  /** Ids and tokens are handed out once, and every bearer belongs to a row. */
  ghost predicate WellFormed(r: Registry) {
    && (forall id :: id in r.agents ==> id < r.nextAgent)
    && (forall t :: t in r.bearers ==> t < r.nextBearer && r.bearers[t].agent in r.agents)
  }

  /** A shut-down agent is offline and nothing can authenticate as it. */
  ghost predicate Settled(r: Registry) {
    forall id :: id in r.agents && r.agents[id].lifecycle == Shutdown ==>
      r.agents[id].state == Offline && !Unrevoked(r, id)
  }

  /** The step is an identity exchange of the row's own organisation and instance. */
  predicate IsExchangeOf(s: Step, row: Agent) {
    s.DoExchange? && s.org == row.org && s.instance == row.instance
  }

  /** Only its own exchange takes a row out of `shutdown`; rows are never deleted and keep
      their organisation and instance. */
  ghost predicate LeavesShutdownOnlyByExchange(r: Registry, r': Registry, s: Step) {
    forall id :: id in r.agents ==>
      && id in r'.agents
      && r'.agents[id].org == r.agents[id].org && r'.agents[id].instance == r.agents[id].instance
      && (r.agents[id].lifecycle == Shutdown && r'.agents[id].lifecycle != Shutdown ==>
            IsExchangeOf(s, r.agents[id]) && r'.agents[id].lifecycle == Unconfigured)
  }

  lemma StepKeepsSettled(r: Registry, s: Step)
    requires WellFormed(r) && Settled(r)
    ensures var r' := Apply(r, s);
            WellFormed(r') && Settled(r') && LeavesShutdownOnlyByExchange(r, r', s)
  {
    match s
    case DoExchange(org, instance, now) =>
      ExchangeKeepsSettled(r, org, instance, now);
    case DoHeartbeat(token, count, now) =>
      HeartbeatKeepsSettled(r, token, count, now);
    case DoDeregister(token, now) =>
      DeregisterKeepsSettled(r, token, now);
    case DoConfigured(agent) =>
    case DoDrain(org, agent) =>
    case DoCancel(org, agent) =>
    case DoSweep(now, locked) =>
      SweepKeepsSettled(r, now, locked);
    case DoRevoke(agents) =>
  }

  lemma ExchangeKeepsSettled(r: Registry, org: OrgId, instance: InstanceId, now: Time)
    requires WellFormed(r) && Settled(r)
    ensures var r' := Exchange(r, org, instance, now).0;
            && WellFormed(r') && Settled(r')
            && LeavesShutdownOnlyByExchange(r, r', DoExchange(org, instance, now))
  {
    var (r1, agent) := EnsureAgentRow(r, org, instance, now);
    var (r', token) := Issue(r1, agent, now);
    assert r'.agents[agent].lifecycle != Shutdown;
    forall id | id in r'.agents && r'.agents[id].lifecycle == Shutdown
      ensures r'.agents[id].state == Offline && !Unrevoked(r', id)
    {
      assert id in r.agents && r.agents[id] == r'.agents[id];
      assert !Unrevoked(r, id);
    }
  }

  lemma HeartbeatKeepsSettled(r: Registry, token: BearerId, count: nat, now: Time)
    requires WellFormed(r) && Settled(r)
    ensures var r' := Heartbeat(r, token, count, now);
            && WellFormed(r') && Settled(r')
            && LeavesShutdownOnlyByExchange(r, r', DoHeartbeat(token, count, now))
  {
    var caller := Verify(r, token, now);
    if caller.Some? {
      assert Unrevoked(r, caller.value);
      BeatKeepsSettledIff(r, caller.value, count, now);
    }
  }

  lemma DeregisterKeepsSettled(r: Registry, token: BearerId, now: Time)
    requires WellFormed(r) && Settled(r)
    ensures var r' := Deregister(r, token, now);
            && WellFormed(r') && Settled(r')
            && LeavesShutdownOnlyByExchange(r, r', DoDeregister(token, now))
  {
    var r' := Deregister(r, token, now);
    forall id | id in r'.agents && r'.agents[id].lifecycle == Shutdown
      ensures r'.agents[id].state == Offline && !Unrevoked(r', id)
    {
      if r.agents[id].lifecycle == Shutdown {
        assert !Unrevoked(r, id);
      }
    }
  }

  lemma SweepKeepsSettled(r: Registry, now: Time, locked: set<AgentId>)
    requires WellFormed(r) && Settled(r)
    ensures var r' := Sweep(r, now, locked);
            && WellFormed(r') && Settled(r')
            && LeavesShutdownOnlyByExchange(r, r', DoSweep(now, locked))
  {
    var r' := Sweep(r, now, locked);
    forall id | id in r'.agents && r'.agents[id].lifecycle == Shutdown
      ensures r'.agents[id].state == Offline && !Unrevoked(r', id)
    {
      if r.agents[id].lifecycle == Shutdown {
        assert !Unrevoked(r, id);
      }
    }
  }

  /** In every reachable state a shut-down agent is offline with every bearer revoked. */
  lemma {:induction false} ShutdownIsSettled(r: Registry, steps: seq<Step>)
    requires WellFormed(r) && Settled(r)
    ensures WellFormed(Run(r, steps)) && Settled(Run(r, steps))
    ensures forall id :: id in r.agents ==> id in Run(r, steps).agents
    decreases |steps|
  {
    if steps != [] {
      StepKeepsSettled(r, steps[0]);
      ShutdownIsSettled(Apply(r, steps[0]), steps[1..]);
    }
  }

  /** From `shutdown`, any run without an exchange of that row's own identity ends in `shutdown`. */
  lemma {:induction false} ShutdownStaysWithoutExchange(r: Registry, steps: seq<Step>, id: AgentId)
    requires WellFormed(r) && Settled(r)
    requires id in r.agents && r.agents[id].lifecycle == Shutdown
    requires forall i :: 0 <= i < |steps| ==> !IsExchangeOf(steps[i], r.agents[id])
    ensures id in Run(r, steps).agents && Run(r, steps).agents[id].lifecycle == Shutdown
    decreases |steps|
  {
    if steps != [] {
      StepKeepsSettled(r, steps[0]);
      ShutdownStaysWithoutExchange(Apply(r, steps[0]), steps[1..], id);
    }
  }

  /** The check matters: a heartbeat applied without it keeps the registry settled exactly
      when its agent is not shut down. The handler verifies the bearer in a transaction of
      its own, so a drain that completes in between breaks the property. */
  lemma BeatKeepsSettledIff(r: Registry, agent: AgentId, count: nat, now: Time)
    requires WellFormed(r) && Settled(r) && agent in r.agents
    ensures Settled(Beat(r, agent, count, now)) <==> r.agents[agent].lifecycle != Shutdown
  {
    var r' := Beat(r, agent, count, now);
    if r.agents[agent].lifecycle == Shutdown {
      assert r'.agents[agent].state == Reachable;
    } else {
      forall id | id in r'.agents && r'.agents[id].lifecycle == Shutdown
        ensures r'.agents[id].state == Offline && !Unrevoked(r', id)
      {
        assert !Unrevoked(r, id);
      }
    }
  }

  /** A concrete interleaving: the bearer is verified, the agent deregisters while draining,
      and only then does the heartbeat write its row. */
  lemma LateHeartbeatUnsettles()
    ensures var start := Registry(map[7 := Agent(1, 1, Draining, Reachable, Some(0), None, 0)],
                                  map[3 := Bearer(7, 3600, false)], 8, 4);
            && WellFormed(start) && Settled(start)
            && Verify(start, 3, 10) == Some(7)
            && var done := Deregister(start, 3, 11);
               Settled(done) && !Settled(Beat(done, 7, 0, 12))
  {
    var start := Registry(map[7 := Agent(1, 1, Draining, Reachable, Some(0), None, 0)],
                          map[3 := Bearer(7, 3600, false)], 8, 4);
    assert WellFormed(start) && Settled(start);
    DeregisterKeepsSettled(start, 3, 11);
    BeatKeepsSettledIff(Deregister(start, 3, 11), 7, 0, 12);
  }

  // ----- The liveness sweep -----

  /** The sweep looks at the row: nobody has it locked, it is not shut down and was heard of. */
  ghost predicate Looked(r: Registry, id: AgentId, locked: set<AgentId>) {
    id in r.agents && id !in locked && r.agents[id].lifecycle != Shutdown && r.agents[id].lastHeartbeat.Some?
  }

  ghost function Age(r: Registry, id: AgentId, now: Time): Time
    requires id in r.agents && r.agents[id].lastHeartbeat.Some?
  {
    now - r.agents[id].lastHeartbeat.value
  }

  /** The row was not offline and its last heartbeat is more than 300 seconds old. */
  ghost predicate FallsSilent(r: Registry, id: AgentId, now: Time, locked: set<AgentId>) {
    Looked(r, id, locked) && r.agents[id].state != Offline && Age(r, id, now) > 300
  }

  /** After a sweep every row it looked at is offline if last heard of more than 300 seconds ago,
      lagging if more than 60, and reachable otherwise; exactly the rows that turned offline are
      listed; those of them that were draining are shut down and stamped, and exactly their bearers
      are revoked. Nothing else changes. */
  lemma SweepIsExact(r: Registry, now: Time, locked: set<AgentId>)
    ensures var r' := Sweep(r, now, locked);
            && r'.agents.Keys == r.agents.Keys && r'.bearers.Keys == r.bearers.Keys
            && r'.nextAgent == r.nextAgent && r'.nextBearer == r.nextBearer
            && (forall id :: id in NewlyOffline(r, now, locked) <==> FallsSilent(r, id, now, locked))
            && (forall id :: id in r.agents && !Looked(r, id, locked) ==> r'.agents[id] == r.agents[id])
            && (forall id :: Looked(r, id, locked) ==>
                  var (row, row') := (r.agents[id], r'.agents[id]);
                  && (Age(r, id, now) > 300 ==> row'.state == Offline)
                  && (60 < Age(r, id, now) <= 300 ==> row'.state == Lagging)
                  && (Age(r, id, now) <= 60 ==> row'.state == Reachable)
                  && (if FallsSilent(r, id, now, locked) && row.lifecycle == Draining
                      then row' == row.(state := Offline, lifecycle := Shutdown, lastShutdown := Some(now))
                      else row' == row.(state := row'.state)))
            && (forall t :: t in r.bearers ==>
                  r'.bearers[t]
                  == if FallsSilent(r, r.bearers[t].agent, now, locked)
                      && r.agents[r.bearers[t].agent].lifecycle == Draining
                     then r.bearers[t].(revoked := true) else r.bearers[t])
  {
    var r' := Sweep(r, now, locked);
    forall id | id in r.agents
      ensures r'.agents[id] == if SweepSees(r, id, locked) then Swept(r.agents[id], now) else r.agents[id]
    {
    }
  }

  /** Sweeping again at the same time changes nothing and returns nothing. */
  lemma SweepIsIdempotent(r: Registry, now: Time, locked: set<AgentId>)
    ensures var r' := Sweep(r, now, locked);
            Sweep(r', now, locked) == r' && NewlyOffline(r', now, locked) == {}
  {
    var r' := Sweep(r, now, locked);
    forall id | id in r'.agents && SweepSees(r', id, locked)
      ensures Swept(r'.agents[id], now) == r'.agents[id] && !TurnsOffline(r'.agents[id], now)
    {
      assert SweepSees(r, id, locked) && r'.agents[id] == Swept(r.agents[id], now);
    }
    var again := Sweep(r', now, locked);
    assert again.agents == r'.agents;
    assert again.bearers == r'.bearers;
  }

  /** The stuck-drain recovery runs on the transition to offline only: the sweep shuts a
      silent draining agent down exactly when it was not already shown as offline. */
  lemma SilentDrainIsSettledIff(r: Registry, id: AgentId, now: Time)
    requires id in r.agents && r.agents[id].lifecycle == Draining && r.agents[id].lastHeartbeat.Some?
    requires Age(r, id, now) > 300
    ensures Sweep(r, now, {}).agents[id].lifecycle == Shutdown <==> r.agents[id].state != Offline
  {
    SweepIsExact(r, now, {});
  }

  /** An agent that was already offline when its drain was requested stays `draining` for as
      long as it is silent, however often the sweep runs. */
  lemma {:induction false} OfflineDrainIsNeverSettled(r: Registry, id: AgentId, sweeps: seq<Time>)
    requires id in r.agents && r.agents[id].lifecycle == Draining && r.agents[id].state == Offline
    requires r.agents[id].lastHeartbeat.Some?
    requires forall i :: 0 <= i < |sweeps| ==> Age(r, id, sweeps[i]) > 300
    ensures var steps := seq(|sweeps|, i requires 0 <= i < |sweeps| => DoSweep(sweeps[i], {}));
            id in Run(r, steps).agents && Run(r, steps).agents[id] == r.agents[id]
    decreases |sweeps|
  {
    var steps := seq(|sweeps|, i requires 0 <= i < |sweeps| => DoSweep(sweeps[i], {}));
    if sweeps != [] {
      var r' := Sweep(r, sweeps[0], {});
      assert r'.agents[id] == Swept(r.agents[id], sweeps[0]) == r.agents[id];
      OfflineDrainIsNeverSettled(r', id, sweeps[1..]);
      assert steps[1..] == seq(|sweeps| - 1, i requires 0 <= i < |sweeps| - 1 => DoSweep(sweeps[1..][i], {}));
    }
  }
}
