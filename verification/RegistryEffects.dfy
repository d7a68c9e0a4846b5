/**
 What the calls on the agent registry do, said in terms of the fields of the rows and
 bearers alone: who is let in, what becomes of a row, and what nobody else sees change.
 */
module RegistryEffects {
  import opened Basics
  import opened AgentRegistry
  import opened RegistryRuns

  /** The token is one that was issued, has not been revoked and has not run out. */
  ghost predicate LetsIn(r: Registry, token: BearerId, now: Time, agent: AgentId) {
    && token in r.bearers && r.bearers[token].agent == agent
    && !r.bearers[token].revoked && now < r.bearers[token].expiresAt
  }

  /** Only the row of `agent` may differ, and no row comes or goes. */
  ghost predicate OnlyRow(r: Registry, r': Registry, agent: AgentId) {
    && r'.agents.Keys == r.agents.Keys && r'.nextAgent == r.nextAgent && r'.nextBearer == r.nextBearer
    && (forall id :: id in r.agents && id != agent ==> r'.agents[id] == r.agents[id])
  }

  /** Exactly the bearers in `gone` are revoked besides those that were; nothing else of any bearer
      changes. */
  ghost predicate OnlyRevokes(r: Registry, r': Registry, gone: set<BearerId>) {
    && r'.bearers.Keys == r.bearers.Keys
    && (forall t :: t in r.bearers ==>
          && r'.bearers[t].agent == r.bearers[t].agent && r'.bearers[t].expiresAt == r.bearers[t].expiresAt
          && (r'.bearers[t].revoked <==> r.bearers[t].revoked || t in gone))
  }

  ghost function BearersOf(r: Registry, agent: AgentId): (tokens: set<BearerId>)
    ensures forall t :: t in tokens <==> t in r.bearers && r.bearers[t].agent == agent
  {
    set t | t in r.bearers && r.bearers[t].agent == agent
  }

  // ----- Identity exchange and bearers -----

  /** An exchange finds the row of its organisation and instance or makes the next one; the row is
      reachable and heard of now, and a new or a shut-down row is unconfigured; one bearer is
      issued for it, which nobody has had before and which runs out after an hour. */
  lemma ExchangeIsExact(r: Registry, org: OrgId, instance: InstanceId, now: Time)
    requires WellFormed(r)
    ensures var (r', agent, token) := Exchange(r, org, instance, now);
            && agent in r'.agents && r'.agents[agent].org == org && r'.agents[agent].instance == instance
            && r'.agents[agent].state == Reachable && r'.agents[agent].lastHeartbeat == Some(now)
            && token !in r.bearers && r'.bearers - {token} == r.bearers
            && LetsIn(r', token, now, agent) && r'.bearers[token].expiresAt == now + 3600
            && r'.agents - {agent} == r.agents - {agent}
            && (agent in r.agents ==>
                  && r.agents[agent].org == org && r.agents[agent].instance == instance
                  && r'.agents[agent].lastShutdown == r.agents[agent].lastShutdown
                  && r'.agents[agent].workspaceCount == r.agents[agent].workspaceCount
                  && r'.agents[agent].lifecycle
                     == if r.agents[agent].lifecycle == Shutdown then Unconfigured else r.agents[agent].lifecycle)
            && (agent !in r.agents ==>
                  && (forall id :: id in r.agents ==> r.agents[id].org != org || r.agents[id].instance != instance)
                  && r'.agents[agent].lifecycle == Unconfigured
                  && r'.agents[agent].lastShutdown == None && r'.agents[agent].workspaceCount == 0)
  {
    var (r1, agent) := EnsureAgentRow(r, org, instance, now);
    var (r', token) := Issue(r1, agent, now);
    assert forall id :: id in r.agents && r.agents[id].org == org && r.agents[id].instance == instance ==>
        id in RowsOf(r, org, instance);
    assert r1.agents - {agent} == r.agents - {agent};
    assert r'.bearers - {token} == r.bearers;
  }

  /** A token is verified as exactly the agent it lets in. */
  lemma VerifyIsExact(r: Registry, token: BearerId, now: Time, agent: AgentId)
    ensures Verify(r, token, now) == Some(agent) <==> LetsIn(r, token, now, agent)
  {
  }

  /** Over any run a bearer keeps its agent and its expiry, and once revoked stays revoked. */
  lemma {:induction false} BearerStays(r: Registry, steps: seq<Step>, token: BearerId)
    requires WellFormed(r) && Settled(r) && token in r.bearers
    ensures token in Run(r, steps).bearers
    ensures var (b, b') := (r.bearers[token], Run(r, steps).bearers[token]);
            b'.agent == b.agent && b'.expiresAt == b.expiresAt && (b.revoked ==> b'.revoked)
    decreases |steps|
  {
    if steps != [] {
      StepKeepsSettled(r, steps[0]);
      BearerStep(r, steps[0], token);
      hide Apply, WellFormed, Settled;
      BearerStays(Apply(r, steps[0]), steps[1..], token);
    }
  }

  lemma BearerStep(r: Registry, s: Step, token: BearerId)
    requires WellFormed(r) && token in r.bearers
    ensures token in Apply(r, s).bearers
    ensures var (b, b') := (r.bearers[token], Apply(r, s).bearers[token]);
            b'.agent == b.agent && b'.expiresAt == b.expiresAt && (b.revoked ==> b'.revoked)
  {
  }

  /** The bearer of an exchange verifies, after any run, if and only if less than an hour has passed
      since it was issued and it has not been revoked. */
  lemma BearerIsGoodIff(r: Registry, org: OrgId, instance: InstanceId, now: Time, steps: seq<Step>, at: Time)
    requires WellFormed(r) && Settled(r)
    ensures var (r', agent, token) := Exchange(r, org, instance, now);
            var end := Run(r', steps);
            && token in end.bearers
            && (Verify(end, token, at) == Some(agent) <==> at < now + 3600 && !end.bearers[token].revoked)
            && (Verify(end, token, at) == None <==> !(at < now + 3600 && !end.bearers[token].revoked))
  {
    var (r', agent, token) := Exchange(r, org, instance, now);
    ExchangeIsExact(r, org, instance, now);
    ExchangeKeepsSettled(r, org, instance, now);
    hide Exchange, Run, Settled, WellFormed;
    BearerStays(r', steps, token);
  }

  // ----- Heartbeat and deregistration -----

  /** A heartbeat writes time, state and count of the row of the agent its token lets in, if there is
      one, and changes nothing else. */
  lemma HeartbeatIsExact(r: Registry, token: BearerId, count: nat, now: Time, agent: AgentId)
    ensures (forall a :: !LetsIn(r, token, now, a)) ==> Heartbeat(r, token, count, now) == r
    ensures LetsIn(r, token, now, agent) ==>
              var r' := Heartbeat(r, token, count, now);
              && OnlyRow(r, r', agent) && r'.bearers == r.bearers
              && (agent in r.agents ==>
                    r'.agents[agent]
                    == r.agents[agent].(lastHeartbeat := Some(now), state := Reachable, workspaceCount := count))
  {
    if Verify(r, token, now).Some? {
      VerifyIsExact(r, token, now, Verify(r, token, now).value);
    }
  }

  /** A deregistration that its token lets in takes the row offline and stamps the time, and the token
      is good no more: a draining agent is shut down with all its bearers revoked, any other
      keeps its lifecycle and loses the presented bearer alone. An agent already shut down, and a
      token that lets nobody in, change nothing. */
  lemma DeregisterIsExact(r: Registry, token: BearerId, now: Time, agent: AgentId)
    ensures (forall a :: !LetsIn(r, token, now, a)) ==> Deregister(r, token, now) == r
    ensures LetsIn(r, token, now, agent) && agent in r.agents ==>
              var (r', row) := (Deregister(r, token, now), r.agents[agent]);
              && (row.lifecycle == Shutdown ==> r' == r)
              && (row.lifecycle != Shutdown ==>
                    && OnlyRow(r, r', agent)
                    && r'.agents[agent]
                       == row.(state := Offline, lastShutdown := Some(now),
                               lifecycle := if row.lifecycle == Draining then Shutdown else row.lifecycle)
                    && OnlyRevokes(r, r', if row.lifecycle == Draining then BearersOf(r, agent) else {token})
                    && forall at :: Verify(r', token, at) == None)
    ensures LetsIn(r, token, now, agent) && agent !in r.agents ==>
              var r' := Deregister(r, token, now);
              r'.agents == r.agents && OnlyRevokes(r, r', {token})
  {
    if Verify(r, token, now).Some? {
      VerifyIsExact(r, token, now, Verify(r, token, now).value);
    }
  }

  // ----- Compare-and-set flips -----

  /** The organisation has the agent, with one of these lifecycles. */
  ghost predicate HasIn(r: Registry, org: OrgId, agent: AgentId, lifecycles: set<Lifecycle>) {
    agent in r.agents && r.agents[agent].org == org && r.agents[agent].lifecycle in lifecycles
  }

  /** The row of the agent has the lifecycle now, and nothing else differs. */
  ghost predicate OnlyFlips(r: Registry, r': Registry, agent: AgentId, to: Lifecycle) {
    agent in r.agents && r' == r.(agents := r.agents[agent := r.agents[agent].(lifecycle := to)])
  }

  /** A configuration activates an unconfigured agent and leaves any other as it is. */
  lemma ConfiguringIsExact(r: Registry, agent: AgentId)
    ensures if agent in r.agents && r.agents[agent].lifecycle == Unconfigured
            then OnlyFlips(r, MarkConfigured(r, agent), agent, Active)
            else MarkConfigured(r, agent) == r
  {
  }

  /** A drain request drains an unconfigured or active agent of its organisation, and otherwise changes
      nothing; the outcome says which. */
  lemma DrainingIsExact(r: Registry, org: OrgId, agent: AgentId)
    ensures if HasIn(r, org, agent, {Unconfigured, Active})
            then OnlyFlips(r, Drain(r, org, agent), agent, Draining)
            else Drain(r, org, agent) == r
    ensures var outcome := DrainOutcomeOf(r, org, agent);
            && (outcome == DrainStarted <==> HasIn(r, org, agent, {Unconfigured, Active}))
            && (outcome == AlreadyDraining <==> HasIn(r, org, agent, {Draining}))
            && (outcome == AlreadyShutdown <==> HasIn(r, org, agent, {Shutdown}))
            && (outcome == NotFound <==> agent !in r.agents || r.agents[agent].org != org)
  {
  }

  /** A cancel activates a draining agent of its organisation, and otherwise changes nothing; the
      outcome says which. */
  lemma CancellingIsExact(r: Registry, org: OrgId, agent: AgentId)
    ensures if HasIn(r, org, agent, {Draining})
            then OnlyFlips(r, CancelDrain(r, org, agent), agent, Active)
            else CancelDrain(r, org, agent) == r
    ensures var outcome := CancelOutcomeOf(r, org, agent);
            && (outcome == Resumed <==> HasIn(r, org, agent, {Draining}))
            && (outcome == NotDraining <==> HasIn(r, org, agent, {Unconfigured, Active}))
            && (outcome == CancelTooLate <==> HasIn(r, org, agent, {Shutdown}))
            && (outcome == CancelNotFound <==> agent !in r.agents || r.agents[agent].org != org)
  {
  }

  /** A drain completes only from draining: the row is shut down, offline and stamped, and exactly
      its bearers are revoked. */
  lemma CompletionIsExact(r: Registry, agent: AgentId, now: Time)
    ensures !(agent in r.agents && r.agents[agent].lifecycle == Draining) ==> MarkShutdownComplete(r, agent, now) == r
    ensures agent in r.agents && r.agents[agent].lifecycle == Draining ==>
              var r' := MarkShutdownComplete(r, agent, now);
              && OnlyRow(r, r', agent) && OnlyRevokes(r, r', BearersOf(r, agent))
              && r'.agents[agent]
                 == r.agents[agent].(lifecycle := Shutdown, state := Offline, lastShutdown := Some(now))
  {
  }

  /** A mass revocation revokes exactly the bearers of the agents named. */
  lemma RevocationIsExact(r: Registry, agents: set<AgentId>)
    ensures var r' := RevokeAllFor(r, agents);
            && r'.agents == r.agents && r'.nextAgent == r.nextAgent && r'.nextBearer == r.nextBearer
            && OnlyRevokes(r, r', set t | t in r.bearers && r.bearers[t].agent in agents)
  {
  }
}
