/**
 The control plane as a whole: the agent registry and the command queue change
 together when an agent exchanges identity, when an admin drains it or cancels a
 drain, and when an event is reported.
 */
module ControlPlane {
  import opened Basics
  import opened CommandRows
  import opened CommandQueue
  import opened AgentRegistry

  /** `nextId` is the supply of UUIDv7 command ids: each mint is greater than every earlier one. */
  datatype Plane = Plane(registry: Registry, queue: Queue, nextId: CommandId)

  /** Mints an id and enqueues a command pre-stamped with its agent. */
  function Notify(p: Plane, agent: AgentId, kind: Kind): Plane {
    p.(queue := EnqueueForAgent(p.queue, p.nextId, kind, agent), nextId := p.nextId + 1)
  }

  function ExchangeIdentity(p: Plane, org: OrgId, instance: InstanceId, now: Time): (Plane, AgentId, BearerId) {
    var (registry, agent, token) := Exchange(p.registry, org, instance, now);
    (Notify(p.(registry := registry), agent, ConfigUpdate), agent, token)
  }

  function DrainOne(p: Plane, org: OrgId, agent: AgentId): Plane {
    if DrainOutcomeOf(p.registry, org, agent) == DrainStarted
    then Notify(p.(registry := Drain(p.registry, org, agent)), agent, ShutdownCommand)
    else p
  }

  function DrainAll(p: Plane, org: OrgId, agents: seq<AgentId>): Plane {
    if agents == [] then p
    else
      var before := DrainAll(p, org, agents[..|agents| - 1]);
      DrainOne(before, org, agents[|agents| - 1])
  }

  function DrainOutcomes(p: Plane, org: OrgId, agents: seq<AgentId>): (outcomes: seq<DrainOutcome>)
    ensures |outcomes| == |agents|
  {
    if agents == [] then []
    else
      var before := DrainAll(p, org, agents[..|agents| - 1]);
      DrainOutcomes(p, org, agents[..|agents| - 1]) + [DrainOutcomeOf(before.registry, org, agents[|agents| - 1])]
  }

  function CancelOne(p: Plane, org: OrgId, agent: AgentId): Plane {
    if CancelOutcomeOf(p.registry, org, agent) == Resumed
    then Notify(p.(registry := CancelDrain(p.registry, org, agent)), agent, CancelShutdown)
    else p
  }

  function CancelAll(p: Plane, org: OrgId, agents: seq<AgentId>): Plane {
    if agents == [] then p
    else
      var before := CancelAll(p, org, agents[..|agents| - 1]);
      CancelOne(before, org, agents[|agents| - 1])
  }

  function CancelOutcomes(p: Plane, org: OrgId, agents: seq<AgentId>): (outcomes: seq<CancelOutcome>)
    ensures |outcomes| == |agents|
  {
    if agents == [] then []
    else
      var before := CancelAll(p, org, agents[..|agents| - 1]);
      CancelOutcomes(p, org, agents[..|agents| - 1]) + [CancelOutcomeOf(before.registry, org, agents[|agents| - 1])]
  }

  /** A ConfigUpdate success flips its row's agent from unconfigured to active. */
  predicate Configures(q: Queue, ev: Event) {
    && Authorized(q, ev)
    && ev.kind == CompletedSuccess
    && q.rows[ev.command].kind == ConfigUpdate
    && q.rows[ev.command].agent.Some?
  }

  function Report(p: Plane, ev: Event, reporter: Option<AgentId>): Plane {
    var registry := if Configures(p.queue, ev)
                    then MarkConfigured(p.registry, p.queue.rows[ev.command].agent.value)
                    else p.registry;
    p.(registry := registry, queue := RecordEvent(p.queue, ev, reporter))
  }

  // ----- Bulk drain and cancel are batches of independent compare-and-sets -----

  /** The agents of the list that belong to the organisation and may be drained. */
  ghost function Drainable(p: Plane, org: OrgId, agents: seq<AgentId>): set<AgentId> {
    set a | a in agents && a in p.registry.agents && p.registry.agents[a].org == org
            && p.registry.agents[a].lifecycle in {Unconfigured, Active}
  }

  /** The agents of the list that belong to the organisation and whose drain may be cancelled. */
  ghost function Resumable(p: Plane, org: OrgId, agents: seq<AgentId>): set<AgentId> {
    set a | a in agents && a in p.registry.agents && p.registry.agents[a].org == org
            && p.registry.agents[a].lifecycle == Draining
  }

  ghost function NewRows(before: Plane, after: Plane): set<CommandId> {
    set id | id in after.queue.rows && id !in before.queue.rows
  }

  ghost predicate IdsBelow(p: Plane) {
    forall id :: id in p.queue.rows ==> id < p.nextId
  }

  /** Exactly the agents in `flipped` have the lifecycle now; nothing else about the agents changed. */
  ghost predicate OnlyFlipped(before: Registry, after: Registry, flipped: set<AgentId>, to: Lifecycle) {
    && after == before.(agents := after.agents)
    && after.agents.Keys == before.agents.Keys
    && forall a :: a in before.agents ==>
         after.agents[a] == if a in flipped then before.agents[a].(lifecycle := to) else before.agents[a]
  }

  predicate NotifiedRow(row: Row, agents: set<AgentId>, kind: Kind) {
    && row.agent.Some? && row.agent.value in agents && row.hash.Some?
    && row == Row(kind, Pending, row.agent, None, None, row.hash, None, 0)
  }

  ghost predicate KeepsRows(before: Plane, after: Plane) {
    forall id :: id in before.queue.rows ==> id in after.queue.rows && after.queue.rows[id] == before.queue.rows[id]
  }

  ghost predicate AddsOnlyNotices(before: Plane, after: Plane, agents: set<AgentId>, kind: Kind) {
    forall id :: id in NewRows(before, after) ==> before.nextId <= id && NotifiedRow(after.queue.rows[id], agents, kind)
  }

  predicate NoticeFor(p: Plane, id: CommandId, agent: AgentId) {
    id in p.queue.rows && p.queue.rows[id].agent == Some(agent)
  }

  /** Each of `agents` has its new row, and no two new rows are for the same agent. */
  ghost predicate OneNoticeEach(before: Plane, after: Plane, agents: set<AgentId>) {
    && (forall a :: a in agents ==> exists id :: id in NewRows(before, after) && NoticeFor(after, id, a))
    && (forall x, y, a ::
          (x in NewRows(before, after) && y in NewRows(before, after) && NoticeFor(after, x, a)
              && NoticeFor(after, y, a)) ==>
            x == y)
  }

  /** The queue gained one pending row of the kind for each agent in `notified`, and nothing else. */
  ghost predicate OnlyNotified(before: Plane, after: Plane, notified: set<AgentId>, kind: Kind) {
    && IdsBelow(before) && IdsBelow(after) && before.nextId <= after.nextId
    && after.queue.log == before.queue.log
    && KeepsRows(before, after)
    && AddsOnlyNotices(before, after, notified, kind)
    && OneNoticeEach(before, after, notified)
    && |NewRows(before, after)| == |notified|
  }

  /** What a bulk drain leaves behind, stated without its loop: exactly the agents of the
      organisation that were unconfigured or active are draining now, whatever the order and the
      repetitions in the list, and one Shutdown command was enqueued for each of them. */
  lemma {:induction false} BulkDrainIsExact(p: Plane, org: OrgId, agents: seq<AgentId>)
    requires IdsBelow(p)
    ensures var p' := DrainAll(p, org, agents);
            && OnlyFlipped(p.registry, p'.registry, Drainable(p, org, agents), Draining)
            && OnlyNotified(p, p', Drainable(p, org, agents), ShutdownCommand)
  {
    if agents == [] {
      NothingFlipped(p, Draining, ShutdownCommand);
      assert Drainable(p, org, agents) == {};
    } else {
      hide OnlyFlipped, OnlyNotified, DrainOne, Drainable;
      var front, last := agents[..|agents| - 1], agents[|agents| - 1];
      assert agents == front + [last];
      var mid := DrainAll(p, org, front);
      BulkDrainIsExact(p, org, front);
      DrainableStep(p, mid, org, front, last);
      DrainOneIsExact(p, mid, org, last, Drainable(p, org, front));
    }
  }

  /** A bulk cancel likewise: exactly the draining agents of the organisation are active again, and
      one CancelShutdown command was enqueued for each of them. */
  lemma {:induction false} BulkCancelIsExact(p: Plane, org: OrgId, agents: seq<AgentId>)
    requires IdsBelow(p)
    ensures var p' := CancelAll(p, org, agents);
            && OnlyFlipped(p.registry, p'.registry, Resumable(p, org, agents), Active)
            && OnlyNotified(p, p', Resumable(p, org, agents), CancelShutdown)
  {
    if agents == [] {
      NothingFlipped(p, Active, CancelShutdown);
      assert Resumable(p, org, agents) == {};
    } else {
      hide OnlyFlipped, OnlyNotified, CancelOne, Resumable;
      var front, last := agents[..|agents| - 1], agents[|agents| - 1];
      assert agents == front + [last];
      var mid := CancelAll(p, org, front);
      BulkCancelIsExact(p, org, front);
      ResumableStep(p, mid, org, front, last);
      CancelOneIsExact(p, mid, org, last, Resumable(p, org, front));
    }
  }

  lemma NothingFlipped(p: Plane, to: Lifecycle, kind: Kind)
    requires IdsBelow(p)
    ensures OnlyFlipped(p.registry, p.registry, {}, to) && OnlyNotified(p, p, {}, kind)
  {
    assert NewRows(p, p) == {};
  }

  lemma DrainableStep(p: Plane, mid: Plane, org: OrgId, front: seq<AgentId>, last: AgentId)
    requires OnlyFlipped(p.registry, mid.registry, Drainable(p, org, front), Draining)
    ensures Drainable(p, org, front + [last])
            == Drainable(p, org, front)
               + (if DrainOutcomeOf(mid.registry, org, last) == DrainStarted then {last} else {})
    ensures DrainOutcomeOf(mid.registry, org, last) == DrainStarted ==> last !in Drainable(p, org, front)
  {
  }

  lemma ResumableStep(p: Plane, mid: Plane, org: OrgId, front: seq<AgentId>, last: AgentId)
    requires OnlyFlipped(p.registry, mid.registry, Resumable(p, org, front), Active)
    ensures Resumable(p, org, front + [last])
            == Resumable(p, org, front)
               + (if CancelOutcomeOf(mid.registry, org, last) == Resumed then {last} else {})
    ensures CancelOutcomeOf(mid.registry, org, last) == Resumed ==> last !in Resumable(p, org, front)
  {
  }

  lemma DrainOneIsExact(p: Plane, mid: Plane, org: OrgId, last: AgentId, drained: set<AgentId>)
    requires OnlyFlipped(p.registry, mid.registry, drained, Draining) && OnlyNotified(p, mid, drained, ShutdownCommand)
    requires DrainOutcomeOf(mid.registry, org, last) == DrainStarted ==> last !in drained
    ensures var p' := DrainOne(mid, org, last);
            var drained' := drained + (if DrainOutcomeOf(mid.registry, org, last) == DrainStarted then {last} else {});
            && OnlyFlipped(p.registry, p'.registry, drained', Draining)
            && OnlyNotified(p, p', drained', ShutdownCommand)
  {
    if DrainOutcomeOf(mid.registry, org, last) == DrainStarted {
      var p' := DrainOne(mid, org, last);
      assert OnlyFlipped(p.registry, p'.registry, drained + {last}, Draining);
      NotifyIsExact(p, mid, p', last, drained, ShutdownCommand);
    } else {
      assert drained + {} == drained;
    }
  }

  lemma CancelOneIsExact(p: Plane, mid: Plane, org: OrgId, last: AgentId, resumed: set<AgentId>)
    requires OnlyFlipped(p.registry, mid.registry, resumed, Active) && OnlyNotified(p, mid, resumed, CancelShutdown)
    requires CancelOutcomeOf(mid.registry, org, last) == Resumed ==> last !in resumed
    ensures var p' := CancelOne(mid, org, last);
            var resumed' := resumed + (if CancelOutcomeOf(mid.registry, org, last) == Resumed then {last} else {});
            && OnlyFlipped(p.registry, p'.registry, resumed', Active)
            && OnlyNotified(p, p', resumed', CancelShutdown)
  {
    if CancelOutcomeOf(mid.registry, org, last) == Resumed {
      var p' := CancelOne(mid, org, last);
      assert OnlyFlipped(p.registry, p'.registry, resumed + {last}, Active);
      NotifyIsExact(p, mid, p', last, resumed, CancelShutdown);
    } else {
      assert resumed + {} == resumed;
    }
  }

  lemma NotifyIsExact(p: Plane, mid: Plane, p': Plane, agent: AgentId, notified: set<AgentId>, kind: Kind)
    requires OnlyNotified(p, mid, notified, kind) && agent !in notified
    requires p'.nextId == mid.nextId + 1 && mid.nextId in p'.queue.rows && p'.queue.log == mid.queue.log
    requires p'.queue.rows == mid.queue.rows[mid.nextId := p'.queue.rows[mid.nextId]]
    requires NotifiedRow(p'.queue.rows[mid.nextId], {agent}, kind)
    ensures OnlyNotified(p, p', notified + {agent}, kind)
  {
    hide KeepsRows, AddsOnlyNotices, OneNoticeEach, NewRows, NotifiedRow;
    AddsItsNotice(p, mid, p', agent, notified, kind);
    NewRowsGrow(p, mid, p');
    KeepsRowsStill(p, mid, p');
    AddsOneNotice(p, mid, p', agent, notified, kind);
  }

  lemma KeepsRowsStill(p: Plane, mid: Plane, p': Plane)
    requires KeepsRows(p, mid) && IdsBelow(mid)
    requires mid.nextId in p'.queue.rows && p'.queue.rows == mid.queue.rows[mid.nextId := p'.queue.rows[mid.nextId]]
    ensures KeepsRows(p, p')
  {
  }

  lemma AddsOneNotice(p: Plane, mid: Plane, p': Plane, agent: AgentId, notified: set<AgentId>, kind: Kind)
    requires AddsOnlyNotices(p, mid, notified, kind) && p.nextId <= mid.nextId && IdsBelow(mid)
    requires mid.nextId in p'.queue.rows && p'.queue.rows == mid.queue.rows[mid.nextId := p'.queue.rows[mid.nextId]]
    requires NotifiedRow(p'.queue.rows[mid.nextId], {agent}, kind)
    ensures AddsOnlyNotices(p, p', notified + {agent}, kind)
  {
    forall id | id in NewRows(p, p')
      ensures p.nextId <= id && NotifiedRow(p'.queue.rows[id], notified + {agent}, kind)
    {
      if id != mid.nextId {
        assert id in NewRows(p, mid);
      }
    }
  }

  lemma AddsItsNotice(p: Plane, mid: Plane, p': Plane, agent: AgentId, notified: set<AgentId>, kind: Kind)
    requires OneNoticeEach(p, mid, notified) && AddsOnlyNotices(p, mid, notified, kind) && agent !in notified
    requires IdsBelow(p) && IdsBelow(mid) && p.nextId <= mid.nextId
    requires mid.nextId in p'.queue.rows && p'.queue.rows == mid.queue.rows[mid.nextId := p'.queue.rows[mid.nextId]]
    requires NotifiedRow(p'.queue.rows[mid.nextId], {agent}, kind)
    ensures OneNoticeEach(p, p', notified + {agent})
  {
    assert NewRows(p, p') == NewRows(p, mid) + {mid.nextId};
    forall a | a in notified + {agent} ensures exists id :: id in NewRows(p, p') && NoticeFor(p', id, a) {
      if a == agent {
        assert NoticeFor(p', mid.nextId, a);
      } else {
        var id :| id in NewRows(p, mid) && NoticeFor(mid, id, a);
        assert id in NewRows(p, p') && NoticeFor(p', id, a);
      }
    }
    forall x, y, a | x in NewRows(p, p') && y in NewRows(p, p') && NoticeFor(p', x, a) && NoticeFor(p', y, a)
      ensures x == y
    {
      assert x != mid.nextId ==> NoticeFor(mid, x, a) && a in notified;
      assert y != mid.nextId ==> NoticeFor(mid, y, a) && a in notified;
    }
  }

  lemma NewRowsGrow(p: Plane, mid: Plane, p': Plane)
    requires IdsBelow(mid) && p.nextId <= mid.nextId && IdsBelow(p)
    requires p'.queue.rows.Keys == mid.queue.rows.Keys + {mid.nextId}
    ensures NewRows(p, p') == NewRows(p, mid) + {mid.nextId}
    ensures |NewRows(p, p')| == |NewRows(p, mid)| + 1
  {
    assert NewRows(p, p') == NewRows(p, mid) + {mid.nextId};
  }

  /** One outcome per id of the list, in order: an agent of another organisation is not found, a first
      mention of an agent that may be drained starts its drain, and a later mention of it finds
      it draining. */
  lemma {:induction false} DrainOutcomesTell(p: Plane, org: OrgId, agents: seq<AgentId>, i: nat)
    requires i < |agents| && IdsBelow(p)
    ensures var (a, outcome) := (agents[i], DrainOutcomes(p, org, agents)[i]);
            && (outcome == NotFound <==> a !in p.registry.agents || p.registry.agents[a].org != org)
            && (outcome == DrainStarted <==> a in Drainable(p, org, agents) && a !in agents[..i])
            && (outcome == AlreadyShutdown ==> p.registry.agents[a].lifecycle == Shutdown)
            && (outcome == AlreadyDraining ==> p.registry.agents[a].lifecycle == Draining || a in agents[..i])
    decreases |agents|
  {
    var n := |agents| - 1;
    var front := agents[..n];
    if i < n {
      DrainOutcomesTell(p, org, front, i);
      assert front[..i] == agents[..i] && front[i] == agents[i];
    } else {
      BulkDrainIsExact(p, org, front);
      assert agents[..i] == front;
    }
    hide DrainAll, OnlyNotified, IdsBelow;
  }

  lemma {:induction false} CancelOutcomesTell(p: Plane, org: OrgId, agents: seq<AgentId>, i: nat)
    requires i < |agents| && IdsBelow(p)
    ensures var (a, outcome) := (agents[i], CancelOutcomes(p, org, agents)[i]);
            && (outcome == CancelNotFound <==> a !in p.registry.agents || p.registry.agents[a].org != org)
            && (outcome == Resumed <==> a in Resumable(p, org, agents) && a !in agents[..i])
            && (outcome == CancelTooLate ==> p.registry.agents[a].lifecycle == Shutdown)
            && (outcome == NotDraining ==>
                  p.registry.agents[a].lifecycle in {Unconfigured, Active} || a in agents[..i])
    decreases |agents|
  {
    var n := |agents| - 1;
    var front := agents[..n];
    if i < n {
      CancelOutcomesTell(p, org, front, i);
      assert front[..i] == agents[..i] && front[i] == agents[i];
    } else {
      BulkCancelIsExact(p, org, front);
      assert agents[..i] == front;
    }
    hide CancelAll, OnlyNotified, IdsBelow;
  }

  /** An exchange of identity changes the registry as an exchange does and gives the agent exactly one
      new command, a ConfigUpdate. */
  lemma IdentityGivesConfig(p: Plane, org: OrgId, instance: InstanceId, now: Time)
    requires IdsBelow(p)
    ensures var (p', agent, token) := ExchangeIdentity(p, org, instance, now);
            && (p'.registry, agent, token) == Exchange(p.registry, org, instance, now)
            && OnlyNotified(p, p', {agent}, ConfigUpdate)
  {
    var (p', agent, token) := ExchangeIdentity(p, org, instance, now);
    NothingFlipped(p, Active, ConfigUpdate);
    NotifyIsExact(p, p, p', agent, {}, ConfigUpdate);
    assert {} + {agent} == {agent};
  }

  /** An event touches the registry if and only if it is a success of a ConfigUpdate command with an
      agent, it is accepted and that agent is unconfigured; the agent is then active. */
  lemma ReportConfiguresIff(p: Plane, ev: Event, reporter: Option<AgentId>)
    ensures var p' := Report(p, ev, reporter);
            && p'.queue == RecordEvent(p.queue, ev, reporter) && p'.nextId == p.nextId
            && var configures := Authorized(p.queue, ev) && ev.kind == CompletedSuccess
                 && p.queue.rows[ev.command].kind == ConfigUpdate && p.queue.rows[ev.command].agent.Some?
                 && p.queue.rows[ev.command].agent.value in p.registry.agents
                 && p.registry.agents[p.queue.rows[ev.command].agent.value].lifecycle == Unconfigured;
               && (!configures ==> p'.registry == p.registry)
               && (configures ==> OnlyFlipped(p.registry, p'.registry, {p.queue.rows[ev.command].agent.value}, Active))
  {
    hide RecordEvent;
  }

  /** The service object: it owns the registry and the queue. */
  class ControlPlaneService {
    const agents: AgentService
    const commands: CommandService
    var nextId: CommandId

    function State(): Plane
      reads this, agents, commands
    {
      Plane(agents.State(), commands.State(), nextId)
    }

    constructor ()
      ensures State() == Plane(Registry(map[], map[], 0, 0), Queue(map[], 1, []), 0)
      ensures fresh(agents) && fresh(commands)
    {
      agents := new AgentService();
      commands := new CommandService();
      nextId := 0;
    }

    method NotifyAgent(agent: AgentId, kind: Kind)
      modifies this, commands
      ensures State() == Notify(old(State()), agent, kind)
    {
      commands.EnqueueAgentScoped(nextId, kind, agent);
      nextId := nextId + 1;
    }

    method Identity(org: OrgId, instance: InstanceId, now: Time) returns (agent: AgentId, token: BearerId)
      modifies this, agents, commands
      ensures (State(), agent, token) == ExchangeIdentity(old(State()), org, instance, now)
    {
      agent, token := agents.ExchangeIdentity(org, instance, now);
      NotifyAgent(agent, ConfigUpdate);
    }

    /** One compare-and-set and one Shutdown command per agent that could be drained. */
    method ShutdownAgents(org: OrgId, ids: seq<AgentId>) returns (outcomes: seq<DrainOutcome>)
      modifies this, agents, commands
      ensures State() == DrainAll(old(State()), org, ids)
      ensures outcomes == DrainOutcomes(old(State()), org, ids)
    {
      ghost var start := State();
      outcomes := [];
      for i := 0 to |ids|
        invariant State() == DrainAll(start, org, ids[..i])
        invariant outcomes == DrainOutcomes(start, org, ids[..i])
      {
        var aid := ids[i];
        assert ids[..i + 1][..i] == ids[..i];
        if aid !in agents.agents || agents.agents[aid].org != org {
          outcomes := outcomes + [NotFound];
          continue;
        }
        var lifecycle := agents.agents[aid].lifecycle;
        if lifecycle == Shutdown {
          outcomes := outcomes + [AlreadyShutdown];
          continue;
        }
        if lifecycle == Draining {
          outcomes := outcomes + [AlreadyDraining];
          continue;
        }
        agents.agents := agents.agents[aid := agents.agents[aid].(lifecycle := Draining)];
        NotifyAgent(aid, ShutdownCommand);
        outcomes := outcomes + [DrainStarted];
      }
      assert ids[..|ids|] == ids;
    }

    method CancelShutdownAgents(org: OrgId, ids: seq<AgentId>) returns (outcomes: seq<CancelOutcome>)
      modifies this, agents, commands
      ensures State() == CancelAll(old(State()), org, ids)
      ensures outcomes == CancelOutcomes(old(State()), org, ids)
    {
      ghost var start := State();
      outcomes := [];
      for i := 0 to |ids|
        invariant State() == CancelAll(start, org, ids[..i])
        invariant outcomes == CancelOutcomes(start, org, ids[..i])
      {
        var aid := ids[i];
        assert ids[..i + 1][..i] == ids[..i];
        if aid !in agents.agents || agents.agents[aid].org != org {
          outcomes := outcomes + [CancelNotFound];
          continue;
        }
        var lifecycle := agents.agents[aid].lifecycle;
        if lifecycle == Shutdown {
          outcomes := outcomes + [CancelTooLate];
          continue;
        }
        if lifecycle != Draining {
          outcomes := outcomes + [NotDraining];
          continue;
        }
        agents.agents := agents.agents[aid := agents.agents[aid].(lifecycle := Active)];
        NotifyAgent(aid, CancelShutdown);
        outcomes := outcomes + [Resumed];
      }
      assert ids[..|ids|] == ids;
    }

    method CommandEvent(ev: Event, reporter: Option<AgentId>) returns (accepted: bool)
      modifies this, agents, commands
      ensures State() == Report(old(State()), ev, reporter)
      ensures accepted <==> Authorized(old(State()).queue, ev)
    {
      var configures := Configures(commands.State(), ev);
      if configures {
        var agent := commands.rows[ev.command].agent.value;
        if agent in agents.agents && agents.agents[agent].lifecycle == Unconfigured {
          agents.agents := agents.agents[agent := agents.agents[agent].(lifecycle := Active)];
        }
      }
      accepted := commands.RecordAgentEvent(ev, reporter);
    }
  }
}
