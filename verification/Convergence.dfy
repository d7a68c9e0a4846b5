/**
 Drain convergence: the control plane, one of its agents with a single claim
 worker, and everything else that happens around them. The backend's lifecycle and
 the agent's own are only tied together by the commands in the queue; the main
 results say when the two agree once nothing is outstanding.
 */
module Convergence {
  import opened Basics
  import opened CommandRows
  import opened CommandQueue
  import opened ClaimContract
  import opened AgentRegistry
  import opened ControlPlane
  import opened Supervisor
  import QueueRuns
  import RegistryRuns
  import DrainStory

  /** The agent-scoped command the claim worker is executing inline. */
  datatype Hand = Hand(id: CommandId, kind: Kind, token: Token, executed: bool)

  /** `me` is the agent's row; `since` and `settled` record history: the Shutdown and
      CancelShutdown commands executed since the process started, and whether the backend
      itself closed the drain in force. */
  datatype System = System(
    plane: Plane,
    me: AgentId,
    local: Local,
    hand: Option<Hand>,
    since: set<CommandId>,
    settled: bool)

  datatype Move =
    | ReExchange(org: OrgId, instance: InstanceId, now: Time)
    | Restart(now: Time)
    | AdminDrain(org: OrgId, agent: AgentId)
    | AdminCancel(org: OrgId, agent: AgentId)
    | PushConfig(agent: AgentId)
    | Keepalive(step: RegistryRuns.Step)
    | EnqueueWork(kind: Kind, workspace: Option<WorkspaceId>, run: Option<RunId>)
    | PinWork(id: CommandId, agent: AgentId)
    | OtherClaim(call: ClaimCall)
    | OtherEvent(event: Event, reporter: Option<AgentId>)
    | ReapLeases(now: Time, locked: set<CommandId>)
    | ClaimTurn(call: ClaimCall, pool: PoolView)
    | AckTurn
    | ExecuteTurn(config: AgentConfig)
    | PostTurn

  /** The agent-scoped rows of agent `a`. */
  function Mine(t: Table, a: AgentId): set<CommandId> {
    set id | id in t && AgentScoped(t[id].kind) && t[id].agent == Some(a)
  }

  function BackendLifecycle(s: System): Lifecycle
    requires s.me in s.plane.registry.agents
  {
    s.plane.registry.agents[s.me].lifecycle
  }

  /** The reaper finds no expired lease on this agent's own rows. A restart finds the worker
      between two commands; a crash in the middle of one leaves its
      row undone for good. The claim is the one the supervisor builds, and no other transaction
      holds locks on this agent's rows. Events of this agent's own rows are posted by its worker. */
  ghost predicate CanMove(s: System, m: Move)
    requires s.me in s.plane.registry.agents
  {
    match m
    case Restart(_) => s.hand == None
    case PushConfig(agent) => agent in s.plane.registry.agents
    case Keepalive(step) => step.DoHeartbeat? || step.DoDeregister? || step.DoSweep? || step.DoRevoke?
    case EnqueueWork(kind, _, _) => !AgentScoped(kind)
    case PinWork(id, _) => id in s.plane.queue.rows ==> !AgentScoped(s.plane.queue.rows[id].kind)
    case OtherClaim(call) => call.req.agent != s.me
    case OtherEvent(event, _) => event.command !in Mine(s.plane.queue.rows, s.me)
    case ReapLeases(now, locked) => StaleIds(s.plane.queue.rows, now, locked) !! Mine(s.plane.queue.rows, s.me)
    case ClaimTurn(call, pool) =>
      && s.hand == None
      && call.req == OnTheWire(s.me, BuildRequest(s.local, pool), call.req.locked)
      && call.req.locked !! Mine(s.plane.queue.rows, s.me)
    case AckTurn => s.hand.Some?
    case ExecuteTurn(_) => s.hand.Some? && !s.hand.value.executed
    case PostTurn => s.hand.Some? && s.hand.value.executed
    case _ => true
  }

  function Posted(h: Hand, kind: EventKind): Event {
    Event(h.id, kind, Some(h.token), "")
  }

  ghost function After(s: System, m: Move): System
    requires s.me in s.plane.registry.agents && CanMove(s, m)
  {
    var p := s.plane;
    match m
    case ReExchange(org, instance, now) => s.(plane := ExchangeIdentity(p, org, instance, now).0)
    case Restart(now) =>
      var row := p.registry.agents[s.me];
      s.(plane := ExchangeIdentity(p, row.org, row.instance, now).0, local := FreshLocal, since := {})
    case AdminDrain(org, agent) =>
      var won := agent == s.me && DrainOutcomeOf(p.registry, org, agent) == DrainStarted;
      s.(plane := DrainOne(p, org, agent), settled := s.settled && !won)
    case AdminCancel(org, agent) =>
      var won := agent == s.me && CancelOutcomeOf(p.registry, org, agent) == Resumed;
      s.(plane := CancelOne(p, org, agent), settled := s.settled && !won)
    case PushConfig(agent) => s.(plane := Notify(p, agent, ConfigUpdate))
    case Keepalive(step) =>
      var registry := RegistryRuns.Apply(p.registry, step);
      var closed := s.me in registry.agents && registry.agents[s.me].lifecycle == Shutdown
          && BackendLifecycle(s) != Shutdown;
      s.(plane := p.(registry := registry), settled := s.settled || closed)
    case EnqueueWork(kind, workspace, run) =>
      s.(plane := p.(queue := Enqueue(p.queue, p.nextId, kind, workspace, run), nextId := p.nextId + 1))
    case PinWork(id, agent) => s.(plane := p.(queue := Pin(p.queue, id, agent)))
    case OtherClaim(call) => s.(plane := p.(queue := Claim(p.queue, call).0))
    case OtherEvent(event, reporter) => s.(plane := Report(p, event, reporter))
    case ReapLeases(now, locked) => s.(plane := p.(queue := Reap(p.queue, now, locked)))
    case ClaimTurn(call, _) =>
      var (queue, result) := Claim(p.queue, call);
      s.(plane := p.(queue := queue),
         hand := if result.Command? && result.id in p.queue.rows && AgentScoped(p.queue.rows[result.id].kind)
                 then Some(Hand(result.id, p.queue.rows[result.id].kind, result.token, false))
                 else None)
    case AckTurn => s.(plane := Report(p, Posted(s.hand.value, Received), Some(s.me)))
    case ExecuteTurn(config) =>
      var h := s.hand.value;
      s.(local := ExecuteAgentCommand(s.local, h.kind, config),
         hand := Some(h.(executed := true)),
         since := if h.kind == ConfigUpdate then s.since else s.since + {h.id})
    case PostTurn =>
      s.(plane := Report(p, Posted(s.hand.value, CompletedSuccess), Some(s.me)), hand := None)
  }

  /** Every move is one call on the control plane, of this agent or of others; only a restart and the
      worker's own moves touch the agent's side. */
  lemma MovesAreCalls(s: System, m: Move)
    requires s.me in s.plane.registry.agents && CanMove(s, m)
    ensures var (p, p', row) := (s.plane, After(s, m).plane, s.plane.registry.agents[s.me]);
            match m
            case ReExchange(org, instance, now) => p' == ExchangeIdentity(p, org, instance, now).0
            case Restart(now) => p' == ExchangeIdentity(p, row.org, row.instance, now).0
            case AdminDrain(org, agent) => p' == DrainAll(p, org, [agent])
            case AdminCancel(org, agent) => p' == CancelAll(p, org, [agent])
            case PushConfig(agent) => p' == Notify(p, agent, ConfigUpdate)
            case Keepalive(step) => p' == p.(registry := RegistryRuns.Apply(p.registry, step))
            case EnqueueWork(kind, ws, run) =>
              p' == p.(queue := Enqueue(p.queue, p.nextId, kind, ws, run), nextId := p.nextId + 1)
            case PinWork(id, agent) => p' == p.(queue := Pin(p.queue, id, agent))
            case OtherClaim(call) => p' == p.(queue := Claim(p.queue, call).0)
            case OtherEvent(event, reporter) => p' == Report(p, event, reporter)
            case ReapLeases(now, locked) => p' == p.(queue := Reap(p.queue, now, locked))
            case ClaimTurn(call, _) => p' == p.(queue := Claim(p.queue, call).0)
            case AckTurn => p' == Report(p, Event(s.hand.value.id, Received, Some(s.hand.value.token), ""), Some(s.me))
            case ExecuteTurn(_) => p' == p
            case PostTurn =>
              p' == Report(p, Event(s.hand.value.id, CompletedSuccess, Some(s.hand.value.token), ""), Some(s.me))
    ensures var s' := After(s, m);
            && s'.me == s.me
            && s'.local == (if m.Restart? then FreshLocal
                            else if m.ExecuteTurn? then ExecuteAgentCommand(s.local, s.hand.value.kind, m.config)
                            else s.local)
            && (!m.ClaimTurn? && !m.ExecuteTurn? && !m.PostTurn? ==> s'.hand == s.hand)
            && (m.PostTurn? ==> s'.hand == None)
            && (m.ExecuteTurn? ==> s'.hand == Some(s.hand.value.(executed := true)))
            && (m.ClaimTurn? ==>
                  var result := Claim(s.plane.queue, m.call).1;
                  && (s'.hand.Some? ==>
                        result == Command(s'.hand.value.id, s'.hand.value.token) && !s'.hand.value.executed)
                  && (result.Command? && result.id in s.plane.queue.rows
                      && s.plane.queue.rows[result.id].kind in {ConfigUpdate, ShutdownCommand, CancelShutdown} ==>
                        s'.hand.Some?))
  {
    hide Claim, Report, Reap, Enqueue, Pin, ExchangeIdentity, Notify;
    if m.AdminDrain? || m.AdminCancel? {
      assert [m.agent][..0] == [];
    }
  }

  // ----- Well-formedness -----

  ghost predicate IdentityIsUnique(r: Registry, a: AgentId) {
    && a in r.agents
    && (forall b :: b in r.agents ==> b < r.nextAgent)
    && (forall b ::
          b in r.agents && r.agents[b].org == r.agents[a].org && r.agents[b].instance == r.agents[a].instance ==>
            b == a)
  }

  ghost predicate HandHoldsToken(s: System) {
    s.hand.Some? ==>
      var h := s.hand.value;
      && h.id in Mine(s.plane.queue.rows, s.me)
      && s.plane.queue.rows[h.id].kind == h.kind
      && QueueRuns.Holds(s.plane.queue, h.id, h.token)
  }

  ghost predicate WellFormed(s: System) {
    && IdentityIsUnique(s.plane.registry, s.me)
    && QueueRuns.Ok(s.plane.queue)
    && IdsBelow(s.plane)
    && HandHoldsToken(s)
  }

  // ----- The story the system tells -----

  function SignalOf(kind: Kind): DrainStory.Signal {
    match kind
    case ShutdownCommand => DrainStory.Down
    case CancelShutdown => DrainStory.Up
    case _ => DrainStory.Config
  }

  function PhaseOf(status: Status): DrainStory.Phase {
    match status
    case Pending => DrainStory.Waiting
    case Claimed | Delivered => DrainStory.Taken
    case Done => DrainStory.Finished
  }

  function Board(t: Table, a: AgentId): map<CommandId, DrainStory.Entry> {
    map id | id in Mine(t, a) :: DrainStory.Entry(SignalOf(t[id].kind), PhaseOf(t[id].status))
  }

  ghost function StoryOf(s: System): DrainStory.Story
    requires s.me in s.plane.registry.agents
  {
    DrainStory.Story(
      Board(s.plane.queue.rows, s.me),
      BackendLifecycle(s),
      s.local.lifecycle,
      s.local.config.Some?,
      if s.hand.Some? then Some(DrainStory.InHand(s.hand.value.id, s.hand.value.executed)) else None,
      s.since,
      s.settled)
  }

  /** The beat of the story that a move amounts to. */
  ghost function BeatOf(s: System, m: Move): DrainStory.Beat
    requires s.me in s.plane.registry.agents && CanMove(s, m)
  {
    var p := s.plane;
    match m
    case ReExchange(org, instance, _) =>
      if s.me in RowsOf(p.registry, org, instance) then DrainStory.NewConfig(p.nextId, true) else DrainStory.Stutter
    case Restart(_) => DrainStory.Restarted(p.nextId)
    case AdminDrain(org, agent) =>
      if agent == s.me && DrainOutcomeOf(p.registry, org, agent) == DrainStarted
      then DrainStory.Drained(p.nextId) else DrainStory.Stutter
    case AdminCancel(org, agent) =>
      if agent == s.me && CancelOutcomeOf(p.registry, org, agent) == Resumed
      then DrainStory.Cancelled(p.nextId) else DrainStory.Stutter
    case PushConfig(agent) =>
      if agent == s.me then DrainStory.NewConfig(p.nextId, false) else DrainStory.Stutter
    case Keepalive(step) =>
      if BackendLifecycle(s) == Draining && After(s, m).settled && !s.settled
      then DrainStory.Settled else DrainStory.Stutter
    case ClaimTurn(_, _) =>
      if After(s, m).hand.Some? then DrainStory.Take(After(s, m).hand.value.id) else DrainStory.Stutter
    case ExecuteTurn(_) => DrainStory.Execute
    case PostTurn => DrainStory.Finish
    case _ => DrainStory.Stutter
  }

  ghost predicate Refines(s: System, m: Move)
    requires s.me in s.plane.registry.agents && CanMove(s, m)
  {
    var s' := After(s, m);
    && WellFormed(s') && s'.me == s.me
    && DrainStory.Enabled(StoryOf(s), BeatOf(s, m))
    && StoryOf(s') == DrainStory.Next(StoryOf(s), BeatOf(s, m))
  }

  // ----- Changes that leave this agent's commands alone -----

  ghost predicate Untouched(q: Queue, q': Queue, a: AgentId) {
    && QueueRuns.Ok(q')
    && Mine(q'.rows, a) == Mine(q.rows, a)
    && forall id :: id in Mine(q.rows, a) ==> q'.rows[id] == q.rows[id]
  }

  lemma UntouchedBoard(q: Queue, q': Queue, a: AgentId)
    requires Untouched(q, q', a)
    ensures Board(q'.rows, a) == Board(q.rows, a)
  {
    assert forall id :: id in Board(q.rows, a) ==> Board(q'.rows, a)[id] == Board(q.rows, a)[id];
  }

  /** A move that touches neither this agent's commands nor its row is a stutter. */
  lemma QuietMove(s: System, m: Move, q': Queue, nextId: CommandId, r': Registry)
    requires WellFormed(s) && CanMove(s, m) && BeatOf(s, m) == DrainStory.Stutter
    requires After(s, m) == s.(plane := Plane(r', q', nextId))
    requires Untouched(s.plane.queue, q', s.me) && IdsBelow(Plane(r', q', nextId))
    requires IdentityIsUnique(r', s.me) && r'.agents[s.me].lifecycle == BackendLifecycle(s)
    ensures Refines(s, m)
  {
    hide After, BeatOf, QueueRuns.Ok;
    UntouchedBoard(s.plane.queue, q', s.me);
  }

  lemma OtherClaimIsUntouched(q: Queue, c: ClaimCall, a: AgentId)
    requires QueueRuns.Ok(q) && c.req.agent != a
    ensures Untouched(q, Claim(q, c).0, a)
    ensures Claim(q, c).0.rows.Keys == q.rows.Keys
  {
    hide ClaimFrom, VisitFrom, LastRow, RetiredRow, QueueRuns.Ok;
    QueueRuns.EveryStepIsOk(q, QueueRuns.DoClaim(c));
    QueueRuns.ApplyUnfolds(q, QueueRuns.DoClaim(c));
    var (q', result) := ClaimFrom(q, c, 0);
    var v := VisitFrom(q, c, 0);
    LoopIsFramed(q, c, 0);
    LoopSettlesLast(q, c, 0);
    LoopVisitsForeign(q, c, 0, a);
    ClaimUnfolds(q, c);
    forall id | id in q.rows
      ensures id in Mine(q.rows, a) ==> q'.rows[id] == q.rows[id]
      ensures !result.Raised? && id in Mine(q'.rows, a) ==> id in Mine(q.rows, a)
    {
      if Visited(v, id) && !result.Raised? {
        VisitedIsStamped(q, q', c, v, id, result);
      }
    }
  }

  /** A claim by another agent only visits rows that are not this agent's. */
  lemma LoopVisitsForeign(q: Queue, c: ClaimCall, retired: nat, a: AgentId)
    requires c.req.agent != a && retired <= HYDRATION_RETIRE_CAP
    ensures forall id :: Visited(VisitFrom(q, c, retired), id) ==> id !in Mine(q.rows, a)
    decreases HYDRATION_RETIRE_CAP - retired
  {
    var picked := Select(q.rows, c.req);
    if picked.Some? {
      SelectedIsEligible(q.rows, c.req);
      var id := picked.value;
      if c.Hydrate(id) == CredentialFailure && RunBearing(q.rows[id].kind) && retired < HYDRATION_RETIRE_CAP {
        var next := RetireUnhydrated(Stamp(q, id, c), id);
        LoopVisitsForeign(next, c, retired + 1, a);
        assert forall x :: Visited(VisitFrom(q, c, retired), x) ==>
            x == id || Visited(VisitFrom(next, c, retired + 1), x);
        assert forall x :: x in Mine(q.rows, a) && x != id ==> x in Mine(next.rows, a);
      }
    }
  }

  lemma VisitedIsStamped(q: Queue, q': Queue, c: ClaimCall, v: Visit, id: CommandId, result: ClaimResult)
    requires Framed(q.rows, q'.rows, c, v) && SettlesLast(q.rows, q'.rows, c, v, result) && !result.Raised?
    requires Visited(v, id)
    ensures id in q.rows && id in q'.rows
    ensures q'.rows[id].agent == Some(c.req.agent) && q'.rows[id].kind == q.rows[id].kind
  {
  }

  lemma EnqueueIsUntouched(q: Queue, id: CommandId, kind: Kind, workspace: Option<WorkspaceId>, run: Option<RunId>,
      a: AgentId)
    requires QueueRuns.Ok(q) && id !in q.rows
    ensures Untouched(q, Enqueue(q, id, kind, workspace, run), a)
  {
    QueueRuns.EnqueueIsOk(q, id, kind, workspace, run);
  }

  lemma PinIsUntouched(q: Queue, id: CommandId, agent: AgentId, a: AgentId)
    requires QueueRuns.Ok(q) && (id in q.rows ==> !AgentScoped(q.rows[id].kind))
    ensures Untouched(q, Pin(q, id, agent), a)
  {
    QueueRuns.PinIsOk(q, id, agent);
  }

  lemma OtherEventIsUntouched(q: Queue, ev: Event, reporter: Option<AgentId>, a: AgentId)
    requires QueueRuns.Ok(q) && ev.command !in Mine(q.rows, a)
    ensures Untouched(q, RecordEvent(q, ev, reporter), a)
    ensures RecordEvent(q, ev, reporter).rows.Keys == q.rows.Keys
  {
    hide RecordEvent, QueueRuns.Ok;
    QueueRuns.EventIsOk(q, ev, reporter);
    QueueRuns.EventTouchesOneRow(q, ev, reporter);
  }

  lemma NotifyOtherIsUntouched(q: Queue, id: CommandId, kind: Kind, agent: AgentId, a: AgentId)
    requires QueueRuns.Ok(q) && id !in q.rows && agent != a
    ensures Untouched(q, EnqueueForAgent(q, id, kind, agent), a)
  {
    QueueRuns.EnqueueForAgentIsOk(q, id, kind, agent);
  }

  // ----- Commands for this agent -----

  lemma NotifyGrowsBoard(q: Queue, id: CommandId, kind: Kind, a: AgentId)
    requires QueueRuns.Ok(q) && id !in q.rows && AgentScoped(kind)
    ensures var q' := EnqueueForAgent(q, id, kind, a);
            && QueueRuns.Ok(q')
            && q'.rows.Keys == q.rows.Keys + {id}
            && (forall x :: x in q.rows ==> q'.rows[x] == q.rows[x])
            && Board(q'.rows, a) == Board(q.rows, a)[id := DrainStory.Entry(SignalOf(kind), DrainStory.Waiting)]
  {
    QueueRuns.EnqueueForAgentIsOk(q, id, kind, a);
    var q' := EnqueueForAgent(q, id, kind, a);
    assert Mine(q'.rows, a) == Mine(q.rows, a) + {id};
  }

  lemma BoardIsNewest(s: System)
    requires WellFormed(s)
    ensures DrainStory.Newest(Board(s.plane.queue.rows, s.me), s.plane.nextId)
  {
  }

  /** Minting a command for this agent, with whatever else the move does to the agent's row. */
  lemma NotifiedMove(s: System, m: Move, kind: Kind, r': Registry)
    requires WellFormed(s) && CanMove(s, m) && AgentScoped(kind)
    requires var p := s.plane;
             After(s, m).plane == Notify(p.(registry := r'), s.me, kind) && After(s, m).me == s.me
                 && After(s, m).hand == s.hand
    requires IdentityIsUnique(r', s.me)
    ensures WellFormed(After(s, m))
    ensures Board(After(s, m).plane.queue.rows, s.me)
            == Board(s.plane.queue.rows, s.me)[s.plane.nextId := DrainStory.Entry(SignalOf(kind), DrainStory.Waiting)]
    ensures DrainStory.Newest(Board(s.plane.queue.rows, s.me), s.plane.nextId)
  {
    hide After, CanMove;
    NotifyGrowsBoard(s.plane.queue, s.plane.nextId, kind, s.me);
    BoardIsNewest(s);
  }

  // ----- Identity exchange -----

  lemma ExchangeOfMine(r: Registry, a: AgentId, org: OrgId, instance: InstanceId, now: Time)
    requires IdentityIsUnique(r, a) && a in RowsOf(r, org, instance)
    ensures var (r', agent, token) := Exchange(r, org, instance, now);
            && agent == a
            && IdentityIsUnique(r', a)
            && r'.agents[a].lifecycle == DrainStory.Revived(r.agents[a].lifecycle)
  {
    assert RowsOf(r, org, instance) == {a};
  }

  lemma ExchangeOfOther(r: Registry, a: AgentId, org: OrgId, instance: InstanceId, now: Time)
    requires IdentityIsUnique(r, a) && a !in RowsOf(r, org, instance)
    ensures var (r', agent, token) := Exchange(r, org, instance, now);
            && agent != a
            && IdentityIsUnique(r', a)
            && r'.agents[a] == r.agents[a]
  {
  }

  lemma ReExchangeRefines(s: System, org: OrgId, instance: InstanceId, now: Time)
    requires WellFormed(s)
    ensures Refines(s, ReExchange(org, instance, now))
  {
    var m := ReExchange(org, instance, now);
    var (r', agent, _) := Exchange(s.plane.registry, org, instance, now);
    if s.me in RowsOf(s.plane.registry, org, instance) {
      ExchangeOfMine(s.plane.registry, s.me, org, instance, now);
      NotifiedMove(s, m, ConfigUpdate, r');
    } else {
      ExchangeOfOther(s.plane.registry, s.me, org, instance, now);
      NotifyOtherIsUntouched(s.plane.queue, s.plane.nextId, ConfigUpdate, agent, s.me);
      var p' := After(s, m).plane;
      QuietMove(s, m, p'.queue, p'.nextId, r');
    }
  }

  lemma RestartRefines(s: System, now: Time)
    requires WellFormed(s) && CanMove(s, Restart(now))
    ensures Refines(s, Restart(now))
  {
    var row := s.plane.registry.agents[s.me];
    ExchangeOfMine(s.plane.registry, s.me, row.org, row.instance, now);
    NotifiedMove(s, Restart(now), ConfigUpdate, Exchange(s.plane.registry, row.org, row.instance, now).0);
  }

  // ----- Drain, cancel, config push -----

  lemma DrainRefines(s: System, org: OrgId, agent: AgentId)
    requires WellFormed(s)
    ensures Refines(s, AdminDrain(org, agent))
  {
    var m := AdminDrain(org, agent);
    var r' := Drain(s.plane.registry, org, agent);
    if DrainOutcomeOf(s.plane.registry, org, agent) != DrainStarted {
      QuietMove(s, m, s.plane.queue, s.plane.nextId, s.plane.registry);
    } else if agent == s.me {
      NotifiedMove(s, m, ShutdownCommand, r');
    } else {
      NotifyOtherIsUntouched(s.plane.queue, s.plane.nextId, ShutdownCommand, agent, s.me);
      var p' := After(s, m).plane;
      QuietMove(s, m, p'.queue, p'.nextId, r');
    }
  }

  lemma CancelRefines(s: System, org: OrgId, agent: AgentId)
    requires WellFormed(s)
    ensures Refines(s, AdminCancel(org, agent))
  {
    var m := AdminCancel(org, agent);
    var r' := CancelDrain(s.plane.registry, org, agent);
    if CancelOutcomeOf(s.plane.registry, org, agent) != Resumed {
      QuietMove(s, m, s.plane.queue, s.plane.nextId, s.plane.registry);
    } else if agent == s.me {
      NotifiedMove(s, m, CancelShutdown, r');
    } else {
      NotifyOtherIsUntouched(s.plane.queue, s.plane.nextId, CancelShutdown, agent, s.me);
      var p' := After(s, m).plane;
      QuietMove(s, m, p'.queue, p'.nextId, r');
    }
  }

  lemma PushConfigRefines(s: System, agent: AgentId)
    requires WellFormed(s) && CanMove(s, PushConfig(agent))
    ensures Refines(s, PushConfig(agent))
  {
    var m := PushConfig(agent);
    if agent == s.me {
      NotifiedMove(s, m, ConfigUpdate, s.plane.registry);
    } else {
      NotifyOtherIsUntouched(s.plane.queue, s.plane.nextId, ConfigUpdate, agent, s.me);
      var p' := After(s, m).plane;
      QuietMove(s, m, p'.queue, p'.nextId, s.plane.registry);
    }
  }

  // ----- Heartbeats, sweeps, deregistration -----

  /** These only ever move a lifecycle from draining to shutdown. */
  lemma KeepaliveLifecycle(r: Registry, step: RegistryRuns.Step, a: AgentId)
    requires IdentityIsUnique(r, a)
    requires step.DoHeartbeat? || step.DoDeregister? || step.DoSweep? || step.DoRevoke?
    ensures var r' := RegistryRuns.Apply(r, step);
            && IdentityIsUnique(r', a)
            && (r'.agents[a].lifecycle == r.agents[a].lifecycle
                || (r.agents[a].lifecycle == Draining && r'.agents[a].lifecycle == Shutdown))
  {
    var r' := RegistryRuns.Apply(r, step);
    assert r'.agents.Keys == r.agents.Keys;
    forall b | b in r.agents
      ensures r'.agents[b].org == r.agents[b].org && r'.agents[b].instance == r.agents[b].instance
    {
    }
  }

  lemma KeepaliveRefines(s: System, step: RegistryRuns.Step)
    requires WellFormed(s) && CanMove(s, Keepalive(step))
    requires DrainStory.BackendOk(StoryOf(s))
    ensures Refines(s, Keepalive(step))
  {
    var m := Keepalive(step);
    hide RegistryRuns.Apply;
    KeepaliveLifecycle(s.plane.registry, step, s.me);
    var r' := RegistryRuns.Apply(s.plane.registry, step);
    if r'.agents[s.me].lifecycle == BackendLifecycle(s) {
      QuietMove(s, m, s.plane.queue, s.plane.nextId, r');
    } else {
      DrainingIsNotSettled(StoryOf(s));
    }
  }

  lemma DrainingIsNotSettled(t: DrainStory.Story)
    requires DrainStory.BackendOk(t) && t.backend == Draining
    ensures !t.settled
  {
  }

  // ----- Work for other parties -----

  lemma WorkRefines(s: System, m: Move)
    requires WellFormed(s) && CanMove(s, m)
    requires m.EnqueueWork? || m.PinWork? || m.OtherClaim? || m.ReapLeases?
    ensures Refines(s, m)
  {
    var p := s.plane;
    match m {
      case EnqueueWork(kind, workspace, run) =>
        EnqueueIsUntouched(p.queue, p.nextId, kind, workspace, run, s.me);
        QuietMove(s, m, Enqueue(p.queue, p.nextId, kind, workspace, run), p.nextId + 1, p.registry);
      case PinWork(id, agent) =>
        PinIsUntouched(p.queue, id, agent, s.me);
        QuietMove(s, m, Pin(p.queue, id, agent), p.nextId, p.registry);
      case OtherClaim(call) =>
        OtherClaimIsUntouched(p.queue, call, s.me);
        hide Claim;
        QuietMove(s, m, Claim(p.queue, call).0, p.nextId, p.registry);
      case ReapLeases(now, locked) =>
        ReapIsUntouched(p.queue, now, locked, s.me);
        hide Reap;
        QuietMove(s, m, Reap(p.queue, now, locked), p.nextId, p.registry);
    }
  }

  lemma ReapIsUntouched(q: Queue, now: Time, locked: set<CommandId>, a: AgentId)
    requires QueueRuns.Ok(q) && StaleIds(q.rows, now, locked) !! Mine(q.rows, a)
    ensures Untouched(q, Reap(q, now, locked), a) && Reap(q, now, locked).rows.Keys == q.rows.Keys
  {
    QueueRuns.ReapIsOk(q, now, locked);
    hide QueueRuns.RowStepOk, QueueRuns.Ok;
    var q' := Reap(q, now, locked);
    assert forall id :: id in q.rows && id !in StaleIds(q.rows, now, locked) ==> q'.rows[id] == q.rows[id];
    assert forall id :: id in StaleIds(q.rows, now, locked) ==>
        id !in Mine(q.rows, a) && q'.rows[id].kind == q.rows[id].kind;
    assert Mine(q'.rows, a) == Mine(q.rows, a);
  }

  lemma OtherEventRefines(s: System, ev: Event, reporter: Option<AgentId>)
    requires WellFormed(s) && CanMove(s, OtherEvent(ev, reporter))
    ensures Refines(s, OtherEvent(ev, reporter))
  {
    hide RecordEvent;
    var p := s.plane;
    OtherEventIsUntouched(p.queue, ev, reporter, s.me);
    if Configures(p.queue, ev) {
      ConfiguresOthers(p.queue, ev, s.me);
    }
    var p' := Report(p, ev, reporter);
    QuietMove(s, OtherEvent(ev, reporter), p'.queue, p'.nextId, p'.registry);
  }

  lemma ConfiguresOthers(q: Queue, ev: Event, a: AgentId)
    requires ev.command !in Mine(q.rows, a) && Configures(q, ev)
    ensures q.rows[ev.command].agent.value != a
  {
  }

  // ----- The worker's turns -----

  /** The worker's own claim: its rows keep their place on the board, except that the
      agent-scoped command it is handed, if any, is taken. */
  lemma OwnClaimOnBoard(q: Queue, c: ClaimCall, a: AgentId)
    requires QueueRuns.Ok(q) && c.req.agent == a
    ensures var (q', result) := Claim(q, c);
            && QueueRuns.Ok(q') && q'.rows.Keys == q.rows.Keys
            && (result.Command? ==> result.id in q.rows && QueueRuns.Holds(q', result.id, result.token))
            && Board(q'.rows, a)
               == (if result.Command? && AgentScoped(q.rows[result.id].kind)
                   then Board(q.rows, a)[result.id :=
                       DrainStory.Entry(SignalOf(q.rows[result.id].kind), DrainStory.Taken)]
                   else Board(q.rows, a))
            && (result.Command? && AgentScoped(q.rows[result.id].kind) ==>
                  && result.id in Mine(q.rows, a) && result.id in Mine(q'.rows, a)
                      && q.rows[result.id].status == Pending
                  && q'.rows[result.id].kind == q.rows[result.id].kind)
  {
    hide Claim, ClaimFrom, VisitFrom, QueueRuns.Ok, QueueRuns.Apply;
    QueueRuns.EveryStepIsOk(q, QueueRuns.DoClaim(c));
    QueueRuns.ApplyUnfolds(q, QueueRuns.DoClaim(c));
    if Claim(q, c).1.Command? {
      QueueRuns.ClaimReturnsTheHash(q, c);
    }
    var v := VisitFrom(q, c, 0);
    LoopIsFramed(q, c, 0);
    LoopSettlesLast(q, c, 0);
    LoopVisitsEligible(q, c, 0);
    ClaimUnfolds(q, c);
    var (q', result) := ClaimFrom(q, c, 0);
    if !result.Raised? {
      ClaimOnBoard(q, q', c, v, result, a);
    }
  }

  /** An eligible agent-scoped row belongs to the caller. */
  lemma LoopVisitsEligible(q: Queue, c: ClaimCall, retired: nat)
    requires retired <= HYDRATION_RETIRE_CAP
    ensures var v := VisitFrom(q, c, retired);
            v.last.Some? ==> v.last.value in q.rows
                             && (AgentScoped(q.rows[v.last.value].kind) ==>
                                 q.rows[v.last.value].agent == Some(c.req.agent))
    decreases HYDRATION_RETIRE_CAP - retired
  {
    hide VisitFrom, Eligible;
    LoopTakesHead(q, c, retired);
    var v := VisitFrom(q, c, retired);
    if v.last.Some? {
      EligibleScopedIsMine(q.rows, v.last.value, c.req);
    }
  }

  lemma EligibleScopedIsMine(t: Table, id: CommandId, req: Request)
    requires Eligible(t, id, req)
    ensures id in t && (AgentScoped(t[id].kind) ==> t[id].agent == Some(req.agent))
  {
  }

  lemma ClaimOnBoard(q: Queue, q': Queue, c: ClaimCall, v: Visit, result: ClaimResult, a: AgentId)
    requires c.req.agent == a && !result.Raised?
    requires Framed(q.rows, q'.rows, c, v) && SettlesLast(q.rows, q'.rows, c, v, result)
    requires v.last.Some? && AgentScoped(q.rows[v.last.value].kind) ==> q.rows[v.last.value].agent == Some(a)
    ensures result.Command? ==> result.id in q.rows
    ensures Board(q'.rows, a)
            == if result.Command? && AgentScoped(q.rows[result.id].kind)
               then Board(q.rows, a)[result.id := DrainStory.Entry(SignalOf(q.rows[result.id].kind), DrainStory.Taken)]
               else Board(q.rows, a)
    ensures result.Command? && AgentScoped(q.rows[result.id].kind) ==>
              && result.id in Mine(q.rows, a) && result.id in Mine(q'.rows, a) && q.rows[result.id].status == Pending
              && q'.rows[result.id].kind == q.rows[result.id].kind
  {
    forall id | id in q.rows
      ensures id in Mine(q'.rows, a) <==> id in Mine(q.rows, a)
      ensures q'.rows[id].kind == q.rows[id].kind
      ensures id in Mine(q.rows, a) && !(result.Command? && result.id == id) ==> q'.rows[id].status == q.rows[id].status
    {
      if id in v.retired {
        assert RetiredRow(q.rows[id], q'.rows[id], c, id);
      }
    }
    assert Mine(q'.rows, a) == Mine(q.rows, a);
  }

  /** Nothing this agent was told earlier is left waiting when it takes a command, and while
      it is unconfigured it takes nothing but a ConfigUpdate. */
  lemma OwnClaimIsFifo(s: System, call: ClaimCall, pool: PoolView)
    requires WellFormed(s) && CanMove(s, ClaimTurn(call, pool)) && s.local.lifecycle != Shutdown
    ensures var (q', result) := Claim(s.plane.queue, call);
            var t := s.plane.queue.rows;
            result.Command? && result.id in Mine(t, s.me) ==>
              && (s.local.lifecycle == Unconfigured ==> t[result.id].kind == ConfigUpdate)
              && (s.local.lifecycle != Unconfigured ==>
                    forall x :: x in Mine(t, s.me) && t[x].status == Pending ==> result.id <= x)
  {
    hide ClaimFrom, VisitFrom, Eligible;
    var q := s.plane.queue;
    var v := VisitFrom(q, call, 0);
    LoopIsFramed(q, call, 0);
    LoopSettlesLast(q, call, 0);
    LoopTakesHead(q, call, 0);
    ClaimUnfolds(q, call);
    var result := Claim(q, call).1;
    if result.Command? && result.id in Mine(q.rows, s.me) {
      assert v.last == Some(result.id);
      HeadIsFifo(q.rows, call.req, result.id);
      RetiredAreNotMine(q.rows, ClaimFrom(q, call, 0).0.rows, call, v, s.me);
      forall x | x in Mine(q.rows, s.me) && q.rows[x].status == Pending && s.local.lifecycle != Unconfigured
        ensures result.id <= x
      {
        WaitingIsEligible(q.rows, call.req, x);
        UrgentPrecedes(q.rows, call.req, result.id, x);
      }
    }
  }

  lemma RetiredAreNotMine(before: Table, after: Table, c: ClaimCall, v: Visit, a: AgentId)
    requires Framed(before, after, c, v)
    ensures forall x :: x in v.retired ==> x !in Mine(before, a)
  {
    forall x | x in v.retired
      ensures x !in Mine(before, a)
    {
      assert RetiredRow(before[x], after[x], c, x);
    }
  }

  lemma HeadIsFifo(t: Table, req: Request, id: CommandId)
    requires Eligible(t, id, req)
    ensures req.lifecycle == Unconfigured ==> t[id].kind == ConfigUpdate
  {
  }

  lemma WaitingIsEligible(t: Table, req: Request, x: CommandId)
    requires x in Mine(t, req.agent) && t[x].status == Pending && x !in req.locked && req.lifecycle != Unconfigured
    ensures Eligible(t, x, req) && Urgency(t[x], req) == Some(0)
  {
  }

  lemma UrgentPrecedes(t: Table, req: Request, id: CommandId, x: CommandId)
    requires Eligible(t, id, req) && Eligible(t, x, req) && Precedes(t, id, x, req)
    requires Urgency(t[x], req) == Some(0)
    ensures id <= x
  {
  }

  lemma ClaimTurnRefines(s: System, call: ClaimCall, pool: PoolView)
    requires WellFormed(s) && CanMove(s, ClaimTurn(call, pool))
    requires DrainStory.Inv(StoryOf(s))
    ensures Refines(s, ClaimTurn(call, pool))
  {
    hide Claim, QueueRuns.Ok, DrainStory.Inv;
    var m := ClaimTurn(call, pool);
    LocalIsNotShutdown(StoryOf(s));
    OwnClaimOnBoard(s.plane.queue, call, s.me);
    OwnClaimIsFifo(s, call, pool);
    var s' := After(s, m);
    assert WellFormed(s');
    assert DrainStory.Enabled(StoryOf(s), BeatOf(s, m));
  }

  lemma LocalIsNotShutdown(t: DrainStory.Story)
    requires DrainStory.Inv(t)
    ensures t.local != Shutdown
  {
  }

  /** An event the worker posts with the token of its claim is accepted, and moves its own row. */
  lemma OwnEvent(s: System, kind: EventKind)
    requires WellFormed(s) && s.hand.Some?
    requires kind == Received || kind == CompletedSuccess
    requires s.plane.queue.rows[s.hand.value.id].status in {Claimed, Delivered}
    ensures var (q, h) := (s.plane.queue, s.hand.value);
            var ev := Posted(h, kind);
            var q' := RecordEvent(q, ev, Some(s.me));
            && Authorized(q, ev)
            && QueueRuns.Ok(q') && q'.rows.Keys == q.rows.Keys
            && (forall x :: x in q.rows && x != h.id ==> q'.rows[x] == q.rows[x])
            && q'.rows[h.id] == q.rows[h.id].(status := if kind == Received then Delivered else Done)
            && (Configures(q, ev) <==> kind == CompletedSuccess && h.kind == ConfigUpdate)
            && q.rows[h.id].agent == Some(s.me)
  {
    QueueRuns.EventIsOk(s.plane.queue, Posted(s.hand.value, kind), Some(s.me));
  }

  lemma MovedOnBoard(t: Table, t': Table, a: AgentId, id: CommandId, status: Status)
    requires id in Mine(t, a) && t'.Keys == t.Keys
    requires forall x :: x in t && x != id ==> t'[x] == t[x]
    requires t'[id] == t[id].(status := status)
    ensures Mine(t', a) == Mine(t, a)
    ensures Board(t', a) == Board(t, a)[id := Board(t, a)[id].(phase := PhaseOf(status))]
  {
    assert Mine(t', a) == Mine(t, a);
  }

  lemma HandIsTaken(s: System)
    requires WellFormed(s) && DrainStory.Inv(StoryOf(s)) && s.hand.Some?
    ensures s.plane.queue.rows[s.hand.value.id].status in {Claimed, Delivered}
    ensures Board(s.plane.queue.rows, s.me)[s.hand.value.id].phase == DrainStory.Taken
  {
    var id := s.hand.value.id;
    assert StoryOf(s).board[id].phase == DrainStory.Taken;
  }

  lemma AckTurnRefines(s: System)
    requires WellFormed(s) && CanMove(s, AckTurn) && DrainStory.Inv(StoryOf(s))
    ensures Refines(s, AckTurn)
  {
    hide RecordEvent, DrainStory.Inv, QueueRuns.Ok;
    HandIsTaken(s);
    OwnEvent(s, Received);
    var q' := RecordEvent(s.plane.queue, Posted(s.hand.value, Received), Some(s.me));
    MovedOnBoard(s.plane.queue.rows, q'.rows, s.me, s.hand.value.id, Delivered);
    assert Board(q'.rows, s.me) == Board(s.plane.queue.rows, s.me);
  }

  lemma ConfiguredLifecycle(r: Registry, a: AgentId)
    requires IdentityIsUnique(r, a)
    ensures IdentityIsUnique(MarkConfigured(r, a), a)
    ensures MarkConfigured(r, a).agents[a].lifecycle
            == if r.agents[a].lifecycle == Unconfigured then Active else r.agents[a].lifecycle
  {
  }

  lemma PostTurnUnfolds(s: System)
    requires WellFormed(s) && CanMove(s, PostTurn)
    requires s.plane.queue.rows[s.hand.value.id].status in {Claimed, Delivered}
    ensures var (p, h) := (s.plane, s.hand.value);
            var registry := if h.kind == ConfigUpdate then MarkConfigured(p.registry, s.me) else p.registry;
            var queue := RecordEvent(p.queue, Posted(h, CompletedSuccess), Some(s.me));
            After(s, PostTurn) == s.(plane := Plane(registry, queue, p.nextId), hand := None)
  {
    OwnEvent(s, CompletedSuccess);
  }

  lemma PostTurnBoard(s: System)
    requires WellFormed(s) && s.hand.Some? && DrainStory.Inv(StoryOf(s))
        && s.hand.value.id in Mine(s.plane.queue.rows, s.me)
    ensures var id := s.hand.value.id;
            var (t, t') := (s.plane.queue.rows,
                RecordEvent(s.plane.queue, Posted(s.hand.value, CompletedSuccess), Some(s.me)).rows);
            && id in Board(t, s.me)
            && Board(t', s.me) == Board(t, s.me)[id := Board(t, s.me)[id].(phase := DrainStory.Finished)]
            && (Board(t, s.me)[id].signal == DrainStory.Config <==> t[id].kind == ConfigUpdate)
  {
    hide *;
    var id := s.hand.value.id;
    var (q, q') := (s.plane.queue, RecordEvent(s.plane.queue, Posted(s.hand.value, CompletedSuccess), Some(s.me)));
    HandIsTaken(s);
    OwnEvent(s, CompletedSuccess);
    SignalOnBoard(q.rows, s.me, id);
    MovedOnBoard(q.rows, q'.rows, s.me, id, Done);
    assert PhaseOf(Done) == DrainStory.Finished by { DoneIsFinished(); }
  }

  lemma DoneIsFinished()
    ensures PhaseOf(Done) == DrainStory.Finished
  {
  }

  /** What the post leaves of the agent's row and of the worker's hand. */
  lemma PostTurnRest(s: System)
    requires WellFormed(s) && CanMove(s, PostTurn)
    requires s.plane.queue.rows[s.hand.value.id].status in {Claimed, Delivered}
    ensures var s' := After(s, PostTurn);
            && s' == s.(plane := s'.plane, hand := None)
            && WellFormed(s')
            && BackendLifecycle(s') == (if s.hand.value.kind == ConfigUpdate && BackendLifecycle(s) == Unconfigured
                then Active else BackendLifecycle(s))
            && s'.plane.queue == RecordEvent(s.plane.queue, Posted(s.hand.value, CompletedSuccess), Some(s.me))
  {
    OwnEvent(s, CompletedSuccess);
    PostTurnUnfolds(s);
    ConfiguredLifecycle(s.plane.registry, s.me);
    hide RecordEvent, QueueRuns.Ok, MarkConfigured, After, Configures, Mine;
  }

  /** What the post leaves: the row is done, and a first configuration makes the agent active. */
  lemma PostTurnFacts(s: System)
    requires WellFormed(s) && CanMove(s, PostTurn) && DrainStory.Inv(StoryOf(s))
    ensures var (s', id) := (After(s, PostTurn), s.hand.value.id);
            var (t, t') := (s.plane.queue.rows, s'.plane.queue.rows);
            var configured := s.hand.value.kind == ConfigUpdate && BackendLifecycle(s) == Unconfigured;
            && s' == s.(plane := s'.plane, hand := None)
            && WellFormed(s')
            && BackendLifecycle(s') == (if configured then Active else BackendLifecycle(s))
            && id in Board(t, s.me)
            && Board(t', s.me) == Board(t, s.me)[id := Board(t, s.me)[id].(phase := DrainStory.Finished)]
            && (Board(t, s.me)[id].signal == DrainStory.Config <==> s.hand.value.kind == ConfigUpdate)
  {
    hide DrainStory.Inv, RecordEvent, QueueRuns.Ok, IdentityIsUnique, IdsBelow, After, Board, Mine, StoryOf,
        BackendLifecycle;
    HandIsTaken(s);
    PostTurnBoard(s);
    PostTurnRest(s);
  }

  lemma PostTurnRefines(s: System)
    requires WellFormed(s) && CanMove(s, PostTurn) && DrainStory.Inv(StoryOf(s))
    ensures Refines(s, PostTurn)
  {
    hide WellFormed, After, DrainStory.Inv, Board;
    PostTurnFacts(s);
  }

  lemma SignalOnBoard(t: Table, a: AgentId, id: CommandId)
    requires id in Mine(t, a)
    ensures id in Board(t, a)
    ensures Board(t, a)[id].signal == DrainStory.Config <==> t[id].kind == ConfigUpdate
  {
  }

  lemma ExecuteTurnRefines(s: System, config: AgentConfig)
    requires WellFormed(s) && CanMove(s, ExecuteTurn(config)) && DrainStory.Inv(StoryOf(s))
    ensures Refines(s, ExecuteTurn(config))
  {
    hide DrainStory.Inv, QueueRuns.Ok;
    var id := s.hand.value.id;
    assert Board(s.plane.queue.rows, s.me)[id].signal == SignalOf(s.hand.value.kind);
    assert AgentScoped(s.hand.value.kind);
  }

  // ----- Every run -----

  ghost predicate Inv(s: System) {
    WellFormed(s) && DrainStory.Inv(StoryOf(s))
  }

  lemma MoveRefines(s: System, m: Move)
    requires Inv(s) && CanMove(s, m)
    ensures Refines(s, m)
  {
    assert s.me in s.plane.registry.agents;
    hide After, WellFormed, Refines, StoryOf, DrainStory.Inv, BeatOf;
    match m
    case ReExchange(org, instance, now) => ReExchangeRefines(s, org, instance, now);
    case Restart(now) => RestartRefines(s, now);
    case AdminDrain(org, agent) => DrainRefines(s, org, agent);
    case AdminCancel(org, agent) => CancelRefines(s, org, agent);
    case PushConfig(agent) => PushConfigRefines(s, agent);
    case Keepalive(step) =>
      BackendIsOk(StoryOf(s));
      KeepaliveRefines(s, step);
    case EnqueueWork(_, _, _) => WorkRefines(s, m);
    case PinWork(_, _) => WorkRefines(s, m);
    case OtherClaim(_) => WorkRefines(s, m);
    case ReapLeases(_, _) => WorkRefines(s, m);
    case OtherEvent(event, reporter) => OtherEventRefines(s, event, reporter);
    case ClaimTurn(call, pool) => ClaimTurnRefines(s, call, pool);
    case AckTurn => AckTurnRefines(s);
    case ExecuteTurn(config) => ExecuteTurnRefines(s, config);
    case PostTurn => PostTurnRefines(s);
  }

  lemma BackendIsOk(t: DrainStory.Story)
    requires DrainStory.Inv(t)
    ensures DrainStory.BackendOk(t)
  {
  }

  /** A run: every move was possible when it was made. */
  ghost predicate Run(from: System, moves: seq<Move>, to: System)
    decreases |moves|
  {
    if moves == [] then to == from
    else from.me in from.plane.registry.agents && CanMove(from, moves[0]) && Run(After(from, moves[0]), moves[1..], to)
  }

  lemma MoveKeepsInv(s: System, m: Move)
    requires Inv(s) && CanMove(s, m)
    ensures Inv(After(s, m))
  {
    assert s.me in s.plane.registry.agents;
    hide After, WellFormed, StoryOf, DrainStory.Inv, BeatOf, CanMove, DrainStory.Enabled, DrainStory.Next;
    MoveRefines(s, m);
    DrainStory.BeatKeepsInv(StoryOf(s), BeatOf(s, m));
  }

  lemma {:induction false} RunKeepsInv(from: System, moves: seq<Move>, to: System)
    requires Inv(from) && Run(from, moves, to)
    ensures Inv(to)
    decreases |moves|
  {
    hide After, WellFormed, StoryOf, DrainStory.Inv, CanMove;
    if moves != [] {
      MoveKeepsInv(from, moves[0]);
      RunKeepsInv(After(from, moves[0]), moves[1..], to);
    }
  }

  // ----- Main results -----

  /** An agent that has just exchanged identity for the first time. */
  ghost predicate Start(s: System) {
    && WellFormed(s)
    && s.hand == None && s.local == FreshLocal && s.since == {} && !s.settled
    && BackendLifecycle(s) == Unconfigured
    && Mine(s.plane.queue.rows, s.me) != {}
    && forall id :: id in Mine(s.plane.queue.rows, s.me) ==>
         s.plane.queue.rows[id].kind == ConfigUpdate && s.plane.queue.rows[id].status == Pending
  }

  /** The first exchange of a new identity produces such a state. */
  lemma FirstExchangeStarts(p: Plane, org: OrgId, instance: InstanceId, now: Time)
    requires QueueRuns.Ok(p.queue) && IdsBelow(p)
    requires forall a :: a in p.registry.agents ==> a < p.registry.nextAgent
    requires forall id :: id in p.queue.rows && p.queue.rows[id].agent.Some? ==>
        p.queue.rows[id].agent.value < p.registry.nextAgent
    requires RowsOf(p.registry, org, instance) == {}
    ensures var (p', agent, _) := ExchangeIdentity(p, org, instance, now);
            Start(System(p', agent, FreshLocal, None, {}, false))
  {
    var (p', agent, _) := ExchangeIdentity(p, org, instance, now);
    forall b | b in p'.registry.agents && p'.registry.agents[b].org == org && p'.registry.agents[b].instance == instance
      ensures b == agent
    {
      assert b in p.registry.agents ==> b in RowsOf(p.registry, org, instance);
    }
    NotifyGrowsBoard(p.queue, p.nextId, ConfigUpdate, agent);
    assert Mine(p'.queue.rows, agent) == {p.nextId};
  }

  lemma StartEstablishesInv(s: System)
    requires Start(s)
    ensures Inv(s)
  {
    var t := StoryOf(s);
    var id :| id in Mine(s.plane.queue.rows, s.me);
    assert t.board[id] == DrainStory.Entry(DrainStory.Config, DrainStory.Waiting);
    DrainStory.InitEstablishesInv(t);
  }

  /** Everything the control plane asked of this agent has been done and reported. */
  predicate AllDone(s: System) {
    forall id :: id in Mine(s.plane.queue.rows, s.me) ==> s.plane.queue.rows[id].status == Done
  }

  /** The last drain request or cancellation sent to the agent is a drain request which it
      carried out before it last started. */
  ghost predicate ForgotDrain(s: System) {
    var t := s.plane.queue.rows;
    exists id :: id in Mine(t, s.me) && t[id].kind == ShutdownCommand && t[id].status == Done && id !in s.since
                 && forall x :: x in Mine(t, s.me) && t[x].kind != ConfigUpdate ==> x <= id
  }

  /**
   Over every run, in every state where all agent-scoped commands are done: the agent's local
   lifecycle equals the backend's if and only if the row is not shut down and the last drain
   was either both closed by the backend and forgotten by the agent, or neither.
   */
  lemma SidesAgreeIff(from: System, moves: seq<Move>, to: System)
    requires Start(from) && Run(from, moves, to) && AllDone(to)
    ensures to.me in to.plane.registry.agents
    ensures to.local.lifecycle == BackendLifecycle(to)
            <==> BackendLifecycle(to) != Shutdown && (to.settled <==> ForgotDrain(to))
  {
    StartEstablishesInv(from);
    RunKeepsInv(from, moves, to);
    RestIsAtRest(to);
    ForgottenIsForgot(to);
    DrainStory.AgreeIff(StoryOf(to));
  }

  lemma RestIsAtRest(s: System)
    requires WellFormed(s) && AllDone(s)
    ensures DrainStory.AtRest(StoryOf(s)) && s.hand.Some? == StoryOf(s).hand.Some?
  {
  }

  lemma ForgottenIsForgot(s: System)
    requires WellFormed(s) && AllDone(s) && DrainStory.HandOk(StoryOf(s))
    ensures DrainStory.Forgotten(StoryOf(s)) <==> ForgotDrain(s)
  {
    var t, b := s.plane.queue.rows, StoryOf(s);
    forall id: CommandId
      ensures DrainStory.IsSignal(b, id) <==> id in Mine(t, s.me) && t[id].kind != ConfigUpdate
      ensures id in Mine(t, s.me) ==> (b.board[id].signal == DrainStory.Down <==> t[id].kind == ShutdownCommand)
      ensures id in Mine(t, s.me) ==> DrainStory.Executed(b, id)
    {
    }
    if DrainStory.Forgotten(b) {
      var id: CommandId :| DrainStory.LastSignal(b, id) && b.board[id].signal == DrainStory.Down && id !in b.since;
      assert id in Mine(t, s.me) && t[id].kind == ShutdownCommand;
    }
    if ForgotDrain(s) {
      var id :| id in Mine(t, s.me) && t[id].kind == ShutdownCommand && id !in s.since
                && forall x :: x in Mine(t, s.me) && t[x].kind != ConfigUpdate ==> x <= id;
      assert DrainStory.LastSignal(b, id);
    }
  }

  /** The agent is never active or draining without a configuration. */
  lemma NeverActiveWithoutConfig(from: System, moves: seq<Move>, to: System)
    requires Start(from) && Run(from, moves, to)
    ensures to.local.lifecycle != Unconfigured ==> to.local.config.Some?
  {
    StartEstablishesInv(from);
    RunKeepsInv(from, moves, to);
    assert DrainStory.LocalOk(StoryOf(to));
    var since := to.since;
    if since != {} {
      assert StoryOf(to).configured;
    }
  }

  // ----- Without restarts and without a drain closed by the backend -----

  /** The agent does not restart and the backend does not close this agent's drain itself. */
  ghost predicate Faithful(s: System, m: Move)
    requires s.me in s.plane.registry.agents && CanMove(s, m)
  {
    && !m.Restart?
    && (m.Keepalive? && BackendLifecycle(s) == Draining ==>
          var agents := After(s, m).plane.registry.agents;
          s.me in agents && agents[s.me].lifecycle != Shutdown)
  }

  ghost predicate AllFaithful(from: System, moves: seq<Move>, to: System)
    requires Run(from, moves, to)
    decreases |moves|
  {
    moves != [] ==> Faithful(from, moves[0]) && AllFaithful(After(from, moves[0]), moves[1..], to)
  }

  /** Everything executed so far was executed by the current process, and no drain was closed. */
  ghost predicate NothingLost(s: System)
    requires s.me in s.plane.registry.agents
  {
    var t := StoryOf(s);
    !s.settled && forall id: CommandId :: DrainStory.IsSignal(t, id) && DrainStory.Executed(t, id) ==> id in t.since
  }

  lemma FaithfulKeepsNothingLost(s: System, m: Move)
    requires Inv(s) && CanMove(s, m) && Faithful(s, m) && NothingLost(s)
    ensures Inv(After(s, m)) && NothingLost(After(s, m))
  {
    MoveRefines(s, m);
    MoveKeepsInv(s, m);
    FaithfulBeat(s, m);
    BeatLosesNothing(StoryOf(s), BeatOf(s, m));
  }

  lemma FaithfulBeat(s: System, m: Move)
    requires s.me in s.plane.registry.agents && CanMove(s, m) && Faithful(s, m)
    ensures !BeatOf(s, m).Restarted? && !BeatOf(s, m).Settled?
  {
    if m.Keepalive? {
      ClosingShutsDown(s, m.step);
    }
    hide After;
  }

  lemma ClosingShutsDown(s: System, step: RegistryRuns.Step)
    requires s.me in s.plane.registry.agents && CanMove(s, Keepalive(step))
    ensures After(s, Keepalive(step)).settled && !s.settled ==>
              var agents := After(s, Keepalive(step)).plane.registry.agents;
              s.me in agents && agents[s.me].lifecycle == Shutdown
  {
    hide RegistryRuns.Apply;
  }

  lemma BeatLosesNothing(t: DrainStory.Story, b: DrainStory.Beat)
    requires DrainStory.Inv(t) && DrainStory.Enabled(t, b) && !b.Restarted? && !b.Settled? && !t.settled
    requires forall id: CommandId :: DrainStory.IsSignal(t, id) && DrainStory.Executed(t, id) ==> id in t.since
    ensures var t' := DrainStory.Next(t, b);
            !t'.settled && forall id: CommandId :: DrainStory.IsSignal(t', id) && DrainStory.Executed(t', id) ==>
                id in t'.since
  {
  }

  lemma {:induction false} FaithfulRunLosesNothing(from: System, moves: seq<Move>, to: System)
    requires Inv(from) && NothingLost(from) && Run(from, moves, to) && AllFaithful(from, moves, to)
    ensures Inv(to) && NothingLost(to)
    decreases |moves|
  {
    if moves != [] {
      FaithfulKeepsNothingLost(from, moves[0]);
      RunTail(from, moves, to);
      FaithfulRunLosesNothing(After(from, moves[0]), moves[1..], to);
    }
  }

  lemma RunTail(from: System, moves: seq<Move>, to: System)
    requires moves != [] && Run(from, moves, to)
    ensures from.me in from.plane.registry.agents && CanMove(from, moves[0])
        && Run(After(from, moves[0]), moves[1..], to)
  {
  }

  /** Convergence: as long as the agent does not restart and no move closes this agent's drain on
      the backend's side, sweeps and deregistrations of any agent included, the two lifecycles are
      equal whenever all agent-scoped commands are done. */
  lemma SidesConverge(from: System, moves: seq<Move>, to: System)
    requires Start(from) && Run(from, moves, to) && AllDone(to) && AllFaithful(from, moves, to)
    ensures to.me in to.plane.registry.agents
    ensures to.local.lifecycle == BackendLifecycle(to)
  {
    StartEstablishesInv(from);
    StartLosesNothing(from);
    FaithfulRunLosesNothing(from, moves, to);
    RestIsAtRest(to);
    ForgottenIsForgot(to);
    SidesAgreeIff(from, moves, to);
    BackendNotShutdown(StoryOf(to));
  }

  lemma StartLosesNothing(s: System)
    requires Start(s)
    ensures NothingLost(s)
  {
  }

  lemma BackendNotShutdown(t: DrainStory.Story)
    requires DrainStory.Inv(t) && !t.settled
    ensures t.backend != Shutdown
  {
    if exists id: CommandId :: DrainStory.IsSignal(t, id) {
      var last := DrainStory.LastSignalExists(t);
    }
  }
}
