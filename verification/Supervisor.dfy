/**
 The supervisor's own state: the configuration pointer, the local lifecycle and
 the claim request built from them and from the runner pool.
 */
module Supervisor {
  import opened Basics
  import opened CommandRows

  const CLAIM_WAIT_SECONDS: nat := 30
  const SHORT_POLL_SECONDS: nat := 1

  datatype AgentConfig = AgentConfig(maxWorkspaces: nat)

  /** What `ApplyConfig`, `RequestShutdown` and `CancelShutdown` act on. */
  datatype Local = Local(lifecycle: Lifecycle, config: Option<AgentConfig>)

  const FreshLocal := Local(Unconfigured, None)

  /** What the claim loop reads off the runner pool. */
  datatype PoolView = PoolView(active: set<WorkspaceId>, idle: set<WorkspaceId>, pendingDispatch: int)

  datatype ClaimRequest = ClaimRequest(
    waitSeconds: nat,
    lifecycle: Lifecycle,
    newWorkspaces: nat,
    workspaceIds: set<WorkspaceId>)

  function Configure(l: Local, config: AgentConfig): Local {
    Local(if l.lifecycle == Unconfigured then Active else l.lifecycle, Some(config))
  }

  /** The in-supervisor commands, each executed before the next claim is sent. */
  function ExecuteAgentCommand(l: Local, kind: Kind, config: AgentConfig): Local {
    match kind
    case ConfigUpdate => Configure(l, config)
    case ShutdownCommand => l.(lifecycle := Draining)
    case CancelShutdown => l.(lifecycle := Active)
    case _ => l
  }

  function BuildRequest(l: Local, pool: PoolView): ClaimRequest {
    if l.lifecycle == Unconfigured || l.config == None then
      ClaimRequest(CLAIM_WAIT_SECONDS, l.lifecycle, 0, {})
    else
      var active, cap := |pool.active|, l.config.value.maxWorkspaces;
      ClaimRequest(
        if (pool.idle == {} && active > 0) || pool.pendingDispatch > 0 then SHORT_POLL_SECONDS else CLAIM_WAIT_SECONDS,
        l.lifecycle,
        if l.lifecycle == Active && active < cap then cap - active else 0,
        pool.idle)
  }

  function OnTheWire(agent: AgentId, r: ClaimRequest, locked: set<CommandId>): Request {
    Request(agent, r.lifecycle, r.newWorkspaces, r.workspaceIds, locked)
  }

  class SupervisorState {
    var config: Option<AgentConfig>
    /** `None` is the nil pointer, read as unconfigured. */
    var localLifecycle: Option<Lifecycle>
    var runCancelled: bool

    function LocalLifecycle(): Lifecycle
      reads this
    {
      if localLifecycle == None then Unconfigured else localLifecycle.value
    }

    function State(): Local
      reads this
    {
      Local(LocalLifecycle(), config)
    }

    constructor ()
      ensures State() == FreshLocal && !runCancelled
    {
      config, localLifecycle, runCancelled := None, Some(Unconfigured), false;
    }

    method ApplyConfig(cfg: AgentConfig)
      modifies this
      ensures State() == Configure(old(State()), cfg) && runCancelled == old(runCancelled)
    {
      config := Some(cfg);
      var current := localLifecycle;
      if current == None || current.value == Unconfigured {
        localLifecycle := Some(Active);
      }
    }

    method RequestShutdown()
      modifies this
      ensures State() == old(State()).(lifecycle := Draining) && runCancelled == old(runCancelled)
    {
      localLifecycle := Some(Draining);
    }

    method CancelDrain()
      modifies this
      ensures State() == old(State()).(lifecycle := Active) && runCancelled == old(runCancelled)
    {
      localLifecycle := Some(Active);
    }

    method BuildClaimRequest(pool: PoolView) returns (r: ClaimRequest)
      ensures r == BuildRequest(State(), pool)
    {
      var lc := LocalLifecycle();
      if lc == Unconfigured || config == None {
        return ClaimRequest(CLAIM_WAIT_SECONDS, lc, 0, {});
      }
      var newWorkspaces: int := 0;
      if lc == Active {
        newWorkspaces := config.value.maxWorkspaces - |pool.active|;
        if newWorkspaces < 0 {
          newWorkspaces := 0;
        }
      }
      var wait := CLAIM_WAIT_SECONDS;
      if (|pool.idle| == 0 && |pool.active| > 0) || pool.pendingDispatch > 0 {
        wait := SHORT_POLL_SECONDS;
      }
      r := ClaimRequest(wait, lc, newWorkspaces, pool.idle);
    }

    /** After a 204: the run is cancelled only while draining with no Active record left. */
    method MaybeTriggerShutdownExit(pool: PoolView)
      modifies this
      ensures State() == old(State())
      ensures runCancelled <==> old(runCancelled) || (State().lifecycle == Draining && pool.active == {})
    {
      if LocalLifecycle() != Draining {
        return;
      }
      if |pool.active| > 0 {
        return;
      }
      runCancelled := true;
    }
  }

  // ----- What the request obtains from the queue -----

  /** The claim the backend grants for a request the supervisor built: a draining or
      unconfigured agent never gets a new workspace, an agent at its cap gets none either,
      and workspace commands only come for workspaces the pool reported idle. */
  lemma GrantRespectsAgentState(t: Table, agent: AgentId, l: Local, pool: PoolView, locked: set<CommandId>)
    requires l.lifecycle != Shutdown
    ensures var req := OnTheWire(agent, BuildRequest(l, pool), locked);
            Select(t, req).Some? ==>
              var row := t[Select(t, req).value];
              && (row.agent == None ==>
                    && row.kind == ProvisionWorkspace
                    && l.lifecycle == Active && l.config.Some? && |pool.active| < l.config.value.maxWorkspaces)
              && (row.agent.Some? ==> row.agent.value == agent)
              && (l.lifecycle == Unconfigured ==> row.kind == ConfigUpdate)
              && (!AgentScoped(row.kind) && row.agent.Some? ==> row.workspace.Some? && row.workspace.value in pool.idle)
  {
    var req := OnTheWire(agent, BuildRequest(l, pool), locked);
    if Select(t, req).Some? {
      SelectedIsEligible(t, req);
    }
  }

  /** The request names the agent's own lifecycle; an active agent below its cap asks for all the
      workspaces it has room for and any other agent for none; it offers its idle workspaces once it
      is configured; and it polls for a second only while a dispatch is pending or every active
      workspace is busy, and otherwise for thirty. */
  lemma RequestIsExact(agent: AgentId, l: Local, pool: PoolView, locked: set<CommandId>)
    ensures var (r, req) := (BuildRequest(l, pool), OnTheWire(agent, BuildRequest(l, pool), locked));
            var configured := l.lifecycle != Unconfigured && l.config.Some?;
            && r.lifecycle == req.lifecycle == l.lifecycle && req.agent == agent && req.locked == locked
            && r.newWorkspaces == req.newWorkspaces && r.workspaceIds == req.workspaceIds
            && (configured && l.lifecycle == Active && |pool.active| <= l.config.value.maxWorkspaces ==>
                  r.newWorkspaces + |pool.active| == l.config.value.maxWorkspaces)
            && (!configured || l.lifecycle != Active || |pool.active| > l.config.value.maxWorkspaces ==>
                  r.newWorkspaces == 0)
            && r.workspaceIds == (if configured then pool.idle else {})
            && (r.waitSeconds == 1 <==>
                  configured && (pool.pendingDispatch > 0 || (pool.idle == {} && pool.active != {})))
            && (r.waitSeconds != 1 ==> r.waitSeconds == 30)
  {
  }

  /** An active agent below its cap is given a command whenever an unassigned ProvisionWorkspace row is
      free, and any agent that is configured whenever a row of one of its idle workspaces is. */
  lemma ReadyAgentIsServed(t: Table, agent: AgentId, l: Local, pool: PoolView, locked: set<CommandId>, id: CommandId)
    requires id in t && id !in locked && t[id].status == Pending && l.config.Some? && l.lifecycle != Unconfigured
    requires || (l.lifecycle == Active && |pool.active| < l.config.value.maxWorkspaces
                 && t[id].kind == ProvisionWorkspace && t[id].agent == None)
             || (t[id].agent == Some(agent) && t[id].workspace.Some? && t[id].workspace.value in pool.idle)
    ensures Select(t, OnTheWire(agent, BuildRequest(l, pool), locked)).Some?
  {
    var req := OnTheWire(agent, BuildRequest(l, pool), locked);
    RequestIsExact(agent, l, pool, locked);
    SelectIsPriorityMinimum(t, req);
    hide BuildRequest, OnTheWire, Select;
    assert Eligible(t, id, req);
  }

  /** What the three commands the supervisor executes itself make of its state. */
  lemma AgentCommandsAreExact(l: Local, kind: Kind, config: AgentConfig)
    ensures var l' := ExecuteAgentCommand(l, kind, config);
            && (kind == ConfigUpdate ==>
                  && l'.config == Some(config)
                  && (l.lifecycle == Unconfigured ==> l'.lifecycle == Active)
                  && (l.lifecycle != Unconfigured ==> l'.lifecycle == l.lifecycle))
            && (kind != ConfigUpdate ==> l'.config == l.config)
            && (kind == ShutdownCommand ==> l'.lifecycle == Draining)
            && (kind == CancelShutdown ==> l'.lifecycle == Active)
            && (kind !in {ConfigUpdate, ShutdownCommand, CancelShutdown} ==> l' == l)
  {
  }
}
