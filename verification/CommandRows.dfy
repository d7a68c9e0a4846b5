/**
 The rows of `agent_commands` and the row selection behind one claim.

 A command id is a UUIDv7, so ids are compared as numbers: a smaller id was
 minted earlier. A completion token is a number as well; 0 is the empty string
 that a missing token is hashed as, and every minted token is positive.
 */
module CommandRows {
  import opened Basics

  datatype Kind =
    | ProvisionWorkspace
    | WriteFiles
    | RefreshWorkspaceAuth
    | InvokeClaudeCode
    | InvokeCodex
    | CleanupWorkspace
    | PushBranch
    | ConfigUpdate
    | ShutdownCommand
    | CancelShutdown

  datatype Status = Pending | Claimed | Delivered | Done

  type Token = nat

  const EMPTY_TOKEN: Token := 0

  /** A digest is injective in the token: two tokens with equal digests are equal. */
  datatype Digest = Sha256(token: Token)

  datatype Row = Row(
    kind: Kind,
    status: Status,
    agent: Option<AgentId>,
    workspace: Option<WorkspaceId>,
    run: Option<RunId>,
    hash: Option<Digest>,
    claimedAt: Option<Time>,
    attempt: nat)

  type Table = map<CommandId, Row>

  /** Kinds whose terminal events resume a pipeline run. */
  predicate RunBearing(kind: Kind) {
    kind in {InvokeClaudeCode, InvokeCodex}
  }

  /** Kinds the supervisor executes itself, pre-stamped with their agent. */
  predicate AgentScoped(kind: Kind) {
    kind in {ConfigUpdate, ShutdownCommand, CancelShutdown}
  }

  /** The claim-time adapter lists every kind but `PushBranch`. */
  predicate Decodable(kind: Kind) {
    kind != PushBranch
  }

  /** One claim call; `locked` holds the rows other transactions have locked. */
  datatype Request = Request(
    agent: AgentId,
    lifecycle: Lifecycle,
    newWorkspaces: nat,
    workspaceIds: set<WorkspaceId>,
    locked: set<CommandId>)

  /** The WHERE clauses of the four SELECT statements. */
  datatype Bucket = ConfigOnly | Scoped | NewWorkspace | PinnedIdle

  predicate Matches(bucket: Bucket, row: Row, req: Request) {
    && row.status == Pending
    && match bucket
       case ConfigOnly => row.kind == ConfigUpdate && row.agent == Some(req.agent)
       case Scoped => AgentScoped(row.kind) && row.agent == Some(req.agent)
       case NewWorkspace => row.kind == ProvisionWorkspace && row.agent == None
       case PinnedIdle =>
         && row.agent == Some(req.agent)
         && row.workspace.Some?
         && row.workspace.value in req.workspaceIds
  }

  function Candidates(t: Table, bucket: Bucket, req: Request): set<CommandId> {
    set id | id in t && id !in req.locked && Matches(bucket, t[id], req)
  }

  /** One `... ORDER BY id LIMIT 1 FOR UPDATE SKIP LOCKED` statement. */
  function Oldest(t: Table, bucket: Bucket, req: Request): Option<CommandId> {
    var ids := Candidates(t, bucket, req);
    if ids == {} then None else Some(Least(ids))
  }

  /** The staged selection: the first non-empty bucket wins. */
  function Select(t: Table, req: Request): Option<CommandId> {
    if req.lifecycle == Unconfigured then
      Oldest(t, ConfigOnly, req)
    else
      var scoped := Oldest(t, Scoped, req);
      if scoped.Some? then scoped
      else
        var unassigned := if req.newWorkspaces > 0 then Oldest(t, NewWorkspace, req) else None;
        if unassigned.Some? then unassigned
        else if req.workspaceIds != {} then Oldest(t, PinnedIdle, req)
        else None
  }

  // ----- The priority queue the staged selection refines -----

  /** How urgently this caller may have `row`; `None` when it may not have it at all. */
  function Urgency(row: Row, req: Request): Option<nat> {
    var mine := row.agent == Some(req.agent);
    if row.status != Pending then None
    else if req.lifecycle == Unconfigured then
      if mine && row.kind == ConfigUpdate then Some(0) else None
    else if mine && row.kind in {ConfigUpdate, ShutdownCommand, CancelShutdown} then Some(0)
    else if row.agent == None && row.kind == ProvisionWorkspace && req.newWorkspaces > 0 then Some(1)
    else if mine && row.workspace.Some? && row.workspace.value in req.workspaceIds then Some(2)
    else None
  }

  predicate Eligible(t: Table, id: CommandId, req: Request) {
    id in t && id !in req.locked && Urgency(t[id], req).Some?
  }

  /** `a` goes out before `b`: more urgent, or equally urgent and minted earlier. */
  predicate Precedes(t: Table, a: CommandId, b: CommandId, req: Request)
    requires Eligible(t, a, req) && Eligible(t, b, req)
  {
    var ua, ub := Urgency(t[a], req).value, Urgency(t[b], req).value;
    ua < ub || (ua == ub && a <= b)
  }

  /** The staged selection returns the first eligible row of the priority queue, and
      returns nothing only when no row is eligible. */
  lemma SelectIsPriorityMinimum(t: Table, req: Request)
    ensures Select(t, req) == None <==> forall id :: !Eligible(t, id, req)
    ensures forall first :: Select(t, req) == Some(first) ==>
              && Eligible(t, first, req)
              && forall id :: Eligible(t, id, req) ==> Precedes(t, first, id, req)
  {
    forall id | Eligible(t, id, req)
      ensures Select(t, req).Some?
      ensures Eligible(t, Select(t, req).value, req) && Precedes(t, Select(t, req).value, id, req)
    {
      EligibleIsCandidate(t, id, req);
      if Oldest(t, Scoped, req) == None {
        assert Candidates(t, Scoped, req) == {};
        if req.newWorkspaces > 0 && Oldest(t, NewWorkspace, req) == None {
          assert Candidates(t, NewWorkspace, req) == {};
        }
      }
    }
    if Select(t, req).Some? {
      SelectedIsEligible(t, req);
    }
  }

  lemma EligibleIsCandidate(t: Table, id: CommandId, req: Request)
    requires Eligible(t, id, req)
    ensures req.lifecycle == Unconfigured ==> id in Candidates(t, ConfigOnly, req)
    ensures req.lifecycle != Unconfigured && Urgency(t[id], req) == Some(0) ==> id in Candidates(t, Scoped, req)
    ensures Urgency(t[id], req) == Some(1) ==> req.newWorkspaces > 0 && id in Candidates(t, NewWorkspace, req)
    ensures Urgency(t[id], req) == Some(2) ==> req.workspaceIds != {} && id in Candidates(t, PinnedIdle, req)
  {
  }

  lemma SelectedIsEligible(t: Table, req: Request)
    requires Select(t, req).Some?
    ensures Eligible(t, Select(t, req).value, req)
  {
    var id := Select(t, req).value;
    if req.lifecycle != Unconfigured && Oldest(t, Scoped, req) == None {
      assert id !in Candidates(t, Scoped, req);
    }
  }

  /** Of two rows with the same urgency, the later one is never selected while the
      earlier one is eligible. */
  lemma SameBucketIsFifo(t: Table, early: CommandId, late: CommandId, req: Request)
    requires Eligible(t, early, req) && Eligible(t, late, req)
    requires Urgency(t[early], req) == Urgency(t[late], req)
    requires early < late
    ensures Select(t, req) != Some(late)
  {
    SelectIsPriorityMinimum(t, req);
  }

  /** An unconfigured agent is only ever handed one of its own ConfigUpdate rows. */
  lemma UnconfiguredGetsOnlyConfig(t: Table, req: Request)
    requires req.lifecycle == Unconfigured && Select(t, req).Some?
    ensures var row := t[Select(t, req).value];
            row.kind == ConfigUpdate && row.agent == Some(req.agent)
  {
    SelectedIsEligible(t, req);
  }
}
