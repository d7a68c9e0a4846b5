/**
 The durable command queue: one transition function per service call, and the
 class whose methods perform them in place. A call is one transaction, so each
 transition is atomic.
 */
module CommandQueue {
  import opened Basics
  import opened CommandRows

  const MAX_ATTEMPT: nat := 5
  const HYDRATION_RETIRE_CAP: nat := 5
  const LEASE_SECONDS: nat := 30

  datatype EventKind = Progress | Received | CompletedSuccess | CompletedFailure | CompletedSkipped

  predicate Terminal(kind: EventKind) {
    kind in {CompletedSuccess, CompletedFailure, CompletedSkipped}
  }

  /** What an event posted by an agent carries; an absent label is the empty string. */
  datatype Event = Event(command: CommandId, kind: EventKind, token: Option<Token>, outcomeLabel: string)

  /** Calls the queue makes into the engine, the workspace sink and the run sink, in order. */
  datatype Effect =
    | EngineEvent(run: RunId, command: CommandId, outcome: string)
    | AgentConfigured(agent: AgentId)
    | ClaimReleased(command: CommandId)
    | RunFinalized(command: CommandId, kind: Kind, verdict: EventKind)
    | WorkspaceMaterialised(command: CommandId, owner: AgentId)
    | ProgressForwarded(run: RunId, command: CommandId)

  /** `nextToken` is the supply of unguessable tokens: each mint returns a new one. */
  datatype Queue = Queue(rows: Table, nextToken: Token, log: seq<Effect>)

  /** What the hydrator registered for a row's kind does with that row. */
  datatype Hydration = NoHydrator | Injected | CredentialFailure | Crash

  datatype ClaimCall = ClaimCall(req: Request, now: Time, hydration: map<CommandId, Hydration>)
  {
    function Hydrate(id: CommandId): Hydration {
      if id in hydration then hydration[id] else NoHydrator
    }
  }

  /** `Raised`: the call threw, so its transaction was rolled back. */
  datatype ClaimResult = NoCommand | Command(id: CommandId, token: Token) | Raised

  // ----- Enqueue and pin -----

  function NewRow(kind: Kind, workspace: Option<WorkspaceId>, run: Option<RunId>): Row {
    Row(kind, Pending, None, workspace, run, None, None, 0)
  }

  /** The id is the primary key: inserting a taken one fails and changes nothing. */
  function Enqueue(q: Queue, id: CommandId, kind: Kind, workspace: Option<WorkspaceId>, run: Option<RunId>): Queue {
    if id in q.rows then q else q.(rows := q.rows[id := NewRow(kind, workspace, run)])
  }

  /** Agent-scoped commands get their agent and a placeholder hash at once. */
  function EnqueueForAgent(q: Queue, id: CommandId, kind: Kind, agent: AgentId): Queue {
    if id in q.rows then q
    else
      var row := NewRow(kind, None, None).(agent := Some(agent), hash := Some(Sha256(q.nextToken)));
      q.(rows := q.rows[id := row], nextToken := q.nextToken + 1)
  }

  function Pin(q: Queue, id: CommandId, agent: AgentId): Queue {
    if id in q.rows then q.(rows := q.rows[id := q.rows[id].(agent := Some(agent))]) else q
  }

  // ----- Claim -----

  function Stamp(q: Queue, id: CommandId, c: ClaimCall): Queue
    requires id in q.rows
  {
    var row := q.rows[id].(
                 agent := Some(c.req.agent),
                 status := Claimed,
                 claimedAt := Some(c.now),
                 hash := Some(Sha256(q.nextToken)));
    q.(rows := q.rows[id := row], nextToken := q.nextToken + 1)
  }

  /** Undoes the status and the lease of a claim stamp, and nothing else. */
  function Revert(q: Queue, id: CommandId): Queue
    requires id in q.rows
  {
    q.(rows := q.rows[id := q.rows[id].(status := Pending, claimedAt := None)])
  }

  function FailureOf(id: CommandId, row: Row): seq<Effect> {
    if row.run.Some? then [EngineEvent(row.run.value, id, "failure")] else []
  }

  function RetireUnhydrated(q: Queue, id: CommandId): Queue
    requires id in q.rows
  {
    var row := q.rows[id];
    q.(rows := q.rows[id := row.(status := Done)], log := q.log + FailureOf(id, row))
  }

  /** The hydration loop after `retired` rows have been retired. */
  function ClaimFrom(q: Queue, c: ClaimCall, retired: nat): (Queue, ClaimResult)
    requires retired <= HYDRATION_RETIRE_CAP
    decreases HYDRATION_RETIRE_CAP - retired
  {
    var picked := Select(q.rows, c.req);
    if picked == None then (q, NoCommand)
    else
      SelectedIsEligible(q.rows, c.req);
      var id := picked.value;
      var stamped := Stamp(q, id, c);
      match c.Hydrate(id)
      case Crash => (stamped, Raised)
      case NoHydrator | Injected =>
        (stamped, if Decodable(q.rows[id].kind) then Command(id, q.nextToken) else Raised)
      case CredentialFailure =>
        if RunBearing(q.rows[id].kind) && retired < HYDRATION_RETIRE_CAP
        then ClaimFrom(RetireUnhydrated(stamped, id), c, retired + 1)
        else (Revert(stamped, id), NoCommand)
  }

  /** One turn of the loop, with the selected row at hand. */
  lemma ClaimFromUnfolds(q: Queue, c: ClaimCall, retired: nat)
    requires retired <= HYDRATION_RETIRE_CAP
    ensures Select(q.rows, c.req) == None ==> ClaimFrom(q, c, retired) == (q, NoCommand)
    ensures Select(q.rows, c.req).Some? ==>
              var id := Select(q.rows, c.req).value;
              && id in q.rows
              && ClaimFrom(q, c, retired)
                 == (if c.Hydrate(id) == Crash then (Stamp(q, id, c), Raised)
                     else if c.Hydrate(id) != CredentialFailure then
                       (Stamp(q, id, c), if Decodable(q.rows[id].kind) then Command(id, q.nextToken) else Raised)
                     else if RunBearing(q.rows[id].kind) && retired < HYDRATION_RETIRE_CAP then
                       ClaimFrom(RetireUnhydrated(Stamp(q, id, c), id), c, retired + 1)
                     else (Revert(Stamp(q, id, c), id), NoCommand))
  {
    if Select(q.rows, c.req).Some? {
      SelectedIsEligible(q.rows, c.req);
    }
  }

  /** One `claim_next` transaction: an exception rolls everything back. */
  function Claim(q: Queue, c: ClaimCall): (Queue, ClaimResult) {
    var (after, result) := ClaimFrom(q, c, 0);
    if result.Raised? then (q, Raised) else (after, result)
  }

  // ----- Events -----

  function Acknowledge(q: Queue, id: CommandId): Queue {
    if id in q.rows && q.rows[id].status == Claimed
    then q.(rows := q.rows[id := q.rows[id].(status := Delivered)])
    else q
  }

  function Retire(q: Queue, id: CommandId): Queue {
    if id in q.rows then q.(rows := q.rows[id := q.rows[id].(status := Done)]) else q
  }

  function Presented(ev: Event): Token {
    if ev.token.Some? then ev.token.value else EMPTY_TOKEN
  }

  /** The capability check: the command exists and the presented token hashes to its hash. */
  predicate Authorized(q: Queue, ev: Event) {
    && ev.command in q.rows
    && (q.rows[ev.command].hash.Some? ==> q.rows[ev.command].hash.value == Sha256(Presented(ev)))
  }

  function Label(ev: Event): string {
    if ev.outcomeLabel != "" then ev.outcomeLabel
    else if ev.kind == CompletedFailure then "failure" else "success"
  }

  function TerminalEffects(row: Row, ev: Event, reporter: Option<AgentId>): seq<Effect> {
    (if ev.kind == CompletedSuccess && row.kind == ConfigUpdate && row.agent.Some?
     then [AgentConfigured(row.agent.value)] else [])
    + [ClaimReleased(ev.command), RunFinalized(ev.command, row.kind, ev.kind)]
    + (if reporter.Some? && row.kind == ProvisionWorkspace && row.workspace.Some? && ev.kind == CompletedSuccess
       then [WorkspaceMaterialised(ev.command, reporter.value)] else [])
    + (if row.run.Some? then [EngineEvent(row.run.value, ev.command, Label(ev))] else [])
  }

  function ProgressEffects(row: Row, ev: Event): seq<Effect> {
    if row.run.Some? then [ProgressForwarded(row.run.value, ev.command)] else []
  }

  /** One `record_agent_event` transaction; an unauthorized event is a stale claim. */
  function RecordEvent(q: Queue, ev: Event, reporter: Option<AgentId>): Queue {
    if !Authorized(q, ev) then q
    else
      var row := q.rows[ev.command];
      match ev.kind
      case Received => Acknowledge(q, ev.command)
      case Progress => q.(log := q.log + ProgressEffects(row, ev))
      case _ => Retire(q, ev.command).(log := q.log + TerminalEffects(row, ev, reporter))
  }

  lemma RecordEventUnfolds(q: Queue, ev: Event, reporter: Option<AgentId>)
    requires Authorized(q, ev)
    ensures var row := q.rows[ev.command];
            RecordEvent(q, ev, reporter)
            == if ev.kind == Received then Acknowledge(q, ev.command)
               else if ev.kind == Progress then q.(log := q.log + ProgressEffects(row, ev))
               else Retire(q, ev.command).(log := q.log + TerminalEffects(row, ev, reporter))
  {
  }

  /** Appending the effects one by one appends all of them. */
  lemma TerminalEffectsInOrder(log: seq<Effect>, row: Row, ev: Event, reporter: Option<AgentId>)
    ensures log
            + (if ev.kind == CompletedSuccess && row.kind == ConfigUpdate && row.agent.Some?
               then [AgentConfigured(row.agent.value)] else [])
            + [ClaimReleased(ev.command)]
            + [RunFinalized(ev.command, row.kind, ev.kind)]
            + (if reporter.Some? && row.kind == ProvisionWorkspace && row.workspace.Some? && ev.kind == CompletedSuccess
               then [WorkspaceMaterialised(ev.command, reporter.value)] else [])
            + (if row.run.Some? then [EngineEvent(row.run.value, ev.command, Label(ev))] else [])
            == log + TerminalEffects(row, ev, reporter)
  {
  }

  // ----- Reaper -----

  predicate Stale(row: Row, now: Time) {
    row.status == Claimed && row.claimedAt.Some? && row.claimedAt.value < now - LEASE_SECONDS
  }

  function Expire(row: Row): Row {
    if row.attempt >= MAX_ATTEMPT - 1
    then row.(status := Done, attempt := MAX_ATTEMPT)
    else row.(status := Pending, agent := None, claimedAt := None, attempt := row.attempt + 1)
  }

  function StaleIds(t: Table, now: Time, locked: set<CommandId>): set<CommandId> {
    set id | id in t && id !in locked && Stale(t[id], now)
  }

  function ExpireAll(t: Table, ids: set<CommandId>): Table {
    map id | id in t :: if id in ids then Expire(t[id]) else t[id]
  }

  function Reap(q: Queue, now: Time, locked: set<CommandId>): Queue {
    q.(rows := ExpireAll(q.rows, StaleIds(q.rows, now, locked)))
  }

  function Requeued(t: Table, ids: set<CommandId>): set<CommandId> {
    set id | id in ids && id in t && t[id].attempt < MAX_ATTEMPT - 1
  }

  /** The table in the database and the calls made on its behalf. */
  class CommandService {
    var rows: Table
    var nextToken: Token
    var log: seq<Effect>

    function State(): Queue
      reads this
    {
      Queue(rows, nextToken, log)
    }

    constructor ()
      ensures State() == Queue(map[], 1, [])
    {
      rows, nextToken, log := map[], 1, [];
    }

    method EnqueueCommandPayload(id: CommandId, kind: Kind, workspace: Option<WorkspaceId>, run: Option<RunId>)
      returns (ok: bool)
      modifies this
      ensures State() == Enqueue(old(State()), id, kind, workspace, run)
      ensures ok <==> id !in old(rows)
    {
      ok := id !in rows;
      if ok {
        rows := rows[id := NewRow(kind, workspace, run)];
      }
    }

    method EnqueueAgentScoped(id: CommandId, kind: Kind, agent: AgentId)
      modifies this
      ensures State() == EnqueueForAgent(old(State()), id, kind, agent)
    {
      var ok := EnqueueCommandPayload(id, kind, None, None);
      if ok {
        var placeholder := Sha256(nextToken);
        nextToken := nextToken + 1;
        rows := rows[id := rows[id].(agent := Some(agent), hash := Some(placeholder))];
      }
    }

    method PinCommandToAgent(id: CommandId, agent: AgentId)
      modifies this
      ensures State() == Pin(old(State()), id, agent)
    {
      if id in rows {
        rows := rows[id := rows[id].(agent := Some(agent))];
      }
    }

    /** The staged statements, run one after the other, return the head of the priority queue. */
    method SelectEligibleRowNowait(req: Request) returns (row: Option<CommandId>)
      ensures row == Select(rows, req)
      ensures row == None <==> forall id :: !Eligible(rows, id, req)
      ensures row.Some? ==>
                && Eligible(rows, row.value, req)
                && forall id :: Eligible(rows, id, req) ==> Precedes(rows, row.value, id, req)
    {
      SelectIsPriorityMinimum(rows, req);
      if req.lifecycle == Unconfigured {
        row := Oldest(rows, ConfigOnly, req);
        return;
      }
      row := Oldest(rows, Scoped, req);
      if row == None && req.newWorkspaces > 0 {
        row := Oldest(rows, NewWorkspace, req);
      }
      if row == None && req.workspaceIds != {} {
        row := Oldest(rows, PinnedIdle, req);
      }
    }

    method StampClaim(id: CommandId, c: ClaimCall) returns (raw: Token)
      requires id in rows
      modifies this
      ensures State() == Stamp(old(State()), id, c) && raw == old(nextToken)
      ensures id in rows
    {
      raw := nextToken;
      nextToken := nextToken + 1;
      rows := rows[id := rows[id].(
                agent := Some(c.req.agent),
                status := Claimed,
                claimedAt := Some(c.now),
                hash := Some(Sha256(raw)))];
    }

    method RevertClaim(id: CommandId)
      requires id in rows
      modifies this
      ensures State() == Revert(old(State()), id)
    {
      rows := rows[id := rows[id].(status := Pending, claimedAt := None)];
    }

    method RetireUnhydratedRow(id: CommandId)
      requires id in rows
      modifies this
      ensures State() == RetireUnhydrated(old(State()), id)
    {
      var row := rows[id];
      rows := rows[id := row.(status := Done)];
      if row.run.Some? {
        log := log + [EngineEvent(row.run.value, id, "failure")];
      }
    }

    method Rollback(saved: Queue)
      modifies this
      ensures State() == saved
    {
      rows, nextToken, log := saved.rows, saved.nextToken, saved.log;
    }

    method ClaimNext(c: ClaimCall) returns (result: ClaimResult)
      modifies this
      ensures (State(), result) == Claim(old(State()), c)
    {
      hide ClaimFrom, Select, Stamp, Revert, RetireUnhydrated, Eligible, Precedes;
      var saved := Queue(rows, nextToken, log);
      var row := SelectEligibleRowNowait(c.req);
      ClaimFromUnfolds(saved, c, 0);
      if row == None {
        return NoCommand;
      }
      var retired: nat := 0;
      while true
        invariant retired <= HYDRATION_RETIRE_CAP
        invariant row == Select(rows, c.req) && row.Some?
        invariant ClaimFrom(State(), c, retired) == ClaimFrom(saved, c, 0)
        decreases HYDRATION_RETIRE_CAP - retired
      {
        var id := row.value;
        ClaimFromUnfolds(State(), c, retired);
        var kind := rows[id].kind;
        var raw := StampClaim(id, c);
        var hydration := c.Hydrate(id);
        if hydration == Crash || (hydration != CredentialFailure && !Decodable(kind)) {
          Rollback(saved);
          return Raised;
        }
        if hydration != CredentialFailure {
          return Command(id, raw);
        }
        if !RunBearing(kind) || retired >= HYDRATION_RETIRE_CAP {
          RevertClaim(id);
          return NoCommand;
        }
        RetireUnhydratedRow(id);
        retired := retired + 1;
        row := SelectEligibleRowNowait(c.req);
        if row == None {
          ClaimFromUnfolds(State(), c, retired);
          return NoCommand;
        }
      }
    }

    method AcknowledgeCommandReceived(id: CommandId)
      modifies this
      ensures State() == Acknowledge(old(State()), id)
    {
      if id in rows && rows[id].status == Claimed {
        rows := rows[id := rows[id].(status := Delivered)];
      }
    }

    method RetireCommand(id: CommandId)
      modifies this
      ensures State() == Retire(old(State()), id)
    {
      if id in rows {
        rows := rows[id := rows[id].(status := Done)];
      }
    }

    /** Returns false for a stale claim, in which case nothing changed. */
    method RecordAgentEvent(ev: Event, reporter: Option<AgentId>) returns (accepted: bool)
      modifies this
      ensures State() == RecordEvent(old(State()), ev, reporter)
      ensures accepted <==> Authorized(old(State()), ev)
    {
      if ev.command !in rows {
        return false;
      }
      var row := rows[ev.command];
      if row.hash.Some? && row.hash.value != Sha256(Presented(ev)) {
        return false;
      }
      RecordEventUnfolds(State(), ev, reporter);
      hide RecordEvent, TerminalEffects;
      accepted := true;
      if ev.kind == Received {
        AcknowledgeCommandReceived(ev.command);
        return;
      }
      if !Terminal(ev.kind) {
        if row.run.Some? {
          log := log + [ProgressForwarded(row.run.value, ev.command)];
        }
        return;
      }
      log := log + (if ev.kind == CompletedSuccess && row.kind == ConfigUpdate && row.agent.Some?
                    then [AgentConfigured(row.agent.value)] else []);
      log := log + [ClaimReleased(ev.command)];
      RetireCommand(ev.command);
      log := log + [RunFinalized(ev.command, row.kind, ev.kind)];
      log := log + (if reporter.Some? && row.kind == ProvisionWorkspace && row.workspace.Some?
          && ev.kind == CompletedSuccess
                    then [WorkspaceMaterialised(ev.command, reporter.value)] else []);
      log := log + (if row.run.Some? then [EngineEvent(row.run.value, ev.command, Label(ev))] else []);
      TerminalEffectsInOrder(old(log), row, ev, reporter);
    }

    /** Visits the stale rows in any order and counts those that went back to pending. */
    method RequeueStaleClaimed(now: Time, locked: set<CommandId>) returns (requeued: nat)
      modifies this
      ensures State() == Reap(old(State()), now, locked)
      ensures requeued == |Requeued(old(rows), StaleIds(old(rows), now, locked))|
    {
      var stale := StaleIds(rows, now, locked);
      var todo := stale;
      ghost var visited: set<CommandId> := {};
      requeued := 0;
      while todo != {}
        invariant todo !! visited && todo + visited == stale
        invariant nextToken == old(nextToken) && log == old(log)
        invariant rows == ExpireAll(old(rows), visited)
        invariant requeued == |Requeued(old(rows), visited)|
        decreases todo
      {
        var id :| id in todo;
        ExpireOneMore(old(rows), visited, id);
        if rows[id].attempt < MAX_ATTEMPT - 1 {
          requeued := requeued + 1;
        }
        rows := rows[id := Expire(rows[id])];
        todo, visited := todo - {id}, visited + {id};
      }
    }
  }

  lemma ExpireOneMore(t: Table, visited: set<CommandId>, id: CommandId)
    requires id in t && id !in visited
    ensures ExpireAll(t, visited + {id}) == ExpireAll(t, visited)[id := Expire(t[id])]
    ensures |Requeued(t, visited + {id})|
            == |Requeued(t, visited)| + if t[id].attempt < MAX_ATTEMPT - 1 then 1 else 0
  {
    if t[id].attempt < MAX_ATTEMPT - 1 {
      assert Requeued(t, visited + {id}) == Requeued(t, visited) + {id};
    } else {
      assert Requeued(t, visited + {id}) == Requeued(t, visited);
    }
  }
}
