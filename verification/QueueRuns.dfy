/**
 Runs of the durable queue: any number of service calls, by any callers, in any
 order. The row state machine and the authority of completion tokens are stated
 over whole runs.
 */
module QueueRuns {
  import opened Basics
  import opened CommandRows
  import opened CommandQueue
  import opened ClaimContract

  datatype Step =
    | DoEnqueue(id: CommandId, kind: Kind, workspace: Option<WorkspaceId>, run: Option<RunId>)
    | DoEnqueueForAgent(id: CommandId, kind: Kind, agent: AgentId)
    | DoPin(id: CommandId, agent: AgentId)
    | DoClaim(call: ClaimCall)
    | DoEvent(event: Event, reporter: Option<AgentId>)
    | DoReap(now: Time, locked: set<CommandId>)

  function Apply(q: Queue, s: Step): Queue {
    match s
    case DoEnqueue(id, kind, workspace, run) => Enqueue(q, id, kind, workspace, run)
    case DoEnqueueForAgent(id, kind, agent) => EnqueueForAgent(q, id, kind, agent)
    case DoPin(id, agent) => Pin(q, id, agent)
    case DoClaim(call) => Claim(q, call).0
    case DoEvent(event, reporter) => RecordEvent(q, event, reporter)
    case DoReap(now, locked) => Reap(q, now, locked)
  }

  function Run(q: Queue, steps: seq<Step>): Queue
    decreases |steps|
  {
    if steps == [] then q else Run(Apply(q, steps[0]), steps[1..])
  }

  const EmptyQueue := Queue(map[], 1, [])

  // ----- The row invariant -----

  predicate RowOk(row: Row) {
    && (row.status == Pending ==> row.claimedAt == None)
    && (row.status in {Claimed, Delivered} ==> row.agent.Some? && row.claimedAt.Some? && row.hash.Some?)
    && row.attempt <= 5
    && (row.attempt == 5 ==> row.status == Done)
  }

  /** Every row is well-formed and every stored hash is of a token that has been minted. */
  predicate Ok(q: Queue) {
    && q.nextToken > EMPTY_TOKEN
    && forall id :: id in q.rows ==>
         RowOk(q.rows[id]) && TokenFits(q.rows[id], q.nextToken)
  }

  lemma EmptyQueueIsOk()
    ensures Ok(EmptyQueue)
  {
  }

  // ----- What one step may do to one row -----

  /** The moves of one row in one step: the whole state machine of `agent_commands.status`. */
  ghost predicate Moves(before: Row, after: Row, s: Step) {
    && after.kind == before.kind && after.run == before.run && after.workspace == before.workspace
    && (before.hash.Some? ==> after.hash.Some?)
    && (after.attempt != before.attempt ==> s.DoReap? && before.status == Claimed)
    && match before.status
       case Done => after.status == Done
       case Delivered => after.status in {Delivered, Done}
       case Claimed =>
         && (after.status == Delivered ==> s.DoEvent?)
         && (after.status == Pending ==>
               && s.DoReap? && before.claimedAt.Some? && before.claimedAt.value < s.now - 30
               && after.attempt == before.attempt + 1 && after.agent == None)
         && (after.status == Done ==> s.DoEvent? || (s.DoReap? && before.attempt >= 4))
       case Pending =>
         && after.status != Delivered
         && (after.status == Claimed ==>
             s.DoClaim? && after.agent == Some(s.call.req.agent) && after.claimedAt == Some(s.call.now))
  }

  /** The tokens a step leaves in the table: an old row keeps its hash or gets a newly minted
      one, which only a claim does. */
  ghost predicate Rehashes(q: Queue, q': Queue, s: Step, id: CommandId)
    requires id in q.rows && id in q'.rows
  {
    || q'.rows[id].hash == q.rows[id].hash
    || (s.DoClaim? && q'.rows[id].hash.Some? && q'.rows[id].hash.value.token >= q.nextToken)
  }

  /** A row after a step: well-formed, moved legally, and hashed with a minted token. */
  ghost predicate RowStepOk(q: Queue, q': Queue, s: Step, id: CommandId)
    requires id in q.rows && id in q'.rows
  {
    && RowOk(q'.rows[id])
    && Moves(q.rows[id], q'.rows[id], s)
    && Rehashes(q, q', s, id)
  }

  predicate TokenFits(row: Row, limit: Token) {
    row.hash.Some? ==> EMPTY_TOKEN < row.hash.value.token < limit
  }

  ghost predicate StepOk(q: Queue, q': Queue, s: Step) {
    && Ok(q')
    && q.nextToken <= q'.nextToken
    && q.rows.Keys <= q'.rows.Keys
    && forall id :: id in q.rows ==> RowStepOk(q, q', s, id)
  }

  lemma EveryStepIsOk(q: Queue, s: Step)
    requires Ok(q)
    ensures StepOk(q, Apply(q, s), s)
  {
    hide *;
    ApplyUnfolds(q, s);
    match s
    case DoEnqueue(id, kind, workspace, run) => EnqueueIsOk(q, id, kind, workspace, run);
    case DoEnqueueForAgent(id, kind, agent) => EnqueueForAgentIsOk(q, id, kind, agent);
    case DoPin(id, agent) => PinIsOk(q, id, agent);
    case DoClaim(call) => ClaimIsOk(q, call);
    case DoEvent(event, reporter) => EventIsOk(q, event, reporter);
    case DoReap(now, locked) => ReapIsOk(q, now, locked);
  }

  lemma ApplyUnfolds(q: Queue, s: Step)
    ensures Apply(q, s) == match s
                           case DoEnqueue(id, kind, workspace, run) => Enqueue(q, id, kind, workspace, run)
                           case DoEnqueueForAgent(id, kind, agent) => EnqueueForAgent(q, id, kind, agent)
                           case DoPin(id, agent) => Pin(q, id, agent)
                           case DoClaim(call) => Claim(q, call).0
                           case DoEvent(event, reporter) => RecordEvent(q, event, reporter)
                           case DoReap(now, locked) => Reap(q, now, locked)
  {
  }

  lemma EnqueueIsOk(q: Queue, id: CommandId, kind: Kind, workspace: Option<WorkspaceId>, run: Option<RunId>)
    requires Ok(q)
    ensures StepOk(q, Enqueue(q, id, kind, workspace, run), DoEnqueue(id, kind, workspace, run))
  {
  }

  lemma EnqueueForAgentIsOk(q: Queue, id: CommandId, kind: Kind, agent: AgentId)
    requires Ok(q)
    ensures StepOk(q, EnqueueForAgent(q, id, kind, agent), DoEnqueueForAgent(id, kind, agent))
  {
  }

  lemma PinIsOk(q: Queue, id: CommandId, agent: AgentId)
    requires Ok(q)
    ensures StepOk(q, Pin(q, id, agent), DoPin(id, agent))
  {
  }

  lemma ClaimIsOk(q: Queue, c: ClaimCall)
    requires Ok(q)
    ensures StepOk(q, Claim(q, c).0, DoClaim(c))
  {
    hide Claim, ClaimFrom, VisitFrom, FailuresOf, Moves, LastRow, RetiredRow;
    var v := VisitFrom(q, c, 0);
    var (q1, result) := ClaimFrom(q, c, 0);
    LoopIsFramed(q, c, 0);
    LoopSettlesLast(q, c, 0);
    LoopMints(q, c, 0);
    ClaimUnfolds(q, c);
    forall id | id in q.rows
      ensures Moves(q.rows[id], q.rows[id], DoClaim(c))
      ensures !result.Raised? ==> RowOk(q1.rows[id]) && Moves(q.rows[id], q1.rows[id], DoClaim(c))
    {
      StandsStill(q.rows[id], DoClaim(c));
      if id in v.retired {
        RetiredRowMoves(q.rows[id], q1.rows[id], c, id);
      } else if v.last == Some(id) && !result.Raised? {
        LastRowMoves(q.rows[id], q1.rows[id], c, id, result);
      }
    }
  }

  lemma StandsStill(row: Row, s: Step)
    requires RowOk(row)
    ensures Moves(row, row, s)
  {
  }

  lemma RetiredRowMoves(before: Row, after: Row, c: ClaimCall, id: CommandId)
    requires RowOk(before) && RetiredRow(before, after, c, id)
    ensures RowOk(after) && Moves(before, after, DoClaim(c))
  {
  }

  lemma LastRowMoves(before: Row, after: Row, c: ClaimCall, id: CommandId, result: ClaimResult)
    requires RowOk(before) && LastRow(before, after, c, id, result) && !result.Raised?
    ensures RowOk(after) && Moves(before, after, DoClaim(c))
  {
  }

  /** An event touches its own command's row only: delivered if it was claimed, or done. */
  lemma EventTouchesOneRow(q: Queue, ev: Event, reporter: Option<AgentId>)
    ensures var q' := RecordEvent(q, ev, reporter);
            && q'.rows.Keys == q.rows.Keys
            && q'.nextToken == q.nextToken
            && (forall id :: id in q.rows && id != ev.command ==> q'.rows[id] == q.rows[id])
            && (ev.command in q.rows ==>
                  var (before, after) := (q.rows[ev.command], q'.rows[ev.command]);
                  || after == before
                  || (before.status == Claimed && after == before.(status := Delivered))
                  || after == before.(status := Done))
  {
  }

  lemma EventIsOk(q: Queue, ev: Event, reporter: Option<AgentId>)
    requires Ok(q)
    ensures StepOk(q, RecordEvent(q, ev, reporter), DoEvent(ev, reporter))
  {
    hide RecordEvent, Moves;
    EventTouchesOneRow(q, ev, reporter);
    var q' := RecordEvent(q, ev, reporter);
    forall id | id in q.rows
      ensures RowOk(q'.rows[id]) && Moves(q.rows[id], q'.rows[id], DoEvent(ev, reporter))
    {
      StandsStill(q.rows[id], DoEvent(ev, reporter));
      EventRowMoves(q.rows[id], q'.rows[id], ev, reporter);
    }
  }

  lemma EventRowMoves(before: Row, after: Row, ev: Event, reporter: Option<AgentId>)
    requires RowOk(before)
    requires || after == before
             || (before.status == Claimed && after == before.(status := Delivered))
             || after == before.(status := Done)
    ensures RowOk(after) && Moves(before, after, DoEvent(ev, reporter))
  {
  }

  lemma ReapIsOk(q: Queue, now: Time, locked: set<CommandId>)
    requires Ok(q)
    ensures StepOk(q, Reap(q, now, locked), DoReap(now, locked))
  {
    hide Moves, RowOk, Expire;
    var q' := Reap(q, now, locked);
    forall id | id in q.rows
      ensures RowOk(q'.rows[id]) && Moves(q.rows[id], q'.rows[id], DoReap(now, locked))
      ensures q'.rows[id].hash == q.rows[id].hash
    {
      StandsStill(q.rows[id], DoReap(now, locked));
      if id in StaleIds(q.rows, now, locked) {
        ExpiredRowMoves(q.rows[id], now, locked);
      }
    }
  }

  lemma ExpiredRowMoves(row: Row, now: Time, locked: set<CommandId>)
    requires RowOk(row) && Stale(row, now)
    ensures RowOk(Expire(row)) && Moves(row, Expire(row), DoReap(now, locked)) && Expire(row).hash == row.hash
  {
  }

  lemma {:induction false} RunIsOk(q: Queue, steps: seq<Step>)
    requires Ok(q)
    ensures Ok(Run(q, steps)) && q.rows.Keys <= Run(q, steps).rows.Keys
    decreases |steps|
  {
    if steps != [] {
      EveryStepIsOk(q, steps[0]);
      RunIsOk(Apply(q, steps[0]), steps[1..]);
    }
  }

  /** Over every run from the empty table: a pending row has no lease time, a claimed or delivered
      row has an agent, a lease time and a hash, and the attempts stay below the cap unless done. */
  lemma ReachableRowsAreOk(steps: seq<Step>, id: CommandId)
    requires id in Run(EmptyQueue, steps).rows
    ensures RowOk(Run(EmptyQueue, steps).rows[id])
  {
    EmptyQueueIsOk();
    RunIsOk(EmptyQueue, steps);
  }

  /** Over every run: `done` is absorbing and `delivered` is left only for `done`. */
  lemma {:induction false} DoneIsAbsorbing(q: Queue, steps: seq<Step>, id: CommandId)
    requires Ok(q) && id in q.rows
    ensures id in Run(q, steps).rows
    ensures q.rows[id].status == Done ==> Run(q, steps).rows[id].status == Done
    ensures q.rows[id].status == Delivered ==> Run(q, steps).rows[id].status in {Delivered, Done}
    decreases |steps|
  {
    if steps != [] {
      EveryStepIsOk(q, steps[0]);
      DoneIsAbsorbing(Apply(q, steps[0]), steps[1..], id);
    }
  }

  // ----- The reaper's attempt cap -----

  /** How often the run moved `id` from claimed back to pending. */
  function Requeues(q: Queue, steps: seq<Step>, id: CommandId): nat
    decreases |steps|
  {
    if steps == [] then 0
    else
      var q' := Apply(q, steps[0]);
      var back := id in q.rows && id in q'.rows && q.rows[id].status == Claimed && q'.rows[id].status == Pending;
      (if back then 1 else 0) + Requeues(q', steps[1..], id)
  }

  /** Each return to pending costs one attempt, so no row returns more than four times. */
  lemma {:induction false} RequeuesAreAttempts(q: Queue, steps: seq<Step>, id: CommandId)
    requires Ok(q) && id in q.rows
    ensures id in Run(q, steps).rows
    ensures var (before, after) := (q.rows[id], Run(q, steps).rows[id]);
            && (after.attempt < 5 ==> after.attempt == before.attempt + Requeues(q, steps, id))
            && (before.status != Done ==> Requeues(q, steps, id) <= 4 - before.attempt)
            && (before.status == Done ==> Requeues(q, steps, id) == 0)
    decreases |steps|
  {
    if steps != [] {
      var q' := Apply(q, steps[0]);
      EveryStepIsOk(q, steps[0]);
      AttemptStep(q, steps[0], id);
      RequeuesAreAttempts(q', steps[1..], id);
    }
  }

  lemma AttemptStep(q: Queue, s: Step, id: CommandId)
    requires Ok(q) && id in q.rows
    ensures id in Apply(q, s).rows
    ensures var (before, after) := (q.rows[id], Apply(q, s).rows[id]);
            || (after.attempt == before.attempt && !(before.status == Claimed && after.status == Pending))
            || (after.attempt == before.attempt + 1 && before.status == Claimed && after.status == Pending)
            || (after.attempt == 5 && before.status == Claimed && after.status == Done)
  {
    EveryStepIsOk(q, s);
  }

  // ----- Token supersession -----

  /** The call selected `id` and the transaction was committed: the row got a new token. */
  ghost predicate Restamps(q: Queue, s: Step, id: CommandId) {
    && s.DoClaim?
    && !Claim(q, s.call).1.Raised?
    && Visited(VisitFrom(q, s.call, 0), id)
  }

  ghost predicate NeverRestamped(q: Queue, steps: seq<Step>, id: CommandId)
    decreases |steps|
  {
    steps == [] || (!Restamps(q, steps[0], id) && NeverRestamped(Apply(q, steps[0]), steps[1..], id))
  }

  ghost predicate Holds(q: Queue, id: CommandId, token: Token) {
    id in q.rows && q.rows[id].hash == Some(Sha256(token))
  }

  /** A token that is not the row's is older than every token the row will ever get. */
  ghost predicate Superseded(q: Queue, id: CommandId, token: Token) {
    && id in q.rows
    && q.rows[id].hash.Some?
    && q.rows[id].hash.value.token != token
    && token < q.nextToken
  }

  lemma RestampsIffRehashed(q: Queue, s: Step, id: CommandId)
    requires Ok(q) && id in q.rows
    ensures id in Apply(q, s).rows
    ensures !Restamps(q, s, id) ==> Apply(q, s).rows[id].hash == q.rows[id].hash
    ensures Restamps(q, s, id) ==>
              Apply(q, s).rows[id].hash.Some? && Apply(q, s).rows[id].hash.value.token >= q.nextToken
  {
    EveryStepIsOk(q, s);
    if s.DoClaim? {
      ClaimUnfolds(q, s.call);
      LoopMints(q, s.call, 0);
    }
  }

  lemma {:induction false} SupersededForever(q: Queue, steps: seq<Step>, id: CommandId, token: Token)
    requires Ok(q) && Superseded(q, id, token)
    ensures Superseded(Run(q, steps), id, token)
    decreases |steps|
  {
    if steps != [] {
      RestampsIffRehashed(q, steps[0], id);
      EveryStepIsOk(q, steps[0]);
      SupersededForever(Apply(q, steps[0]), steps[1..], id, token);
    }
  }

  /** Once a command has been claimed again, every event of the earlier claim is refused
      and changes nothing, at any later point of any run. */
  lemma ReclaimSilencesEarlierClaim(q: Queue, first: ClaimCall, between: seq<Step>, again: ClaimCall, later: seq<Step>,
                                    ev: Event, reporter: Option<AgentId>)
    requires Ok(q)
    requires Claim(q, first).1 == Command(ev.command, Presented(ev))
    requires var q2 := Run(Claim(q, first).0, between);
             Restamps(q2, DoClaim(again), ev.command)
    ensures var q2 := Run(Claim(q, first).0, between);
            var q3 := Run(Claim(q2, again).0, later);
            !Authorized(q3, ev) && RecordEvent(q3, ev, reporter) == q3
  {
    var q1 := Claim(q, first).0;
    var q2 := Run(q1, between);
    ClaimReturnsTheHash(q, first);
    RunKeepsMinted(q1, between);
    RestampsIffRehashed(q2, DoClaim(again), ev.command);
    EveryStepIsOk(q2, DoClaim(again));
    SupersededForever(Apply(q2, DoClaim(again)), later, ev.command, Presented(ev));
    RunKeepsMinted(Apply(q2, DoClaim(again)), later);
  }

  /** A claim returns the token its row now carries the hash of. */
  lemma ClaimReturnsTheHash(q: Queue, c: ClaimCall)
    requires Ok(q) && Claim(q, c).1.Command?
    ensures var (q', result) := Claim(q, c);
            Ok(q') && Holds(q', result.id, result.token) && result.token < q'.nextToken
  {
    hide *;
    EveryStepIsOk(q, DoClaim(c));
    ClaimHolds(q, c);
    ApplyUnfolds(q, DoClaim(c));
    HeldIsMinted(q, Claim(q, c).0, DoClaim(c), Claim(q, c).1.id, Claim(q, c).1.token);
  }

  lemma ClaimHolds(q: Queue, c: ClaimCall)
    requires Claim(q, c).1.Command?
    ensures Holds(Claim(q, c).0, Claim(q, c).1.id, Claim(q, c).1.token)
  {
    ClaimUnfolds(q, c);
    LoopSettlesLast(q, c, 0);
    hide ClaimFrom, Claim;
  }

  lemma HeldIsMinted(q: Queue, q': Queue, s: Step, id: CommandId, token: Token)
    requires StepOk(q, q', s) && Holds(q', id, token)
    ensures Ok(q') && token < q'.nextToken
  {
  }

  /** The token a claim returns was not in circulation before it. */
  lemma ClaimMintsItsToken(q: Queue, c: ClaimCall)
    requires Ok(q) && Claim(q, c).1.Command?
    ensures Claim(q, c).1.id in q.rows && Claim(q, c).1.token >= q.nextToken
  {
    ClaimReturnsTheHash(q, c);
    ClaimUnfolds(q, c);
    LoopSettlesLast(q, c, 0);
    RestampsIffRehashed(q, DoClaim(c), Claim(q, c).1.id);
  }

  lemma {:induction false} RunKeepsMinted(q: Queue, steps: seq<Step>)
    requires Ok(q)
    ensures Ok(Run(q, steps)) && q.nextToken <= Run(q, steps).nextToken && q.rows.Keys <= Run(q, steps).rows.Keys
    decreases |steps|
  {
    if steps != [] {
      EveryStepIsOk(q, steps[0]);
      RunKeepsMinted(Apply(q, steps[0]), steps[1..]);
    }
  }

  /** The token of a claim is accepted exactly for as long as no later claim has selected
      the command, whatever else happens. */
  lemma {:induction false} TokenIsGoodUntilReclaim(q: Queue, steps: seq<Step>, ev: Event)
    requires Ok(q) && Holds(q, ev.command, Presented(ev)) && Presented(ev) < q.nextToken
    ensures Authorized(Run(q, steps), ev) <==> NeverRestamped(q, steps, ev.command)
    decreases |steps|
  {
    if steps != [] {
      var q' := Apply(q, steps[0]);
      RestampsIffRehashed(q, steps[0], ev.command);
      EveryStepIsOk(q, steps[0]);
      if Restamps(q, steps[0], ev.command) {
        SupersededForever(q', steps[1..], ev.command, Presented(ev));
      } else {
        TokenIsGoodUntilReclaim(q', steps[1..], ev);
      }
    }
  }

  /** From a claim on: an event bearing its token acts exactly until the next claim that
      selects the command. */
  lemma ClaimTokenAuthority(q: Queue, c: ClaimCall, steps: seq<Step>, ev: Event)
    requires Ok(q) && Claim(q, c).1 == Command(ev.command, Presented(ev))
    ensures var q1 := Claim(q, c).0;
            Authorized(Run(q1, steps), ev) <==> NeverRestamped(q1, steps, ev.command)
  {
    ClaimReturnsTheHash(q, c);
    TokenIsGoodUntilReclaim(Claim(q, c).0, steps, ev);
  }
}
