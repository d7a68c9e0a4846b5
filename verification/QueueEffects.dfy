/**
 What the calls on the command queue do, said row by row and effect by effect in terms
 of the fields of the table and of the event alone.
 */
module QueueEffects {
  import opened Basics
  import opened CommandRows
  import opened CommandQueue
  import opened ClaimContract

  /** The event presents the token whose hash its row carries; a missing token is the empty one, and
      a row that was never claimed has no hash to meet. */
  ghost predicate Presents(q: Queue, ev: Event) {
    && ev.command in q.rows
    && (q.rows[ev.command].hash == None
        || q.rows[ev.command].hash == Some(Sha256(if ev.token.Some? then ev.token.value else 0)))
  }

  /** What a terminal event of `ev.kind` makes of its row: all that the engine, the registry, the
      workspace sink and the run sink are told. */
  ghost predicate OwedAtTheEnd(row: Row, ev: Event, reporter: Option<AgentId>, e: Effect) {
    match e
    case EngineEvent(run, command, outcome) =>
      && row.run == Some(run) && command == ev.command
      && (ev.outcomeLabel != "" ==> outcome == ev.outcomeLabel)
      && (ev.outcomeLabel == "" && ev.kind == CompletedFailure ==> outcome == "failure")
      && (ev.outcomeLabel == "" && ev.kind != CompletedFailure ==> outcome == "success")
    case AgentConfigured(agent) =>
      ev.kind == CompletedSuccess && row.kind == ConfigUpdate && row.agent == Some(agent)
    case ClaimReleased(command) => command == ev.command
    case RunFinalized(command, kind, verdict) => command == ev.command && kind == row.kind && verdict == ev.kind
    case WorkspaceMaterialised(command, owner) =>
      && ev.kind == CompletedSuccess && row.kind == ProvisionWorkspace && row.workspace.Some?
      && command == ev.command && reporter == Some(owner)
    case ProgressForwarded(_, _) => false
  }

  ghost predicate OwedOnTheWay(row: Row, ev: Event, e: Effect) {
    e.ProgressForwarded? && row.run == Some(e.run) && e.command == ev.command
  }

  function Turn(e: Effect): nat {
    match e
    case AgentConfigured(_) => 0
    case ClaimReleased(_) => 1
    case RunFinalized(_, _, _) => 2
    case WorkspaceMaterialised(_, _) => 3
    case _ => 4
  }

  /** The claim is released after the agent is configured and before the run is finalized, and the
      engine is told last. */
  ghost predicate InOrder(more: seq<Effect>) {
    forall i, j :: 0 <= i < j < |more| ==> Turn(more[i]) < Turn(more[j])
  }

  /** Effects in order are not repeated. */
  lemma {:induction false} InOrderIsOnce(more: seq<Effect>, e: Effect)
    requires InOrder(more)
    ensures multiset(more)[e] == if e in more then 1 else 0
  {
    if more != [] {
      var n := |more| - 1;
      assert more == more[..n] + [more[n]];
      InOrderIsOnce(more[..n], e);
      assert more[n] !in more[..n];
    }
  }

  lemma EffectsOwed(row: Row, ev: Event, reporter: Option<AgentId>, e: Effect)
    requires ev.kind in {CompletedSuccess, CompletedFailure, CompletedSkipped}
    ensures e in TerminalEffects(row, ev, reporter) <==> OwedAtTheEnd(row, ev, reporter, e)
  {
  }

  lemma EffectsInOrder(row: Row, ev: Event, reporter: Option<AgentId>)
    ensures InOrder(TerminalEffects(row, ev, reporter))
  {
  }

  lemma TerminalEffectsOnce(row: Row, ev: Event, reporter: Option<AgentId>)
    requires ev.kind in {CompletedSuccess, CompletedFailure, CompletedSkipped}
    ensures OnceEach(TerminalEffects(row, ev, reporter), e => OwedAtTheEnd(row, ev, reporter, e))
    ensures InOrder(TerminalEffects(row, ev, reporter))
  {
    hide TerminalEffects, OwedAtTheEnd, InOrder;
    EffectsInOrder(row, ev, reporter);
    forall e ensures multiset(TerminalEffects(row, ev, reporter))[e] == if OwedAtTheEnd(row, ev, reporter, e) then 1
        else 0 {
      EffectsOwed(row, ev, reporter, e);
      InOrderIsOnce(TerminalEffects(row, ev, reporter), e);
    }
  }

  /** A terminal event that presents its row's token: the row is done and no other row changes; the
      engine gets exactly one event if the row has a run, for that run and command, with the
      event's label, or "failure" for a failure and "success" otherwise; the other sinks get exactly
      what is owed to them, once, and in the order of the code. */
  lemma TerminalEventTells(q: Queue, ev: Event, reporter: Option<AgentId>)
    requires Presents(q, ev) && ev.kind in {CompletedSuccess, CompletedFailure, CompletedSkipped}
    ensures var (q', row) := (RecordEvent(q, ev, reporter), q.rows[ev.command]);
            && q'.rows == q.rows[ev.command := row.(status := Done)] && q'.nextToken == q.nextToken
            && q.log <= q'.log
            && OnceEach(q'.log[|q.log|..], e => OwedAtTheEnd(row, ev, reporter, e))
            && InOrder(q'.log[|q.log|..])
  {
    var row := q.rows[ev.command];
    RecordEventUnfolds(q, ev, reporter);
    TerminalEffectsOnce(row, ev, reporter);
    assert RecordEvent(q, ev, reporter).log[|q.log|..] == TerminalEffects(row, ev, reporter);
    hide RecordEvent, TerminalEffects, OnceEach, InOrder;
  }

  /** Any other event that presents its row's token: `received` moves a claimed row to delivered and
      tells nobody; progress changes no row and is forwarded once if the row has a run. */
  lemma OtherEventTells(q: Queue, ev: Event, reporter: Option<AgentId>)
    requires Presents(q, ev) && ev.kind in {Received, Progress}
    ensures var (q', row) := (RecordEvent(q, ev, reporter), q.rows[ev.command]);
            && q'.nextToken == q.nextToken && q.log <= q'.log
            && (ev.kind == Received ==>
                  && q'.log == q.log
                  && q'.rows == q.rows[ev.command := if row.status == Claimed then row.(status := Delivered) else row])
            && (ev.kind == Progress ==>
                  q'.rows == q.rows && OnceEach(q'.log[|q.log|..], e => OwedOnTheWay(row, ev, e)))
  {
    var row := q.rows[ev.command];
    RecordEventUnfolds(q, ev, reporter);
    if ev.kind == Progress {
      assert RecordEvent(q, ev, reporter).log[|q.log|..] == ProgressEffects(row, ev);
    } else {
      assert q.rows[ev.command := row] == q.rows;
    }
  }

  /** An event is accepted if and only if it presents its row's token; a refused one changes nothing
      and tells nobody. */
  lemma RefusedIff(q: Queue, ev: Event, reporter: Option<AgentId>)
    ensures Authorized(q, ev) <==> Presents(q, ev)
    ensures !Presents(q, ev) ==> RecordEvent(q, ev, reporter) == q
  {
  }

  // ----- The reaper -----

  /** The lease is older than 30 seconds and nobody has the row locked. */
  ghost predicate Lapsed(t: Table, id: CommandId, now: Time, locked: set<CommandId>) {
    && id in t && id !in locked && t[id].status == Claimed
    && t[id].claimedAt.Some? && t[id].claimedAt.value < now - 30
  }

  /** Exactly the unlocked claimed rows whose lease is older than 30 seconds change: on its first four
      attempts a row goes back to pending without agent and lease, on its fifth it is done. */
  lemma ReapIsExact(q: Queue, now: Time, locked: set<CommandId>)
    ensures var q' := Reap(q, now, locked);
            && q'.log == q.log && q'.nextToken == q.nextToken && q'.rows.Keys == q.rows.Keys
            && (forall id :: id in q.rows && !Lapsed(q.rows, id, now, locked) ==> q'.rows[id] == q.rows[id])
            && (forall id :: Lapsed(q.rows, id, now, locked) && q.rows[id].attempt < 4 ==>
                  q'.rows[id] == q.rows[id].(status := Pending, agent := None, claimedAt := None,
                                             attempt := q.rows[id].attempt + 1))
            && (forall id :: Lapsed(q.rows, id, now, locked) && q.rows[id].attempt >= 4 ==>
                  q'.rows[id] == q.rows[id].(status := Done, attempt := 5))
    ensures forall id :: id in Requeued(q.rows, StaleIds(q.rows, now, locked)) <==>
              Lapsed(q.rows, id, now, locked) && q.rows[id].attempt < 4
  {
  }

  // ----- Enqueue and pin -----

  /** A new command is pending, unclaimed and on its first attempt; with an agent it is that agent's and
      hashed with a token nobody has been given; a taken id changes nothing. */
  lemma EnqueueIsExact(q: Queue, id: CommandId, kind: Kind, workspace: Option<WorkspaceId>, run: Option<RunId>,
      agent: AgentId)
    ensures id in q.rows ==> Enqueue(q, id, kind, workspace, run) == q && EnqueueForAgent(q, id, kind, agent) == q
    ensures id !in q.rows ==>
              var (plain, scoped) := (Enqueue(q, id, kind, workspace, run), EnqueueForAgent(q, id, kind, agent));
              && plain.log == scoped.log == q.log
              && plain.rows - {id} == scoped.rows - {id} == q.rows
              && id in plain.rows && plain.rows[id] == Row(kind, Pending, None, workspace, run, None, None, 0)
              && id in scoped.rows && scoped.rows[id].hash == Some(Sha256(q.nextToken))
              && scoped.rows[id] == Row(kind, Pending, Some(agent), None, None, scoped.rows[id].hash, None, 0)
              && plain.nextToken == q.nextToken && scoped.nextToken == q.nextToken + 1
  {
    if id !in q.rows {
      assert q.rows - {id} == q.rows;
    }
  }

  /** A pin gives the row to the agent: it leaves the new-workspace bucket, and no other agent can be
      given it. */
  lemma PinIsExact(q: Queue, id: CommandId, agent: AgentId, req: Request)
    requires id in q.rows
    ensures var q' := Pin(q, id, agent);
            && q'.rows == q.rows[id := q.rows[id].(agent := Some(agent))]
            && q'.log == q.log && q'.nextToken == q.nextToken
            && (Eligible(q'.rows, id, req) ==> req.agent == agent)
  {
  }

  // ----- What the queue does not promise -----

  /** The gateway never checks the status: a repeated terminal event is accepted again and all that
      was owed is told once more, the engine event included. */
  lemma RepeatedTerminalEventIsProcessedAgain(q: Queue, ev: Event, reporter: Option<AgentId>)
    requires Presents(q, ev) && ev.kind in {CompletedSuccess, CompletedFailure, CompletedSkipped}
    ensures var once := RecordEvent(q, ev, reporter);
            var twice := RecordEvent(once, ev, reporter);
            && Presents(once, ev) && once.log <= twice.log && twice.rows == once.rows
            && OnceEach(twice.log[|once.log|..], e => OwedAtTheEnd(q.rows[ev.command], ev, reporter, e))
  {
    var once := RecordEvent(q, ev, reporter);
    TerminalEventTells(q, ev, reporter);
    assert Presents(once, ev);
    TerminalEventTells(once, ev, reporter);
    var row, row' := q.rows[ev.command], once.rows[ev.command];
    assert row' == row.(status := Done) && row'.(status := Done) == row';
    hide RecordEvent, OwedAtTheEnd, InOrder, Presents;
    OwedAgain(RecordEvent(once, ev, reporter).log[|once.log|..], row, row', ev, reporter);
  }

  lemma OwedAgain(more: seq<Effect>, row: Row, row': Row, ev: Event, reporter: Option<AgentId>)
    requires row' == row.(status := Done) && OnceEach(more, e => OwedAtTheEnd(row', ev, reporter, e))
    ensures OnceEach(more, e => OwedAtTheEnd(row, ev, reporter, e))
  {
    forall e ensures OwedAtTheEnd(row', ev, reporter, e) == OwedAtTheEnd(row, ev, reporter, e) {
    }
    hide OwedAtTheEnd;
    var owed := e => OwedAtTheEnd(row', ev, reporter, e);
    forall e ensures multiset(more)[e] == if OwedAtTheEnd(row, ev, reporter, e) then 1 else 0 {
      assert owed(e) == OwedAtTheEnd(row', ev, reporter, e);
    }
  }

  /** Lease expiry clears the agent, so a row it requeues can be claimed by someone if and only if it
      is a ProvisionWorkspace row; every other kind waits for a new pin. */
  lemma RequeuedRowIsClaimableIff(q: Queue, now: Time, locked: set<CommandId>, id: CommandId)
    requires Lapsed(q.rows, id, now, locked) && q.rows[id].attempt < 4
    ensures (exists req: Request :: Eligible(Reap(q, now, locked).rows, id, req)) <==>
        q.rows[id].kind == ProvisionWorkspace
  {
    if q.rows[id].kind == ProvisionWorkspace {
      var anyone := Request(0, Active, 1, {}, {});
      assert Eligible(Reap(q, now, locked).rows, id, anyone);
    }
  }
}
