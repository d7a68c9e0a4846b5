/**
 What the two sides can do from any state: the worker can always finish everything it
 has been told, and from every start there are runs after which the two lifecycles
 have settled on different values.
 */
module Divergence {
  import opened Basics
  import opened CommandRows
  import opened CommandQueue
  import opened ClaimContract
  import QueueRuns
  import opened AgentRegistry
  import RegistryRuns
  import opened ControlPlane
  import opened Supervisor
  import DrainStory
  import opened Convergence

  // ----- Runs -----

  lemma {:induction false} RunAppend(from: System, a: seq<Move>, mid: System, b: seq<Move>, to: System)
    requires Run(from, a, mid) && Run(mid, b, to)
    ensures Run(from, a + b, to)
    decreases |a|
  {
    hide After, CanMove;
    if a == [] {
      assert a + b == b;
    } else {
      assert (a + b)[0] == a[0] && (a + b)[1..] == a[1..] + b;
      RunAppend(After(from, a[0]), a[1..], mid, b, to);
    }
  }

  lemma OneMove(s: System, m: Move)
    requires s.me in s.plane.registry.agents && CanMove(s, m)
    ensures Run(s, [m], After(s, m))
  {
    hide After, CanMove;
    assert [m][1..] == [];
  }

  // ----- The worker catches up -----

  /** What is still to be done for the agent. */
  function Outstanding(s: System): set<CommandId> {
    set id | id in Mine(s.plane.queue.rows, s.me) && s.plane.queue.rows[id].status != Done
  }

  /** The claim call of an agent with an empty pool, no locks in its way and no hydrator. */
  function PlainClaim(s: System): ClaimCall {
    ClaimCall(OnTheWire(s.me, BuildRequest(s.local, PoolView({}, {}, 0)), {}), 0, map[])
  }

  const EmptyPool := PoolView({}, {}, 0)

  lemma PlainClaimIsPossible(s: System)
    requires s.me in s.plane.registry.agents && s.hand == None
    ensures CanMove(s, ClaimTurn(PlainClaim(s), EmptyPool))
  {
  }

  /** With an empty hand, something of the agent's that is not done is pending, and while the
      agent is unconfigured a ConfigUpdate is. */
  lemma SomethingIsEligible(s: System) returns (x: CommandId)
    requires Inv(s) && s.hand == None && Outstanding(s) != {}
    ensures Eligible(s.plane.queue.rows, x, PlainClaim(s).req)
    ensures Urgency(s.plane.queue.rows[x], PlainClaim(s).req) == Some(0)
  {
    var t, story := s.plane.queue.rows, StoryOf(s);
    assert DrainStory.HandOk(story) && DrainStory.LocalConfigComing(story) && DrainStory.LocalOk(story);
    if s.local.lifecycle == Unconfigured {
      x :| x in story.board && story.board[x].signal == DrainStory.Config && !DrainStory.Executed(story, x);
      SignalOnBoard(t, s.me, x);
    } else {
      x :| x in Outstanding(s);
      assert story.board[x].phase != DrainStory.Taken;
      SignalOnBoard(t, s.me, x);
    }
  }

  /** The agent's next claim hands it one of its own agent-scoped commands. */
  lemma PlainClaimTakes(s: System)
    requires Inv(s) && s.hand == None && Outstanding(s) != {}
    ensures var result := Claim(s.plane.queue, PlainClaim(s)).1;
            result.Command? && result.id in s.plane.queue.rows && AgentScoped(s.plane.queue.rows[result.id].kind)
  {
    var q, c := s.plane.queue, PlainClaim(s);
    var x := SomethingIsEligible(s);
    hide Inv, PlainClaim, ClaimFrom;
    SelectIsPriorityMinimum(q.rows, c.req);
    var first := Select(q.rows, c.req).value;
    assert Eligible(q.rows, first, c.req) && Precedes(q.rows, first, x, c.req);
    ClaimFromUnfolds(q, c, 0);
    ClaimUnfolds(q, c);
    NothingToHydrate(s, first);
    UrgentIsScoped(q.rows[first], c.req);
  }

  lemma NothingToHydrate(s: System, id: CommandId)
    ensures PlainClaim(s).Hydrate(id) == NoHydrator
  {
  }

  lemma UrgentIsScoped(row: Row, req: Request)
    requires Urgency(row, req) == Some(0)
    ensures AgentScoped(row.kind) && Decodable(row.kind)
  {
  }

  /** What the worker's own turns leave alone. */
  ghost predicate Carries(t: DrainStory.Story, t': DrainStory.Story) {
    && t'.settled == t.settled
    && t.since <= t'.since
    && t'.board.Keys == t.board.Keys
    && (forall id :: id in t.board ==> t'.board[id].signal == t.board[id].signal)
    && (forall id :: id in t.board && t.board[id].phase == DrainStory.Finished ==>
        t'.board[id].phase == DrainStory.Finished)
    && (forall id: CommandId :: id in t'.since && id !in t.since ==>
        id in t.board && t.board[id].phase != DrainStory.Finished)
    && (t.backend != Unconfigured ==> t'.backend == t.backend)
    && (t.backend != Shutdown ==> t'.backend != Shutdown)
  }

  predicate WorkersTurn(m: Move) {
    m.ClaimTurn? || m.ExecuteTurn? || m.PostTurn?
  }

  ghost predicate SameIdentity(s: System, s': System)
    requires s.me in s.plane.registry.agents
  {
    && s'.me == s.me && s.me in s'.plane.registry.agents
    && s'.plane.registry.agents[s.me].org == s.plane.registry.agents[s.me].org
    && s'.plane.registry.agents[s.me].instance == s.plane.registry.agents[s.me].instance
  }

  /** A turn of the worker as a step of the story. */
  lemma TurnTells(s: System, m: Move)
    requires Inv(s) && CanMove(s, m) && WorkersTurn(m)
    ensures Inv(After(s, m))
    ensures DrainStory.Enabled(StoryOf(s), BeatOf(s, m))
        && StoryOf(After(s, m)) == DrainStory.Next(StoryOf(s), BeatOf(s, m))
    ensures SameIdentity(s, After(s, m)) && Faithful(s, m)
    ensures NothingLost(s) ==> NothingLost(After(s, m))
  {
    MoveRefines(s, m);
    MoveKeepsInv(s, m);
    TurnKeepsIdentity(s, m);
    if NothingLost(s) {
      FaithfulKeepsNothingLost(s, m);
    }
    hide Inv, StoryOf, After, BeatOf, WellFormed, NothingLost, DrainStory.Enabled, DrainStory.Next;
  }

  lemma TurnKeepsIdentity(s: System, m: Move)
    requires Inv(s) && CanMove(s, m) && WorkersTurn(m)
    ensures SameIdentity(s, After(s, m))
  {
    hide DrainStory.Inv, RecordEvent, Claim, Configures;
  }

  /** The commands of the story that are not finished. */
  function Open(t: DrainStory.Story): set<CommandId> {
    set id | id in t.board && t.board[id].phase != DrainStory.Finished
  }

  lemma OpenIsOutstanding(s: System)
    requires s.me in s.plane.registry.agents
    ensures Open(StoryOf(s)) == Outstanding(s)
  {
  }

  /** Taking a command finishes none. */
  lemma TakeCarries(t: DrainStory.Story, id: CommandId)
    requires DrainStory.Inv(t) && DrainStory.Enabled(t, DrainStory.Take(id))
    ensures var t' := DrainStory.Next(t, DrainStory.Take(id)); Carries(t, t') && Open(t') == Open(t)
  {
  }

  lemma ExecuteCarries(t: DrainStory.Story)
    requires DrainStory.Inv(t) && DrainStory.Enabled(t, DrainStory.Execute)
    ensures var t' := DrainStory.Next(t, DrainStory.Execute); Carries(t, t') && Open(t') == Open(t)
  {
  }

  /** Finishing the command in hand finishes exactly that one. */
  lemma FinishCarries(t: DrainStory.Story)
    requires DrainStory.Inv(t) && DrainStory.Enabled(t, DrainStory.Finish)
    ensures var t' := DrainStory.Next(t, DrainStory.Finish);
            Carries(t, t') && t.hand.value.id in Open(t) && Open(t') == Open(t) - {t.hand.value.id}
  {
  }

  lemma CarriesOn(t: DrainStory.Story, mid: DrainStory.Story, t': DrainStory.Story)
    requires Carries(t, mid) && Carries(mid, t')
    ensures Carries(t, t')
  {
  }

  /** The worker's next turn: claim with an empty hand, otherwise execute or post. */
  function NextTurn(s: System): Move {
    if s.hand == None then ClaimTurn(PlainClaim(s), EmptyPool)
    else if !s.hand.value.executed then ExecuteTurn(AgentConfig(0))
    else PostTurn
  }

  /** How many turns the worker needs at most. */
  function Effort(s: System): nat {
    3 * |Outstanding(s)| + (if s.hand == None then 2 else if !s.hand.value.executed then 1 else 0)
  }

  ghost predicate TurnGoesOn(s: System, s': System) {
    && Inv(s) && Inv(s') && SameIdentity(s, s')
    && Carries(StoryOf(s), StoryOf(s'))
    && (NothingLost(s) ==> NothingLost(s'))
  }

  lemma TurnDecreases(s: System)
    requires Inv(s) && (s.hand.Some? || Outstanding(s) != {})
    ensures CanMove(s, NextTurn(s)) && TurnGoesOn(s, After(s, NextTurn(s)))
    ensures Effort(After(s, NextTurn(s))) < Effort(s)
  {
    var m := NextTurn(s);
    if s.hand == None {
      PlainClaimTakes(s);
      PlainClaimIsPossible(s);
      ClaimTurnDecreases(s);
    } else if !s.hand.value.executed {
      ExecuteTurnDecreases(s);
    } else {
      PostTurnDecreases(s);
    }
  }

  lemma ClaimBeat(s: System)
    requires Inv(s) && s.hand == None && CanMove(s, NextTurn(s))
    requires var result := Claim(s.plane.queue, PlainClaim(s)).1;
             result.Command? && result.id in s.plane.queue.rows && AgentScoped(s.plane.queue.rows[result.id].kind)
    ensures var s' := After(s, NextTurn(s));
            s'.hand.Some? && !s'.hand.value.executed && BeatOf(s, NextTurn(s)) == DrainStory.Take(s'.hand.value.id)
  {
    hide Inv, PlainClaim, Claim;
  }

  lemma ClaimTurnDecreases(s: System)
    requires Inv(s) && s.hand == None && CanMove(s, NextTurn(s))
    requires var result := Claim(s.plane.queue, PlainClaim(s)).1;
             result.Command? && result.id in s.plane.queue.rows && AgentScoped(s.plane.queue.rows[result.id].kind)
    ensures TurnGoesOn(s, After(s, NextTurn(s))) && Effort(After(s, NextTurn(s))) < Effort(s)
  {
    hide After, BeatOf, PlainClaim, CanMove, Claim, DrainStory.Inv, WellFormed, Carries, StoryOf, NothingLost;
    hide DrainStory.Enabled, DrainStory.Next, Outstanding, SameIdentity;
    InvHasRow(s);
    var s' := After(s, NextTurn(s));
    ClaimBeat(s);
    TurnTells(s, NextTurn(s));
    TakeCarries(StoryOf(s), s'.hand.value.id);
    InvHasRow(s');
    OpenIsOutstanding(s);
    OpenIsOutstanding(s');
  }

  lemma ExecuteBeat(s: System)
    requires s.me in s.plane.registry.agents && s.hand.Some? && !s.hand.value.executed
    ensures CanMove(s, NextTurn(s))
    ensures After(s, NextTurn(s)).hand.Some? && After(s, NextTurn(s)).hand.value.executed
    ensures BeatOf(s, NextTurn(s)) == DrainStory.Execute
  {
  }

  lemma ExecuteTurnDecreases(s: System)
    requires Inv(s) && s.hand.Some? && !s.hand.value.executed
    ensures CanMove(s, NextTurn(s)) && TurnGoesOn(s, After(s, NextTurn(s))) && Effort(After(s, NextTurn(s))) < Effort(s)
  {
    hide After, BeatOf, CanMove, DrainStory.Inv, WellFormed, Carries, StoryOf, NothingLost;
    hide DrainStory.Enabled, DrainStory.Next, Outstanding, SameIdentity;
    InvHasRow(s);
    ExecuteBeat(s);
    TurnTells(s, NextTurn(s));
    ExecuteCarries(StoryOf(s));
    InvHasRow(After(s, NextTurn(s)));
    OpenIsOutstanding(s);
    OpenIsOutstanding(After(s, NextTurn(s)));
  }

  lemma InvHasRow(s: System)
    requires Inv(s)
    ensures s.me in s.plane.registry.agents
  {
  }

  lemma PostBeat(s: System)
    requires s.me in s.plane.registry.agents && s.hand.Some? && s.hand.value.executed
    ensures CanMove(s, NextTurn(s)) && StoryOf(s).hand.Some?
    ensures After(s, NextTurn(s)).hand == None && BeatOf(s, NextTurn(s)) == DrainStory.Finish
  {
  }

  lemma PostTurnDecreases(s: System)
    requires Inv(s) && s.hand.Some? && s.hand.value.executed
    ensures CanMove(s, NextTurn(s)) && TurnGoesOn(s, After(s, NextTurn(s))) && Effort(After(s, NextTurn(s))) < Effort(s)
  {
    hide After, BeatOf, CanMove, DrainStory.Inv, WellFormed, Carries, StoryOf, NothingLost;
    hide DrainStory.Enabled, DrainStory.Next, Outstanding, SameIdentity;
    InvHasRow(s);
    PostBeat(s);
    TurnTells(s, NextTurn(s));
    FinishCarries(StoryOf(s));
    InvHasRow(After(s, NextTurn(s)));
    OpenIsOutstanding(s);
    OpenIsOutstanding(After(s, NextTurn(s)));
    Smaller(Outstanding(s), StoryOf(s).hand.value.id);
  }

  lemma Smaller(s: set<CommandId>, x: CommandId)
    requires x in s
    ensures |s - {x}| == |s| - 1
  {
  }

  ghost predicate OnlyWorker(moves: seq<Move>) {
    forall i :: 0 <= i < |moves| ==> WorkersTurn(moves[i])
  }

  lemma GoesOnAndOn(a: System, b: System, c: System)
    requires TurnGoesOn(a, b) && TurnGoesOn(b, c)
    ensures TurnGoesOn(a, c)
  {
    hide Inv, Carries, NothingLost;
    InvHasRow(a);
    InvHasRow(b);
    InvHasRow(c);
    CarriesOn(StoryOf(a), StoryOf(b), StoryOf(c));
  }

  lemma NothingToDo(s: System)
    requires Inv(s) && s.hand == None && Outstanding(s) == {}
    ensures Run(s, [], s) && AllDone(s) && TurnGoesOn(s, s)
  {
    InvHasRow(s);
    hide Inv, NothingLost;
    assert forall id :: id in Mine(s.plane.queue.rows, s.me) && s.plane.queue.rows[id].status != Done ==>
        id in Outstanding(s);
  }

  lemma OneMoreTurn(m: Move, rest: seq<Move>)
    requires WorkersTurn(m) && OnlyWorker(rest)
    ensures OnlyWorker([m] + rest)
  {
  }

  lemma GoesOnFromInv(s: System, s': System)
    requires TurnGoesOn(s, s')
    ensures Inv(s') && s.me in s.plane.registry.agents
  {
    InvHasRow(s);
  }

  /** From every reachable state the worker alone can bring everything it was told to done. */
  lemma {:induction false} WorkerCatchesUp(s: System) returns (moves: seq<Move>, end: System)
    requires Inv(s)
    ensures Run(s, moves, end) && OnlyWorker(moves) && AllDone(end) && end.hand == None
    ensures TurnGoesOn(s, end)
    decreases Effort(s)
  {
    if s.hand == None && Outstanding(s) == {} {
      moves, end := [], s;
      NothingToDo(s);
    } else {
      assert WorkersTurn(NextTurn(s));
      hide *;
      InvHasRow(s);
      TurnDecreases(s);
      var m := NextTurn(s);
      var next := After(s, m);
      GoesOnFromInv(s, next);
      var rest;
      rest, end := WorkerCatchesUp(next);
      moves := [m] + rest;
      OneMove(s, m);
      RunAppend(s, [m], next, rest, end);
      OneMoreTurn(m, rest);
      GoesOnAndOn(s, next, end);
    }
  }

  // ----- A drain that is carried out -----

  /** A move as a step of the story. */
  lemma MoveTells(s: System, m: Move)
    requires Inv(s) && CanMove(s, m)
    ensures Inv(After(s, m))
    ensures DrainStory.Enabled(StoryOf(s), BeatOf(s, m))
        && StoryOf(After(s, m)) == DrainStory.Next(StoryOf(s), BeatOf(s, m))
  {
    MoveRefines(s, m);
    MoveKeepsInv(s, m);
  }

  /** `d` is a drain request, the last request of its kind, and the current process carried it out. */
  ghost predicate DrainDone(t: DrainStory.Story, d: CommandId) {
    DrainStory.LastSignal(t, d) && t.board[d].signal == DrainStory.Down && d in t.since
  }

  lemma RestedIsActive(t: DrainStory.Story)
    requires DrainStory.Inv(t) && DrainStory.AtRest(t) && forall id: CommandId :: !DrainStory.IsSignal(t, id)
    ensures t.backend == Active
  {
  }

  lemma CarriesLast(t: DrainStory.Story, t': DrainStory.Story, d: CommandId)
    requires Carries(t, t')
    ensures DrainStory.LastSignal(t, d) ==> DrainStory.LastSignal(t', d) && t'.board[d].signal == t.board[d].signal
    ensures (forall id: CommandId :: !DrainStory.IsSignal(t, id)) ==>
        forall id: CommandId :: !DrainStory.IsSignal(t', id)
  {
    assert forall id: CommandId :: DrainStory.IsSignal(t', id) <==> DrainStory.IsSignal(t, id);
  }

  lemma DoneIsRest(s: System)
    requires Inv(s) && AllDone(s)
    ensures DrainStory.Inv(StoryOf(s)) && DrainStory.AtRest(StoryOf(s))
  {
    RestIsAtRest(s);
  }

  lemma StartHasNoSignals(s: System)
    requires Start(s)
    ensures forall id: CommandId :: !DrainStory.IsSignal(StoryOf(s), id)
  {
  }

  /** Draining an agent that is at rest for the first time. */
  lemma FirstDrain(s: System) returns (m: Move, d: CommandId)
    requires Inv(s) && AllDone(s) && s.hand == None && NothingLost(s)
    requires forall id: CommandId :: !DrainStory.IsSignal(StoryOf(s), id)
    ensures CanMove(s, m) && Inv(After(s, m)) && NothingLost(After(s, m)) && SameIdentity(s, After(s, m))
        && NoRestart([m])
    ensures var t := StoryOf(After(s, m));
            DrainStory.LastSignal(t, d) && t.board[d].signal == DrainStory.Down && t.backend == Draining
                && After(s, m).hand == None
  {
    DoneIsRest(s);
    RestedIsActive(StoryOf(s));
    m, d := AdminDrain(s.plane.registry.agents[s.me].org, s.me), s.plane.nextId;
    FirstDrainTells(s);
    MoveTells(s, m);
    FaithfulKeepsNothingLost(s, m);
    hide Inv, NothingLost, BeatOf, After;
    NewSignalIsLast(StoryOf(s), d);
  }

  lemma FirstDrainTells(s: System)
    requires s.me in s.plane.registry.agents && BackendLifecycle(s) == Active
    ensures var m := AdminDrain(s.plane.registry.agents[s.me].org, s.me);
            BeatOf(s, m) == DrainStory.Drained(s.plane.nextId) && SameIdentity(s, After(s, m))
                && After(s, m).hand == s.hand
  {
  }

  lemma NewSignalIsLast(t: DrainStory.Story, d: CommandId)
    requires DrainStory.Enabled(t, DrainStory.Drained(d))
    ensures var t' := DrainStory.Next(t, DrainStory.Drained(d));
            DrainStory.LastSignal(t', d) && t'.board[d].signal == DrainStory.Down && t'.backend == Draining
  {
  }

  lemma RestExecutesLast(t: DrainStory.Story, d: CommandId)
    requires DrainStory.AtRest(t) && DrainStory.LastSignal(t, d)
    ensures DrainStory.IsSignal(t, d) && DrainStory.Executed(t, d)
  {
  }

  /** From every start: the agent is configured, drained, and carries the drain out. */
  lemma DrainCarriedOut(from: System) returns (moves: seq<Move>, s: System, d: CommandId)
    requires Start(from)
    ensures Run(from, moves, s) && Inv(s) && s.hand == None && AllDone(s) && SameIdentity(from, s)
    ensures DrainDone(StoryOf(s), d) && !s.settled && BackendLifecycle(s) == Draining && NoRestart(moves)
  {
    StartEstablishesInv(from);
    StartLosesNothing(from);
    StartHasNoSignals(from);
    hide *;
    var a, s1 := WorkerCatchesUp(from);
    Unpack(from, s1);
    CarriesLast(StoryOf(from), StoryOf(s1), 0);
    var m, d' := FirstDrain(s1);
    d := d';
    var s2 := After(s1, m);
    var b, s3 := WorkerCatchesUp(s2);
    Unpack(s2, s3);
    CarriesLast(StoryOf(s2), StoryOf(s3), d);
    s := s3;
    moves := a + [m] + b;
    OneMove(s1, m);
    RunAppend(from, a, s1, [m], s2);
    RunAppend(from, a + [m], s2, b, s3);
    SameTwice(from, s1, s2);
    SameTwice(from, s2, s3);
    DoneIsRest(s3);
    RestExecutesLast(StoryOf(s3), d);
    DrainIsDone(s3, d);
    StillDraining(s2, s3);
    WorkerNeverRestarts(a);
    WorkerNeverRestarts(b);
    NoRestartAppend(a, [m]);
    NoRestartAppend(a + [m], b);
  }

  lemma Unpack(s: System, s': System)
    requires TurnGoesOn(s, s')
    ensures Inv(s) && Inv(s') && SameIdentity(s, s') && s.me in s.plane.registry.agents
        && s'.me in s'.plane.registry.agents
    ensures Carries(StoryOf(s), StoryOf(s')) && (NothingLost(s) ==> NothingLost(s'))
  {
    InvHasRow(s);
    InvHasRow(s');
  }

  lemma SameTwice(a: System, b: System, c: System)
    requires a.me in a.plane.registry.agents && SameIdentity(a, b)
    requires b.me in b.plane.registry.agents && SameIdentity(b, c)
    ensures SameIdentity(a, c)
  {
  }

  lemma DrainIsDone(s: System, d: CommandId)
    requires s.me in s.plane.registry.agents && NothingLost(s)
    requires var t := StoryOf(s);
             DrainStory.LastSignal(t, d) && t.board[d].signal == DrainStory.Down && DrainStory.IsSignal(t, d)
                 && DrainStory.Executed(t, d)
    ensures DrainDone(StoryOf(s), d) && !s.settled
  {
  }

  lemma StillDraining(s: System, s': System)
    requires s.me in s.plane.registry.agents && s'.me in s'.plane.registry.agents
    requires Carries(StoryOf(s), StoryOf(s')) && StoryOf(s).backend == Draining
    ensures BackendLifecycle(s') == Draining
  {
  }

  // ----- Divergence -----

  /** An exchange of the agent's own identity. */
  function OwnExchange(s: System, now: Time): Move
    requires s.me in s.plane.registry.agents
  {
    ReExchange(s.plane.registry.agents[s.me].org, s.plane.registry.agents[s.me].instance, now)
  }

  lemma OwnExchangeTells(s: System, now: Time)
    requires Inv(s)
    ensures CanMove(s, OwnExchange(s, now)) && !OwnExchange(s, now).Restart?
    ensures var (m, s') := (OwnExchange(s, now), After(s, OwnExchange(s, now)));
            && BeatOf(s, m) == DrainStory.NewConfig(s.plane.nextId, true) && s'.me == s.me
                && s.me in s'.plane.registry.agents
            && s'.plane.registry.agents[s.me].state == Reachable
                && s'.plane.registry.agents[s.me].lastHeartbeat == Some(now)
            && s'.hand == s.hand && s'.settled == s.settled
  {
    var r := s.plane.registry;
    ExchangeOfMine(r, s.me, r.agents[s.me].org, r.agents[s.me].instance, now);
    assert RowsOf(r, r.agents[s.me].org, r.agents[s.me].instance) == {s.me};
    hide DrainStory.Inv, QueueRuns.Ok;
  }

  /** The sweep that finds the draining agent silent for longer than the offline threshold. */
  function LateSweep(heard: Time): Move {
    Keepalive(RegistryRuns.DoSweep(heard + OFFLINE_THRESHOLD_SECONDS + 1, {}))
  }

  lemma LateSweepCloses(r: Registry, a: AgentId, heard: Time)
    requires a in r.agents && r.agents[a].lifecycle == Draining
    requires r.agents[a].state != Offline && r.agents[a].lastHeartbeat == Some(heard)
    ensures var r' := Sweep(r, heard + OFFLINE_THRESHOLD_SECONDS + 1, {});
            a in r'.agents && r'.agents[a].lifecycle == Shutdown
  {
  }

  lemma LateSweepTells(s: System, heard: Time)
    requires Inv(s) && BackendLifecycle(s) == Draining && !s.settled
    requires s.plane.registry.agents[s.me].state != Offline
        && s.plane.registry.agents[s.me].lastHeartbeat == Some(heard)
    ensures CanMove(s, LateSweep(heard)) && !LateSweep(heard).Restart?
    ensures BeatOf(s, LateSweep(heard)) == DrainStory.Settled && After(s, LateSweep(heard)).hand == s.hand
    ensures After(s, LateSweep(heard)).settled
  {
    hide Inv, Sweep, ExchangeIdentity, Notify, DrainOne, CancelOne, Claim, Report, Reap, Enqueue, Pin, BuildRequest;
    InvHasRow(s);
    LateSweepCloses(s.plane.registry, s.me, heard);
  }

  lemma ConfigKeepsDrainDone(t: DrainStory.Story, id: CommandId, d: CommandId)
    requires DrainStory.Enabled(t, DrainStory.NewConfig(id, true)) && DrainDone(t, d)
    ensures var t' := DrainStory.Next(t, DrainStory.NewConfig(id, true));
            DrainDone(t', d) && t'.backend == (if t.backend == Shutdown then Unconfigured else t.backend)
                && t'.settled == t.settled
  {
    var t' := DrainStory.Next(t, DrainStory.NewConfig(id, true));
    assert forall x: CommandId :: DrainStory.IsSignal(t', x) <==> DrainStory.IsSignal(t, x);
  }

  lemma SettledKeepsDrainDone(t: DrainStory.Story, d: CommandId)
    requires DrainStory.Enabled(t, DrainStory.Settled) && DrainDone(t, d)
    ensures var t' := DrainStory.Next(t, DrainStory.Settled); DrainDone(t', d) && t'.backend == Shutdown && t'.settled
  {
    var t' := DrainStory.Next(t, DrainStory.Settled);
    assert forall x: CommandId :: DrainStory.IsSignal(t', x) <==> DrainStory.IsSignal(t, x);
  }

  lemma CarriesDrainDone(t: DrainStory.Story, t': DrainStory.Story, d: CommandId)
    requires Carries(t, t') && DrainDone(t, d)
    ensures DrainDone(t', d)
  {
    CarriesLast(t, t', d);
  }

  /** A drain that the backend closed and the agent remembers, at rest. */
  lemma ClosedDisagrees(t: DrainStory.Story, d: CommandId)
    requires DrainStory.Inv(t) && DrainStory.AtRest(t) && DrainDone(t, d) && t.settled && t.backend != Shutdown
    ensures t.local == Draining && t.backend == Active
  {
    assert DrainStory.MaxOf(t.since, d);
  }

  /** The three moves that close a carried-out drain: the agent is heard once more, the sweep
      comes too late after that, and the agent exchanges its identity again. */
  lemma DrainIsClosed(s: System, d: CommandId, heard: Time) returns (moves: seq<Move>, end: System)
    requires Inv(s) && s.me in s.plane.registry.agents
    requires DrainDone(StoryOf(s), d) && !s.settled && BackendLifecycle(s) == Draining
    ensures Run(s, moves, end) && Inv(end) && NoRestart(moves) && end.me in end.plane.registry.agents
    ensures DrainDone(StoryOf(end), d) && StoryOf(end).settled && StoryOf(end).backend == Unconfigured
  {
    hide *;
    var m1 := OwnExchange(s, heard);
    OwnExchangeTells(s, heard);
    var s1 := After(s, m1);
    MoveTells(s, m1);
    StoryShows(s);
    StoryShows(s1);
    ConfigKeepsDrainDone(StoryOf(s), s.plane.nextId, d);
    var m2 := LateSweep(heard);
    LateSweepTells(s1, heard);
    var s2 := After(s1, m2);
    MoveTells(s1, m2);
    InvHasRow(s2);
    SettledKeepsDrainDone(StoryOf(s1), d);
    var m3 := OwnExchange(s2, heard + OFFLINE_THRESHOLD_SECONDS + 2);
    OwnExchangeTells(s2, heard + OFFLINE_THRESHOLD_SECONDS + 2);
    MoveTells(s2, m3);
    end := After(s2, m3);
    ConfigKeepsDrainDone(StoryOf(s2), s2.plane.nextId, d);
    ThreeMoves(s, m1, m2, m3);
    moves := [m1, m2, m3];
    NoneRestarts(m1, m2, m3);
  }

  lemma NoneRestarts(m1: Move, m2: Move, m3: Move)
    requires !m1.Restart? && !m2.Restart? && !m3.Restart?
    ensures NoRestart([m1, m2, m3])
  {
  }

  lemma ThreeMoves(s: System, m1: Move, m2: Move, m3: Move)
    requires s.me in s.plane.registry.agents && CanMove(s, m1)
    requires var s1 := After(s, m1); s1.me in s1.plane.registry.agents && CanMove(s1, m2)
    requires var s2 := After(After(s, m1), m2); s2.me in s2.plane.registry.agents && CanMove(s2, m3)
    ensures Run(s, [m1, m2, m3], After(After(After(s, m1), m2), m3))
  {
    hide After, CanMove;
    var s1 := After(s, m1);
    var s2 := After(s1, m2);
    OneMove(s, m1);
    OneMove(s1, m2);
    OneMove(s2, m3);
    RunAppend(s, [m1], s1, [m2], s2);
    RunAppend(s, [m1] + [m2], s2, [m3], After(s2, m3));
    assert [m1] + [m2] + [m3] == [m1, m2, m3];
  }

  ghost predicate NoRestart(moves: seq<Move>) {
    forall i :: 0 <= i < |moves| ==> !moves[i].Restart?
  }

  lemma WorkerNeverRestarts(moves: seq<Move>)
    requires OnlyWorker(moves)
    ensures NoRestart(moves)
  {
  }

  lemma NoRestartAppend(a: seq<Move>, b: seq<Move>)
    requires NoRestart(a) && NoRestart(b)
    ensures NoRestart(a + b)
  {
  }

  /** From every start there is a run without a restart in which the sweep closes a drain the agent
      has carried out: with everything done, the agent is active for the backend and still
      draining for itself. */
  lemma ClosedDrainDiverges(from: System, heard: Time) returns (moves: seq<Move>, to: System)
    requires Start(from)
    ensures Run(from, moves, to) && AllDone(to) && NoRestart(moves) && to.me in to.plane.registry.agents
    ensures BackendLifecycle(to) == Active && to.local.lifecycle == Draining
  {
    hide *;
    var a, s, d := DrainCarriedOut(from);
    InvHasRow(s);
    var b, s1 := DrainIsClosed(s, d, heard);
    var c, s2 := WorkerCatchesUp(s1);
    to := s2;
    moves := a + b + c;
    RunAppend(from, a, s, b, s1);
    RunAppend(from, a + b, s1, c, to);
    NoRestartAppend(a, b);
    WorkerNeverRestarts(c);
    NoRestartAppend(a + b, c);
    Unpack(s1, to);
    CarriesDrainDone(StoryOf(s1), StoryOf(to), d);
    DoneIsRest(to);
    StillClosed(StoryOf(s1), StoryOf(to));
    ClosedDisagrees(StoryOf(to), d);
    StoryShows(to);
  }

  lemma StillClosed(t: DrainStory.Story, t': DrainStory.Story)
    requires Carries(t, t') && t.settled && t.backend == Unconfigured
    ensures t'.settled && t'.backend != Shutdown
  {
  }

  lemma StoryShows(s: System)
    requires s.me in s.plane.registry.agents
    ensures StoryOf(s).local == s.local.lifecycle && StoryOf(s).backend == BackendLifecycle(s)
        && StoryOf(s).settled == s.settled
  {
  }

  /** A restarted agent at rest knows nothing of a drain that was done before. */
  lemma RestartForgets(t: DrainStory.Story, id: CommandId, t': DrainStory.Story)
    requires DrainStory.Enabled(t, DrainStory.Restarted(id)) && DrainStory.AtRest(t) && t.backend == Draining
    requires Carries(DrainStory.Next(t, DrainStory.Restarted(id)), t')
    requires DrainStory.Inv(t') && DrainStory.AtRest(t')
    ensures t'.local == Active && t'.backend == Draining
  {
    var t1 := DrainStory.Next(t, DrainStory.Restarted(id));
    assert forall x: CommandId :: DrainStory.IsSignal(t', x) ==> t1.board[x].phase == DrainStory.Finished;
    assert t'.since == {};
  }

  lemma RestartTells(s: System, now: Time)
    requires s.me in s.plane.registry.agents && s.hand == None
    ensures CanMove(s, Restart(now)) && BeatOf(s, Restart(now)) == DrainStory.Restarted(s.plane.nextId)
  {
  }

  /** From every start there is a run without any sweep in which the agent restarts after carrying
      out a drain: with everything done, it is draining for the backend and active for itself. */
  lemma RestartedDrainDiverges(from: System, now: Time) returns (moves: seq<Move>, to: System)
    requires Start(from)
    ensures Run(from, moves, to) && AllDone(to) && to.me in to.plane.registry.agents
    ensures BackendLifecycle(to) == Draining && to.local.lifecycle == Active
  {
    hide *;
    var a, s, d := DrainCarriedOut(from);
    InvHasRow(s);
    var m := Restart(now);
    RestartTells(s, now);
    MoveTells(s, m);
    DoneIsRest(s);
    StoryShows(s);
    var s1 := After(s, m);
    var b, s2 := WorkerCatchesUp(s1);
    to := s2;
    moves := a + [m] + b;
    OneMove(s, m);
    RunAppend(from, a, s, [m], s1);
    RunAppend(from, a + [m], s1, b, to);
    Unpack(s1, to);
    DoneIsRest(to);
    RestartForgets(StoryOf(s), s.plane.nextId, StoryOf(to));
    StoryShows(to);
  }
}
