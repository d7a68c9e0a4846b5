/**
 One agent's lifecycle as both sides see it, reduced to what decides it: the
 agent-scoped commands in the order they were minted, the backend's lifecycle and
 the agent's own. `Convergence` shows that the whole system refines this machine.
 */
module DrainStory {
  import opened Basics

  datatype Signal = Config | Down | Up
  datatype Phase = Waiting | Taken | Finished
  datatype Entry = Entry(signal: Signal, phase: Phase)
  datatype InHand = InHand(id: CommandId, executed: bool)

  /** `since` holds the Down and Up commands executed since the agent last started;
      `settled` says that the drain in force was closed by the backend itself. */
  datatype Story = Story(
    board: map<CommandId, Entry>,
    backend: Lifecycle,
    local: Lifecycle,
    configured: bool,
    hand: Option<InHand>,
    since: set<CommandId>,
    settled: bool)

  datatype Beat =
    | Stutter
    | NewConfig(id: CommandId, exchanged: bool)
    | Restarted(id: CommandId)
    | Drained(id: CommandId)
    | Cancelled(id: CommandId)
    | Settled
    | Take(id: CommandId)
    | Execute
    | Finish

  predicate Newest(board: map<CommandId, Entry>, id: CommandId) {
    forall x :: x in board ==> x < id
  }

  ghost predicate Enabled(t: Story, b: Beat) {
    match b
    case Stutter => true
    case NewConfig(id, _) => Newest(t.board, id)
    case Restarted(id) => Newest(t.board, id) && t.hand == None
    case Drained(id) => Newest(t.board, id) && t.backend in {Unconfigured, Active}
    case Cancelled(id) => Newest(t.board, id) && t.backend == Draining
    case Settled => t.backend == Draining
    case Take(id) =>
      && t.hand == None
      && id in t.board && t.board[id].phase == Waiting
      && (t.local == Unconfigured ==> t.board[id].signal == Config)
      && (t.local != Unconfigured ==> forall x :: x in t.board && t.board[x].phase == Waiting ==> id <= x)
    case Execute => t.hand.Some? && !t.hand.value.executed && t.hand.value.id in t.board
    case Finish => t.hand.Some? && t.hand.value.executed && t.hand.value.id in t.board
  }

  /** An exchange brings a shut-down row back as unconfigured. */
  function Revived(l: Lifecycle): Lifecycle {
    if l == Shutdown then Unconfigured else l
  }

  function Executing(local: Lifecycle, s: Signal): Lifecycle {
    match s
    case Config => if local == Unconfigured then Active else local
    case Down => Draining
    case Up => Active
  }

  ghost function Next(t: Story, b: Beat): Story
    requires Enabled(t, b)
  {
    match b
    case Stutter => t
    case NewConfig(id, exchanged) =>
      t.(board := t.board[id := Entry(Config, Waiting)], backend := if exchanged then Revived(t.backend) else t.backend)
    case Restarted(id) =>
      t.(board := t.board[id := Entry(Config, Waiting)], backend := Revived(t.backend),
         local := Unconfigured, configured := false, since := {})
    case Drained(id) =>
      t.(board := t.board[id := Entry(Down, Waiting)], backend := Draining, settled := false)
    case Cancelled(id) =>
      t.(board := t.board[id := Entry(Up, Waiting)], backend := Active, settled := false)
    case Settled => t.(backend := Shutdown, settled := true)
    case Take(id) =>
      t.(board := t.board[id := t.board[id].(phase := Taken)], hand := Some(InHand(id, false)))
    case Execute =>
      var id := t.hand.value.id;
      var s := t.board[id].signal;
      t.(hand := Some(InHand(id, true)), local := Executing(t.local, s), configured := t.configured || s == Config,
         since := if s == Config then t.since else t.since + {id})
    case Finish =>
      var id := t.hand.value.id;
      t.(board := t.board[id := t.board[id].(phase := Finished)], hand := None,
         backend := if t.board[id].signal == Config && t.backend == Unconfigured then Active else t.backend)
  }

  // ----- Invariants -----

  predicate IsSignal(t: Story, id: CommandId) {
    id in t.board && t.board[id].signal != Config
  }

  predicate Executed(t: Story, id: CommandId)
    requires id in t.board
  {
    t.board[id].phase == Finished || t.hand == Some(InHand(id, true))
  }

  /** `id` is the last Down or Up command that was minted. */
  ghost predicate LastSignal(t: Story, id: CommandId) {
    IsSignal(t, id) && forall x: CommandId :: IsSignal(t, x) ==> x <= id
  }

  /** A taken command is in the agent's hand, and only one is. */
  ghost predicate HandOk(t: Story) {
    && (t.hand.Some? ==> t.hand.value.id in t.board)
    && forall id :: id in t.board ==>
         (t.board[id].phase == Taken <==> t.hand.Some? && t.hand.value.id == id)
  }

  /** Down and Up commands leave the queue in the order they were minted. */
  ghost predicate Fifo(t: Story) {
    && (forall x: CommandId, y: CommandId ::
        IsSignal(t, x) && IsSignal(t, y) && t.board[x].phase != Waiting && t.board[y].phase == Waiting ==> x < y)
    && (forall x: CommandId, y: CommandId ::
        IsSignal(t, x) && IsSignal(t, y) && t.board[x].phase == Finished && t.board[y].phase == Taken ==> x < y)
  }

  ghost predicate SinceOk(t: Story) {
    && (forall x :: x in t.since ==> IsSignal(t, x) && Executed(t, x))
    && (forall x: CommandId, y: CommandId :: IsSignal(t, x) && Executed(t, x) && x !in t.since && y in t.since ==>
        x < y)
  }

  ghost predicate MaxOf(s: set<CommandId>, id: CommandId) {
    id in s && forall x :: x in s ==> x <= id
  }

  function Asked(s: Signal): Lifecycle {
    if s == Down then Draining else Active
  }

  /** The agent's lifecycle is what the last command it executed since it started asks for. */
  ghost predicate LocalOk(t: Story) {
    && (t.since == {} ==> t.local == if t.configured then Active else Unconfigured)
    && (t.since != {} ==> t.configured)
    && (forall id: CommandId :: MaxOf(t.since, id) && id in t.board ==> t.local == Asked(t.board[id].signal))
    && (t.hand.Some? && IsSignal(t, t.hand.value.id) ==> t.configured)
    && t.local != Shutdown
    && (t.local == Unconfigured ==> !t.configured)
  }

  /** The backend's lifecycle is what the last minted command asks for, unless the backend
      closed the drain itself. */
  ghost predicate BackendOk(t: Story) {
    && (t.settled ==> exists id: CommandId :: LastSignal(t, id) && t.board[id].signal == Down)
    && ((forall id: CommandId :: !IsSignal(t, id)) ==> t.backend in {Unconfigured, Active})
    && (forall id: CommandId :: LastSignal(t, id) && !t.settled ==> t.backend == Asked(t.board[id].signal))
    && (t.settled ==> t.backend in {Shutdown, Unconfigured, Active})
  }

  /** Whoever is still unconfigured has a ConfigUpdate on the way. */
  ghost predicate LocalConfigComing(t: Story) {
    t.local == Unconfigured ==> exists id :: id in t.board && t.board[id].signal == Config && !Executed(t, id)
  }

  ghost predicate BackendConfigComing(t: Story) {
    t.backend == Unconfigured ==>
        exists id :: id in t.board && t.board[id].signal == Config && t.board[id].phase != Finished
  }

  ghost predicate Inv(t: Story) {
    HandOk(t) && Fifo(t) && SinceOk(t) && LocalOk(t) && BackendOk(t) && LocalConfigComing(t) && BackendConfigComing(t)
  }

  /** A row just created by its agent's first exchange. */
  ghost predicate Init(t: Story) {
    && t.backend == Unconfigured && t.local == Unconfigured && !t.configured
    && t.hand == None && t.since == {} && !t.settled
    && (exists id :: id in t.board && t.board[id] == Entry(Config, Waiting))
    && (forall id :: id in t.board ==> t.board[id] == Entry(Config, Waiting))
  }

  lemma InitEstablishesInv(t: Story)
    requires Init(t)
    ensures Inv(t)
  {
  }

  lemma KeepsHand(t: Story, b: Beat)
    requires Inv(t) && Enabled(t, b)
    ensures HandOk(Next(t, b))
  {
  }

  lemma KeepsFifo(t: Story, b: Beat)
    requires Inv(t) && Enabled(t, b)
    ensures Fifo(Next(t, b))
  {
    if b.Take? {
      TakeKeepsFifo(t, b.id);
    } else if b.Finish? {
      FinishKeepsFifo(t);
    } else {
      OthersKeepFifo(t, b);
    }
  }

  lemma TakeKeepsFifo(t: Story, id: CommandId)
    requires HandOk(t) && Fifo(t) && Enabled(t, Take(id))
    ensures Fifo(Next(t, Take(id)))
  {
    var t' := Next(t, Take(id));
    assert forall x: CommandId :: IsSignal(t', x) <==> IsSignal(t, x);
    assert forall x: CommandId :: x in t.board && x != id ==> t'.board[x].phase == t.board[x].phase != Taken;
  }

  lemma FinishKeepsFifo(t: Story)
    requires HandOk(t) && Fifo(t) && Enabled(t, Finish)
    ensures Fifo(Next(t, Finish))
  {
    var t', id := Next(t, Finish), t.hand.value.id;
    assert forall x: CommandId :: IsSignal(t', x) <==> IsSignal(t, x);
    assert forall x: CommandId :: x in t.board && x != id ==> t'.board[x].phase == t.board[x].phase;
  }

  lemma OthersKeepFifo(t: Story, b: Beat)
    requires HandOk(t) && Fifo(t) && Enabled(t, b) && !b.Take? && !b.Finish?
    ensures Fifo(Next(t, b))
  {
    var t' := Next(t, b);
    if b.NewConfig? || b.Restarted? {
      MintKeepsFifo(t, b.id, Config, t');
    } else if b.Drained? {
      MintKeepsFifo(t, b.id, Down, t');
    } else if b.Cancelled? {
      MintKeepsFifo(t, b.id, Up, t');
    } else {
      assert t'.board == t.board;
    }
    hide Next, HandOk, Newest;
  }

  lemma MintKeepsFifo(t: Story, id: CommandId, signal: Signal, t': Story)
    requires Fifo(t) && Newest(t.board, id) && t'.board == t.board[id := Entry(signal, Waiting)]
    ensures Fifo(t')
  {
    assert forall x: CommandId :: x in t.board ==> x != id && t'.board[x] == t.board[x];
  }

  lemma KeepsSince(t: Story, b: Beat)
    requires Inv(t) && Enabled(t, b)
    ensures SinceOk(Next(t, b))
  {
    if b.Execute? {
      ExecuteKeepsSince(t);
    } else {
      OthersKeepSince(t, b);
    }
  }

  lemma ExecuteKeepsSince(t: Story)
    requires HandOk(t) && Fifo(t) && SinceOk(t) && Enabled(t, Execute)
    ensures SinceOk(Next(t, Execute))
  {
    var t' := Next(t, Execute);
    var id := t.hand.value.id;
    assert forall x: CommandId :: IsSignal(t, x) <==> IsSignal(t', x);
    assert forall x: CommandId :: IsSignal(t, x) ==> (Executed(t', x) <==> Executed(t, x) || x == id);
  }

  lemma OthersKeepSince(t: Story, b: Beat)
    requires HandOk(t) && Fifo(t) && SinceOk(t) && Enabled(t, b) && !b.Execute?
    ensures SinceOk(Next(t, b))
  {
    var t' := Next(t, b);
    assert t'.since == t.since || t'.since == {};
    assert forall x: CommandId :: IsSignal(t, x) ==> IsSignal(t', x) && (Executed(t', x) <==> Executed(t, x));
    assert forall x: CommandId :: IsSignal(t', x) && !IsSignal(t, x) ==> !Executed(t', x);
  }

  lemma KeepsLocal(t: Story, b: Beat)
    requires Inv(t) && Enabled(t, b)
    ensures LocalOk(Next(t, b))
  {
  }

  /** Which commands are signals, and which way they point, only changes by minting one. */
  lemma SignalsPersist(t: Story, b: Beat)
    requires Inv(t) && Enabled(t, b) && !b.Drained? && !b.Cancelled?
    ensures forall x: CommandId :: IsSignal(t, x) <==> IsSignal(Next(t, b), x)
    ensures forall x: CommandId :: IsSignal(t, x) ==> Next(t, b).board[x].signal == t.board[x].signal
    ensures forall x: CommandId :: LastSignal(t, x) <==> LastSignal(Next(t, b), x)
  {
  }

  lemma LastSignalExists(t: Story) returns (last: CommandId)
    requires exists id: CommandId :: IsSignal(t, id)
    ensures LastSignal(t, last)
  {
    var signals := set id | id in t.board && IsSignal(t, id);
    var some: CommandId :| IsSignal(t, some);
    assert some in signals;
    GreatestExists(signals);
    last :| IsGreatest(last, signals);
    assert forall x: CommandId :: IsSignal(t, x) ==> x in signals;
  }

  lemma KeepsBackend(t: Story, b: Beat)
    requires Inv(t) && Enabled(t, b)
    ensures BackendOk(Next(t, b))
  {
    var t' := Next(t, b);
    if b.Drained? || b.Cancelled? {
      assert IsSignal(t', b.id) && LastSignal(t', b.id);
    } else {
      SignalsPersist(t, b);
      if b.Settled? {
        assert exists id: CommandId :: IsSignal(t, id);
        var last := LastSignalExists(t);
        assert LastSignal(t', last);
      } else if t.settled {
        var last: CommandId :| LastSignal(t, last) && t.board[last].signal == Down;
        assert LastSignal(t', last);
      } else if exists id: CommandId :: IsSignal(t, id) {
        var last := LastSignalExists(t);
        assert t.backend == Asked(t.board[last].signal);
      }
    }
  }

  lemma KeepsLocalConfigComing(t: Story, b: Beat)
    requires Inv(t) && Enabled(t, b)
    ensures LocalConfigComing(Next(t, b))
  {
    var t' := Next(t, b);
    if t'.local == Unconfigured {
      if b.Restarted? {
        assert b.id in t'.board && t'.board[b.id].signal == Config && !Executed(t', b.id);
      } else {
        var id :| id in t.board && t.board[id].signal == Config && !Executed(t, id);
        assert id in t'.board && t'.board[id].signal == Config && !Executed(t', id);
      }
    }
  }

  lemma KeepsBackendConfigComing(t: Story, b: Beat)
    requires Inv(t) && Enabled(t, b)
    ensures BackendConfigComing(Next(t, b))
  {
    var t' := Next(t, b);
    if t'.backend == Unconfigured {
      if b.Restarted? || b.NewConfig? {
        assert b.id in t'.board && t'.board[b.id].signal == Config && t'.board[b.id].phase != Finished;
      } else {
        var id :| id in t.board && t.board[id].signal == Config && t.board[id].phase != Finished;
        assert id in t'.board && t'.board[id].signal == Config && t'.board[id].phase != Finished;
      }
    }
  }

  lemma BeatKeepsInv(t: Story, b: Beat)
    requires Inv(t) && Enabled(t, b)
    ensures Inv(Next(t, b))
  {
    KeepsHand(t, b);
    KeepsFifo(t, b);
    KeepsSince(t, b);
    KeepsLocal(t, b);
    KeepsBackend(t, b);
    KeepsLocalConfigComing(t, b);
    KeepsBackendConfigComing(t, b);
  }

  // ----- Convergence at rest -----

  predicate AtRest(t: Story) {
    forall id :: id in t.board ==> t.board[id].phase == Finished
  }

  /** The agent carried out the last drain request before it last started, and the new
      process knows nothing of it. */
  ghost predicate Forgotten(t: Story) {
    exists id: CommandId :: LastSignal(t, id) && t.board[id].signal == Down && Executed(t, id) && id !in t.since
  }

  /** With nothing outstanding, the two sides agree exactly when the row is not shut down and
      the last drain was either closed by the backend and forgotten by the agent, or neither. */
  lemma AgreeIff(t: Story)
    requires Inv(t) && AtRest(t)
    ensures t.local == t.backend <==> t.backend != Shutdown && (t.settled <==> Forgotten(t))
  {
    assert t.hand == None && t.local != Unconfigured && t.backend != Unconfigured;
    if exists id: CommandId :: IsSignal(t, id) {
      var last := LastSignalExists(t);
      assert Executed(t, last);
      if last in t.since {
        assert MaxOf(t.since, last);
        assert forall id: CommandId :: LastSignal(t, id) ==> id == last;
      } else {
        assert t.since == {};
      }
    } else {
      assert t.since == {};
    }
  }
}
