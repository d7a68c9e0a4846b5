/**
 Where every spawned runner is, over all interleavings of `DispatchRuns`: the
 reservation of an id by one caller, and the conservation of runners.
 */
module RunnerConservation {
  import opened Basics
  import opened RunnerPools
  import opened DispatchRuns

  /** What the registry says under one id. */
  datatype Slot = Slot(serial: Serial, state: WorkspaceState, runner: Option<Runner>)

  function SlotOf(p: Pool, id: WorkspaceId): Option<Slot> {
    if Registered(p, id) then Some(Slot(p.registry[id], RecordOf(p, id).state, RecordOf(p, id).runner)) else None
  }

  lemma InsertSlot(p: Pool, id: WorkspaceId, r: Rec, other: WorkspaceId)
    requires Wf(p)
    ensures SlotOf(Insert(p, id, r), other) == if other == id then Some(Slot(|p.recs|, r.state, r.runner))
        else SlotOf(p, other)
  {
  }

  lemma WriteSlot(p: Pool, id: WorkspaceId, r: Rec, other: WorkspaceId)
    requires Wf(p) && Registered(p, id)
    ensures SlotOf(Write(p, id, r), other) == if other == id then Some(Slot(p.registry[id], r.state, r.runner))
        else SlotOf(p, other)
  {
  }

  lemma RemoveSlot(p: Pool, id: WorkspaceId, other: WorkspaceId)
    ensures SlotOf(Remove(p, id), other) == if other == id then None else SlotOf(p, other)
  {
  }

  /** The id a step is about. */
  function WsOf(w: World, step: Step): WorkspaceId
    requires Enabled(w, step)
  {
    if step.Move? then w.callers[step.tid].ws else step.ws
  }

  predicate Taken(s: Option<Slot>) {
    s.Some? && s.value.state == Live
  }

  /** What a step leaves under its id. */
  function NextSlot(w: World, step: Step): Option<Slot>
    requires Enabled(w, step)
  {
    var before := SlotOf(w.pool, WsOf(w, step));
    match step
    case Call(_, _, _, _, _) => before
    case Forget(_) => None
    case Seed(_, _) => Some(Slot(|w.pool.recs|, Orphaned, None))
    case Move(tid, _) =>
      var c := w.callers[tid];
      match c.pc
      case Reserving =>
        if Taken(before) || (c.maxWorkspaces > 0 && |ActiveIds(w.pool)| >= c.maxWorkspaces) then before
        else Some(Slot(|w.pool.recs|, Live, None))
      case Unplacing(_) => None
      case Assigning(_, runner) => if before.Some? then Some(before.value.(runner := Some(runner))) else None
      case Marking(_) => if before.Some? then Some(before.value.(state := Defunct)) else None
      case Removing(_) => None
      case _ => before
  }

  lemma SlotsMove(w: World, step: Step, id: WorkspaceId)
    requires Wf(w.pool) && Enabled(w, step)
    ensures SlotOf(After(w, step).pool, id) == if id == WsOf(w, step) then NextSlot(w, step) else SlotOf(w.pool, id)
  {
    var ws := WsOf(w, step);
    InsertSlot(w.pool, ws, Placeholder, id);
    RemoveSlot(w.pool, ws, id);
    if step.Seed? {
      InsertSlot(w.pool, ws, Rec(Orphaned, step.path, None, None), id);
    }
    if Registered(w.pool, ws) {
      var r := RecordOf(w.pool, ws);
      WriteSlot(w.pool, ws, r.(state := Defunct), id);
      if step.Move? {
        var c := w.callers[step.tid];
        if c.pc.Assigning? { WriteSlot(w.pool, ws, r.(runner := Some(c.pc.runner)), id); }
        if step.answer.Located? { WriteSlot(w.pool, ws, r.(path := step.answer.path), id); }
        WriteSlot(w.pool, ws, r.(currentCommand := Some(c.command)), id);
        WriteSlot(w.pool, ws, r.(currentCommand := None), id);
      }
    }
    hide Wf, Insert, Write, Remove, ActiveIds;
  }

  // ----- One caller between reserving and assigning -----

  /** Each reserving caller still finds its own placeholder, and is alone on its id. */
  ghost predicate SoleReservers(w: World) {
    && (forall t :: t in w.callers && InReserve(w.callers[t].pc) ==>
          SlotOf(w.pool, w.callers[t].ws) == Some(Slot(w.callers[t].pc.serial, Live, None)))
    && (forall t, u ::
          (t in w.callers && u in w.callers && InReserve(w.callers[t].pc) && InReserve(w.callers[u].pc)
           && w.callers[t].ws == w.callers[u].ws) ==> t == u)
  }

  /** A step takes the placeholder of a reserving caller away: it is forgotten, overwritten by
      an orphan, or hit by an earlier dispatch of the same id that fails or cleans up late. */
  predicate Hits(w: World, step: Step, t: Tid)
    requires Enabled(w, step)
  {
    && t in w.callers && InReserve(w.callers[t].pc) && WsOf(w, step) == w.callers[t].ws
    && (step.Forget? || step.Seed? || (step.Move?
        && (w.callers[step.tid].pc.Marking? || w.callers[step.tid].pc.Removing?)))
  }

  ghost predicate Spares(w: World, step: Step)
    requires Enabled(w, step)
  {
    forall t :: t in w.callers ==> !Hits(w, step, t)
  }

  lemma ReserversMove(w: World, step: Step, t: Tid)
    requires Enabled(w, step) && t in After(w, step).callers && InReserve(After(w, step).callers[t].pc)
    ensures t in w.callers && After(w, step).callers[t].ws == w.callers[t].ws
    ensures InReserve(w.callers[t].pc) ==> After(w, step).callers[t].pc.serial == w.callers[t].pc.serial
    ensures !InReserve(w.callers[t].pc) ==>
              && step.Move? && step.tid == t && w.callers[t].pc.Reserving?
              && !Taken(SlotOf(w.pool, w.callers[t].ws))
              && NextSlot(w, step) == Some(Slot(After(w, step).callers[t].pc.serial, Live, None))
    ensures step.Move? && step.tid == t ==> !w.callers[t].pc.Assigning? && !w.callers[t].pc.Unplacing?
  {
  }

  lemma StepKeepsSole(w: World, step: Step)
    requires Wf(w.pool) && Enabled(w, step) && SoleReservers(w) && Spares(w, step)
    ensures SoleReservers(After(w, step))
  {
    var w' := After(w, step);
    hide After, Wf;
    forall t | t in w'.callers && InReserve(w'.callers[t].pc)
      ensures SlotOf(w'.pool, w'.callers[t].ws) == Some(Slot(w'.callers[t].pc.serial, Live, None))
    {
      ReserversMove(w, step, t);
      SlotsMove(w, step, w'.callers[t].ws);
      assert !Hits(w, step, t);
    }
    forall t, u | t in w'.callers && u in w'.callers && InReserve(w'.callers[t].pc) && InReserve(w'.callers[u].pc)
        && w'.callers[t].ws == w'.callers[u].ws
      ensures t == u
    {
      ReserversMove(w, step, t);
      ReserversMove(w, step, u);
    }
  }

  ghost predicate AllSpare(w: World, steps: seq<Step>, end: World)
    requires Runs(w, steps, end)
    decreases |steps|
  {
    steps != [] ==> Spares(w, steps[0]) && AllSpare(After(w, steps[0]), steps[1..], end)
  }

  /** As long as nothing takes its placeholder away, a reserving caller is the only one for its
      id, and the runner it spawns goes into the record it reserved. */
  lemma {:induction false} OneReserverPerId(w: World, steps: seq<Step>, end: World)
    requires Wf(w.pool) && SoleReservers(w) && Runs(w, steps, end) && AllSpare(w, steps, end)
    ensures SoleReservers(end)
    decreases |steps|
  {
    if steps != [] {
      StepKeepsSole(w, steps[0]);
      ActiveMoves(w, steps[0]);
      OneReserverPerId(After(w, steps[0]), steps[1..], end);
    }
  }

  // ----- Conservation of runners -----

  /** The backend sends one command per workspace at a time and forgets no active workspace. */
  ghost predicate Disciplined(w: World, step: Step)
    requires Enabled(w, step)
  {
    && (step.Call? ==> forall t :: t in w.callers ==> w.callers[t].ws != step.ws)
    && (step.Forget? || step.Seed? ==> !Taken(SlotOf(w.pool, step.ws)))
  }

  /** An active record in the registry holds `x`. */
  predicate Holds(w: World, id: WorkspaceId, x: Runner) {
    Taken(SlotOf(w.pool, id)) && SlotOf(w.pool, id).value.runner == Some(x)
  }

  /** Caller `t` has spawned `x` and not yet assigned it. */
  predicate Carries(w: World, t: Tid, x: Runner) {
    t in w.callers && w.callers[t].pc.Assigning? && w.callers[t].pc.runner == x
  }

  /** Caller `t` has marked or removed the record of `x` and is about to close it. */
  predicate Dooms(w: World, t: Tid, x: Runner) {
    t in w.callers && w.callers[t].pc.Closing? && RunnerAt(w, w.callers[t].pc.serial, x)
  }

  ghost predicate OnePerWorkspace(w: World) {
    forall t, u :: t in w.callers && u in w.callers && w.callers[t].ws == w.callers[u].ws ==> t == u
  }

  ghost predicate UsersOk(w: World) {
    forall t :: t in w.callers && Uses(w.callers[t].pc) ==>
      && Taken(SlotOf(w.pool, w.callers[t].ws))
      && SlotOf(w.pool, w.callers[t].ws).value.serial == w.callers[t].pc.serial
      && SlotOf(w.pool, w.callers[t].ws).value.runner.Some?
  }

  ghost predicate HeldIsOpen(w: World) {
    && (forall id, x :: Holds(w, id, x) ==> x in w.open)
    && (forall t, x :: Carries(w, t, x) ==> x in w.open)
    && (forall t, x :: Dooms(w, t, x) ==> x in w.open)
  }

  ghost predicate ClosersOk(w: World) {
    forall t, id :: t in w.callers && w.callers[t].pc.Closing? && Taken(SlotOf(w.pool, id)) ==>
      SlotOf(w.pool, id).value.serial != w.callers[t].pc.serial
  }

  ghost predicate Accounted(w: World, x: Runner) {
    || (exists id :: Holds(w, id, x))
    || (exists t :: Carries(w, t, x))
    || (exists t :: Dooms(w, t, x))
  }

  ghost predicate OpenIsAccounted(w: World) {
    forall x :: x in w.open ==> Accounted(w, x)
  }

  ghost predicate BareIsReserved(w: World) {
    forall id :: Taken(SlotOf(w.pool, id)) && SlotOf(w.pool, id).value.runner == None ==> ReservedBySome(w, id)
  }

  ghost predicate ReservedBySome(w: World, id: WorkspaceId) {
    exists t :: t in w.callers && w.callers[t].ws == id && InReserve(w.callers[t].pc)
  }

  ghost predicate Kept(w: World) {
    && Sound(w) && OnePerWorkspace(w) && SoleReservers(w) && UsersOk(w)
    && HeldIsOpen(w) && ClosersOk(w) && OpenIsAccounted(w) && BareIsReserved(w)
  }

  lemma SlotIsRecord(w: World, id: WorkspaceId)
    ensures SlotOf(w.pool, id).Some? ==>
              && id in w.pool.registry && SlotOf(w.pool, id).value.serial == w.pool.registry[id] < |w.pool.recs|
              && SlotOf(w.pool, id).value.runner == w.pool.recs[w.pool.registry[id]].runner
    ensures forall x :: Holds(w, id, x) ==> RunnerAt(w, SlotOf(w.pool, id).value.serial, x)
    ensures IsSendable(w.pool, id) <==> Taken(SlotOf(w.pool, id)) && SlotOf(w.pool, id).value.runner.Some?
  {
  }

  /** The stations of a caller's way through `Dispatch`. */
  lemma MoverNext(w: World, tid: Tid, answer: Answer)
    requires Enabled(w, Move(tid, answer))
    ensures var w' := After(w, Move(tid, answer));
            var c := w.callers[tid];
            && (tid !in w'.callers ==> c.pc.Reserving? || c.pc.Unplacing? || c.pc.Looking? || c.pc.Unlocking?)
            && (tid in w'.callers ==>
                  var c' := w'.callers[tid];
                  && c'.ws == c.ws
                  && (Uses(c'.pc) ==>
                        || (c.pc.Looking? && c'.pc.Waiting?)
                        || (Uses(c.pc) && !c.pc.Marking? && !c.pc.Removing? && c'.pc.serial == c.pc.serial))
                  && (c'.pc.Closing? <==> c.pc.Marking? || c.pc.Removing?)
                  && (c'.pc.Closing? ==> c'.pc.serial == c.pc.serial)
                  && (InReserve(c'.pc) <==> c.pc.Spawning? || (c.pc.Reserving? && c'.pc.Spawning?)))
            && ((c.pc.Reserving? && NextSlot(w, Move(tid, answer)) != SlotOf(w.pool, c.ws)) ==>
                  tid in w'.callers && w'.callers[tid].pc.Spawning?)
  {
  }

  lemma OpenMoves(w: World, step: Step)
    requires Enabled(w, step)
    ensures After(w, step).open ==
              if step.Move? && w.callers[step.tid].pc.Spawning? && step.answer.Spawned?
                  then w.open + {step.answer.runner}
              else if step.Move? && w.callers[step.tid].pc.Closing?
                  then w.open - {w.pool.recs[w.callers[step.tid].pc.serial].runner.value}
              else w.open
  {
  }

  lemma KeepsOne(w: World, step: Step)
    requires Enabled(w, step) && Disciplined(w, step) && OnePerWorkspace(w)
    ensures OnePerWorkspace(After(w, step))
  {
  }

  lemma DisciplineSpares(w: World, step: Step)
    requires Enabled(w, step) && Disciplined(w, step) && OnePerWorkspace(w) && SoleReservers(w)
    ensures Spares(w, step)
  {
  }

  lemma KeepsUsers(w: World, step: Step)
    requires Kept(w) && Enabled(w, step) && Disciplined(w, step)
    ensures UsersOk(After(w, step))
  {
    var w' := After(w, step);
    hide After, Sound, HeldIsOpen, ClosersOk, OpenIsAccounted, BareIsReserved;
    forall t | t in w'.callers && Uses(w'.callers[t].pc)
      ensures Taken(SlotOf(w'.pool, w'.callers[t].ws))
      ensures SlotOf(w'.pool, w'.callers[t].ws).value.serial == w'.callers[t].pc.serial
      ensures SlotOf(w'.pool, w'.callers[t].ws).value.runner.Some?
    {
      assert Wf(w.pool) by { SoundIsWf(w); }
      SlotsMove(w, step, w'.callers[t].ws);
      SlotIsRecord(w, w'.callers[t].ws);
      if step.Forget? || step.Seed? || step.tid != t {
        OthersStay(w, step, t);
      } else {
        MoverAt(w, step);
        if step.Move? { MoverNext(w, t, step.answer); }
      }
    }
  }

  lemma SoundIsWf(w: World)
    requires Sound(w)
    ensures Wf(w.pool)
  {
  }

  lemma KeepsClosers(w: World, step: Step)
    requires Kept(w) && Enabled(w, step) && Disciplined(w, step)
    ensures ClosersOk(After(w, step))
  {
    var w' := After(w, step);
    hide After, LocksOk, RunnersOk, AssigningOk, SendingOk, HeldIsOpen, OpenIsAccounted, BareIsReserved;
    forall t, id | t in w'.callers && w'.callers[t].pc.Closing? && Taken(SlotOf(w'.pool, id))
      ensures SlotOf(w'.pool, id).value.serial != w'.callers[t].pc.serial
    {
      SlotsMove(w, step, id);
      SlotIsRecord(w, id);
      if step.Forget? || step.Seed? || step.tid != t {
        OthersStay(w, step, t);
      } else {
        MoverAt(w, step);
        MoverNext(w, t, step.answer);
        SlotIsRecord(w, w.callers[t].ws);
      }
    }
  }

  /** A record changes its runner only where a caller assigns one to its own placeholder. */
  lemma RecordKeepsRunner(w: World, step: Step, i: nat, x: Runner)
    requires Kept(w) && Enabled(w, step) && Disciplined(w, step)
    requires i < |w.pool.recs| && w.pool.recs[i].runner.Some?
    ensures RunnerAt(After(w, step), i, x) <==> RunnerAt(w, i, x)
  {
    if step.Move? && w.callers[step.tid].pc.Assigning? {
      var ws := w.callers[step.tid].ws;
      SlotIsRecord(w, ws);
      assert SlotOf(w.pool, ws) == Some(Slot(w.callers[step.tid].pc.serial, Live, None));
      hide Kept;
    } else {
      RunnersMove(w, step);
      hide After, Kept;
    }
  }

  /** The runner a closing caller closes is doomed by nobody else, held and carried by nobody. */
  lemma DoomedOnlyOnce(w: World, t: Tid, x: Runner)
    requires Kept(w) && Dooms(w, t, x)
    ensures forall u :: Dooms(w, u, x) ==> u == t
    ensures forall id :: !Holds(w, id, x)
    ensures forall u :: !Carries(w, u, x)
  {
    hide PointersOk, SendingOk, OnePerWorkspace, SoleReservers, UsersOk, HeldIsOpen, OpenIsAccounted, BareIsReserved;
    forall id ensures !Holds(w, id, x) {
      SlotIsRecord(w, id);
    }
  }

  lemma KeepsHeldOpen(w: World, step: Step, id: WorkspaceId, x: Runner)
    requires Kept(w) && Enabled(w, step) && Disciplined(w, step) && Holds(After(w, step), id, x)
    ensures x in After(w, step).open
  {
    SlotsMove(w, step, id);
    OpenMoves(w, step);
    hide After, PointersOk, LocksOk, SendingOk, AssigningOk, OpenIsAccounted, BareIsReserved, UsersOk,
        OnePerWorkspace, SoleReservers;
    if step.Move? && w.callers[step.tid].pc.Closing? {
      assert Holds(w, id, x);
      var y := w.pool.recs[w.callers[step.tid].pc.serial].runner.value;
      assert Dooms(w, step.tid, y);
      DoomedOnlyOnce(w, step.tid, y);
    } else if step.Move? && w.callers[step.tid].pc.Assigning? && id == w.callers[step.tid].ws {
      assert Carries(w, step.tid, x);
    } else {
      assert Holds(w, id, x);
    }
  }

  lemma KeepsCarriedOpen(w: World, step: Step, t: Tid, x: Runner)
    requires Kept(w) && Enabled(w, step) && Disciplined(w, step) && Carries(After(w, step), t, x)
    ensures x in After(w, step).open
  {
    OpenMoves(w, step);
    if step.Forget? || step.Seed? || step.tid != t { OthersStay(w, step, t); } else { MoverAt(w, step); }
    hide After, PointersOk, LocksOk, SendingOk, AssigningOk, OpenIsAccounted, BareIsReserved, UsersOk,
        OnePerWorkspace, SoleReservers;
    if step.Move? && w.callers[step.tid].pc.Closing? {
      var y := w.pool.recs[w.callers[step.tid].pc.serial].runner.value;
      assert Dooms(w, step.tid, y) && Carries(w, t, x);
      DoomedOnlyOnce(w, step.tid, y);
    } else if !(step.Move? && step.tid == t) {
      assert Carries(w, t, x);
    }
  }

  lemma KeepsDoomedOpen(w: World, step: Step, t: Tid, x: Runner)
    requires Kept(w) && Enabled(w, step) && Disciplined(w, step) && Dooms(After(w, step), t, x)
    ensures x in After(w, step).open
  {
    OpenMoves(w, step);
    var w' := After(w, step);
    if step.Forget? || step.Seed? || step.tid != t { OthersStay(w, step, t); }
        else { MoverAt(w, step); MoverNext(w, t, step.answer); }
    var i := w'.callers[t].pc.serial;
    assert t in w.callers && w.callers[t].pc.serial == i;
    RecordKeepsRunner(w, step, i, x);
    hide After, LocksOk, SendingOk, AssigningOk, OpenIsAccounted, BareIsReserved, OnePerWorkspace, SoleReservers;
    if step.Move? && step.tid == t {
      SlotIsRecord(w, w.callers[t].ws);
      assert Holds(w, w.callers[t].ws, x);
    } else {
      assert Dooms(w, t, x);
      if step.Move? && w.callers[step.tid].pc.Closing? {
        var y := w.pool.recs[w.callers[step.tid].pc.serial].runner.value;
        assert Dooms(w, step.tid, y);
        DoomedOnlyOnce(w, step.tid, y);
      }
    }
  }

  /** An open runner that a step leaves open stays accounted for, wherever it moves to. */
  lemma KeepsAccount(w: World, step: Step, x: Runner)
    requires Kept(w) && Enabled(w, step) && Disciplined(w, step) && x in After(w, step).open
    ensures Accounted(After(w, step), x)
  {
    var w' := After(w, step);
    OpenMoves(w, step);
    if x !in w.open {
      MoverAt(w, step);
      assert Carries(w', step.tid, x);
    } else if id :| Holds(w, id, x) {
      HeldMoves(w, step, id, x);
    } else if t :| Carries(w, t, x) {
      CarriedMoves(w, step, t, x);
    } else {
      var t :| Dooms(w, t, x);
      DoomedMoves(w, step, t, x);
    }
  }

  lemma HeldMoves(w: World, step: Step, id: WorkspaceId, x: Runner)
    requires Kept(w) && Enabled(w, step) && Disciplined(w, step) && Holds(w, id, x)
    ensures Accounted(After(w, step), x)
  {
    SlotsMove(w, step, id);
    SlotIsRecord(w, id);
    var w' := After(w, step);
    if step.Move? && id == w.callers[step.tid].ws
        && (w.callers[step.tid].pc.Marking? || w.callers[step.tid].pc.Removing?) {
      RecordKeepsRunner(w, step, w.callers[step.tid].pc.serial, x);
      MoverNext(w, step.tid, step.answer);
      assert Dooms(w', step.tid, x);
    } else {
      hide After, Sound, HeldIsOpen, ClosersOk, OpenIsAccounted, BareIsReserved, OnePerWorkspace;
      assert Holds(w', id, x);
    }
  }

  lemma CarriedMoves(w: World, step: Step, t: Tid, x: Runner)
    requires Kept(w) && Enabled(w, step) && Disciplined(w, step) && Carries(w, t, x)
    ensures Accounted(After(w, step), x)
  {
    var w' := After(w, step);
    if step.Move? && step.tid == t {
      SlotsMove(w, step, w.callers[t].ws);
      assert Holds(w', w.callers[t].ws, x);
    } else {
      CallersStay(w, step, t);
      assert Carries(w', t, x);
    }
  }

  lemma CallersStay(w: World, step: Step, t: Tid)
    requires Enabled(w, step) && t in w.callers && !(step.Move? && step.tid == t)
    ensures t in After(w, step).callers && After(w, step).callers[t] == w.callers[t]
  {
  }

  lemma DoomedMoves(w: World, step: Step, t: Tid, x: Runner)
    requires Kept(w) && Enabled(w, step) && Disciplined(w, step) && Dooms(w, t, x) && x in After(w, step).open
    ensures Accounted(After(w, step), x)
  {
    var w' := After(w, step);
    OpenMoves(w, step);
    assert !(step.Move? && step.tid == t);
    CallersStay(w, step, t);
    RecordKeepsRunner(w, step, w.callers[t].pc.serial, x);
    assert Dooms(w', t, x);
  }

  lemma KeepsBare(w: World, step: Step)
    requires Kept(w) && Enabled(w, step) && Disciplined(w, step)
    ensures BareIsReserved(After(w, step))
  {
    var w' := After(w, step);
    hide After, Sound, HeldIsOpen, ClosersOk, OpenIsAccounted;
    forall id | Taken(SlotOf(w'.pool, id)) && SlotOf(w'.pool, id).value.runner == None
      ensures ReservedBySome(w', id)
    {
      assert Wf(w.pool) by { SoundIsWf(w); }
      SlotsMove(w, step, id);
      if Taken(SlotOf(w.pool, id)) && SlotOf(w.pool, id).value.runner == None {
        assert ReservedBySome(w, id);
        var t :| t in w.callers && w.callers[t].ws == id && InReserve(w.callers[t].pc);
        if step.Move? && step.tid == t { MoverNext(w, t, step.answer); } else { CallersStay(w, step, t); }
        assert t in w'.callers && w'.callers[t].ws == id && InReserve(w'.callers[t].pc);
      } else {
        MoverNext(w, step.tid, step.answer);
        assert step.tid in w'.callers && w'.callers[step.tid].ws == id && InReserve(w'.callers[step.tid].pc);
      }
    }
  }

  lemma StepKeepsKept(w: World, step: Step)
    requires Kept(w) && Enabled(w, step) && Disciplined(w, step)
    ensures Kept(After(w, step))
  {
    StepKeepsSound(w, step);
    KeepsOne(w, step);
    DisciplineSpares(w, step);
    SoundIsWf(w);
    StepKeepsSole(w, step);
    KeepsUsers(w, step);
    KeepsClosers(w, step);
    KeepsBare(w, step);
    var w' := After(w, step);
    hide Sound, OnePerWorkspace, SoleReservers, UsersOk, ClosersOk, BareIsReserved, After, Holds, Carries, Dooms,
        Accounted;
    forall id, x | Holds(w', id, x) ensures x in w'.open { KeepsHeldOpen(w, step, id, x); }
    forall t, x | Carries(w', t, x) ensures x in w'.open { KeepsCarriedOpen(w, step, t, x); }
    forall t, x | Dooms(w', t, x) ensures x in w'.open { KeepsDoomedOpen(w, step, t, x); }
    forall x | x in w'.open ensures Accounted(w', x) { KeepsAccount(w, step, x); }
  }

  lemma StartupIsKept(w: World)
    requires Startup(w)
    ensures Kept(w)
  {
    assert forall id :: SlotOf(w.pool, id).Some? ==> w.pool.recs[w.pool.registry[id]].state == Orphaned;
  }

  ghost predicate AllDisciplined(w: World, steps: seq<Step>, end: World)
    requires Runs(w, steps, end)
    decreases |steps|
  {
    steps != [] ==> Disciplined(w, steps[0]) && AllDisciplined(After(w, steps[0]), steps[1..], end)
  }

  lemma {:induction false} RunIsKept(w: World, steps: seq<Step>, end: World)
    requires Kept(w) && Runs(w, steps, end) && AllDisciplined(w, steps, end)
    ensures Kept(end)
    decreases |steps|
  {
    hide Kept, After, Enabled;
    if steps != [] {
      StepKeepsKept(w, steps[0]);
      RunIsKept(After(w, steps[0]), steps[1..], end);
    }
  }

  /** `w` is reached from a startup by disciplined steps. */
  ghost predicate Reaches(from: World, steps: seq<Step>, w: World) {
    Startup(from) && Runs(from, steps, w) && AllDisciplined(from, steps, w)
  }

  lemma ReachedIsKept(from: World, steps: seq<Step>, w: World)
    requires Reaches(from, steps, w)
    ensures Kept(w)
  {
    StartupIsKept(from);
    RunIsKept(from, steps, w);
  }

  /** Over every interleaving, a spawned runner is in exactly one place: closed, held by exactly
      one active record, carried by the one caller that spawned it, or about to be closed by the
      one caller that marked or removed its record. */
  lemma RunnersAreConserved(w: World, steps: seq<Step>, end: World, x: Runner)
    requires Reaches(w, steps, end)
    ensures x in end.open <==> Accounted(end, x)
    ensures forall id, other :: Holds(end, id, x) && Holds(end, other, x) ==> id == other
    ensures forall t, u :: Carries(end, t, x) && Carries(end, u, x) ==> t == u
    ensures forall t, u :: Dooms(end, t, x) && Dooms(end, u, x) ==> t == u
    ensures forall id, t :: !(Holds(end, id, x) && Carries(end, t, x)) && !(Holds(end, id, x) && Dooms(end, t, x))
    ensures forall t, u :: !(Carries(end, t, x) && Dooms(end, u, x))
  {
    ReachedIsKept(w, steps, end);
    HeldOnlyOnce(end, x);
  }

  lemma HeldOnlyOnce(w: World, x: Runner)
    requires Kept(w)
    ensures x in w.open <==> Accounted(w, x)
    ensures forall id, other :: Holds(w, id, x) && Holds(w, other, x) ==> id == other
    ensures forall t, u :: Carries(w, t, x) && Carries(w, u, x) ==> t == u
    ensures forall t, u :: Dooms(w, t, x) && Dooms(w, u, x) ==> t == u
    ensures forall id, t :: !(Holds(w, id, x) && Carries(w, t, x)) && !(Holds(w, id, x) && Dooms(w, t, x))
    ensures forall t, u :: !(Carries(w, t, x) && Dooms(w, u, x))
  {
    forall id, other | Holds(w, id, x) && Holds(w, other, x) ensures id == other {
      SlotIsRecord(w, id);
      SlotIsRecord(w, other);
    }
    forall id, t ensures !(Holds(w, id, x) && Carries(w, t, x)) { SlotIsRecord(w, id); }
    forall t | Dooms(w, t, x)
      ensures (forall u :: Dooms(w, u, x) ==> u == t) && (forall id :: !Holds(w, id, x))
          && (forall u :: !Carries(w, u, x))
    {
      DoomedOnlyOnce(w, t, x);
    }
  }

  /** A registered record that is defunct has a closed runner, or one its caller is about to close. */
  lemma DefunctIsClosed(from: World, steps: seq<Step>, w: World, id: WorkspaceId)
    requires Reaches(from, steps, w)
    requires SlotOf(w.pool, id).Some? && SlotOf(w.pool, id).value.state != Live && SlotOf(w.pool, id).value.runner.Some?
    ensures var x := SlotOf(w.pool, id).value.runner.value;
            x !in w.open || exists t :: Dooms(w, t, x)
  {
    ReachedIsKept(from, steps, w);
    var x := SlotOf(w.pool, id).value.runner.value;
    SlotIsRecord(w, id);
    assert RunnerAt(w, SlotOf(w.pool, id).value.serial, x);
    if x in w.open {
      forall other ensures !Holds(w, other, x) { SlotIsRecord(w, other); }
      assert forall t :: !Carries(w, t, x);
      assert Accounted(w, x);
    }
  }

  /** With no dispatch in flight, closing what the registry holds leaves no runner open. */
  lemma CloseAllLeavesNoneOpen(from: World, steps: seq<Step>, w: World)
    requires Reaches(from, steps, w) && w.callers == map[]
    ensures w.open - Held(w.pool) == {}
  {
    ReachedIsKept(from, steps, w);
    forall x | x in w.open ensures x in Held(w.pool) {
      assert Accounted(w, x);
      var id :| Holds(w, id, x);
      SlotIsRecord(w, id);
    }
  }

  /** Dropping a forgotten workspace does not close its runner: with no dispatch in flight,
      everything can still be closed afterwards exactly when the record held no open runner. */
  lemma ForgetKeepsAllClosableIff(from: World, steps: seq<Step>, w: World, ws: WorkspaceId)
    requires Reaches(from, steps, w) && w.callers == map[]
    ensures var w' := After(w, Forget(ws));
            w'.open - Held(w'.pool) == {} <==> !IsSendable(w.pool, ws)
  {
    ReachedIsKept(from, steps, w);
    var w' := After(w, Forget(ws));
    CloseAllLeavesNoneOpen(from, steps, w);
    SlotIsRecord(w, ws);
    if IsSendable(w.pool, ws) {
      var x := SlotOf(w.pool, ws).value.runner.value;
      assert Holds(w, ws, x);
      assert RunnerAt(w, w.pool.registry[ws], x);
      forall id | id in w'.pool.registry ensures RecordOf(w'.pool, id).runner != Some(x) {
        assert RunnerAt(w, w.pool.registry[id], x) ==> id == ws;
      }
      assert x in w'.open - Held(w'.pool);
    } else {
      forall x | x in w.open ensures x in Held(w'.pool) {
        assert Accounted(w, x);
        var id :| Holds(w, id, x);
        SlotIsRecord(w, id);
        assert id in w'.pool.registry && Registered(w'.pool, id) && RecordOf(w'.pool, id).runner == Some(x);
      }
    }
  }

  /** A failed send leaves its record registered but defunct, and its runner closed. */
  lemma FailedSendEndsDefunct(from: World, steps: seq<Step>, w: World, t: Tid)
    requires Reaches(from, steps, w) && t in w.callers && w.callers[t].pc.Sending?
    ensures var c := w.callers[t];
            var w1 := After(w, Move(t, Fails));
            var w2 := After(w1, Move(t, Fails));
            && Enabled(w2, Move(t, Fails))
            && var w3 := After(w2, Move(t, Fails));
               && SlotOf(w3.pool, c.ws) == Some(Slot(c.pc.serial, Defunct, w.pool.recs[c.pc.serial].runner))
               && w.pool.recs[c.pc.serial].runner.Some? && w.pool.recs[c.pc.serial].runner.value !in w3.open
  {
    ReachedIsKept(from, steps, w);
    var w1 := After(w, Move(t, Fails));
    SlotIsRecord(w, w.callers[t].ws);
    SlotsMove(w1, Move(t, Fails), w.callers[t].ws);
    RunnersMove(w1, Move(t, Fails));
  }

  /** A cleanup that was answered, with success or failure, frees the workspace and closes its runner. */
  lemma CleanupEndsRemoved(from: World, steps: seq<Step>, w: World, t: Tid)
    requires Reaches(from, steps, w) && t in w.callers && w.callers[t].pc.Sending? && w.callers[t].kind == Cleanup
    ensures var c := w.callers[t];
            var w1 := After(w, Move(t, Succeeds));
            var w2 := After(w1, Move(t, Succeeds));
            && Enabled(w2, Move(t, Succeeds))
            && var w3 := After(w2, Move(t, Succeeds));
               && SlotOf(w3.pool, c.ws) == None
               && w.pool.recs[c.pc.serial].runner.Some? && w.pool.recs[c.pc.serial].runner.value !in w3.open
  {
    ReachedIsKept(from, steps, w);
    var w1 := After(w, Move(t, Succeeds));
    SlotIsRecord(w, w.callers[t].ws);
    SlotsMove(w1, Move(t, Succeeds), w.callers[t].ws);
  }

  /** `IdleIDs` also lists reserved placeholders: an idle id is not sendable exactly when some
      caller is between reserving and assigning it. */
  lemma IdleIsSendableUnlessReserved(from: World, steps: seq<Step>, w: World, id: WorkspaceId)
    requires Reaches(from, steps, w) && id in IdleIds(w.pool)
    ensures !IsSendable(w.pool, id) <==> ReservedBySome(w, id)
  {
    ReachedIsKept(from, steps, w);
    SlotIsRecord(w, id);
    assert Taken(SlotOf(w.pool, id));
  }

  // ----- Busy means a command in flight -----

  function BusyOf(p: Pool, id: WorkspaceId): Option<CommandId> {
    if Registered(p, id) then RecordOf(p, id).currentCommand else None
  }

  function NextBusy(w: World, step: Step): Option<CommandId>
    requires Enabled(w, step)
  {
    var before := BusyOf(w.pool, WsOf(w, step));
    match step
    case Call(_, _, _, _, _) => before
    case Forget(_) => None
    case Seed(_, _) => None
    case Move(tid, _) =>
      var c := w.callers[tid];
      match c.pc
      case Reserving =>
        if Taken(SlotOf(w.pool, c.ws)) || (c.maxWorkspaces > 0 && |ActiveIds(w.pool)| >= c.maxWorkspaces) then before
            else None
      case Unplacing(_) => None
      case Removing(_) => None
      case Holding(_) => if Registered(w.pool, c.ws) then Some(c.command) else None
      case Clearing(_) => None
      case _ => before
  }

  lemma InsertBusy(p: Pool, id: WorkspaceId, r: Rec, other: WorkspaceId)
    requires Wf(p)
    ensures BusyOf(Insert(p, id, r), other) == if other == id then r.currentCommand else BusyOf(p, other)
  {
  }

  lemma WriteBusy(p: Pool, id: WorkspaceId, r: Rec, other: WorkspaceId)
    requires Wf(p) && Registered(p, id)
    ensures BusyOf(Write(p, id, r), other) == if other == id then r.currentCommand else BusyOf(p, other)
  {
  }

  lemma BusyMoves(w: World, step: Step, id: WorkspaceId)
    requires Wf(w.pool) && Enabled(w, step)
    ensures BusyOf(After(w, step).pool, id) == if id == WsOf(w, step) then NextBusy(w, step) else BusyOf(w.pool, id)
  {
    var ws := WsOf(w, step);
    InsertBusy(w.pool, ws, Placeholder, id);
    if step.Seed? {
      InsertBusy(w.pool, ws, Rec(Orphaned, step.path, None, None), id);
    }
    if Registered(w.pool, ws) {
      var r := RecordOf(w.pool, ws);
      WriteBusy(w.pool, ws, r.(state := Defunct), id);
      if step.Move? {
        var c := w.callers[step.tid];
        if c.pc.Assigning? { WriteBusy(w.pool, ws, r.(runner := Some(c.pc.runner)), id); }
        if step.answer.Located? { WriteBusy(w.pool, ws, r.(path := step.answer.path), id); }
        WriteBusy(w.pool, ws, r.(currentCommand := Some(c.command)), id);
        WriteBusy(w.pool, ws, r.(currentCommand := None), id);
      }
    }
    hide Wf, Insert, Write, ActiveIds;
  }

  /** Between marking the record busy and clearing it. */
  predicate InFlight(pc: Pc) {
    HoldsSlot(pc) && !pc.Holding? && !pc.Unlocking?
  }

  ghost predicate BusyBy(w: World, id: WorkspaceId, command: CommandId) {
    exists t :: t in w.callers && w.callers[t].ws == id && InFlight(w.callers[t].pc) && w.callers[t].command == command
  }

  ghost predicate BusyOk(w: World) {
    && (forall id :: BusyOf(w.pool, id).Some? ==> BusyBy(w, id, BusyOf(w.pool, id).value))
    && (forall t :: t in w.callers && InFlight(w.callers[t].pc) && Taken(SlotOf(w.pool, w.callers[t].ws)) ==>
          BusyOf(w.pool, w.callers[t].ws) == Some(w.callers[t].command))
  }

  lemma FlightMoves(w: World, tid: Tid, answer: Answer)
    requires Enabled(w, Move(tid, answer))
    ensures var w' := After(w, Move(tid, answer));
            && (InFlight(w.callers[tid].pc) && !w.callers[tid].pc.Clearing? ==>
                tid in w'.callers && InFlight(w'.callers[tid].pc))
            && (tid in w'.callers ==>
                  && w'.callers[tid].ws == w.callers[tid].ws && w'.callers[tid].command == w.callers[tid].command
                  && (InFlight(w'.callers[tid].pc) ==>
                      w.callers[tid].pc.Holding? || (InFlight(w.callers[tid].pc) && !w.callers[tid].pc.Clearing?))
                  && (w.callers[tid].pc.Holding? ==> InFlight(w'.callers[tid].pc)))
            && (w.callers[tid].pc.Holding? ==> tid in w'.callers)
  {
  }

  lemma StepKeepsBusy(w: World, step: Step)
    requires Kept(w) && BusyOk(w) && Enabled(w, step) && Disciplined(w, step)
    ensures BusyOk(After(w, step))
  {
    var w' := After(w, step);
    hide After, Sound, HeldIsOpen, ClosersOk, OpenIsAccounted, BareIsReserved, SoleReservers;
    assert Wf(w.pool) by { SoundIsWf(w); }
    forall id | BusyOf(w'.pool, id).Some? ensures BusyBy(w', id, BusyOf(w'.pool, id).value) {
      BusyMoves(w, step, id);
      if BusyOf(w'.pool, id) == BusyOf(w.pool, id)
          && !(step.Move? && w.callers[step.tid].pc.Holding? && id == w.callers[step.tid].ws) {
        var command := BusyOf(w.pool, id).value;
        assert BusyBy(w, id, command);
        var t :| t in w.callers && w.callers[t].ws == id && InFlight(w.callers[t].pc)
            && w.callers[t].command == command;
        if step.Move? && step.tid == t { FlightMoves(w, t, step.answer); } else { CallersStay(w, step, t); }
        assert t in w'.callers && w'.callers[t].ws == id && InFlight(w'.callers[t].pc)
            && w'.callers[t].command == command;
      } else {
        var t := step.tid;
        FlightMoves(w, t, step.answer);
        assert t in w'.callers && w'.callers[t].ws == id && InFlight(w'.callers[t].pc)
            && w'.callers[t].command == BusyOf(w'.pool, id).value;
      }
    }
    forall t | t in w'.callers && InFlight(w'.callers[t].pc) && Taken(SlotOf(w'.pool, w'.callers[t].ws))
      ensures BusyOf(w'.pool, w'.callers[t].ws) == Some(w'.callers[t].command)
    {
      var ws := w'.callers[t].ws;
      BusyMoves(w, step, ws);
      SlotsMove(w, step, ws);
      if step.Forget? || step.Seed? || step.tid != t {
        OthersStay(w, step, t);
      } else {
        MoverAt(w, step);
        FlightMoves(w, t, step.answer);
        SlotIsRecord(w, ws);
      }
    }
  }

  lemma {:induction false} RunIsBusyOk(w: World, steps: seq<Step>, end: World)
    requires Kept(w) && BusyOk(w) && Runs(w, steps, end) && AllDisciplined(w, steps, end)
    ensures BusyOk(end)
    decreases |steps|
  {
    hide Kept, BusyOk, After, Enabled;
    if steps != [] {
      StepKeepsKept(w, steps[0]);
      StepKeepsBusy(w, steps[0]);
      RunIsBusyOk(After(w, steps[0]), steps[1..], end);
    }
  }

  /** An active workspace is reported idle exactly when no command is in flight on it. */
  lemma IdleIffNothingInFlight(w: World, steps: seq<Step>, end: World, id: WorkspaceId)
    requires Startup(w) && Runs(w, steps, end) && AllDisciplined(w, steps, end)
    requires id in ActiveIds(end.pool)
    ensures id in IdleIds(end.pool) <==> forall t :: t in end.callers && end.callers[t].ws == id ==>
        !InFlight(end.callers[t].pc)
  {
    StartupIsKept(w);
    RunIsBusyOk(w, steps, end);
    hide Kept, Startup, Runs, AllDisciplined;
    if BusyOf(end.pool, id).Some? {
      assert BusyBy(end, id, BusyOf(end.pool, id).value);
    }
  }
}
