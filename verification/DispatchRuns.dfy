/**
 `Pool.Dispatch` as any number of callers run it at once: each caller moves through the
 critical sections of `RunnerPools`, and any caller may move next.
 */
module DispatchRuns {
  import opened Basics
  import opened RunnerPools

  type Tid = nat
  type Serial = nat

  datatype Kind = Provision | Cleanup | Other

  /** Where a caller is inside `Dispatch`. `serial` is the record it reserved or looked up. */
  datatype Pc =
    | Reserving
    | Spawning(serial: Serial)
    | Unplacing(serial: Serial)
    | Assigning(serial: Serial, runner: Runner)
    | Looking
    | Waiting(serial: Serial)
    | Holding(serial: Serial)
    | Ready(serial: Serial)
    | Sending(serial: Serial, runner: Runner)
    | Marking(serial: Serial)
    | Removing(serial: Serial)
    | Closing(serial: Serial)
    | Placing(serial: Serial)
    | Clearing(serial: Serial)
    | Unlocking(serial: Serial)

  datatype Caller = Caller(kind: Kind, ws: WorkspaceId, command: CommandId, maxWorkspaces: int, pc: Pc)

  /** `locks` says who holds a record's slot mutex; `open` are the spawned runners not yet closed. */
  datatype World = World(
    pool: Pool,
    locks: map<Serial, Tid>,
    callers: map<Tid, Caller>,
    spawned: set<Runner>,
    open: set<Runner>)

  /** What the environment answers: a spawn or a send succeeds or fails; a successful
      provision names the workspace's directory or does not. */
  datatype Answer = Fails | Succeeds | Spawned(runner: Runner) | Located(path: string)

  datatype Step =
    | Call(tid: Tid, kind: Kind, ws: WorkspaceId, command: CommandId, maxWorkspaces: int)
    | Move(tid: Tid, answer: Answer)
    | Forget(ws: WorkspaceId)
    | Seed(ws: WorkspaceId, path: string)

  predicate InReserve(pc: Pc) {
    pc.Spawning? || pc.Unplacing? || pc.Assigning?
  }

  predicate HoldsSlot(pc: Pc) {
    !pc.Reserving? && !InReserve(pc) && !pc.Looking? && !pc.Waiting?
  }

  /** The caller looked its record up and has not yet marked it defunct or removed it. */
  predicate Uses(pc: Pc) {
    pc.Waiting? || pc.Holding? || pc.Ready? || pc.Sending? || pc.Marking? || pc.Removing?
  }

  predicate HasRecord(pc: Pc) {
    !pc.Reserving? && !pc.Looking?
  }

  predicate Enabled(w: World, step: Step) {
    match step
    case Call(tid, _, _, _, _) => tid !in w.callers
    case Forget(ws) => true
    case Seed(ws, path) => true
    case Move(tid, answer) =>
      && tid in w.callers
      && var c := w.callers[tid];
         match c.pc
         case Spawning(_) => answer == Fails || (answer.Spawned? && answer.runner !in w.spawned)
         case Waiting(serial) => serial !in w.locks
         case Ready(serial) => serial < |w.pool.recs| && w.pool.recs[serial].runner.Some?
         case Sending(_, _) => answer == Fails || answer == Succeeds
         case Closing(serial) => serial < |w.pool.recs| && w.pool.recs[serial].runner.Some?
         case Placing(_) => answer == Succeeds || answer.Located?
         case _ => true
  }

  function At(w: World, tid: Tid, pc: Pc): World
    requires tid in w.callers
  {
    w.(callers := w.callers[tid := w.callers[tid].(pc := pc)])
  }

  function Returned(w: World, tid: Tid): World {
    w.(callers := w.callers - {tid})
  }

  function MoveOf(w: World, tid: Tid, answer: Answer): World
    requires Enabled(w, Move(tid, answer))
  {
    var c := w.callers[tid];
    match c.pc
    case Reserving =>
      var (pool, r) := Reserve(w.pool, c.ws, c.maxWorkspaces);
      (match r
       case Reserved => At(w, tid, Spawning(|w.pool.recs|)).(pool := pool)
       case SlotTaken => At(w, tid, Looking)
       case AtCap => Returned(w, tid))
    case Spawning(serial) =>
      if answer == Fails then At(w, tid, Unplacing(serial))
      else At(w, tid, Assigning(serial, answer.runner)).(spawned := w.spawned + {answer.runner},
          open := w.open + {answer.runner})
    case Unplacing(_) => Returned(w, tid).(pool := Remove(w.pool, c.ws))
    case Assigning(_, runner) => At(w, tid, Looking).(pool := Assign(w.pool, c.ws, runner))
    case Looking =>
      if IsSendable(w.pool, c.ws) then At(w, tid, Waiting(w.pool.registry[c.ws])) else Returned(w, tid)
    case Waiting(serial) => At(w, tid, Holding(serial)).(locks := w.locks[serial := tid])
    case Holding(serial) => At(w, tid, Ready(serial)).(pool := SetCommand(w.pool, c.ws, Some(c.command)))
    case Ready(serial) => At(w, tid, Sending(serial, w.pool.recs[serial].runner.value))
    case Sending(serial, _) =>
      At(w, tid, if answer == Fails then Marking(serial)
                 else match c.kind
                      case Cleanup => Removing(serial)
                      case Provision => Placing(serial)
                      case Other => Clearing(serial))
    case Marking(serial) => At(w, tid, Closing(serial)).(pool := MarkDefunct(w.pool, c.ws))
    case Removing(serial) => At(w, tid, Closing(serial)).(pool := Remove(w.pool, c.ws))
    case Closing(serial) => At(w, tid, Clearing(serial)).(open := w.open - {w.pool.recs[serial].runner.value})
    case Placing(serial) =>
      At(w, tid, Clearing(serial)).(pool := if answer.Located? && answer.path != ""
          then SetPath(w.pool, c.ws, answer.path) else w.pool)
    case Clearing(serial) => At(w, tid, Unlocking(serial)).(pool := SetCommand(w.pool, c.ws, None))
    case Unlocking(serial) => Returned(w, tid).(locks := w.locks - {serial})
  }

  function After(w: World, step: Step): World
    requires Enabled(w, step)
  {
    match step
    case Call(tid, kind, ws, command, max) =>
      w.(callers := w.callers[tid := Caller(kind, ws, command, max, if kind == Provision then Reserving else Looking)])
    case Move(tid, answer) => MoveOf(w, tid, answer)
    case Forget(ws) => w.(pool := Remove(w.pool, ws))
    case Seed(ws, path) => w.(pool := SeedOrphan(w.pool, ws, path))
  }

  predicate Runs(w: World, steps: seq<Step>, end: World)
    decreases |steps|
  {
    if steps == [] then w == end
    else Enabled(w, steps[0]) && Runs(After(w, steps[0]), steps[1..], end)
  }

  /** The supervisor at startup: only orphans of an earlier process in the registry. */
  ghost predicate Startup(w: World) {
    && w.locks == map[] && w.callers == map[] && w.spawned == {} && w.open == {}
    && Wf(w.pool)
    && forall i :: 0 <= i < |w.pool.recs| ==> w.pool.recs[i] == Rec(Orphaned, w.pool.recs[i].path, None, None)
  }

  // ----- What holds in every interleaving -----

  predicate RunnerAt(w: World, i: Serial, x: Runner) {
    i < |w.pool.recs| && w.pool.recs[i].runner == Some(x)
  }

  ghost predicate PointersOk(w: World) {
    && Wf(w.pool)
    && (forall t :: t in w.callers && HasRecord(w.callers[t].pc) ==> w.callers[t].pc.serial < |w.pool.recs|)
    && (forall t :: t in w.callers && (Uses(w.callers[t].pc) || HoldsSlot(w.callers[t].pc)) ==>
          w.pool.recs[w.callers[t].pc.serial].runner.Some?)
  }

  ghost predicate LocksOk(w: World) {
    && (forall s :: s in w.locks ==>
        w.locks[s] in w.callers && HoldsSlot(w.callers[w.locks[s]].pc) && w.callers[w.locks[s]].pc.serial == s)
    && (forall t :: t in w.callers && HoldsSlot(w.callers[t].pc) ==>
          w.callers[t].pc.serial in w.locks && w.locks[w.callers[t].pc.serial] == t)
  }

  ghost predicate RunnersOk(w: World) {
    && w.open <= w.spawned
    && (forall i, x :: RunnerAt(w, i, x) ==> x in w.spawned)
    && (forall i, j, x :: RunnerAt(w, i, x) && RunnerAt(w, j, x) ==> i == j)
  }

  ghost predicate AssigningOk(w: World) {
    forall t :: t in w.callers && w.callers[t].pc.Assigning? ==>
      var x := w.callers[t].pc.runner;
      && x in w.spawned
      && (forall i :: !RunnerAt(w, i, x))
      && (forall u :: u in w.callers && u != t && w.callers[u].pc.Assigning? ==> w.callers[u].pc.runner != x)
  }

  /** A runner someone is sending on is in no record but the one the sender locked. */
  ghost predicate SendingOk(w: World) {
    forall t :: t in w.callers && w.callers[t].pc.Sending? ==>
      var (s, x) := (w.callers[t].pc.serial, w.callers[t].pc.runner);
      && x in w.spawned
      && (forall i :: RunnerAt(w, i, x) ==> i == s)
      && (forall u :: u in w.callers && w.callers[u].pc.Assigning? ==> w.callers[u].pc.runner != x)
      && (forall u :: u in w.callers && w.callers[u].pc.Sending? && w.callers[u].pc.runner == x ==>
          w.callers[u].pc.serial == s)
  }

  ghost predicate Sound(w: World) {
    PointersOk(w) && LocksOk(w) && RunnersOk(w) && AssigningOk(w) && SendingOk(w)
  }

  lemma StartupIsSound(w: World)
    requires Startup(w)
    ensures Sound(w)
  {
  }

  lemma ActiveMoves(w: World, step: Step)
    requires Wf(w.pool) && Enabled(w, step)
    ensures Wf(After(w, step).pool)
    ensures |ActiveIds(After(w, step).pool)| <= |ActiveIds(w.pool)|
            || (step.Move? && w.callers[step.tid].pc.Reserving?
                && |ActiveIds(After(w, step).pool)| == |ActiveIds(w.pool)| + 1
                && (w.callers[step.tid].maxWorkspaces > 0 ==> |ActiveIds(w.pool)| < w.callers[step.tid].maxWorkspaces))
  {
    hide Wf, ActiveIds, Insert, Write, SeedOrphan, Remove, Assign, SetPath, SetCommand, MarkDefunct;
    if step.Move? {
      var c := w.callers[step.tid];
      ReserveAddsOne(w.pool, c.ws, c.maxWorkspaces);
      var path := if step.answer.Located? then step.answer.path else "";
      var runner := if c.pc.Assigning? then c.pc.runner else 0;
      WritesAddNone(w.pool, c.ws, runner, path, Some(c.command));
      WritesAddNone(w.pool, c.ws, runner, path, None);
      DropsAddNone(w.pool, c.ws, path);
      RemoveAddsNone(w.pool, c.ws);
      Shrinks(ActiveIds(w.pool), c.ws);
    } else if step.Seed? {
      DropsAddNone(w.pool, step.ws, step.path);
      Shrinks(ActiveIds(w.pool), step.ws);
    } else if step.Forget? {
      RemoveAddsNone(w.pool, step.ws);
      Shrinks(ActiveIds(w.pool), step.ws);
    }
  }

  lemma Shrinks(s: set<WorkspaceId>, id: WorkspaceId)
    ensures |s - {id}| <= |s| <= |s - {id}| + 1
    ensures |s + {id}| <= |s| + 1
    ensures id !in s ==> |s + {id}| == |s| + 1
  {
    if id in s {
      assert s == (s - {id}) + {id};
      assert s + {id} == s;
    } else {
      assert s - {id} == s;
    }
  }

  ghost predicate SameRunners(p: Pool, q: Pool) {
    && |p.recs| <= |q.recs|
    && (forall i :: 0 <= i < |p.recs| ==> q.recs[i].runner == p.recs[i].runner)
    && (forall i :: |p.recs| <= i < |q.recs| ==> q.recs[i].runner == None)
  }

  lemma SectionsKeepRunners(p: Pool, id: WorkspaceId, maxWorkspaces: int, path: string, command: Option<CommandId>)
    ensures SameRunners(p, Reserve(p, id, maxWorkspaces).0)
    ensures SameRunners(p, SeedOrphan(p, id, path))
    ensures SameRunners(p, MarkDefunct(p, id))
    ensures SameRunners(p, Remove(p, id))
    ensures SameRunners(p, SetPath(p, id, path))
    ensures SameRunners(p, SetCommand(p, id, command))
  {
  }

  lemma RunnersMove(w: World, step: Step)
    requires Enabled(w, step)
    requires !(step.Move? && w.callers[step.tid].pc.Assigning?)
    ensures SameRunners(w.pool, After(w, step).pool)
  {
    hide SameRunners, Reserve, SeedOrphan, MarkDefunct, Remove, SetPath, SetCommand;
    if step.Move? {
      var c := w.callers[step.tid];
      SectionsKeepRunners(w.pool, c.ws, c.maxWorkspaces, if step.answer.Located? then step.answer.path else "", None);
      SectionsKeepRunners(w.pool, c.ws, c.maxWorkspaces, "", Some(c.command));
    } else if step.Seed? {
      SectionsKeepRunners(w.pool, step.ws, 0, step.path, None);
    } else if step.Forget? {
      SectionsKeepRunners(w.pool, step.ws, 0, "", None);
    }
    assert SameRunners(w.pool, w.pool) by { Unchanged(w.pool); }
  }

  lemma Unchanged(p: Pool)
    ensures SameRunners(p, p)
  {
  }

  /** Records only grow in number; a step keeps each record's runner, or assigns it. */
  lemma RecordsMove(w: World, step: Step)
    requires Enabled(w, step)
    ensures |w.pool.recs| <= |After(w, step).pool.recs|
    ensures forall i: nat, x :: RunnerAt(After(w, step), i, x) ==> RunnerAt(w, i, x) || Assigns(w, step, i, x)
    ensures forall i: nat :: i < |w.pool.recs| && w.pool.recs[i].runner.Some? ==>
        After(w, step).pool.recs[i].runner.Some?
  {
    if step.Move? && w.callers[step.tid].pc.Assigning? {
    } else {
      RunnersMove(w, step);
      hide After;
    }
  }

  predicate Assigns(w: World, step: Step, i: nat, x: Runner) {
    && step.Move? && step.tid in w.callers
    && var c := w.callers[step.tid];
       c.pc.Assigning? && c.pc.runner == x && c.ws in w.pool.registry && w.pool.registry[c.ws] == i
  }

  /** A step moves one caller and leaves the others where they are. */
  lemma OthersStay(w: World, step: Step, t: Tid)
    requires Enabled(w, step)
    requires step.Forget? || step.Seed? || step.tid != t
    ensures t in After(w, step).callers <==> t in w.callers
    ensures t in w.callers ==> After(w, step).callers[t] == w.callers[t]
  {
  }

  /** Where the moving caller gets its record from, and its slot. */
  lemma MoverAt(w: World, step: Step)
    requires Enabled(w, step) && (step.Call? || step.Move?)
    requires step.tid in After(w, step).callers
    ensures var pc' := After(w, step).callers[step.tid].pc;
            && (step.Call? ==> pc'.Reserving? || pc'.Looking?)
            && (step.Move? ==>
                  var pc := w.callers[step.tid].pc;
                  && (HasRecord(pc') ==> pc.Reserving? || pc.Looking? || pc'.serial == pc.serial)
                  && (pc.Reserving? && HasRecord(pc') ==>
                      pc'.serial == |w.pool.recs| < |After(w, step).pool.recs| && pc'.Spawning?)
                  && (pc.Looking? && HasRecord(pc') ==>
                      pc'.Waiting? && IsSendable(w.pool, w.callers[step.tid].ws)
                          && pc'.serial == w.pool.registry[w.callers[step.tid].ws])
                  && (HoldsSlot(pc') <==> HoldsSlot(pc) || pc.Waiting?)
                  && (pc.Waiting? ==> pc'.serial !in w.locks)
                  && (pc'.Assigning? <==> pc.Spawning? && step.answer.Spawned?)
                  && (pc'.Assigning? ==> pc'.runner == step.answer.runner && pc'.runner !in w.spawned)
                  && (pc'.Sending? <==> pc.Ready?)
                  && (pc'.Sending? ==> RunnerAt(w, pc.serial, pc'.runner))
                  && (pc'.Waiting? <==> pc.Looking?))
  {
  }

  lemma KeepsPointers(w: World, step: Step)
    requires PointersOk(w) && Enabled(w, step)
    ensures PointersOk(After(w, step))
  {
    ActiveMoves(w, step);
    var w' := After(w, step);
    hide After, Wf;
    forall t | t in w'.callers && HasRecord(w'.callers[t].pc)
      ensures PointsOk(w', w'.callers[t].pc)
    {
      KeepsPointer(w, step, t);
    }
  }

  predicate PointsOk(w: World, pc: Pc)
    requires HasRecord(pc)
  {
    pc.serial < |w.pool.recs| && (Uses(pc) || HoldsSlot(pc) ==> w.pool.recs[pc.serial].runner.Some?)
  }

  lemma KeepsPointer(w: World, step: Step, t: Tid)
    requires PointersOk(w) && Enabled(w, step)
    requires t in After(w, step).callers && HasRecord(After(w, step).callers[t].pc)
    ensures PointsOk(After(w, step), After(w, step).callers[t].pc)
  {
    RecordsMove(w, step);
    hide After, Wf;
    if step.Forget? || step.Seed? || step.tid != t {
      OthersStay(w, step, t);
    } else {
      MoverAt(w, step);
    }
  }

  lemma KeepsLocks(w: World, step: Step)
    requires LocksOk(w) && Enabled(w, step)
    ensures LocksOk(After(w, step))
  {
    LocksMove(w, step);
    var w' := After(w, step);
    hide After;
    forall t | t in w'.callers && HoldsSlot(w'.callers[t].pc)
      ensures w'.callers[t].pc.serial in w'.locks && w'.locks[w'.callers[t].pc.serial] == t
    {
      if step.Forget? || step.Seed? || step.tid != t {
        OthersStay(w, step, t);
      } else {
        MoverAt(w, step);
      }
    }
    forall s | s in w'.locks
      ensures w'.locks[s] in w'.callers && HoldsSlot(w'.callers[w'.locks[s]].pc)
          && w'.callers[w'.locks[s]].pc.serial == s
    {
      var t := w'.locks[s];
      if step.Forget? || step.Seed? || step.tid != t {
        OthersStay(w, step, t);
      } else {
        MoverAt(w, step);
      }
    }
  }

  lemma LocksMove(w: World, step: Step)
    requires LocksOk(w) && Enabled(w, step)
    ensures var pc := if step.Move? then w.callers[step.tid].pc else Looking;
            && After(w, step).locks == (if pc.Waiting? then w.locks[pc.serial := step.tid]
                                     else if pc.Unlocking? then w.locks - {pc.serial} else w.locks)
            && (step.Move? && HoldsSlot(pc) ==> (step.tid in After(w, step).callers <==> !pc.Unlocking?))
            && (step.Move? && pc.Waiting? ==> step.tid in After(w, step).callers)
  {
  }

  lemma SpawnedMove(w: World, step: Step)
    requires Enabled(w, step)
    ensures w.spawned <= After(w, step).spawned
    ensures w.open <= w.spawned ==> After(w, step).open <= After(w, step).spawned
    ensures step.Move? && w.callers[step.tid].pc.Spawning? && step.answer.Spawned? ==>
        step.answer.runner in After(w, step).spawned
  {
  }

  lemma KeepsRunners(w: World, step: Step)
    requires PointersOk(w) && RunnersOk(w) && AssigningOk(w) && Enabled(w, step)
    ensures RunnersOk(After(w, step))
  {
    RecordsMove(w, step);
    SpawnedMove(w, step);
    hide After, MoveOf;
  }

  lemma KeepsAssigning(w: World, step: Step)
    requires Sound(w) && Enabled(w, step)
    ensures AssigningOk(After(w, step))
  {
    RecordsMove(w, step);
    SpawnedMove(w, step);
    var w' := After(w, step);
    hide After, Wf, LocksOk, SendingOk, PointersOk;
    forall t | t in w'.callers && w'.callers[t].pc.Assigning?
      ensures var x := w'.callers[t].pc.runner;
              && x in w'.spawned
              && (forall i: nat :: !RunnerAt(w', i, x))
              && (forall u :: u in w'.callers && u != t && w'.callers[u].pc.Assigning? ==> w'.callers[u].pc.runner != x)
    {
      assert (step.Call? || step.Move?) && step.tid in w'.callers ==>
          (w'.callers[step.tid].pc.Assigning? ==> step.Move?) by {
        if (step.Call? || step.Move?) && step.tid in w'.callers { MoverAt(w, step); }
      }
      if (step.Call? || step.Move?) && step.tid in w'.callers { MoverAt(w, step); }
      forall u | u in w'.callers && (step.Forget? || step.Seed? || step.tid != u)
        ensures u in w.callers && w'.callers[u] == w.callers[u]
      {
        OthersStay(w, step, u);
      }
    }
  }

  lemma KeepsSending(w: World, step: Step)
    requires Sound(w) && Enabled(w, step)
    ensures SendingOk(After(w, step))
  {
    RecordsMove(w, step);
    SpawnedMove(w, step);
    var w' := After(w, step);
    hide After, Wf, LocksOk, PointersOk;
    forall t | t in w'.callers && w'.callers[t].pc.Sending?
      ensures var (s, x) := (w'.callers[t].pc.serial, w'.callers[t].pc.runner);
              && x in w.spawned
              && (forall i: nat :: RunnerAt(w, i, x) ==> i == s)
              && (forall u :: u in w.callers && w.callers[u].pc.Assigning? ==> w.callers[u].pc.runner != x)
              && (forall u :: u in w.callers && w.callers[u].pc.Sending? && w.callers[u].pc.runner == x ==>
                  w.callers[u].pc.serial == s)
    {
      SenderAt(w, step, t);
    }
    forall t | t in w'.callers && w'.callers[t].pc.Sending?
      ensures var (s, x) := (w'.callers[t].pc.serial, w'.callers[t].pc.runner);
              && x in w'.spawned
              && (forall i: nat :: RunnerAt(w', i, x) ==> i == s)
              && (forall u :: u in w'.callers && w'.callers[u].pc.Assigning? ==> w'.callers[u].pc.runner != x)
              && (forall u :: u in w'.callers && w'.callers[u].pc.Sending? && w'.callers[u].pc.runner == x ==>
                  w'.callers[u].pc.serial == s)
    {
      forall u | u in w'.callers && (w'.callers[u].pc.Assigning? || w'.callers[u].pc.Sending?)
        ensures w'.callers[u].pc.Assigning? ==> w'.callers[u].pc.runner != w'.callers[t].pc.runner
        ensures w'.callers[u].pc.Sending? && w'.callers[u].pc.runner == w'.callers[t].pc.runner ==>
            w'.callers[u].pc.serial == w'.callers[t].pc.serial
      {
        if step.Forget? || step.Seed? || step.tid != u { OthersStay(w, step, u); } else { MoverAt(w, step); }
      }
    }
  }

  /** Whoever is sending after a step was sending on the same runner before it, or has just
      read it from the record it holds. */
  lemma SenderAt(w: World, step: Step, t: Tid)
    requires Sound(w) && Enabled(w, step)
    requires t in After(w, step).callers && After(w, step).callers[t].pc.Sending?
    ensures var (s, x) := (After(w, step).callers[t].pc.serial, After(w, step).callers[t].pc.runner);
            && x in w.spawned
            && (forall i: nat :: RunnerAt(w, i, x) ==> i == s)
            && (forall u :: u in w.callers && w.callers[u].pc.Assigning? ==> w.callers[u].pc.runner != x)
            && (forall u :: u in w.callers && w.callers[u].pc.Sending? && w.callers[u].pc.runner == x ==>
                w.callers[u].pc.serial == s)
  {
    hide After, Wf, LocksOk;
    if step.Forget? || step.Seed? || step.tid != t { OthersStay(w, step, t); } else { MoverAt(w, step); }
  }

  lemma StepKeepsSound(w: World, step: Step)
    requires Sound(w) && Enabled(w, step)
    ensures Sound(After(w, step))
  {
    KeepsPointers(w, step);
    KeepsLocks(w, step);
    KeepsRunners(w, step);
    KeepsAssigning(w, step);
    KeepsSending(w, step);
  }

  lemma {:induction false} RunIsSound(w: World, steps: seq<Step>, end: World)
    requires Sound(w) && Runs(w, steps, end)
    ensures Sound(end)
    decreases |steps|
  {
    if steps != [] {
      StepKeepsSound(w, steps[0]);
      RunIsSound(After(w, steps[0]), steps[1..], end);
    }
  }

  /** Whatever is forgotten, removed or marked defunct in between, no runner is ever sent two
      commands at once, and no caller finds a nil runner where it is about to send. */
  lemma NoTwoSendsOnOneRunner(w: World, steps: seq<Step>, end: World)
    requires Startup(w) && Runs(w, steps, end)
    ensures forall t, u ::
              (t in end.callers && u in end.callers && end.callers[t].pc.Sending? && end.callers[u].pc.Sending?
               && end.callers[t].pc.runner == end.callers[u].pc.runner) ==> t == u
    ensures forall t :: t in end.callers && (end.callers[t].pc.Ready? || end.callers[t].pc.Closing?) ==>
        Enabled(end, Move(t, Succeeds))
  {
    StartupIsSound(w);
    RunIsSound(w, steps, end);
  }

  // ----- The workspace cap -----

  ghost predicate CappedBy(w: World, cap: int) {
    forall t :: t in w.callers ==> w.callers[t].maxWorkspaces == cap
  }

  /** With a fixed positive cap, no interleaving of any number of dispatches, spawn failures,
      defunct marks, removals and orphans ever has more active records than the cap. */
  lemma {:induction false} CapHolds(w: World, steps: seq<Step>, end: World, cap: int)
    requires Wf(w.pool) && Runs(w, steps, end) && cap > 0
    requires CappedBy(w, cap) && |ActiveIds(w.pool)| <= cap
    requires forall i :: 0 <= i < |steps| && steps[i].Call? ==> steps[i].maxWorkspaces == cap
    ensures |ActiveIds(end.pool)| <= cap
    decreases |steps|
  {
    if steps != [] {
      ActiveMoves(w, steps[0]);
      CapStays(w, steps[0], cap);
      CapHolds(After(w, steps[0]), steps[1..], end, cap);
    }
  }

  lemma CapStays(w: World, step: Step, cap: int)
    requires Enabled(w, step) && CappedBy(w, cap) && (step.Call? ==> step.maxWorkspaces == cap)
    ensures CappedBy(After(w, step), cap)
  {
  }
}
