/**
 The supervisor's runner pool: one registry record per workspace, guarded by one
 mutex. Each method of `RunnerPool` is one critical section of that mutex; what the
 sections do is written down as functions on `Pool`, which `DispatchRuns` interleaves.
 */
module RunnerPools {
  import opened Basics

  /** A spawned child process. */
  type Runner = nat

  datatype WorkspaceState = Live | Defunct | Orphaned

  datatype Rec = Rec(
    state: WorkspaceState,
    path: string,
    currentCommand: Option<CommandId>,
    runner: Option<Runner>)

  const Placeholder := Rec(Live, "", None, None)

  /** `recs` is every record ever allocated, registered or not: a dispatch keeps its
      pointer to a record that has left the registry. */
  datatype Pool = Pool(registry: map<WorkspaceId, nat>, recs: seq<Rec>)

  datatype Reservation = Reserved | SlotTaken | AtCap

  ghost predicate Wf(p: Pool) {
    && (forall id :: id in p.registry ==> p.registry[id] < |p.recs|)
    && (forall id, other :: id in p.registry && other in p.registry && p.registry[id] == p.registry[other] ==>
        id == other)
  }

  predicate Registered(p: Pool, id: WorkspaceId) {
    id in p.registry && p.registry[id] < |p.recs|
  }

  function RecordOf(p: Pool, id: WorkspaceId): Rec
    requires Registered(p, id)
  {
    p.recs[p.registry[id]]
  }

  predicate IsActive(p: Pool, id: WorkspaceId) {
    Registered(p, id) && RecordOf(p, id).state == Live
  }

  predicate IsSendable(p: Pool, id: WorkspaceId) {
    IsActive(p, id) && RecordOf(p, id).runner.Some?
  }

  function ActiveIds(p: Pool): set<WorkspaceId> {
    set id | id in p.registry && IsActive(p, id)
  }

  function IdleIds(p: Pool): set<WorkspaceId> {
    set id | id in p.registry && IsActive(p, id) && RecordOf(p, id).currentCommand == None
  }

  // ----- The critical sections -----

  function Insert(p: Pool, id: WorkspaceId, r: Rec): Pool {
    Pool(p.registry[id := |p.recs|], p.recs + [r])
  }

  function Write(p: Pool, id: WorkspaceId, r: Rec): Pool
    requires Registered(p, id)
  {
    p.(recs := p.recs[p.registry[id] := r])
  }

  function Reserve(p: Pool, id: WorkspaceId, maxWorkspaces: int): (r: (Pool, Reservation)) {
    if IsActive(p, id) then (p, SlotTaken)
    else if maxWorkspaces > 0 && |ActiveIds(p)| >= maxWorkspaces then (p, AtCap)
    else (Insert(p, id, Placeholder), Reserved)
  }

  function Assign(p: Pool, id: WorkspaceId, runner: Runner): Pool {
    if Registered(p, id) then Write(p, id, RecordOf(p, id).(runner := Some(runner))) else p
  }

  function SeedOrphan(p: Pool, id: WorkspaceId, path: string): Pool {
    Insert(p, id, Rec(Orphaned, path, None, None))
  }

  function MarkDefunct(p: Pool, id: WorkspaceId): Pool {
    if Registered(p, id) then Write(p, id, RecordOf(p, id).(state := Defunct)) else p
  }

  function Remove(p: Pool, id: WorkspaceId): Pool {
    p.(registry := p.registry - {id})
  }

  function SetPath(p: Pool, id: WorkspaceId, path: string): Pool {
    if Registered(p, id) then Write(p, id, RecordOf(p, id).(path := path)) else p
  }

  function SetCommand(p: Pool, id: WorkspaceId, command: Option<CommandId>): Pool {
    if Registered(p, id) then Write(p, id, RecordOf(p, id).(currentCommand := command)) else p
  }

  /** The runners `CloseAll` closes. */
  function Held(p: Pool): set<Runner> {
    set id | id in p.registry && Registered(p, id) && RecordOf(p, id).runner.Some? :: RecordOf(p, id).runner.value
  }

  lemma ActiveMember(p: Pool, id: WorkspaceId)
    ensures IsActive(p, id) <==> id in ActiveIds(p)
  {
  }

  lemma ReservesAs(p: Pool, q: Pool, id: WorkspaceId, maxWorkspaces: int, r: Reservation)
    requires r == SlotTaken ==> IsActive(p, id) && p == q
    requires r == AtCap ==> !IsActive(p, id) && maxWorkspaces > 0 && |ActiveIds(p)| >= maxWorkspaces && p == q
    requires r == Reserved ==> !IsActive(p, id) && (maxWorkspaces > 0 ==>
        |ActiveIds(p)| < maxWorkspaces) && q == Insert(p, id, Placeholder)
    ensures (q, r) == Reserve(p, id, maxWorkspaces)
  {
  }

  // ----- The pool as the supervisor has it -----

  class Record {
    var state: WorkspaceState
    var path: string
    var currentCommandID: Option<CommandId>
    var runner: Option<Runner>

    constructor (state: WorkspaceState, path: string)
      ensures View() == Rec(state, path, None, None)
    {
      this.state, this.path, currentCommandID, runner := state, path, None, None;
    }

    function View(): Rec
      reads this
    {
      Rec(state, path, currentCommandID, runner)
    }
  }

  class RunnerPool {
    var registry: map<WorkspaceId, Record>
    ghost var serials: map<WorkspaceId, nat>
    ghost var heap: seq<Record>

    ghost predicate Valid()
      reads this
    {
      && serials.Keys == registry.Keys
      && (forall id :: id in registry ==> serials[id] < |heap| && heap[serials[id]] == registry[id])
      && (forall i, j :: 0 <= i < |heap| && 0 <= j < |heap| && heap[i] == heap[j] ==> i == j)
      && (forall id, other :: id in serials && other in serials && serials[id] == serials[other] ==> id == other)
    }

    ghost function State(): (p: Pool)
      requires Valid()
      reads this, heap
      ensures Wf(p)
    {
      Pool(serials, seq(|heap|, i requires 0 <= i < |heap| reads this, heap => heap[i].View()))
    }

    constructor ()
      ensures Valid() && State() == Pool(map[], [])
    {
      registry, serials, heap := map[], map[], [];
    }

    /** Puts a freshly allocated record in the registry. */
    method Put(id: WorkspaceId, rec: Record)
      requires Valid() && rec !in heap
      modifies this
      ensures Valid() && State() == Insert(old(State()), id, rec.View())
      ensures heap == old(heap) + [rec]
    {
      registry := registry[id := rec];
      serials := serials[id := |heap|];
      heap := heap + [rec];
    }

    method InsertNew(id: WorkspaceId, state: WorkspaceState, path: string)
      requires Valid()
      modifies this
      ensures Valid() && State() == Insert(old(State()), id, Rec(state, path, None, None))
      ensures forall x :: x in heap && x !in old(heap) ==> fresh(x)
    {
      var rec := new Record(state, path);
      Put(id, rec);
    }

    /** What the registry shows of the records in it. */
    lemma Shown()
      requires Valid()
      ensures State().registry.Keys == registry.Keys
      ensures forall id :: id in registry ==> Registered(State(), id) && RecordOf(State(), id) == registry[id].View()
    {
    }

    static ghost function Live(registry: map<WorkspaceId, Record>): set<WorkspaceId>
      reads registry.Values
    {
      set x | x in registry && registry[x].state == WorkspaceState.Live
    }

    static method CountLive(registry: map<WorkspaceId, Record>) returns (activeCount: nat)
      ensures activeCount == |Live(registry)|
    {
      activeCount := 0;
      ghost var counted := {};
      var rest := registry.Keys;
      while rest != {}
        invariant rest <= registry.Keys
        invariant counted == set x | x in registry && x !in rest && registry[x].state == WorkspaceState.Live
        invariant activeCount == |counted|
        decreases |rest|
      {
        var x :| x in rest;
        rest := rest - {x};
        if registry[x].state == WorkspaceState.Live {
          counted := counted + {x};
          activeCount := activeCount + 1;
        }
      }
      assert counted == Live(registry);
    }

    lemma LiveOnesAreActive()
      requires Valid()
      ensures ActiveIds(State()) == Live(registry)
    {
      Shown();
      hide Valid, State, Registered, RecordOf;
    }

    method ReserveActiveSlot(id: WorkspaceId, maxWorkspaces: int) returns (r: Reservation)
      requires Valid()
      modifies this
      ensures Valid()
      ensures forall x :: x in heap && x !in old(heap) ==> fresh(x)
      ensures (State(), r) == Reserve(old(State()), id, maxWorkspaces)
    {
      Shown();
      LiveOnesAreActive();
      hide *;
      assert IsActive(State(), id) <==> id in ActiveIds(State()) by { ActiveMember(State(), id); }
      if id in registry && registry[id].View().state == WorkspaceState.Live {
        r := SlotTaken;
        ReservesAs(old(State()), State(), id, maxWorkspaces, r);
        return;
      }
      if maxWorkspaces > 0 {
        var activeCount := CountLive(registry);
        if activeCount >= maxWorkspaces {
          r := AtCap;
          ReservesAs(old(State()), State(), id, maxWorkspaces, r);
          return;
        }
      }
      InsertNew(id, WorkspaceState.Live, "");
      r := Reserved;
      ReservesAs(old(State()), State(), id, maxWorkspaces, r);
    }

    method AssignRunner(id: WorkspaceId, runner: Runner)
      requires Valid()
      modifies heap
      ensures Valid() && State() == Assign(old(State()), id, runner)
    {
      if id in registry {
        var rec := registry[id];
        rec.runner := Some(runner);
      }
    }

    method LookupSendable(id: WorkspaceId) returns (rec: Option<Record>)
      requires Valid()
      ensures rec.Some? <==> IsSendable(State(), id)
      ensures rec.Some? ==> id in serials && rec.value == heap[serials[id]] && rec.value == registry[id]
    {
      if id !in registry || registry[id].state != WorkspaceState.Live || registry[id].runner == None {
        return None;
      }
      return Some(registry[id]);
    }

    method SeedOrphanRecord(id: WorkspaceId, path: string)
      requires Valid()
      modifies this
      ensures Valid() && State() == SeedOrphan(old(State()), id, path)
      ensures forall x :: x in heap && x !in old(heap) ==> fresh(x)
    {
      InsertNew(id, Orphaned, path);
    }

    method MarkRecordDefunct(id: WorkspaceId)
      requires Valid()
      modifies heap
      ensures Valid() && State() == MarkDefunct(old(State()), id)
    {
      if id !in registry {
        return;
      }
      var rec := registry[id];
      rec.state := Defunct;
    }

    method RemoveRecord(id: WorkspaceId)
      requires Valid()
      modifies this
      ensures Valid() && State() == Remove(old(State()), id) && heap == old(heap)
    {
      registry := registry - {id};
      serials := serials - {id};
    }

    method SetRecordPath(id: WorkspaceId, path: string)
      requires Valid()
      modifies heap
      ensures Valid() && State() == SetPath(old(State()), id, path)
    {
      if id !in registry {
        return;
      }
      var rec := registry[id];
      rec.path := path;
    }

    /** `setCommandID`, and `clearCommandID` with `None`. */
    method SetCommandID(id: WorkspaceId, command: Option<CommandId>)
      requires Valid()
      modifies heap
      ensures Valid() && State() == SetCommand(old(State()), id, command)
    {
      if id !in registry {
        return;
      }
      var rec := registry[id];
      rec.currentCommandID := command;
    }

    method IdleIDs() returns (ids: seq<WorkspaceId>)
      requires Valid()
      ensures forall id :: id in ids <==> id in IdleIds(State())
      ensures forall i, j :: 0 <= i < j < |ids| ==> ids[i] != ids[j]
    {
      Shown();
      ids := IdlesOf(registry);
      hide Valid, Wf, State, Registered, RecordOf;
    }

    static method IdlesOf(registry: map<WorkspaceId, Record>) returns (ids: seq<WorkspaceId>)
      ensures forall id :: id in ids <==>
                id in registry && registry[id].View().state == WorkspaceState.Live
                    && registry[id].View().currentCommand == None
      ensures forall i, j :: 0 <= i < j < |ids| ==> ids[i] != ids[j]
    {
      ids := [];
      var rest := registry.Keys;
      while rest != {}
        invariant rest <= registry.Keys
        invariant forall id :: id in ids <==>
            id in registry && id !in rest && registry[id].state == WorkspaceState.Live
                && registry[id].currentCommandID == None
        invariant forall i, j :: 0 <= i < j < |ids| ==> ids[i] != ids[j]
        decreases |rest|
      {
        var id :| id in rest;
        rest := rest - {id};
        if registry[id].state == WorkspaceState.Live && registry[id].currentCommandID == None {
          ids := ids + [id];
        }
      }
    }

    /** Swaps the registry out under the mutex, then closes every runner it held. */
    method CloseAll() returns (closed: set<Runner>)
      requires Valid()
      modifies this
      ensures Valid() && State() == old(State()).(registry := map[])
      ensures closed == Held(old(State()))
    {
      var recs := registry;
      Shown();
      closed := RunnersOf(recs);
      registry, serials := map[], map[];
    }

    static method RunnersOf(recs: map<WorkspaceId, Record>) returns (closed: set<Runner>)
      ensures closed == set id | id in recs && recs[id].View().runner.Some? :: recs[id].View().runner.value
    {
      closed := {};
      var rest := recs.Keys;
      while rest != {}
        invariant rest <= recs.Keys
        invariant closed == set id | id in recs && id !in rest && recs[id].View().runner.Some? ::
            recs[id].View().runner.value
        decreases |rest|
      {
        var id :| id in rest;
        rest := rest - {id};
        if recs[id].runner != None {
          closed := closed + {recs[id].runner.value};
        }
      }
    }
  }

  // ----- What the sections do to the registry -----

  lemma InsertActive(p: Pool, id: WorkspaceId, r: Rec)
    requires Wf(p)
    ensures Wf(Insert(p, id, r))
    ensures ActiveIds(Insert(p, id, r)) == if r.state == Live then ActiveIds(p) + {id} else ActiveIds(p) - {id}
  {
    var q := Insert(p, id, r);
    assert forall x :: x in p.registry && x != id ==> q.recs[q.registry[x]] == p.recs[p.registry[x]];
  }

  lemma WriteActive(p: Pool, id: WorkspaceId, r: Rec)
    requires Wf(p) && Registered(p, id)
    ensures Wf(Write(p, id, r))
    ensures ActiveIds(Write(p, id, r)) == if r.state == Live then ActiveIds(p) + {id} else ActiveIds(p) - {id}
  {
    var q := Write(p, id, r);
    assert forall x :: x in p.registry && x != id ==> q.recs[q.registry[x]] == p.recs[p.registry[x]];
  }

  /** A reservation adds its own id, never past the cap it was given, and is refused exactly
      when the id is taken or the cap is reached. */
  lemma ReserveAddsOne(p: Pool, id: WorkspaceId, maxWorkspaces: int)
    requires Wf(p)
    ensures var (q, r) := Reserve(p, id, maxWorkspaces);
            && Wf(q)
            && (r == Reserved ==> id !in ActiveIds(p) && ActiveIds(q) == ActiveIds(p) + {id})
            && (r == Reserved && maxWorkspaces > 0 ==> |ActiveIds(q)| <= maxWorkspaces)
            && (r == SlotTaken <==> id in ActiveIds(p))
            && (r == AtCap <==> id !in ActiveIds(p) && maxWorkspaces > 0 && |ActiveIds(p)| >= maxWorkspaces)
  {
    InsertActive(p, id, Placeholder);
    hide Wf, Insert;
  }

  lemma WritesAddNone(p: Pool, id: WorkspaceId, runner: Runner, path: string, command: Option<CommandId>)
    requires Wf(p)
    ensures Wf(Assign(p, id, runner)) && ActiveIds(Assign(p, id, runner)) == ActiveIds(p)
    ensures Wf(SetPath(p, id, path)) && ActiveIds(SetPath(p, id, path)) == ActiveIds(p)
    ensures Wf(SetCommand(p, id, command)) && ActiveIds(SetCommand(p, id, command)) == ActiveIds(p)
  {
    hide Wf, Write;
    if Registered(p, id) {
      var r := RecordOf(p, id);
      WriteActive(p, id, r.(runner := Some(runner)));
      WriteActive(p, id, r.(path := path));
      WriteActive(p, id, r.(currentCommand := command));
    }
  }

  lemma RemoveAddsNone(p: Pool, id: WorkspaceId)
    requires Wf(p)
    ensures Wf(Remove(p, id)) && ActiveIds(Remove(p, id)) == ActiveIds(p) - {id}
  {
  }

  lemma DropsAddNone(p: Pool, id: WorkspaceId, path: string)
    requires Wf(p)
    ensures Wf(MarkDefunct(p, id)) && ActiveIds(MarkDefunct(p, id)) == ActiveIds(p) - {id}
    ensures Wf(SeedOrphan(p, id, path)) && ActiveIds(SeedOrphan(p, id, path)) == ActiveIds(p) - {id}
  {
    hide Write, Insert, Wf;
    InsertActive(p, id, Rec(Orphaned, path, None, None));
    if Registered(p, id) {
      WriteActive(p, id, RecordOf(p, id).(state := Defunct));
    }
  }
}
