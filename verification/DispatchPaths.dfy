/**
 One call of `Pool.Dispatch` from entry to return with nobody in between, for every
 answer of the spawn and of the send: where the call goes and what it leaves in the
 registry, in terms of the registry map and the records alone.
 */
module DispatchPaths {
  import opened Basics
  import opened RunnerPools
  import opened DispatchRuns

  /** The workspace's record, as the registry shows it. */
  ghost predicate Shows(p: Pool, ws: WorkspaceId, s: Serial, r: Rec) {
    ws in p.registry && p.registry[ws] == s && s < |p.recs| && p.recs[s] == r
  }

  ghost predicate HasLive(p: Pool, ws: WorkspaceId) {
    ws in p.registry && p.registry[ws] < |p.recs| && p.recs[p.registry[ws]].state == Live
  }

  /** The caller is at this point of its call. */
  ghost predicate Stands(w: World, t: Tid, pc: Pc) {
    t in w.callers && w.callers[t].pc == pc
  }

  /** How many workspaces have an active record. */
  ghost function LiveCount(p: Pool): nat {
    |set ws | ws in p.registry && HasLive(p, ws)|
  }

  lemma {:induction false} RunsOn(w: World, a: seq<Step>, mid: World, step: Step)
    requires Runs(w, a, mid) && Enabled(mid, step)
    ensures Runs(w, a + [step], After(mid, step))
    decreases |a|
  {
    hide After, Enabled;
    if a == [] {
      assert a + [step] == [step] && [step][1..] == [];
    } else {
      assert (a + [step])[0] == a[0] && (a + [step])[1..] == a[1..] + [step];
      RunsOn(After(w, a[0]), a[1..], mid, step);
    }
  }

  lemma NothingRuns(w: World)
    ensures Runs(w, [], w)
  {
  }

  // ----- Up to the lookup -----

  /** A provision begins with the reservation, every other command with the lookup. */
  lemma CallEnters(w: World, t: Tid, kind: Kind, ws: WorkspaceId, command: CommandId, maxWorkspaces: int)
    requires t !in w.callers
    ensures Enabled(w, Call(t, kind, ws, command, maxWorkspaces))
    ensures var w' := After(w, Call(t, kind, ws, command, maxWorkspaces));
            && w'.callers - {t} == w.callers && w' == w.(callers := w'.callers)
            && Stands(w', t, if kind == Provision then Reserving else Looking)
            && w'.callers[t].kind == kind && w'.callers[t].ws == ws
            && w'.callers[t].command == command && w'.callers[t].maxWorkspaces == maxWorkspaces
  {
    var w' := After(w, Call(t, kind, ws, command, maxWorkspaces));
    assert w'.callers - {t} == w.callers;
  }

  /** A provision of a workspace whose record is active spawns nothing and goes on to the lookup, like
      every other command. */
  lemma LiveWorkspaceIsLookedUp(w: World, t: Tid, answer: Answer)
    requires Stands(w, t, Reserving) && HasLive(w.pool, w.callers[t].ws)
    ensures Enabled(w, Move(t, answer))
    ensures After(w, Move(t, answer)) == w.(callers := w.callers[t := w.callers[t].(pc := Looking)])
  {
  }

  /** At the cap a provision of any other workspace returns and leaves nothing behind. */
  lemma ProvisionAtCapReturns(w: World, t: Tid, answer: Answer)
    requires Stands(w, t, Reserving) && !HasLive(w.pool, w.callers[t].ws)
    requires 0 < w.callers[t].maxWorkspaces <= LiveCount(w.pool)
    ensures Enabled(w, Move(t, answer)) && After(w, Move(t, answer)) == w.(callers := w.callers - {t})
  {
    LiveCountIsActive(w.pool);
  }

  lemma LiveCountIsActive(p: Pool)
    ensures |ActiveIds(p)| == LiveCount(p)
  {
    assert ActiveIds(p) == set ws | ws in p.registry && HasLive(p, ws);
  }

  lemma PlaceholderIsPut(w: World, t: Tid)
    requires Stands(w, t, Reserving) && !HasLive(w.pool, w.callers[t].ws)
    requires w.callers[t].maxWorkspaces > 0 ==> LiveCount(w.pool) < w.callers[t].maxWorkspaces
    ensures Enabled(w, Move(t, Fails))
    ensures var (n, ws) := (|w.pool.recs|, w.callers[t].ws);
            After(w, Move(t, Fails))
            == w.(pool := Pool(w.pool.registry[ws := n], w.pool.recs + [Rec(Live, "", None, None)]),
                  callers := w.callers[t := w.callers[t].(pc := Spawning(n))])
  {
    LiveCountIsActive(w.pool);
  }

  /** Below the cap it spawns a runner, which ends up in a new active record; then it goes on to the
      lookup. */
  lemma NewWorkspaceIsSpawned(w: World, t: Tid, x: Runner) returns (steps: seq<Step>, end: World)
    requires Stands(w, t, Reserving) && !HasLive(w.pool, w.callers[t].ws) && x !in w.spawned
    requires w.callers[t].maxWorkspaces > 0 ==> LiveCount(w.pool) < w.callers[t].maxWorkspaces
    ensures Runs(w, steps, end) && Stands(end, t, Looking) && end.callers == w.callers[t := end.callers[t]]
    ensures var (n, ws) := (|w.pool.recs|, w.callers[t].ws);
            && end.callers[t] == w.callers[t].(pc := Looking) && end.locks == w.locks
            && end.pool == Pool(w.pool.registry[ws := n], w.pool.recs + [Rec(Live, "", None, Some(x))])
            && end.spawned == w.spawned + {x} && end.open == w.open + {x}
  {
    var s1, s2, s3 := Move(t, Fails), Move(t, Spawned(x)), Move(t, Fails);
    PlaceholderIsPut(w, t);
    NothingRuns(w);
    RunsOn(w, [], w, s1);
    var w1 := After(w, s1);
    RunsOn(w, [] + [s1], w1, s2);
    var w2 := After(w1, s2);
    RunsOn(w, [] + [s1] + [s2], w2, s3);
    end := After(w2, s3);
    steps := [] + [s1] + [s2] + [s3];
    hide Runs;
    assert w2.pool.recs[|w.pool.recs| := Rec(Live, "", None, Some(x))] == w.pool.recs + [Rec(Live, "", None, Some(x))];
  }

  /** When the spawn fails the workspace is out of the registry again. */
  lemma FailedSpawnReturns(w: World, t: Tid) returns (steps: seq<Step>, end: World)
    requires Stands(w, t, Reserving) && !HasLive(w.pool, w.callers[t].ws)
    requires w.callers[t].maxWorkspaces > 0 ==> LiveCount(w.pool) < w.callers[t].maxWorkspaces
    ensures Runs(w, steps, end)
    ensures end == w.(callers := w.callers - {t}, pool := end.pool)
    ensures end.pool.registry == w.pool.registry - {w.callers[t].ws} && w.pool.recs <= end.pool.recs
  {
    var s := Move(t, Fails);
    PlaceholderIsPut(w, t);
    NothingRuns(w);
    RunsOn(w, [], w, s);
    var w1 := After(w, s);
    RunsOn(w, [] + [s], w1, s);
    var w2 := After(w1, s);
    RunsOn(w, [] + [s] + [s], w2, s);
    end := After(w2, s);
    steps := [] + [s] + [s] + [s];
    hide Runs;
    assert w.pool.registry[w.callers[t].ws := |w.pool.recs|] - {w.callers[t].ws} == w.pool.registry - {w.callers[t].ws};
  }

  /** Without an active record that has a runner, every command returns and leaves nothing behind. */
  lemma UnknownWorkspaceReturns(w: World, t: Tid, answer: Answer)
    requires Stands(w, t, Looking)
    requires !HasLive(w.pool, w.callers[t].ws) || w.pool.recs[w.pool.registry[w.callers[t].ws]].runner == None
    ensures Enabled(w, Move(t, answer)) && After(w, Move(t, answer)) == w.(callers := w.callers - {t})
  {
  }

  // ----- The send -----

  lemma SlotIsTaken(w: World, t: Tid, s: Serial, r: Rec) returns (steps: seq<Step>, end: World)
    requires Stands(w, t, Looking) && Shows(w.pool, w.callers[t].ws, s, r)
    requires r.state == Live && r.runner.Some? && s !in w.locks
    ensures Runs(w, steps, end)
    ensures end == w.(callers := w.callers[t := w.callers[t].(pc := Holding(s))], locks := w.locks[s := t])
  {
    var m := Move(t, Fails);
    NothingRuns(w);
    RunsOn(w, [], w, m);
    var w1 := After(w, m);
    assert w1 == w.(callers := w.callers[t := w.callers[t].(pc := Waiting(s))]);
    RunsOn(w, [] + [m], w1, m);
    end := After(w1, m);
    steps := [] + [m] + [m];
    hide Runs;
  }

  /** With an active record that has a runner and whose slot is free: the caller takes the slot, marks
      the record busy with its own command and sends to exactly that record's runner. */
  lemma SendableWorkspaceIsSentTo(w: World, t: Tid, s: Serial, r: Rec) returns (steps: seq<Step>, end: World)
    requires Stands(w, t, Looking) && Shows(w.pool, w.callers[t].ws, s, r)
    requires r.state == Live && r.runner.Some? && s !in w.locks
    ensures Runs(w, steps, end) && Stands(end, t, Sending(s, r.runner.value))
    ensures end == w.(callers := w.callers[t := w.callers[t].(pc := Sending(s, r.runner.value))],
                      locks := w.locks[s := t],
                      pool := w.pool.(recs := w.pool.recs[s := r.(currentCommand := Some(w.callers[t].command))]))
  {
    var before, mid := SlotIsTaken(w, t, s, r);
    var m := Move(t, Fails);
    RunsOn(w, before, mid, m);
    var w3 := After(mid, m);
    RunsOn(w, before + [m], w3, m);
    end := After(w3, m);
    steps := before + [m] + [m];
    hide Runs;
  }

  /** The two last sections of a call that got to send: the busy mark is cleared and the slot freed. */
  lemma ReturnsIdle(w: World, before: seq<Step>, mid: World, t: Tid, s: Serial) returns (steps: seq<Step>, end: World)
    requires Runs(w, before, mid) && Stands(mid, t, Clearing(s))
    ensures Runs(w, steps, end)
    ensures end == mid.(callers := mid.callers - {t}, locks := mid.locks - {s}, pool := end.pool)
    ensures var (p, ws) := (mid.pool, mid.callers[t].ws);
            end.pool == if ws in p.registry && p.registry[ws] < |p.recs|
                        then p.(recs := p.recs[p.registry[ws] := p.recs[p.registry[ws]].(currentCommand := None)])
                        else p
  {
    var m := Move(t, Succeeds);
    RunsOn(w, before, mid, m);
    var mid' := After(mid, m);
    RunsOn(w, before + [m], mid', m);
    end := After(mid', m);
    steps := before + [m] + [m];
    hide Runs;
  }

  lemma SendFails(w: World, t: Tid, s: Serial, r: Rec) returns (steps: seq<Step>, end: World)
    requires r.runner.Some? && Stands(w, t, Sending(s, r.runner.value)) && Shows(w.pool, w.callers[t].ws, s, r)
    ensures Runs(w, steps, end)
    ensures end == w.(callers := w.callers[t := w.callers[t].(pc := Clearing(s))], open := w.open - {r.runner.value},
                      pool := w.pool.(recs := w.pool.recs[s := r.(state := Defunct)]))
  {
    var m := Move(t, Fails);
    NothingRuns(w);
    RunsOn(w, [], w, m);
    var w1 := After(w, m);
    RunsOn(w, [] + [m], w1, m);
    var w2 := After(w1, m);
    RunsOn(w, [] + [m] + [m], w2, m);
    end := After(w2, m);
    steps := [] + [m] + [m] + [m];
    hide Runs;
  }

  /** The send was answered with a failure: the record stays registered, defunct and idle, its runner
      is closed and its slot free. */
  lemma FailedSendLeavesDefunct(w: World, t: Tid, s: Serial, r: Rec) returns (steps: seq<Step>, end: World)
    requires r.runner.Some? && Stands(w, t, Sending(s, r.runner.value)) && Shows(w.pool, w.callers[t].ws, s, r)
    ensures Runs(w, steps, end)
    ensures end == w.(callers := w.callers - {t}, locks := w.locks - {s}, open := w.open - {r.runner.value},
                      pool := w.pool.(recs := w.pool.recs[s := r.(state := Defunct, currentCommand := None)]))
  {
    hide Runs;
    var before, mid := SendFails(w, t, s, r);
    steps, end := ReturnsIdle(w, before, mid, t, s);
    assert end.callers == w.callers - {t};
    assert end.pool.recs == w.pool.recs[s := r.(state := Defunct, currentCommand := None)];
  }

  lemma CleanupIsAnswered(w: World, t: Tid, s: Serial, r: Rec) returns (steps: seq<Step>, end: World)
    requires r.runner.Some? && Stands(w, t, Sending(s, r.runner.value)) && Shows(w.pool, w.callers[t].ws, s, r)
    requires w.callers[t].kind == Cleanup
    ensures Runs(w, steps, end)
    ensures end == w.(callers := w.callers[t := w.callers[t].(pc := Clearing(s))], open := w.open - {r.runner.value},
                      pool := w.pool.(registry := w.pool.registry - {w.callers[t].ws}))
  {
    var m := Move(t, Succeeds);
    NothingRuns(w);
    RunsOn(w, [], w, m);
    var w1 := After(w, m);
    RunsOn(w, [] + [m], w1, m);
    var w2 := After(w1, m);
    RunsOn(w, [] + [m] + [m], w2, m);
    end := After(w2, m);
    steps := [] + [m] + [m] + [m];
    hide Runs;
  }

  /** A cleanup was answered: the workspace is out of the registry, its runner closed and its slot
      free. */
  lemma AnsweredCleanupRemoves(w: World, t: Tid, s: Serial, r: Rec) returns (steps: seq<Step>, end: World)
    requires r.runner.Some? && Stands(w, t, Sending(s, r.runner.value)) && Shows(w.pool, w.callers[t].ws, s, r)
    requires w.callers[t].kind == Cleanup
    ensures Runs(w, steps, end)
    ensures end == w.(callers := w.callers - {t}, locks := w.locks - {s}, open := w.open - {r.runner.value},
                      pool := w.pool.(registry := w.pool.registry - {w.callers[t].ws}))
  {
    hide Runs;
    var before, mid := CleanupIsAnswered(w, t, s, r);
    steps, end := ReturnsIdle(w, before, mid, t, s);
    assert end.callers == w.callers - {t};
  }

  lemma CommandIsAnswered(w: World, t: Tid, s: Serial, r: Rec, path: Option<string>)
    returns (steps: seq<Step>, end: World)
    requires r.runner.Some? && Stands(w, t, Sending(s, r.runner.value)) && Shows(w.pool, w.callers[t].ws, s, r)
    requires w.callers[t].kind != Cleanup
    ensures Runs(w, steps, end)
    ensures var named := w.callers[t].kind == Provision && path.Some? && path.value != "";
            end == w.(callers := w.callers[t := w.callers[t].(pc := Clearing(s))],
                      pool := w.pool.(recs := w.pool.recs[s := r.(path := if named then path.value else r.path)]))
  {
    var m, located := Move(t, Succeeds), Move(t, if path.Some? then Located(path.value) else Succeeds);
    NothingRuns(w);
    RunsOn(w, [], w, m);
    end, steps := After(w, m), [] + [m];
    assert w.pool.recs[s := r] == w.pool.recs;
    if w.callers[t].kind == Provision {
      var w1 := end;
      RunsOn(w, steps, w1, located);
      end, steps := After(w1, located), steps + [located];
    }
    hide Runs;
  }

  /** Any other answered command leaves the record active and idle and its runner open; a provision
      whose answer names a directory leaves it as the record's path. */
  lemma AnsweredCommandLeavesIdle(w: World, t: Tid, s: Serial, r: Rec, path: Option<string>)
    returns (steps: seq<Step>, end: World)
    requires r.runner.Some? && Stands(w, t, Sending(s, r.runner.value)) && Shows(w.pool, w.callers[t].ws, s, r)
    requires w.callers[t].kind != Cleanup
    ensures Runs(w, steps, end)
    ensures var named := w.callers[t].kind == Provision && path.Some? && path.value != "";
            end == w.(callers := w.callers - {t}, locks := w.locks - {s},
                      pool := w.pool.(recs := w.pool.recs[s := r.(currentCommand := None,
                                                                  path := if named then path.value else r.path)]))
  {
    hide Runs;
    var before, mid := CommandIsAnswered(w, t, s, r, path);
    steps, end := ReturnsIdle(w, before, mid, t, s);
    var named := w.callers[t].kind == Provision && path.Some? && path.value != "";
    assert end.callers == w.callers - {t};
    assert end.pool.recs == w.pool.recs[s := r.(currentCommand := None, path := if named then path.value else r.path)];
  }
}
