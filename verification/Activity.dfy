/**
 The agent's activity stream: the set of subscribed workspaces, the run each maps to,
 the batcher between them, and the conductor that keeps their order.
 */
module Activity {
  import opened Basics

  type Event = nat

  /** One decoded control message; an old backend sends no run id. */
  datatype Inbound = Subscribe(workspace: WorkspaceId, run: Option<RunId>) | Unsubscribe(workspace: WorkspaceId)

  /** One batch as the flush callback handled it: `run` is `None` when it was dropped for want
      of a mapping. */
  datatype Batch = Batch(workspace: WorkspaceId, events: seq<Event>, run: Option<RunId>)

  type Buffer = map<WorkspaceId, seq<Event>>

  function Of(b: Buffer, k: WorkspaceId): seq<Event> {
    if k in b then b[k] else []
  }

  function Append(b: Buffer, k: WorkspaceId, e: Event): Buffer {
    b[k := Of(b, k) + [e]]
  }

  function MappedTo(mapping: map<WorkspaceId, RunId>, k: WorkspaceId): Option<RunId> {
    if k in mapping then Some(mapping[k]) else None
  }

  // ----- The parts in place -----

  class SubscriptionSet {
    var keys: set<WorkspaceId>

    constructor ()
      ensures keys == {}
    {
      keys := {};
    }

    method Add(key: WorkspaceId)
      modifies this
      ensures keys == old(keys) + {key}
    {
      keys := keys + {key};
    }

    method Remove(key: WorkspaceId)
      modifies this
      ensures keys == old(keys) - {key}
    {
      keys := keys - {key};
    }

    function Contains(key: WorkspaceId): bool
      reads this
    {
      key in keys
    }
  }

  class WorkspaceMapping {
    var m: map<WorkspaceId, RunId>

    constructor ()
      ensures m == map[]
    {
      m := map[];
    }

    method Set(workspace: WorkspaceId, run: RunId)
      modifies this
      ensures m == old(m)[workspace := run]
    {
      m := m[workspace := run];
    }

    function Get(workspace: WorkspaceId): Option<RunId>
      reads this
    {
      MappedTo(m, workspace)
    }

    method Remove(workspace: WorkspaceId)
      modifies this
      ensures m == old(m) - {workspace}
    {
      m := m - {workspace};
    }
  }

  class Conductor {
    const subs: SubscriptionSet
    const mapping: WorkspaceMapping
    var buffer: Buffer
    /** Every batch handed to the flush callback, in order. */
    var flushed: seq<Batch>

    constructor ()
      ensures subs.keys == {} && mapping.m == map[] && buffer == map[] && flushed == []
      ensures fresh(subs) && fresh(mapping)
    {
      subs := new SubscriptionSet();
      mapping := new WorkspaceMapping();
      buffer, flushed := map[], [];
    }

    /** What the two halves of a message work on, before the first of them. */
    ghost function Heard(): Hearing
      reads this, subs, mapping
    {
      Hearing(subs.keys, mapping.m, Idle, {})
    }

    /** A subscribe sets the mapping first, an unsubscribe leaves the set first. */
    method BeginHearing(msg: Inbound)
      modifies subs, mapping
      ensures subs.keys == Begun(old(Heard()), msg).subs && mapping.m == Begun(old(Heard()), msg).mapping
    {
      match msg {
        case Subscribe(workspace, run) =>
          if run.Some? {
            mapping.Set(workspace, run.value);
          }
        case Unsubscribe(workspace) =>
          subs.Remove(workspace);
      }
    }

    method HandleInbound(msg: Inbound)
      modifies subs, mapping
      ensures subs.keys == Finished(Begun(old(Heard()), msg)).subs
          && mapping.m == Finished(Begun(old(Heard()), msg)).mapping
      ensures msg.workspace in subs.keys <==> msg.Subscribe?
      ensures msg.Unsubscribe? ==> mapping.Get(msg.workspace) == None
      ensures msg.Subscribe? ==>
          mapping.Get(msg.workspace) == if msg.run.Some? then msg.run else old(mapping.Get(msg.workspace))
    {
      BeginHearing(msg);
      match msg {
        case Subscribe(workspace, _) =>
          subs.Add(workspace);
        case Unsubscribe(workspace) =>
          mapping.Remove(workspace);
      }
    }

    /** Unsubscribed workspaces are dropped before they are buffered. */
    method Publish(key: WorkspaceId, ev: Event) returns (accepted: bool)
      modifies this`buffer
      ensures accepted <==> key in subs.keys
      ensures !accepted ==> buffer == old(buffer)
      ensures accepted ==>
                && key in buffer && buffer[key] == (if key in old(buffer) then old(buffer)[key] else []) + [ev]
                && buffer - {key} == old(buffer) - {key}
    {
      if !subs.Contains(key) {
        return false;
      }
      buffer := Append(buffer, key, ev);
      assert buffer - {key} == old(buffer) - {key};
      return true;
    }

    method FlushOne(key: WorkspaceId, events: seq<Event>)
      modifies this`flushed
      ensures flushed == old(flushed) + [Batch(key, events, MappedTo(mapping.m, key))]
    {
      flushed := flushed + [Batch(key, events, mapping.Get(key))];
    }

    /** Swaps the buffer out, then flushes it key by key. */
    method Drain()
      modifies this`buffer, this`flushed
      ensures buffer == map[]
      ensures FlushedAllBut(old(flushed), flushed, old(buffer), {}, mapping.m)
    {
      var pending := buffer;
      buffer := map[];
      var keys := pending.Keys;
      while keys != {}
        invariant keys <= pending.Keys && buffer == map[]
        invariant FlushedAllBut(old(flushed), flushed, pending, keys, mapping.m)
        decreases |keys|
      {
        hide *;
        var key :| key in keys;
        FlushesOneMore(old(flushed), flushed, pending, keys, mapping.m, key);
        if pending[key] != [] {
          FlushOne(key, pending[key]);
        }
        keys := keys - {key};
      }
    }
  }

  /** From `before` to `now`, every workspace of `pending` outside `keys` was flushed: exactly its
      events, in order, under the run its mapping names. */
  ghost predicate FlushedAllBut(before: seq<Batch>, now: seq<Batch>, pending: Buffer, keys: set<WorkspaceId>,
      mapping: map<WorkspaceId, RunId>) {
    && before <= now
    && (forall k :: FlushedFor(now, k) == FlushedFor(before, k) + if k in keys then [] else Of(pending, k))
    && (forall i :: |before| <= i < |now| ==> now[i].run == MappedTo(mapping, now[i].workspace) && now[i].events != [])
  }

  lemma FlushesOneMore(before: seq<Batch>, now: seq<Batch>, pending: Buffer, keys: set<WorkspaceId>,
      mapping: map<WorkspaceId, RunId>, key: WorkspaceId)
    requires FlushedAllBut(before, now, pending, keys, mapping) && key in keys && keys <= pending.Keys
    ensures FlushedAllBut(before, if pending[key] == [] then now
        else now + [Batch(key, pending[key], MappedTo(mapping, key))], pending, keys - {key}, mapping)
  {
    var b := Batch(key, pending[key], MappedTo(mapping, key));
    var after := if pending[key] == [] then now else now + [b];
    forall k ensures FlushedFor(after, k) == FlushedFor(before, k) + if k in keys - {key} then [] else Of(pending, k) {
      assert FlushedFor(now, k) == FlushedFor(before, k) + if k in keys then [] else Of(pending, k);
      OneMoreBatch(now, b, k);
      if k == key {
        assert FlushedFor(before, k) + [] == FlushedFor(before, k);
      }
    }
  }

  /** All events flushed for one workspace, in order. */
  function FlushedFor(batches: seq<Batch>, k: WorkspaceId): seq<Event> {
    if batches == [] then []
    else FlushedFor(batches[..|batches| - 1], k) + if batches[|batches| - 1].workspace == k
        then batches[|batches| - 1].events else []
  }

  lemma OneMoreBatch(batches: seq<Batch>, b: Batch, k: WorkspaceId)
    ensures FlushedFor(batches + [b], k) == FlushedFor(batches, k) + if b.workspace == k then b.events else []
  {
    assert (batches + [b])[..|batches|] == batches;
  }

  // ----- Publishers, the flush loop and the inbound reader side by side -----

  type Tid = nat

  /** The inbound reader between its two updates. */
  datatype Reader = Idle | Adding(workspace: WorkspaceId, named: bool) | Unmapping(workspace: WorkspaceId)

  /** The flush loop: ticking, flushing what it swapped out, or done after `Stop`. */
  datatype Loop = Ticking | Flushing(last: bool) | Stopped

  /** What the inbound reader works on. `named` are the workspaces added by a subscribe with a
      run id and not yet removed. */
  datatype Hearing = Hearing(
    subs: set<WorkspaceId>,
    mapping: map<WorkspaceId, RunId>,
    reader: Reader,
    named: set<WorkspaceId>)

  /** `late` says that an event was put in the buffer after the loop's last swap. */
  datatype Machine = Machine(
    hearing: Hearing,
    publishing: map<Tid, (WorkspaceId, Event)>,
    buffer: Buffer,
    pending: Buffer,
    flushed: seq<Batch>,
    loop: Loop,
    stopping: bool,
    late: bool)

  datatype Move =
    | Hear(msg: Inbound)
    | FinishHearing
    | Check(tid: Tid, workspace: WorkspaceId, event: Event)
    | Put(tid: Tid, workspace: WorkspaceId, event: Event)
    | Swap(last: bool)
    | Flush(workspace: WorkspaceId)
    | EndDrain
    | Stop

  /** The first of the two updates of a message. */
  function Begun(h: Hearing, msg: Inbound): Hearing {
    match msg
    case Subscribe(ws, run) =>
      h.(mapping := if run.Some? then h.mapping[ws := run.value] else h.mapping, reader := Adding(ws, run.Some?))
    case Unsubscribe(ws) => h.(subs := h.subs - {ws}, named := h.named - {ws}, reader := Unmapping(ws))
  }

  /** The second. */
  function Finished(h: Hearing): Hearing {
    match h.reader
    case Adding(ws, named) => h.(subs := h.subs + {ws}, named := if named then h.named + {ws}
        else h.named, reader := Idle)
    case Unmapping(ws) => h.(mapping := h.mapping - {ws}, reader := Idle)
    case Idle => h
  }

  predicate Enabled(m: Machine, move: Move) {
    match move
    case Hear(_) => m.hearing.reader.Idle?
    case FinishHearing => !m.hearing.reader.Idle?
    case Check(tid, _, _) => tid !in m.publishing
    case Put(tid, ws, event) => tid in m.publishing && m.publishing[tid] == (ws, event)
    case Swap(last) => m.loop.Ticking? && (last ==> m.stopping)
    case Flush(k) => m.loop.Flushing? && k in m.pending
    case EndDrain => m.loop.Flushing? && m.pending == map[]
    case Stop => true
  }

  function After(m: Machine, move: Move): Machine
    requires Enabled(m, move)
  {
    match move
    case Hear(msg) => m.(hearing := Begun(m.hearing, msg))
    case FinishHearing => m.(hearing := Finished(m.hearing))
    case Check(tid, ws, event) => if ws in m.hearing.subs then m.(publishing := m.publishing[tid := (ws, event)]) else m
    case Put(tid, ws, event) =>
      m.(publishing := m.publishing - {tid}, buffer := Append(m.buffer, ws, event),
         late := m.late || m.loop.Stopped? || (m.loop.Flushing? && m.loop.last))
    case Swap(last) => m.(pending := m.buffer, buffer := map[], loop := Flushing(last))
    case Flush(k) =>
      m.(pending := m.pending - {k},
         flushed := if m.pending[k] == [] then m.flushed
             else m.flushed + [Batch(k, m.pending[k], MappedTo(m.hearing.mapping, k))])
    case EndDrain => m.(loop := if m.loop.last then Stopped else Ticking)
    case Stop => m.(stopping := true)
  }

  function Plays(m: Machine, moves: seq<Move>): Option<Machine>
    decreases |moves|
  {
    if moves == [] then Some(m)
    else if Enabled(m, moves[0]) then Plays(After(m, moves[0]), moves[1..])
    else None
  }

  const Fresh := Machine(Hearing({}, map[], Idle, {}), map[], map[], map[], [], Ticking, false, false)

  ghost predicate LoopOk(m: Machine) {
    && (!m.loop.Flushing? ==> m.pending == map[])
    && ((m.loop.Stopped? || (m.loop.Flushing? && m.loop.last)) && !m.late ==> m.buffer == map[])
  }

  /** Every workspace subscribed with a run id is mapped, in the middle of a message too. */
  ghost predicate NamedIsMapped(h: Hearing) {
    && (forall k :: k in h.named ==> k in h.subs && k in h.mapping)
    && (h.reader.Adding? && h.reader.named ==> h.reader.workspace in h.mapping)
    && (h.reader.Unmapping? ==> h.reader.workspace !in h.named)
  }

  ghost predicate Inv(m: Machine) {
    LoopOk(m) && NamedIsMapped(m.hearing)
  }

  /** The events that the moves put in the buffer for one workspace, in order. */
  function Accepted(moves: seq<Move>, k: WorkspaceId): seq<Event> {
    if moves == [] then []
    else (if moves[0].Put? && moves[0].workspace == k then [moves[0].event] else []) + Accepted(moves[1..], k)
  }

  /** Everything accepted for one workspace, wherever it is now. */
  function Everywhere(m: Machine, k: WorkspaceId): seq<Event> {
    FlushedFor(m.flushed, k) + Of(m.pending, k) + Of(m.buffer, k)
  }

  lemma PutMoves(m: Machine, move: Move, k: WorkspaceId)
    requires move.Put? && Enabled(m, move)
    ensures Everywhere(After(m, move), k) == Everywhere(m, k) + if move.workspace == k then [move.event] else []
  {
    var a, b := FlushedFor(m.flushed, k) + Of(m.pending, k), Of(m.buffer, k);
    if move.workspace == k {
      assert a + (b + [move.event]) == (a + b) + [move.event];
    } else {
      assert (a + b) + [] == a + b;
    }
  }

  lemma FlushMoves(m: Machine, ws: WorkspaceId, k: WorkspaceId)
    requires Enabled(m, Flush(ws))
    ensures Everywhere(After(m, Flush(ws)), k) == Everywhere(m, k)
  {
    var a, p := FlushedFor(m.flushed, k), Of(m.pending, k);
    OneMoreBatch(m.flushed, Batch(ws, m.pending[ws], MappedTo(m.hearing.mapping, ws)), k);
    if ws == k {
      assert (a + p) + [] == a + p && a + [] == a;
    } else {
      assert a + [] == a;
    }
  }

  lemma SwapMoves(m: Machine, last: bool, k: WorkspaceId)
    requires Enabled(m, Swap(last)) && m.pending == map[]
    ensures Everywhere(After(m, Swap(last)), k) == Everywhere(m, k)
  {
    var a, b := FlushedFor(m.flushed, k), Of(m.buffer, k);
    assert (a + []) + b == (a + b) + [];
  }

  lemma OthersMoveNothing(m: Machine, move: Move, k: WorkspaceId)
    requires Enabled(m, move) && !move.Put? && !move.Flush? && !move.Swap?
    ensures Everywhere(After(m, move), k) == Everywhere(m, k)
  {
  }

  lemma MoveConserves(m: Machine, move: Move, k: WorkspaceId)
    requires LoopOk(m) && Enabled(m, move)
    ensures Everywhere(After(m, move), k)
            == Everywhere(m, k) + if move.Put? && move.workspace == k then [move.event] else []
  {
    match move {
      case Put(_, _, _) => PutMoves(m, move, k);
      case Flush(ws) => FlushMoves(m, ws, k);
      case Swap(last) => SwapMoves(m, last, k);
      case _ => OthersMoveNothing(m, move, k);
    }
    hide FlushedFor, Of, Append, Everywhere;
    assert Everywhere(m, k) + [] == Everywhere(m, k);
  }

  lemma MoveKeepsLoop(m: Machine, move: Move)
    requires LoopOk(m) && Enabled(m, move)
    ensures LoopOk(After(m, move))
  {
  }

  lemma HearingKeepsMapped(h: Hearing, msg: Inbound)
    requires NamedIsMapped(h)
    ensures h.reader.Idle? ==> NamedIsMapped(Begun(h, msg))
    ensures NamedIsMapped(Finished(h))
  {
  }

  lemma MoveKeepsInv(m: Machine, move: Move)
    requires Inv(m) && Enabled(m, move)
    ensures Inv(After(m, move))
  {
    MoveKeepsLoop(m, move);
    HearingKeepsMapped(m.hearing, if move.Hear? then move.msg else Unsubscribe(0));
    hide LoopOk, NamedIsMapped, Begun, Finished;
  }

  lemma {:induction false} PlayKeepsInv(m: Machine, moves: seq<Move>)
    requires Inv(m) && Plays(m, moves).Some?
    ensures Inv(Plays(m, moves).value)
    decreases |moves|
  {
    if moves != [] {
      MoveKeepsInv(m, moves[0]);
      PlayKeepsInv(After(m, moves[0]), moves[1..]);
    }
  }

  lemma {:induction false} PlayConserves(m: Machine, moves: seq<Move>, k: WorkspaceId)
    requires Inv(m) && Plays(m, moves).Some?
    ensures Everywhere(Plays(m, moves).value, k) == Everywhere(m, k) + Accepted(moves, k)
    decreases |moves|
  {
    hide Everywhere, After, Enabled;
    if moves == [] {
      assert Everywhere(m, k) + [] == Everywhere(m, k);
    } else {
      MoveKeepsInv(m, moves[0]);
      MoveConserves(m, moves[0], k);
      PlayConserves(After(m, moves[0]), moves[1..], k);
      var a, b := Everywhere(m, k), if moves[0].Put? && moves[0].workspace == k then [moves[0].event] else [];
      assert (a + b) + Accepted(moves[1..], k) == a + (b + Accepted(moves[1..], k));
    }
  }

  /** In every interleaving no event that was put in the buffer is lost, repeated or reordered on its
      way to the flush callback, and once the loop has stopped every event put there before its last
      swap has been flushed. */
  lemma EventsAreConserved(moves: seq<Move>, k: WorkspaceId)
    requires Plays(Fresh, moves).Some?
    ensures var m := Plays(Fresh, moves).value;
            && FlushedFor(m.flushed, k) + Of(m.pending, k) + Of(m.buffer, k) == Accepted(moves, k)
            && (m.loop.Stopped? && !m.late ==> m.buffer == map[] && FlushedFor(m.flushed, k) == Accepted(moves, k))
  {
    PlayKeepsInv(Fresh, moves);
    PlayConserves(Fresh, moves, k);
    assert Everywhere(Fresh, k) == [];
    var m := Plays(Fresh, moves).value;
    hide Plays, Accepted;
    assert FlushedFor(m.flushed, k) + [] + [] == FlushedFor(m.flushed, k);
  }

  /** An event is being published once it has been checked against the subscriptions. */
  ghost predicate WasChecked(moves: seq<Move>, n: nat, tid: Tid, ws: WorkspaceId, event: Event)
    requires n <= |moves|
  {
    exists j :: 0 <= j < n && moves[j] == Check(tid, ws, event)
      && Plays(Fresh, moves[..j]).Some? && ws in Plays(Fresh, moves[..j]).value.hearing.subs
  }

  lemma {:induction false} OneMoreMove(m: Machine, moves: seq<Move>, move: Move)
    requires Plays(m, moves + [move]).Some?
    ensures Plays(m, moves).Some? && Enabled(Plays(m, moves).value, move)
    ensures Plays(m, moves + [move]).value == After(Plays(m, moves).value, move)
    decreases |moves|
  {
    hide Enabled, After;
    if moves == [] {
      assert moves + [move] == [move] && [move][1..] == [];
    } else {
      assert (moves + [move])[1..] == moves[1..] + [move];
      OneMoreMove(After(m, moves[0]), moves[1..], move);
    }
  }

  lemma {:induction false} PublishingWasChecked(moves: seq<Move>)
    requires Plays(Fresh, moves).Some?
    ensures forall tid :: tid in Plays(Fresh, moves).value.publishing ==>
              var (ws, event) := Plays(Fresh, moves).value.publishing[tid];
              WasChecked(moves, |moves|, tid, ws, event)
    decreases |moves|
  {
    if moves != [] {
      var n := |moves| - 1;
      var before, move := moves[..n], moves[n];
      assert moves == before + [move];
      OneMoreMove(Fresh, before, move);
      PublishingWasChecked(before);
      var m := Plays(Fresh, before).value;
      forall tid | tid in After(m, move).publishing
        ensures var (ws, event) := After(m, move).publishing[tid]; WasChecked(moves, |moves|, tid, ws, event)
      {
        var (ws, event) := After(m, move).publishing[tid];
        if move == Check(tid, ws, event) && ws in m.hearing.subs {
          assert moves[n] == Check(tid, ws, event) && moves[..n] == before;
        } else {
          assert tid in m.publishing && m.publishing[tid] == (ws, event);
          var j :| 0 <= j < n && before[j] == Check(tid, ws, event)
            && Plays(Fresh, before[..j]).Some? && ws in Plays(Fresh, before[..j]).value.hearing.subs;
          assert before[..j] == moves[..j] && moves[j] == before[j];
        }
      }
    }
  }

  /** Whatever is put in the buffer was published for that workspace, and the workspace was subscribed
      when the publisher looked. */
  lemma OnlySubscribedIsAccepted(moves: seq<Move>, n: nat)
    requires Plays(Fresh, moves).Some? && n < |moves| && moves[n].Put?
    ensures WasChecked(moves, n, moves[n].tid, moves[n].workspace, moves[n].event)
  {
    PrefixPlays(moves, n);
    var before, p := moves[..n], moves[n];
    PublishingWasChecked(before);
    var j :| 0 <= j < n && before[j] == Check(p.tid, p.workspace, p.event)
      && Plays(Fresh, before[..j]).Some? && p.workspace in Plays(Fresh, before[..j]).value.hearing.subs;
    assert before[..j] == moves[..j] && moves[j] == before[j];
  }

  /** A publisher that looks while its workspace is subscribed gets to put its event in the buffer,
      once; one that looks while it is not has nothing to put. */
  lemma SubscribedIsPut(m: Machine, tid: Tid, ws: WorkspaceId, event: Event)
    requires Enabled(m, Check(tid, ws, event))
    ensures Enabled(After(m, Check(tid, ws, event)), Put(tid, ws, event)) <==> ws in m.hearing.subs
    ensures ws in m.hearing.subs ==>
              var m' := After(After(m, Check(tid, ws, event)), Put(tid, ws, event));
              tid !in m'.publishing && m'.publishing == m.publishing
  {
    assert m.publishing[tid := (ws, event)] - {tid} == m.publishing;
  }

  /** What the two halves of a message do, in their order: a subscribe maps the workspace, if it names
      a run, and only then subscribes it; an unsubscribe ends the subscription and only then the
      mapping. No other workspace is touched. */
  lemma MessageIsExact(h: Hearing, msg: Inbound)
    requires h.reader.Idle?
    ensures var (half, whole) := (Begun(h, msg), Finished(Begun(h, msg)));
            && !half.reader.Idle? && whole.reader.Idle?
            && (msg.Subscribe? ==>
                  && half.subs == h.subs && whole.subs == h.subs + {msg.workspace}
                  && whole.mapping == half.mapping
                  && (msg.run.Some? ==>
                        half.mapping == h.mapping[msg.workspace := msg.run.value] && msg.workspace in whole.named)
                  && (msg.run.None? ==> half.mapping == h.mapping && whole.named == h.named))
            && (msg.Unsubscribe? ==>
                  && half.mapping == h.mapping && whole.mapping == h.mapping - {msg.workspace}
                  && half.subs == whole.subs == h.subs - {msg.workspace}
                  && msg.workspace !in whole.named)
            && whole.named - {msg.workspace} == h.named - {msg.workspace}
  {
  }

  /** The reader's two halves are moves of the machine, whatever else goes on. */
  lemma HearingMoves(m: Machine, msg: Inbound)
    requires m.hearing.reader.Idle?
    ensures Enabled(m, Hear(msg)) && After(m, Hear(msg)) == m.(hearing := Begun(m.hearing, msg))
    ensures var m' := After(m, Hear(msg));
            Enabled(m', FinishHearing) && After(m', FinishHearing) == m.(hearing := Finished(m'.hearing))
  {
    MessageIsExact(m.hearing, msg);
  }

  /** The flush loop alone flushes what it swapped out, key by key. */
  lemma {:induction false} DrainEnds(m: Machine) returns (moves: seq<Move>, end: Machine)
    requires m.loop.Flushing?
    ensures Plays(m, moves) == Some(end) && end.loop == (if m.loop.last then Stopped else Ticking)
    ensures forall i :: 0 <= i < |moves| ==> moves[i].Flush? || moves[i].EndDrain?
    ensures end.buffer == m.buffer && end.stopping == m.stopping && end.late == m.late && end.pending == map[]
    decreases |m.pending|
  {
    if m.pending == map[] {
      moves, end := [EndDrain], After(m, EndDrain);
    } else {
      var k :| k in m.pending;
      var next := After(m, Flush(k));
      assert |next.pending| < |m.pending| by { assert next.pending.Keys == m.pending.Keys - {k}; }
      var rest;
      rest, end := DrainEnds(next);
      moves := [Flush(k)] + rest;
    }
  }

  lemma {:induction false} PlaysOn(m: Machine, a: seq<Move>, b: seq<Move>)
    requires Plays(m, a).Some? && Plays(Plays(m, a).value, b).Some?
    ensures Plays(m, a + b) == Plays(Plays(m, a).value, b)
    decreases |a|
  {
    hide Enabled, After;
    if a == [] {
      assert a + b == b;
    } else {
      assert (a + b)[1..] == a[1..] + b;
      PlaysOn(After(m, a[0]), a[1..], b);
    }
  }

  lemma {:induction false} AcceptedAdds(a: seq<Move>, b: seq<Move>, k: WorkspaceId)
    requires forall i :: 0 <= i < |b| ==> !b[i].Put?
    ensures Accepted(a + b, k) == Accepted(a, k)
    decreases |a| + |b|
  {
    if a != [] {
      assert (a + b)[1..] == a[1..] + b;
      AcceptedAdds(a[1..], b, k);
    } else if b != [] {
      assert a + b == b;
      AcceptedAdds([], b[1..], k);
      assert [] + b[1..] == b[1..];
    } else {
      assert a + b == [];
    }
  }

  /** From every reachable state between two ticks, a stop makes the loop swap once more and flush: it
      ends stopped with nothing buffered, and every event ever put in the buffer has been flushed. */
  lemma StopFlushesAll(moves: seq<Move>) returns (more: seq<Move>, end: Machine)
    requires Plays(Fresh, moves).Some? && Plays(Fresh, moves).value.loop.Ticking?
    ensures Plays(Fresh, moves + more) == Some(end) && end.loop.Stopped? && end.buffer == map[]
    ensures forall i :: 0 <= i < |more| ==> more[i].Stop? || more[i].Swap? || more[i].Flush? || more[i].EndDrain?
    ensures forall k :: FlushedFor(end.flushed, k) == Accepted(moves, k)
  {
    var m := Plays(Fresh, moves).value;
    var m1 := After(m, Stop);
    var m2 := After(m1, Swap(true));
    var rest;
    rest, end := DrainEnds(m2);
    more := [Stop] + ([Swap(true)] + rest);
    assert Plays(m1, [Swap(true)] + rest) == Plays(m2, rest) by { assert ([Swap(true)] + rest)[1..] == rest; }
    assert Plays(m, more) == Some(end) by { assert more[1..] == [Swap(true)] + rest; }
    PlaysOn(Fresh, moves, more);
    PlayKeepsInv(Fresh, moves + more);
    forall k ensures FlushedFor(end.flushed, k) == Accepted(moves, k) {
      EventsAreConserved(moves + more, k);
      AcceptedAdds(moves, more, k);
      assert FlushedFor(end.flushed, k) + [] + [] == FlushedFor(end.flushed, k);
    }
  }

  lemma {:induction false} PrefixPlays(moves: seq<Move>, n: nat)
    requires Plays(Fresh, moves).Some? && n < |moves|
    ensures Plays(Fresh, moves[..n]).Some? && Enabled(Plays(Fresh, moves[..n]).value, moves[n])
    decreases |moves|
  {
    hide Enabled, After;
    var last := |moves| - 1;
    assert moves == moves[..last] + [moves[last]];
    OneMoreMove(Fresh, moves[..last], moves[last]);
    if n < last {
      PrefixPlays(moves[..last], n);
      assert moves[..last][..n] == moves[..n];
    }
  }

  /** At every intermediate step a workspace subscribed with a run id is mapped, so a batch
      flushed for it is sent; a batch is dropped only for a workspace whose subscription has
      ended or never named a run. */
  lemma SubscribedIsMapped(moves: seq<Move>, k: WorkspaceId)
    requires Plays(Fresh, moves).Some?
    ensures var m := Plays(Fresh, moves).value;
            && (k in m.hearing.named ==> k in m.hearing.subs && k in m.hearing.mapping)
            && (Enabled(m, Flush(k)) && m.pending[k] != [] && k in m.hearing.named ==>
                  After(m, Flush(k)).flushed == m.flushed + [Batch(k, m.pending[k], Some(m.hearing.mapping[k]))])
  {
    PlayKeepsInv(Fresh, moves);
  }
}
