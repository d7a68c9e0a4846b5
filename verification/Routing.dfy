/**
 The supervisor's routing of claimed commands through the replay cache, with any number of
 commands being executed at the same time.
 */
module Routing {
  import opened Basics
  import opened CommandRows
  import opened CommandQueue
  import opened DedupCaches
  import QueueRuns

  /** A claimed command as the supervisor routes it, and the terminal event that executing
      it would produce, which bears the token of this claim. */
  datatype Delivery = Delivery(id: CommandId, token: Token, outcome: EventKind, outcomeLabel: string)

  function Fresh(d: Delivery): Event {
    Event(d.id, d.outcome, Some(d.token), d.outcomeLabel)
  }

  datatype Post = Post(delivery: Delivery, event: Event, executed: bool)

  /** The calls made on the cache so far, the routings that missed and are still executing, by
      order of arrival, and what has been posted. */
  datatype Router = Router(ops: seq<Op>, arrived: nat, flying: map<nat, Delivery>, posts: seq<Post>)

  /** A routing looks its command up; if it missed, it executes it, stores the terminal event and
      posts it, or panics and posts a failure that it does not store. */
  datatype Step = Arrive(delivery: Delivery) | Complete(t: nat) | Panic(t: nat)

  const Idle := Router([], 0, map[], [])

  predicate Enabled(r: Router, step: Step) {
    step.Arrive? || step.t in r.flying
  }

  function Cached(r: Router, cap: nat, id: CommandId): Option<Event>
    requires cap > 0
  {
    Lookup(After(r.ops, cap), id).1
  }

  function Failed(d: Delivery): Event {
    Event(d.id, CompletedFailure, Some(d.token), "panic in dispatch")
  }

  function Routed(r: Router, cap: nat, step: Step): Router
    requires cap > 0 && Enabled(r, step)
  {
    match step
    case Arrive(d) =>
      var r' := r.(ops := r.ops + [LookedUp(d.id)], arrived := r.arrived + 1);
      var hit := Cached(r, cap, d.id);
      if hit.Some? then r'.(posts := r.posts + [Post(d, hit.value, false)]) else r'.(flying := r.flying[r.arrived := d])
    case Complete(t) =>
      var d := r.flying[t];
      r.(ops := r.ops + [Stored(d.id, Fresh(d))], flying := r.flying - {t},
          posts := r.posts + [Post(d, Fresh(d), true)])
    case Panic(t) =>
      r.(flying := r.flying - {t}, posts := r.posts + [Post(r.flying[t], Failed(r.flying[t]), true)])
  }

  function Play(r: Router, cap: nat, steps: seq<Step>): Option<Router>
    requires cap > 0
    decreases |steps|
  {
    if steps == [] then Some(r)
    else if Enabled(r, steps[0]) then Play(Routed(r, cap, steps[0]), cap, steps[1..])
    else None
  }

  /** One routing that nothing interrupts; the fresh event stands for what execution returns. */
  method RouteCommand(cache: DedupCache, d: Delivery, ghost r: Router)
    returns (posted: Event, executed: bool, ghost r': Router)
    requires cache.Valid() && cache.State() == After(r.ops, cache.cap) && r.arrived !in r.flying
    modifies cache.Footprint()
    ensures cache.Valid() && cache.State() == After(r'.ops, cache.cap)
    ensures fresh(cache.Footprint() - old(cache.Footprint()))
    ensures Play(r, cache.cap, [Arrive(d)] + if executed then [Complete(r.arrived)] else []) == Some(r')
    ensures executed <==> Cached(r, cache.cap, d.id) == None
    ensures r'.posts == r.posts + [Post(d, posted, executed)] && r'.flying == r.flying
  {
    var cap := cache.cap;
    OneMoreCall(r.ops, LookedUp(d.id), cap);
    OneMoreCall(r.ops + [LookedUp(d.id)], Stored(d.id, Fresh(d)), cap);
    RoutingAlone(r, d, cap);
    assert cache in cache.Footprint();
    hide After, Store, Lookup;
    var cached := cache.LookupEvent(d.id);
    r' := Routed(r, cap, Arrive(d));
    if cached.Some? {
      return cached.value, false, r';
    }
    posted, executed := Fresh(d), true;
    cache.StoreEvent(d.id, posted);
    r' := Routed(r', cap, Complete(r.arrived));
  }

  lemma RoutingAlone(r: Router, d: Delivery, cap: nat)
    requires cap > 0 && r.arrived !in r.flying
    ensures var r1 := Routed(r, cap, Arrive(d));
            if Cached(r, cap, d.id).Some? then Play(r, cap, [Arrive(d)] + []) == Some(r1) && r1.flying == r.flying
            else Enabled(r1, Complete(r.arrived))
                 && Play(r, cap, [Arrive(d)] + [Complete(r.arrived)]) == Some(Routed(r1, cap, Complete(r.arrived)))
                 && Routed(r1, cap, Complete(r.arrived)).flying == r.flying
  {
    var r1 := Routed(r, cap, Arrive(d));
    hide After, Cached;
    assert [Arrive(d)] + [] == [Arrive(d)] && [Arrive(d)][1..] == [];
    assert ([Arrive(d)] + [Complete(r.arrived)])[1..] == [Complete(r.arrived)] && [Complete(r.arrived)][1..] == [];
    if Cached(r, cap, d.id) == None {
      var r2 := Routed(r1, cap, Complete(r.arrived));
      assert r.flying[r.arrived := d] - {r.arrived} == r.flying;
      assert Play(r1, cap, [Complete(r.arrived)]) == Play(r2, cap, []) == Some(r2);
    }
  }

  /** What a routing that missed comes to: it is in flight no more, it has posted one event under its own
      command and token, and only an event it did not panic over has been stored. */
  lemma RoutingEnds(r: Router, t: nat, cap: nat)
    requires cap > 0 && t in r.flying
    ensures var (d, done, lost) := (r.flying[t], Routed(r, cap, Complete(t)), Routed(r, cap, Panic(t)));
            && t !in done.flying && r.flying - {t} == done.flying == lost.flying
            && done.arrived == lost.arrived == r.arrived
            && done.posts == r.posts + [Post(d, Event(d.id, d.outcome, Some(d.token), d.outcomeLabel), true)]
            && done.ops == r.ops + [Stored(d.id, done.posts[|r.posts|].event)]
            && lost.ops == r.ops && |lost.posts| == |r.posts| + 1 && lost.posts[..|r.posts|] == r.posts
            && var post := lost.posts[|r.posts|];
               && post.delivery == d && post.executed && post.event.command == d.id
               && post.event.kind == CompletedFailure && post.event.token == Some(d.token)
  {
  }

  // ----- Whose answer is replayed -----

  /** An arrival is answered from the cache, and its command not executed, exactly when the command
      was stored, or answered from the cache, and fewer than `cap` other ids were stored or answered
      from the cache since; what is posted is then what was last stored for it. */
  lemma ArrivalIsReplayedIff(steps: seq<Step>, d: Delivery, cap: nat)
    requires cap > 0 && Play(Idle, cap, steps).Some?
    ensures var r := Play(Idle, cap, steps).value;
            var r' := Routed(r, cap, Arrive(d));
            var touches := Touches(r.ops, cap);
            && (r'.flying == r.flying <==> d.id in touches && |Since(touches, d.id)| < cap)
            && (d.id in touches && |Since(touches, d.id)| < cap ==>
                  LastStored(r.ops, d.id).Some?
                      && r'.posts == r.posts + [Post(d, LastStored(r.ops, d.id).value, false)])
  {
    var r := Play(Idle, cap, steps).value;
    RetainedIff(r.ops, cap, d.id);
    FlyingArrived(Idle, cap, steps);
    RetainedIsHit(r.ops, cap, d.id);
    hide After, Touches, Since, LastStored, Play;
    assert Cached(r, cap, d.id) == None ==> r.arrived in Routed(r, cap, Arrive(d)).flying && r.arrived !in r.flying;
  }

  lemma {:induction false} FlyingArrived(r: Router, cap: nat, steps: seq<Step>)
    requires cap > 0 && Play(r, cap, steps).Some? && (forall t :: t in r.flying ==> t < r.arrived)
    ensures forall t :: t in Play(r, cap, steps).value.flying ==> t < Play(r, cap, steps).value.arrived
    decreases |steps|
  {
    hide After, Cached;
    if steps != [] {
      FlyingArrived(Routed(r, cap, steps[0]), cap, steps[1..]);
    }
  }

  /** What is in the cache is answered from it. */
  lemma RetainedIsHit(ops: seq<Op>, cap: nat, id: CommandId)
    requires cap > 0
    ensures id in After(ops, cap).order <==> Lookup(After(ops, cap), id).1.Some?
  {
    LruRefinesRecency(ops, cap);
  }

  /** The ids other than `id` in the calls. */
  function Others(ops: seq<Op>, id: CommandId): set<CommandId> {
    set op | op in ops && op.id != id :: op.id
  }

  /** The cache still answers for `id`, and only ids in `others` were touched since. */
  ghost predicate Kept(ops: seq<Op>, cap: nat, id: CommandId, others: set<CommandId>)
    requires cap > 0
  {
    id in Touches(ops, cap) && Since(Touches(ops, cap), id) <= others
  }

  lemma KeptIsHit(ops: seq<Op>, cap: nat, id: CommandId, others: set<CommandId>)
    requires cap > 0 && Kept(ops, cap, id, others) && |others| < cap
    ensures id in After(ops, cap).order && Lookup(After(ops, cap), id).1 == LastStored(ops, id)
        && LastStored(ops, id).Some?
  {
    RetainedIff(ops, cap, id);
    RetainedIsHit(ops, cap, id);
    SubsetIsSmaller(Since(Touches(ops, cap), id), others);
  }

  lemma {:induction false} SubsetIsSmaller(a: set<CommandId>, b: set<CommandId>)
    requires a <= b
    ensures |a| <= |b|
  {
    if a != {} {
      var x :| x in a;
      SubsetIsSmaller(a - {x}, b - {x});
    }
  }

  lemma SinceOneMore(touches: seq<CommandId>, x: CommandId, id: CommandId)
    ensures Since(touches + [x], id) == if x == id then {} else Since(touches, id) + {x}
  {
    assert (touches + [x])[..|touches|] == touches;
  }

  /** One more call about `id` or one of the others keeps it. */
  lemma CallKeeps(ops: seq<Op>, op: Op, cap: nat, id: CommandId, others: set<CommandId>)
    requires cap > 0 && Kept(ops, cap, id, others) && (op.id == id || op.id in others)
    ensures Kept(ops + [op], cap, id, others)
  {
    OneMoreCall(ops, op, cap);
    SinceOneMore(Touches(ops, cap), op.id, id);
    hide After, Touches, Since;
  }

  /** From a call that touched `id` on, `id` stays kept while fewer than `cap` other ids are called. */
  lemma {:induction false} StaysKept(ops: seq<Op>, more: seq<Op>, cap: nat, id: CommandId, others: set<CommandId>)
    requires cap > 0 && Kept(ops, cap, id, others) && Others(more, id) <= others
    ensures Kept(ops + more, cap, id, others)
    decreases |more|
  {
    if more == [] {
      assert ops + more == ops;
    } else {
      var n := |more| - 1;
      assert more[n] in more && (more[n].id != id ==> more[n].id in Others(more, id));
      assert Others(more[..n], id) <= Others(more, id);
      StaysKept(ops, more[..n], cap, id, others);
      assert ops + more == ops + more[..n] + [more[n]];
      hide Kept, Others;
      CallKeeps(ops + more[..n], more[n], cap, id, others);
    }
  }

  /** The step gives the command its answer: it stores it, or answers it from the cache. */
  predicate Settles(r: Router, cap: nat, step: Step, id: CommandId)
    requires cap > 0
  {
    match step
    case Arrive(d) => d.id == id && Cached(r, cap, id).Some?
    case Complete(t) => t in r.flying && r.flying[t].id == id
    case Panic(_) => false
  }

  lemma SettledIsKept(r: Router, cap: nat, step: Step, id: CommandId)
    requires cap > 0 && Enabled(r, step) && Settles(r, cap, step, id)
    ensures var ops := Routed(r, cap, step).ops;
            Kept(ops, cap, id, {}) && LastStored(ops, id) == Some(Routed(r, cap, step).posts[|r.posts|].event)
  {
    var op := if step.Arrive? then LookedUp(id) else Stored(id, Fresh(r.flying[step.t]));
    RetainedIff(r.ops, cap, id);
    RetainedIsHit(r.ops, cap, id);
    OneMoreCall(r.ops, op, cap);
    SinceOneMore(Touches(r.ops, cap), id, id);
    hide After, Touches, Since, LastStored;
  }

  lemma {:induction false} OpsGrow(r: Router, cap: nat, steps: seq<Step>)
    requires cap > 0 && Play(r, cap, steps).Some?
    ensures r.ops <= Play(r, cap, steps).value.ops
    decreases |steps|
  {
    hide After, Cached;
    if steps != [] {
      OpsGrow(Routed(r, cap, steps[0]), cap, steps[1..]);
    }
  }

  lemma {:induction false} SameAnswer(ops: seq<Op>, more: seq<Op>, id: CommandId)
    requires forall op :: op in more && op.id == id ==> op.LookedUp?
    ensures LastStored(ops + more, id) == LastStored(ops, id)
    decreases |more|
  {
    if more == [] {
      assert ops + more == ops;
    } else {
      var n := |more| - 1;
      assert (ops + more)[..|ops + more| - 1] == ops + more[..n] && more[n] in more;
      SameAnswer(ops, more[..n], id);
    }
  }

  /** The calls made on the way. */
  function Meanwhile(r: Router, cap: nat, steps: seq<Step>): seq<Op>
    requires cap > 0 && Play(r, cap, steps).Some?
  {
    OpsGrow(r, cap, steps);
    Play(r, cap, steps).value.ops[|r.ops|..]
  }

  /** However the routings interleave: once a routing of a command has stored its terminal event or
      was answered from the cache, a redelivery is not executed, as long as the calls in between name
      fewer than `cap` other ids; what it posts is what was last stored for the command, and that is
      the first routing's own post unless another routing of the command stored something since. */
  lemma RedeliveryIsReplayed(r: Router, first: Step, more: seq<Step>, again: Delivery, cap: nat)
    requires cap > 0 && Enabled(r, first) && Settles(r, cap, first, again.id)
    requires Play(Routed(r, cap, first), cap, more).Some?
    requires |Others(Meanwhile(Routed(r, cap, first), cap, more), again.id)| < cap
    ensures var r1 := Routed(r, cap, first);
            var r2 := Play(r1, cap, more).value;
            && LastStored(r2.ops, again.id).Some?
            && Routed(r2, cap, Arrive(again)).flying == r2.flying
            && Routed(r2, cap, Arrive(again)).posts
                == r2.posts + [Post(again, LastStored(r2.ops, again.id).value, false)]
            && ((forall op :: op in Meanwhile(r1, cap, more) && op.id == again.id ==> op.LookedUp?) ==>
                  LastStored(r2.ops, again.id).value == r1.posts[|r.posts|].event)
  {
    var r1, id := Routed(r, cap, first), again.id;
    var r2, between := Play(r1, cap, more).value, Meanwhile(r1, cap, more);
    var others := Others(between, id);
    SettledIsKept(r, cap, first, id);
    OpsGrow(r1, cap, more);
    assert r2.ops == r1.ops + between;
    assert Kept(r1.ops, cap, id, others);
    hide Kept, After, LastStored, Others, Settles, Play;
    StaysKept(r1.ops, between, cap, id, others);
    KeptIsHit(r2.ops, cap, id, others);
    if forall op :: op in between && op.id == id ==> op.LookedUp? {
      SameAnswer(r1.ops, between, id);
    }
  }

  /** A redelivery that arrives while the command is still being executed, and is not in the cache,
      is executed as well, and both post an event of their own. */
  lemma DuplicateInFlightRunsTwice(r: Router, t: nat, again: Delivery, cap: nat)
    requires cap > 0 && t in r.flying && r.flying[t].id == again.id && r.arrived !in r.flying
    ensures Cached(r, cap, again.id) == None <==> r.arrived in Routed(r, cap, Arrive(again)).flying
    ensures Cached(r, cap, again.id) == None ==>
              var end := Play(r, cap, [Arrive(again), Complete(t), Complete(r.arrived)]);
              && end.Some?
              && end.value.posts == r.posts
                  + [Post(r.flying[t], Fresh(r.flying[t]), true), Post(again, Fresh(again), true)]
  {
    hide After;
    if Cached(r, cap, again.id) == None {
      var r1 := Routed(r, cap, Arrive(again));
      var r2 := Routed(r1, cap, Complete(t));
      var r3 := Routed(r2, cap, Complete(r.arrived));
      var steps := [Arrive(again), Complete(t), Complete(r.arrived)];
      assert steps[1..][1..][1..] == [] && steps[1..][0] == Complete(t) && steps[1..][1..][0] == Complete(r.arrived);
      assert Play(r2, cap, steps[1..][1..]) == Some(r3);
      assert r3.posts == r.posts + [Post(r.flying[t], Fresh(r.flying[t]), true), Post(again, Fresh(again), true)];
    }
  }

  lemma {:induction false} LastStoredIsThere(ops: seq<Op>, id: CommandId)
    requires LastStored(ops, id).Some?
    ensures Stored(id, LastStored(ops, id).value) in ops
    decreases |ops|
  {
    var n := |ops| - 1;
    if !(ops[n].Stored? && ops[n].id == id) {
      LastStoredIsThere(ops[..n], id);
    }
  }

  /** The event stored for a command bears the token of a claim that was made before `next`. */
  predicate StoredBefore(ops: seq<Op>, id: CommandId, next: Token) {
    forall op :: op in ops && op.Stored? && op.id == id ==>
      op.event.command == id && op.event.token.Some? && op.event.token.value < next
  }

  /** The event replayed for a redelivery bears the token of an earlier claim. The claim that
      redelivered the command has superseded that token, so the control plane refuses the replay
      and changes nothing, then and for ever. */
  lemma ReplayAfterReclaimIsRefused(q: Queue, reclaim: ClaimCall, later: seq<QueueRuns.Step>, reporter: Option<AgentId>,
                                    r: Router, first: Step, more: seq<Step>, again: Delivery, cap: nat)
    requires QueueRuns.Ok(q) && Claim(q, reclaim).1 == Command(again.id, again.token)
    requires cap > 0 && Enabled(r, first) && Settles(r, cap, first, again.id)
    requires Play(Routed(r, cap, first), cap, more).Some?
    requires |Others(Meanwhile(Routed(r, cap, first), cap, more), again.id)| < cap
    requires StoredBefore(Play(Routed(r, cap, first), cap, more).value.ops, again.id, q.nextToken)
    ensures var r2 := Play(Routed(r, cap, first), cap, more).value;
            var posts := Routed(r2, cap, Arrive(again)).posts;
            var q' := QueueRuns.Run(Claim(q, reclaim).0, later);
            && |posts| == |r2.posts| + 1 && posts[..|r2.posts|] == r2.posts
            && var post := posts[|r2.posts|];
               && post.delivery == again && !post.executed && post.event.token != Some(again.token)
               && !Authorized(q', post.event) && RecordEvent(q', post.event, reporter) == q'
  {
    var r2 := Play(Routed(r, cap, first), cap, more).value;
    RedeliveryIsReplayed(r, first, more, again, cap);
    LastStoredIsThere(r2.ops, again.id);
    hide Claim, After, QueueRuns.Ok, QueueRuns.Run, Settles, Play, Others, Cached, LastStored, RecordEvent, Authorized;
    SupersededReplay(q, reclaim, later, reporter, LastStored(r2.ops, again.id).value);
  }

  lemma SupersededReplay(q: Queue, reclaim: ClaimCall, later: seq<QueueRuns.Step>, reporter: Option<AgentId>,
      event: Event)
    requires QueueRuns.Ok(q) && event.token.Some? && event.token.value < q.nextToken
    requires Claim(q, reclaim).1.Command? && Claim(q, reclaim).1.id == event.command
    ensures var q' := QueueRuns.Run(Claim(q, reclaim).0, later);
            && event.token.value != Claim(q, reclaim).1.token
            && !Authorized(q', event) && RecordEvent(q', event, reporter) == q'
  {
    hide Claim, QueueRuns.Ok, QueueRuns.Run;
    var q1 := Claim(q, reclaim).0;
    QueueRuns.ClaimReturnsTheHash(q, reclaim);
    QueueRuns.ClaimMintsItsToken(q, reclaim);
    QueueRuns.SupersededForever(q1, later, event.command, Presented(event));
  }
}
