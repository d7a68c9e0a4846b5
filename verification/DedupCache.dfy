/**
 The agent's replay cache: a bounded LRU over a linked list and an index, changed in
 place, and what it holds after any history of calls.
 */
module DedupCaches {
  import opened Basics
  import opened CommandRows
  import opened CommandQueue

  const DEFAULT_CAPACITY: nat := 1024

  /** `order` has the most recently used id first. */
  datatype Lru = Lru(order: seq<CommandId>, events: map<CommandId, Event>)

  function Drop<T(==)>(s: seq<T>, x: T): seq<T> {
    if s == [] then [] else (if s[0] == x then [] else [s[0]]) + Drop(s[1..], x)
  }

  function Front<T(==)>(s: seq<T>, x: T): seq<T> {
    [x] + Drop(s, x)
  }

  function Store(l: Lru, cap: nat, id: CommandId, event: Event): Lru
    requires cap > 0
  {
    if id in l.order then Lru(Front(l.order, id), l.events[id := event])
    else if |l.order| >= cap then
      var last := |l.order| - 1;
      Lru([id] + l.order[..last], (l.events - {l.order[last]})[id := event])
    else Lru([id] + l.order, l.events[id := event])
  }

  function Lookup(l: Lru, id: CommandId): (Lru, Option<Event>) {
    if id in l.order && id in l.events then (Lru(Front(l.order, id), l.events), Some(l.events[id])) else (l, None)
  }

  predicate Distinct<T(==)>(s: seq<T>) {
    forall i, j :: 0 <= i < j < |s| ==> s[i] != s[j]
  }

  lemma {:induction false} DropAt<T>(s: seq<T>, k: nat)
    requires Distinct(s) && k < |s|
    ensures Drop(s, s[k]) == s[..k] + s[k + 1..]
  {
    if k == 0 {
      DropAbsent(s[1..], s[0]);
    } else {
      DropAt(s[1..], k - 1);
    }
  }

  lemma {:induction false} DropAbsent<T>(s: seq<T>, x: T)
    requires x !in s
    ensures Drop(s, x) == s
  {
    if s != [] {
      DropAbsent(s[1..], x);
    }
  }

  /** Moving an element to the front keeps the elements and their number. */
  lemma FrontOf<T>(s: seq<T>, k: nat)
    requires Distinct(s) && k < |s|
    ensures Front(s, s[k]) == [s[k]] + s[..k] + s[k + 1..]
    ensures Distinct(Front(s, s[k])) && |Front(s, s[k])| == |s|
    ensures forall x :: x in Front(s, s[k]) <==> x in s
  {
    DropAt(s, k);
    var f := [s[k]] + s[..k] + s[k + 1..];
    assert s == s[..k] + [s[k]] + s[k + 1..];
    forall i, j | 0 <= i < j < |f| ensures f[i] != f[j] {
      var a := if i == 0 then k else if i <= k then i - 1 else i;
      var b := if j <= k then j - 1 else j;
      assert f[i] == s[a] && f[j] == s[b];
    }
  }

  // ----- The cache as the supervisor has it -----

  class Element {
    const id: CommandId
    var event: Event

    constructor (id: CommandId, event: Event)
      ensures this.id == id && this.event == event
    {
      this.id, this.event := id, event;
    }
  }

  ghost function Ids(els: seq<Element>): seq<CommandId> {
    seq(|els|, i requires 0 <= i < |els| => els[i].id)
  }

  lemma IdsOfFront(els: seq<Element>, k: nat)
    requires Distinct(Ids(els)) && k < |els|
    ensures Distinct(els) && Distinct(Ids(Front(els, els[k]))) && |Front(els, els[k])| == |els|
    ensures Ids(Front(els, els[k])) == Front(Ids(els), els[k].id)
    ensures forall x :: x in Front(els, els[k]) <==> x in els
  {
    assert forall i :: 0 <= i < |els| ==> Ids(els)[i] == els[i].id;
    FrontOf(els, k);
    FrontOf(Ids(els), k);
    hide Front, Drop, Distinct;
    IdsOfPieces(els, k);
  }

  lemma IdsOfPieces(els: seq<Element>, k: nat)
    requires k < |els|
    ensures Ids([els[k]] + els[..k] + els[k + 1..]) == [Ids(els)[k]] + Ids(els)[..k] + Ids(els)[k + 1..]
  {
  }

  class DedupCache {
    const cap: nat
    var ll: seq<Element>
    var index: map<CommandId, Element>

    ghost predicate Valid()
      reads this, ll
    {
      && cap > 0 && |ll| <= cap
      && Distinct(Ids(ll))
      && (forall id :: id in index ==> index[id] in ll && index[id].id == id)
      && (forall el :: el in ll ==> el.id in index && index[el.id] == el)
    }

    ghost function State(): Lru
      reads this, ll, index.Values
    {
      Lru(Ids(ll), map id | id in index :: index[id].event)
    }

    ghost function Footprint(): set<object>
      reads this
    {
      (set el: Element | el in ll) + {this}
    }

    constructor (capacity: int)
      ensures Valid() && State() == Lru([], map[]) && ll == []
      ensures cap == if capacity <= 0 then 1024 else capacity
    {
      cap := if capacity <= 0 then DEFAULT_CAPACITY else capacity;
      ll, index := [], map[];
    }

    /** The index knows exactly the ids in the list. */
    lemma IndexIsList(id: CommandId)
      requires Valid()
      ensures id in index <==> id in Ids(ll)
      ensures id in index ==> exists k :: 0 <= k < |ll| && ll[k] == index[id] && ll[k].id == id
    {
      if id in index {
        var k :| 0 <= k < |ll| && ll[k] == index[id];
        assert Ids(ll)[k] == id;
      }
      if id in Ids(ll) {
        var k :| 0 <= k < |ll| && Ids(ll)[k] == id;
        assert ll[k] in ll;
      }
    }

    method MoveToFront(el: Element)
      requires Valid() && el in ll
      modifies this`ll
      ensures Valid() && ll == Front(old(ll), el) && Ids(ll) == Front(Ids(old(ll)), el.id)
      ensures forall x :: x in ll <==> x in old(ll)
    {
      ghost var k :| 0 <= k < |ll| && ll[k] == el;
      IdsOfFront(ll, k);
      ll := Front(ll, el);
    }

    method Evict()
      requires Valid() && ll != []
      modifies this
      ensures Valid() && |ll| < cap
      ensures var was := old(State()); var last := |was.order| - 1;
              State() == Lru(was.order[..last], was.events - {was.order[last]})
      ensures forall x :: x in ll ==> x in old(ll)
    {
      var last := |ll| - 1;
      var lru := ll[last];
      assert Ids(ll)[..last] == Ids(ll[..last]);
      forall i | 0 <= i < last ensures ll[i].id != lru.id {
        assert Ids(ll)[i] != Ids(ll)[last];
      }
      assert forall el :: el in ll[..last] ==> el in ll && el.id != lru.id;
      ll := ll[..last];
      index := index - {lru.id};
    }

    method PushFront(id: CommandId, event: Event)
      requires Valid() && |ll| < cap && id !in index
      modifies this
      ensures Valid() && State() == Lru([id] + old(State()).order, old(State()).events[id := event])
      ensures forall x :: x in ll && x !in old(ll) ==> fresh(x)
    {
      var entry := new Element(id, event);
      assert Ids([entry] + ll) == [id] + Ids(ll);
      ll := [entry] + ll;
      index := index[id := entry];
    }

    method StoreEvent(id: CommandId, event: Event)
      requires Valid()
      modifies Footprint()
      ensures Valid() && State() == Store(old(State()), cap, id, event)
      ensures fresh(Footprint() - old(Footprint()))
    {
      IndexIsList(id);
      if id in index {
        var el := index[id];
        el.event := event;
        MoveToFront(el);
        return;
      }
      assert this in Footprint();
      hide Front, Drop, Distinct;
      if |ll| >= cap {
        Evict();
      }
      PushFront(id, event);
    }

    method LookupEvent(id: CommandId) returns (hit: Option<Event>)
      requires Valid()
      modifies this`ll
      ensures Valid() && (State(), hit) == Lookup(old(State()), id)
      ensures Footprint() == old(Footprint())
    {
      IndexIsList(id);
      if id !in index {
        return None;
      }
      var el := index[id];
      MoveToFront(el);
      assert State().events == old(State()).events;
      return Some(el.event);
    }
  }

  // ----- What the cache holds after a history of calls -----

  datatype Op = Stored(id: CommandId, event: Event) | LookedUp(id: CommandId)

  /** The cache after a history of calls, the oldest first. */
  function After(ops: seq<Op>, cap: nat): Lru
    requires cap > 0
    decreases |ops|
  {
    if ops == [] then Lru([], map[])
    else
      var before := After(ops[..|ops| - 1], cap);
      match ops[|ops| - 1]
      case Stored(id, event) => Store(before, cap, id, event)
      case LookedUp(id) => Lookup(before, id).0
  }

  /** The ids the history touched, in order: each store, and each lookup that hit. */
  function Touches(ops: seq<Op>, cap: nat): seq<CommandId>
    requires cap > 0
    decreases |ops|
  {
    if ops == [] then []
    else
      var before := ops[..|ops| - 1];
      var id := ops[|ops| - 1].id;
      Touches(before, cap) + if ops[|ops| - 1].Stored? || id in After(before, cap).order then [id] else []
  }

  function LastStored(ops: seq<Op>, id: CommandId): Option<Event>
    decreases |ops|
  {
    if ops == [] then None
    else if ops[|ops| - 1].Stored? && ops[|ops| - 1].id == id then Some(ops[|ops| - 1].event)
    else LastStored(ops[..|ops| - 1], id)
  }

  /** Every id ever touched, the most recent first: the list an unbounded cache would hold. */
  function Recency(touches: seq<CommandId>): seq<CommandId> {
    if touches == [] then [] else Front(Recency(touches[..|touches| - 1]), touches[|touches| - 1])
  }

  /** The ids touched after the last touch of `id`. */
  function Since(touches: seq<CommandId>, id: CommandId): set<CommandId> {
    if touches == [] || touches[|touches| - 1] == id then {}
    else Since(touches[..|touches| - 1], id) + {touches[|touches| - 1]}
  }

  function Take<T>(s: seq<T>, n: nat): seq<T> {
    if n <= |s| then s[..n] else s
  }

  function Elements<T>(s: seq<T>): set<T> {
    set x | x in s
  }

  lemma {:induction false} RecencyIsDistinct(touches: seq<CommandId>)
    ensures Distinct(Recency(touches))
    ensures forall x :: x in Recency(touches) <==> x in touches
  {
    if touches != [] {
      var n := |touches| - 1;
      RecencyIsDistinct(touches[..n]);
      FrontOfAny(Recency(touches[..n]), touches[n]);
      assert touches == touches[..n] + [touches[n]];
    }
  }

  lemma FrontOfAny(s: seq<CommandId>, x: CommandId)
    requires Distinct(s)
    ensures Distinct(Front(s, x))
    ensures forall y :: y in Front(s, x) <==> y in s || y == x
  {
    if x in s {
      var k :| 0 <= k < |s| && s[k] == x;
      FrontOf(s, k);
    } else {
      DropAbsent(s, x);
    }
  }

  lemma BoundedHit(r: seq<CommandId>, cap: nat, k: nat)
    requires Distinct(r) && k < cap <= |r|
    ensures |Front(r, r[k])| == |r| && Front(r, r[k])[..cap] == Front(r[..cap], r[k])
  {
    FrontOf(r, k);
    FrontOf(r[..cap], k);
    hide Front, Drop, Distinct;
    assert ([r[k]] + r[..k] + r[k + 1..])[..cap] == [r[k]] + r[..k] + r[k + 1..cap];
    assert r[..cap][..k] == r[..k] && r[..cap][k + 1..] == r[k + 1..cap];
  }

  lemma BoundedMiss(r: seq<CommandId>, cap: nat, x: CommandId)
    requires Distinct(r) && 0 < cap <= |r| && x !in r[..cap]
    ensures |Front(r, x)| >= cap && Front(r, x)[..cap] == [x] + r[..cap - 1]
  {
    if x in r {
      var k :| 0 <= k < |r| && r[k] == x;
      assert k >= cap;
      FrontOf(r, k);
      hide Front, Drop, Distinct;
      assert ([x] + r[..k] + r[k + 1..])[..cap] == [x] + r[..cap - 1];
    } else {
      DropAbsent(r, x);
    }
  }

  /** Bounding the list before or after a touch is the same. */
  lemma BoundedTouch(r: seq<CommandId>, cap: nat, x: CommandId)
    requires Distinct(r) && cap > 0
    ensures var kept := Take(r, cap);
            Take(Front(r, x), cap) == if x in kept then Front(kept, x)
                                      else if |kept| >= cap then [x] + kept[..cap - 1]
                                      else [x] + kept
  {
    if cap <= |r| {
      hide Front, Drop;
      if x in r[..cap] {
        var k :| 0 <= k < cap && r[k] == x;
        BoundedHit(r, cap, k);
        FrontOf(r, k);
      } else {
        BoundedMiss(r, cap, x);
      }
    } else if x in r {
      hide Drop;
      var k :| 0 <= k < |r| && r[k] == x;
      FrontOf(r, k);
    } else {
      DropAbsent(r, x);
    }
  }

  /** `l` is the first `cap` ids of `r`, each with an event. */
  predicate Bounds(l: Lru, r: seq<CommandId>, cap: nat) {
    l.order == Take(r, cap) && l.events.Keys == Elements(l.order)
  }

  lemma StoreRefines(l: Lru, r: seq<CommandId>, cap: nat, id: CommandId, event: Event)
    requires cap > 0 && Distinct(r) && Bounds(l, r, cap)
    ensures var l' := Store(l, cap, id, event);
            && Bounds(l', Front(r, id), cap)
            && forall x :: x in l'.events ==> if x == id then l'.events[x] == event
                else x in l.events && l'.events[x] == l.events[x]
  {
    BoundedTouch(r, cap, id);
    StoreKeepsKeys(l, cap, id, event);
    hide Front, Drop, Elements;
  }

  lemma StoreKeepsKeys(l: Lru, cap: nat, id: CommandId, event: Event)
    requires cap > 0 && Distinct(l.order) && l.events.Keys == Elements(l.order)
    ensures Store(l, cap, id, event).events.Keys == Elements(Store(l, cap, id, event).order)
  {
    FrontOfAny(l.order, id);
    hide Front, Drop;
    if id in l.order {
      assert Elements(Front(l.order, id)) == Elements(l.order);
    } else if |l.order| >= cap {
      var last := |l.order| - 1;
      assert l.order == l.order[..last] + [l.order[last]];
      assert Elements([id] + l.order[..last]) == Elements(l.order) - {l.order[last]} + {id};
    } else {
      assert Elements([id] + l.order) == Elements(l.order) + {id};
    }
  }

  lemma LookupRefines(l: Lru, r: seq<CommandId>, cap: nat, id: CommandId)
    requires cap > 0 && Distinct(r) && Bounds(l, r, cap)
    ensures var l' := Lookup(l, id).0;
            && Bounds(l', if id in l.order then Front(r, id) else r, cap)
            && l'.events == l.events
  {
    BoundedTouch(r, cap, id);
    FrontOfAny(l.order, id);
  }

  /** The three histories after one more call. */
  lemma HistoriesUnfold(ops: seq<Op>, cap: nat)
    requires cap > 0 && ops != []
    ensures var (before, op) := (ops[..|ops| - 1], ops[|ops| - 1]);
            && (op.Stored? ==> After(ops, cap) == Store(After(before, cap), cap, op.id, op.event))
            && (op.LookedUp? ==> After(ops, cap) == Lookup(After(before, cap), op.id).0)
            && Touches(ops, cap) == (if op.Stored? || op.id in After(before, cap).order
                then Touches(before, cap) + [op.id]
                                     else Touches(before, cap))
            && forall id :: LastStored(ops, id) == if op.Stored? && op.id == id then Some(op.event)
                else LastStored(before, id)
  {
  }

  /** The cache is the `cap` most recently touched ids, in order of recency, each with the
      event last stored for it. */
  lemma {:induction false} LruRefinesRecency(ops: seq<Op>, cap: nat)
    requires cap > 0
    ensures var l := After(ops, cap);
            && Bounds(l, Recency(Touches(ops, cap)), cap)
            && forall id :: id in l.events ==> Some(l.events[id]) == LastStored(ops, id)
    decreases |ops|
  {
    if ops == [] {
      assert Elements<CommandId>([]) == {};
    } else {
      hide *;
      var n := |ops| - 1;
      var before, touched, id := After(ops[..n], cap), Touches(ops[..n], cap), ops[n].id;
      HistoriesUnfold(ops, cap);
      LruRefinesRecency(ops[..n], cap);
      RecencyIsDistinct(touched);
      RecencyOfOneMore(touched, id);
      if ops[n].Stored? {
        StoreRefines(before, Recency(touched), cap, id, ops[n].event);
      } else {
        LookupRefines(before, Recency(touched), cap, id);
      }
    }
  }

  lemma RecencyOfOneMore(touches: seq<CommandId>, id: CommandId)
    ensures Recency(touches + [id]) == Front(Recency(touches), id)
    ensures touches + [id] != []
  {
    assert (touches + [id])[..|touches|] == touches;
  }

  lemma {:induction false} DistinctCount(s: seq<CommandId>)
    requires Distinct(s)
    ensures |Elements(s)| == |s|
  {
    if s != [] {
      var n := |s| - 1;
      DistinctCount(s[..n]);
      assert Elements(s) == Elements(s[..n]) + {s[n]};
    } else {
      assert Elements(s) == {};
    }
  }

  lemma ElementsOfPieces(a: seq<CommandId>, x: CommandId, b: seq<CommandId>)
    ensures Elements([x] + a + b) == Elements(a + [x] + b) == Elements(a + b) + {x}
    ensures Elements([x] + a) == Elements(a) + {x}
  {
    assert forall y :: y in [x] + a + b <==> y == x || y in a || y in b;
    assert forall y :: y in a + [x] + b <==> y == x || y in a || y in b;
    assert forall y :: y in a + b <==> y in a || y in b;
  }

  /** Moving `x` to the front leaves before `r[j]` what was there, and `x`. */
  lemma RankStep(r: seq<CommandId>, j: nat, x: CommandId) returns (k: nat)
    requires Distinct(r) && j < |r| && r[j] != x
    ensures k < |Front(r, x)| && Front(r, x)[k] == r[j]
    ensures Elements(Front(r, x)[..k]) == Elements(r[..j]) + {x}
  {
    if x in r {
      var i :| 0 <= i < |r| && r[i] == x;
      FrontOf(r, i);
      hide Front, Drop, Distinct, Elements;
      if i < j {
        k := j;
        assert ([x] + r[..i] + r[i + 1..])[..k] == [x] + r[..i] + r[i + 1..j];
        assert r[..j] == r[..i] + [x] + r[i + 1..j];
        ElementsOfPieces(r[..i], x, r[i + 1..j]);
        assert {x} + {x} == {x};
      } else {
        k := j + 1;
        assert ([x] + r[..i] + r[i + 1..])[..k] == [x] + r[..j];
        ElementsOfPieces(r[..j], x, []);
      }
    } else {
      DropAbsent(r, x);
      k := j + 1;
      assert Front(r, x)[..k] == [x] + r[..j];
      ElementsOfPieces(r[..j], x, []);
    }
  }

  /** The place of an id in the recency list is the number of ids touched since. */
  lemma {:induction false} RecencyRank(touches: seq<CommandId>, id: CommandId) returns (k: nat)
    requires id in touches
    ensures k < |Recency(touches)| && Recency(touches)[k] == id
    ensures Since(touches, id) == Elements(Recency(touches)[..k])
  {
    var n := |touches| - 1;
    var r, x := Recency(touches[..n]), touches[n];
    RecencyIsDistinct(touches[..n]);
    assert touches == touches[..n] + [x];
    if x == id {
      k := 0;
    } else {
      var j := RecencyRank(touches[..n], id);
      k := RankStep(r, j, x);
    }
  }

  /** An id is in the cache exactly when it was touched and fewer than `cap` other ids have
      been touched since; a lookup then returns the event last stored for it. */
  lemma RetainedIff(ops: seq<Op>, cap: nat, id: CommandId)
    requires cap > 0
    ensures var touches := Touches(ops, cap);
            && (id in After(ops, cap).order <==> id in touches && |Since(touches, id)| < cap)
            && Lookup(After(ops, cap), id).1 == if id in touches && |Since(touches, id)| < cap
                then LastStored(ops, id) else None
  {
    var touches := Touches(ops, cap);
    LruRefinesRecency(ops, cap);
    RecencyIsDistinct(touches);
    if id in touches {
      var k := RecencyRank(touches, id);
      DistinctCount(Recency(touches)[..k]);
    }
  }

  lemma OneMoreCall(ops: seq<Op>, op: Op, cap: nat)
    requires cap > 0
    ensures op.Stored? ==> After(ops + [op], cap) == Store(After(ops, cap), cap, op.id, op.event)
    ensures op.LookedUp? ==> After(ops + [op], cap) == Lookup(After(ops, cap), op.id).0
    ensures Touches(ops + [op], cap) == if op.Stored? || op.id in After(ops, cap).order then Touches(ops, cap) + [op.id]
        else Touches(ops, cap)
    ensures forall id :: LastStored(ops + [op], id) == if op.Stored? && op.id == id then Some(op.event)
        else LastStored(ops, id)
  {
    assert (ops + [op])[..|ops|] == ops;
  }
}
