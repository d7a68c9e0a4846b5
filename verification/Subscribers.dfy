/**
 The cross-pod subscriber registry: scored sets in Redis that every pod writes, and on
 each pod its own connections, its agent sockets and what those agents are streaming.
 Track, untrack and heartbeat are each one atomic step on Redis.
 */
module Subscribers {
  import opened Basics

  const STALE_THRESHOLD_SECONDS: Time := 60

  type PodId = nat
  type ConnId = nat

  /** A member of a run's subscriber set: `{pod}:{connection}`. */
  datatype Member = Member(pod: PodId, conn: ConnId)

  datatype Route = Route(workspace: WorkspaceId, agent: AgentId)

  datatype Control = Subscribe(workspace: WorkspaceId, run: RunId) | Unsubscribe(workspace: WorkspaceId, run: RunId)

  /** A control message on its agent's channel. */
  datatype Envelope = Envelope(agent: AgentId, control: Control)

  type Scores<K> = map<K, Time>

  /** To every reader an empty scored set and a missing key are the same. */
  datatype Store = Store(
    subscribers: map<RunId, Scores<Member>>,
    routes: map<RunId, Route>,
    agentRoutes: map<AgentId, Scores<RunId>>)

  function Members<K, M>(sets: map<K, Scores<M>>, key: K): Scores<M> {
    if key in sets then sets[key] else map[]
  }

  function Add<K, M>(sets: map<K, Scores<M>>, key: K, member: M, score: Time): map<K, Scores<M>> {
    sets[key := Members(sets, key)[member := score]]
  }

  function Remove<K, M>(sets: map<K, Scores<M>>, key: K, member: M): map<K, Scores<M>> {
    sets[key := Members(sets, key) - {member}]
  }

  // ----- What the calls do to Redis -----

  function Tracked(s: Store, run: RunId, route: Route, member: Member, now: Time): Store {
    Store(Add(s.subscribers, run, member, now),
          s.routes[run := route],
          Add(s.agentRoutes, route.agent, run, now))
  }

  /** Removes one member; the last one takes the route with it and is announced. */
  function Untracked(s: Store, run: RunId, member: Member): (Store, seq<Envelope>) {
    var s1 := s.(subscribers := Remove(s.subscribers, run, member));
    if |Members(s1.subscribers, run)| == 0 && run in s.routes then
      var route := s.routes[run];
      (s1.(routes := s.routes - {run}, agentRoutes := Remove(s.agentRoutes, route.agent, run)),
       [Envelope(route.agent, Unsubscribe(route.workspace, run))])
    else (s1, [])
  }

  function Beaten(s: Store, run: RunId, agent: AgentId, member: Member, now: Time): Store {
    s.(subscribers := Add(s.subscribers, run, member, now),
       agentRoutes := Add(s.agentRoutes, agent, run, now))
  }

  predicate IsStale(score: Time, now: Time) {
    0 <= score <= now - STALE_THRESHOLD_SECONDS
  }

  function Kept<M>(scores: Scores<M>, now: Time): Scores<M> {
    map m | m in scores && !IsStale(scores[m], now) :: scores[m]
  }

  function Swept(s: Store, now: Time): Store {
    s.(subscribers := map run | run in s.subscribers :: Kept(s.subscribers[run], now),
       agentRoutes := map agent | agent in s.agentRoutes :: Kept(s.agentRoutes[agent], now))
  }

  /** What one reconcile pass publishes for one run of the agent's route set. */
  function Repair(s: Store, streaming: set<RunId>, agent: AgentId, run: RunId): seq<Envelope> {
    var card := |Members(s.subscribers, run)|;
    if run !in s.routes then []
    else if card >= 1 && run !in streaming then [Envelope(agent, Subscribe(s.routes[run].workspace, run))]
    else if card == 0 && run in streaming then [Envelope(agent, Unsubscribe(s.routes[run].workspace, run))]
    else []
  }

  function Repairs(s: Store, streaming: set<RunId>, agent: AgentId, runs: seq<RunId>): seq<Envelope> {
    if runs == [] then []
    else Repairs(s, streaming, agent, runs[..|runs| - 1]) + Repair(s, streaming, agent, runs[|runs| - 1])
  }

  /** What a control message does to the set of runs the agent streams. */
  function Heard(streaming: set<RunId>, c: Control): set<RunId> {
    match c
    case Subscribe(_, run) => streaming + {run}
    case Unsubscribe(_, run) => streaming - {run}
  }

  // ----- Redis and the pods in place -----

  class Redis {
    var subscribers: map<RunId, Scores<Member>>
    var routes: map<RunId, Route>
    var agentRoutes: map<AgentId, Scores<RunId>>
    var published: seq<Envelope>

    function State(): Store
      reads this
    {
      Store(subscribers, routes, agentRoutes)
    }

    constructor ()
      ensures State() == Store(map[], map[], map[]) && published == []
    {
      subscribers, routes, agentRoutes, published := map[], map[], map[], [];
    }

    /** What untracking does here: the last member takes the route along and is announced. */
    method DropMember(run: RunId, target: Member)
      modifies this
      ensures State() == Untracked(old(State()), run, target).0
      ensures published == old(published) + Untracked(old(State()), run, target).1
    {
      subscribers := Remove(subscribers, run, target);
      if |Members(subscribers, run)| == 0 {
        if run in routes {
          var route := routes[run];
          published := published + [Envelope(route.agent, Unsubscribe(route.workspace, run))];
          routes := routes - {run};
          agentRoutes := Remove(agentRoutes, route.agent, run);
        }
      }
    }

    /** The sweeper task: both families of scored sets, key by key. */
    method RunSweeper(now: Time)
      modifies this`subscribers, this`agentRoutes
      ensures State() == Swept(old(State()), now)
    {
      subscribers := SweepSets(subscribers, now);
      agentRoutes := SweepSets(agentRoutes, now);
    }

    static method SweepSets<K, M>(sets: map<K, Scores<M>>, now: Time) returns (kept: map<K, Scores<M>>)
      ensures kept == map key | key in sets :: Kept(sets[key], now)
    {
      kept := sets;
      var keys := sets.Keys;
      while keys != {}
        invariant keys <= sets.Keys && kept.Keys == sets.Keys
        invariant forall key :: key in sets ==> kept[key] == if key in keys then sets[key] else Kept(sets[key], now)
        decreases |keys|
      {
        var key :| key in keys;
        keys := keys - {key};
        kept := kept[key := Kept(kept[key], now)];
      }
    }
  }

  class SubscriberRegistry {
    const pod: PodId
    const redis: Redis
    var connections: map<RunId, set<Member>>
    var senders: set<AgentId>
    var streaming: map<AgentId, set<RunId>>

    constructor (pod: PodId, redis: Redis)
      ensures this.pod == pod && this.redis == redis
      ensures connections == map[] && senders == {} && streaming == map[]
    {
      this.pod, this.redis := pod, redis;
      connections, senders, streaming := map[], {}, map[];
    }

    function Connected(run: RunId): set<Member>
      reads this
    {
      if run in connections then connections[run] else {}
    }

    function Streaming(agent: AgentId): set<RunId>
      reads this
    {
      if agent in streaming then streaming[agent] else {}
    }

    method Track(run: RunId, route: Route, conn: ConnId, now: Time)
      modifies this`connections, redis
      ensures redis.State() == Tracked(old(redis.State()), run, route, Member(pod, conn), now)
      ensures redis.published == old(redis.published) + [Envelope(route.agent, Subscribe(route.workspace, run))]
      ensures forall r :: Connected(r) == if r == run then old(Connected(r)) + {Member(pod, conn)}
          else old(Connected(r))
    {
      var member := Member(pod, conn);
      connections := connections[run := Connected(run) + {member}];
      redis.subscribers := Add(redis.subscribers, run, member, now);
      redis.routes := redis.routes[run := route];
      redis.agentRoutes := Add(redis.agentRoutes, route.agent, run, now);
      redis.published := redis.published + [Envelope(route.agent, Subscribe(route.workspace, run))];
    }

    /** A connection this pod does not hold is ignored. */
    method Untrack(run: RunId, conn: ConnId)
      modifies this`connections, redis
      ensures Member(pod, conn) !in old(Connected(run)) ==>
                redis.State() == old(redis.State()) && redis.published == old(redis.published)
      ensures Member(pod, conn) in old(Connected(run)) ==>
                && redis.State() == Untracked(old(redis.State()), run, Member(pod, conn)).0
                && redis.published == old(redis.published) + Untracked(old(redis.State()), run, Member(pod, conn)).1
      ensures forall r :: Connected(r) == if r == run then old(Connected(r)) - {Member(pod, conn)}
          else old(Connected(r))
    {
      hide Untracked;
      var target := Member(pod, conn);
      if target !in Connected(run) {
        return;
      }
      redis.DropMember(run, target);
      var left := connections[run] - {target};
      connections := if left == {} then connections - {run} else connections[run := left];
    }

    method Heartbeat(run: RunId, conn: ConnId, agent: AgentId, now: Time)
      modifies redis`subscribers, redis`agentRoutes
      ensures redis.State() == Beaten(old(redis.State()), run, agent, Member(pod, conn), now)
    {
      redis.subscribers := Add(redis.subscribers, run, Member(pod, conn), now);
      redis.agentRoutes := Add(redis.agentRoutes, agent, run, now);
    }

    /** One message off the agent's channel. */
    method HandleControl(agent: AgentId, control: Control)
      modifies this`streaming
      ensures forall a :: Streaming(a) == if a == agent then Heard(old(Streaming(a)), control) else old(Streaming(a))
    {
      streaming := streaming[agent := Heard(Streaming(agent), control)];
    }

    /** One reconcile pass: for every agent with a socket here, every run of its route set. */
    method ReconcileOnce() returns (agents: seq<AgentId>, runs: seq<seq<RunId>>)
      modifies redis`published
      ensures Lists(agents, senders) && ListsEach(runs, agents, redis.agentRoutes)
      ensures redis.published == old(redis.published) + AllRepairs(redis.State(), streaming, agents, runs)
    {
      ghost var was, store, sent := redis.published, redis.State(), [];
      ghost var routes := redis.agentRoutes;
      agents, runs := [], [];
      var rest := senders;
      while rest != {}
        invariant rest <= senders
        invariant Lists(agents, senders - rest) && ListsEach(runs, agents, routes)
        invariant redis.published == was + sent && sent == AllRepairs(store, streaming, agents, runs)
        decreases |rest|
      {
        hide *;
        var agent :| agent in rest;
        ghost var before := redis.published;
        var listed := ReconcileAgent(agent);
        ghost var more := Repairs(store, Streaming(agent), agent, listed);
        assert redis.published == before + more;
        Associates(was, sent, more);
        AllRepairsOneMore(store, streaming, agents, runs, agent, listed);
        ListsOneMore(agents, senders, rest, agent);
        ListsEachOneMore(runs, agents, routes, listed, agent);
        rest := rest - {agent};
        agents, runs, sent := agents + [agent], runs + [listed], sent + more;
      }
      assert senders - rest == senders;
    }

    method ReconcileAgent(agent: AgentId) returns (listed: seq<RunId>)
      modifies redis`published
      ensures Lists(listed, Members(redis.agentRoutes, agent).Keys)
      ensures redis.published == old(redis.published) + Repairs(redis.State(), Streaming(agent), agent, listed)
    {
      listed := [];
      ghost var was, store, heard, sent := redis.published, redis.State(), Streaming(agent), [];
      var routed := Members(redis.agentRoutes, agent).Keys;
      var pending := routed;
      while pending != {}
        invariant pending <= routed
        invariant Lists(listed, routed - pending)
        invariant redis.published == was + sent && sent == Repairs(store, heard, agent, listed)
        decreases |pending|
      {
        hide *;
        var run :| run in pending;
        ReconcileRun(agent, run);
        ghost var more := Repair(store, heard, agent, run);
        Associates(was, sent, more);
        RepairsOneMore(store, heard, agent, listed, run);
        ListsOneMore(listed, routed, pending, run);
        pending := pending - {run};
        listed, sent := listed + [run], sent + more;
      }
      assert routed - pending == routed;
    }

    method ReconcileRun(agent: AgentId, run: RunId)
      modifies redis`published
      ensures redis.published == old(redis.published) + Repair(redis.State(), Streaming(agent), agent, run)
    {
      var card := |Members(redis.subscribers, run)|;
      var isStreaming := run in Streaming(agent);
      if card >= 1 && !isStreaming {
        if run in redis.routes {
          redis.published := redis.published + [Envelope(agent, Subscribe(redis.routes[run].workspace, run))];
        }
      } else if card == 0 && isStreaming {
        if run in redis.routes {
          redis.published := redis.published + [Envelope(agent, Unsubscribe(redis.routes[run].workspace, run))];
        }
      }
    }
  }

  /** `s` enumerates `elements`, each once. */
  ghost predicate Lists<T(!new)>(s: seq<T>, elements: set<T>) {
    && (forall x :: x in s <==> x in elements)
    && (forall i, j :: 0 <= i < j < |s| ==> s[i] != s[j])
  }

  ghost predicate ListsEach(runs: seq<seq<RunId>>, agents: seq<AgentId>, agentRoutes: map<AgentId, Scores<RunId>>) {
    |runs| == |agents| && forall i :: 0 <= i < |agents| ==> Lists(runs[i], Members(agentRoutes, agents[i]).Keys)
  }

  lemma ListsEachOneMore(runs: seq<seq<RunId>>, agents: seq<AgentId>, agentRoutes: map<AgentId, Scores<RunId>>,
                         listed: seq<RunId>, agent: AgentId)
    requires ListsEach(runs, agents, agentRoutes) && Lists(listed, Members(agentRoutes, agent).Keys)
    ensures |runs| == |agents| && ListsEach(runs + [listed], agents + [agent], agentRoutes)
  {
  }

  lemma Associates<T>(a: seq<T>, b: seq<T>, c: seq<T>)
    ensures (a + b) + c == a + (b + c)
  {
  }

  lemma ListsOneMore<T(!new)>(s: seq<T>, all: set<T>, rest: set<T>, x: T)
    requires Lists(s, all - rest) && x in rest && rest <= all
    ensures Lists(s + [x], all - (rest - {x}))
  {
  }

  lemma RepairsOneMore(s: Store, streaming: set<RunId>, agent: AgentId, runs: seq<RunId>, run: RunId)
    ensures Repairs(s, streaming, agent, runs + [run])
        == Repairs(s, streaming, agent, runs) + Repair(s, streaming, agent, run)
  {
    assert (runs + [run])[..|runs|] == runs;
  }

  function AllRepairs(s: Store, streaming: map<AgentId, set<RunId>>, agents: seq<AgentId>,
      runs: seq<seq<RunId>>): seq<Envelope> {
    if agents == [] || |runs| != |agents| then []
    else
      var n := |agents| - 1;
      AllRepairs(s, streaming, agents[..n], runs[..n])
      + Repairs(s, if agents[n] in streaming then streaming[agents[n]] else {}, agents[n], runs[n])
  }

  lemma AllRepairsOneMore(s: Store, streaming: map<AgentId, set<RunId>>, agents: seq<AgentId>, runs: seq<seq<RunId>>,
                          agent: AgentId, listed: seq<RunId>)
    requires |runs| == |agents|
    ensures AllRepairs(s, streaming, agents + [agent], runs + [listed])
            == AllRepairs(s, streaming, agents, runs) + Repairs(s, if agent in streaming then streaming[agent]
                else {}, agent, listed)
  {
    assert (agents + [agent])[..|agents|] == agents && (runs + [listed])[..|runs|] == runs;
  }
}
