/**
 Runs of the subscriber registry over all pods: who is watching, what Redis says, what
 each agent socket has been told, and which control messages were lost on the way.
 Opening a socket and a reconcile pass are many steps, one for each read, send and
 publish, and anything may happen between two of them.
 */
module SubscriberRuns {
  import opened Basics
  import opened Subscribers

  /** How far the opening of a socket has come: nothing read yet, or some of the agent's route
      set still to be read, one run counted and not yet routed, and some runs to be replayed. */
  datatype Stand = Unlisted | Listed(todo: seq<RunId>, counted: Option<RunId>, replay: seq<RunId>)

  /** An agent's socket on a pod: what the pod believes the agent streams, and the control
      messages published since it subscribed to the channel and not yet handled. `calm` has the
      runs counted as watched by the opening and neither tracked nor untracked since. */
  datatype Socket = Socket(streaming: set<RunId>, inbox: seq<Control>, opening: Stand, calm: set<RunId>)

  const Opened := Listed([], None, [])

  datatype Ear = Ear(pod: PodId, agent: AgentId)

  /** What a reconcile pass has read of the run it is at. */
  datatype Stage =
    | Between
    | Counted(run: RunId, card: nat)
    | Wanted(run: RunId, subscribe: bool)
    | Ready(control: Control)

  /** The pass over one agent's route set. `calm` says that the run it is at was neither tracked
      nor untracked since its card was read. */
  datatype Pass = Pass(agent: AgentId, todo: seq<RunId>, stage: Stage, calm: bool)

  /** `live` has every open connection of every pod with the time it last stamped its scores;
      `homes` says which workspace and agent each run belongs to. */
  datatype World = World(
    store: Store,
    live: map<RunId, Scores<Member>>,
    homes: map<RunId, Route>,
    sockets: map<Ear, Socket>,
    passes: map<PodId, Pass>,
    log: seq<Envelope>,
    clock: Time)

  /** The awaits of the opening of a socket: the route set, one card, one route, one replay. */
  datatype Reading = ListRoutes(runs: seq<RunId>) | CountRun | RouteRun | ReplayRun(sent: bool)

  /** The awaits of a reconcile pass, and its look at what the pod believes to be streamed. */
  datatype PassMove = Begin(agent: AgentId, runs: seq<RunId>) | Count | Decide | Resolve | Publish | Finish

  datatype Step =
    | Track(run: RunId, member: Member, now: Time)
    | Untrack(run: RunId, member: Member)
    | Beat(run: RunId, member: Member, now: Time)
    | Sweep(now: Time)
    | Open(ear: Ear)
    | Opening(ear: Ear, reading: Reading)
    | Shut(ear: Ear)
    | Deliver(ear: Ear)
    | Lose(ear: Ear)
    | Passing(pod: PodId, move: PassMove)

  /** Every open connection has stamped its scores within the last minute. */
  ghost predicate Timely(w: World, now: Time) {
    forall run, m :: m in Members(w.live, run) ==> now - Members(w.live, run)[m] < STALE_THRESHOLD_SECONDS
  }

  function StageOf(w: World, pod: PodId): Stage {
    if pod in w.passes then w.passes[pod].stage else Between
  }

  ghost predicate MayRead(w: World, agent: AgentId, o: Stand, reading: Reading) {
    match reading
    case ListRoutes(runs) => o.Unlisted? && Lists(runs, Members(w.store.agentRoutes, agent).Keys)
    case CountRun => o.Listed? && o.counted == None && o.todo != []
    case RouteRun => o.Listed? && o.counted.Some?
    case ReplayRun(_) => o.Listed? && o.todo == [] && o.counted == None && o.replay != []
  }

  ghost predicate MayPass(w: World, pod: PodId, move: PassMove) {
    match move
    case Begin(agent, runs) => pod !in w.passes && Lists(runs, Members(w.store.agentRoutes, agent).Keys)
    case Count => pod in w.passes && w.passes[pod].stage.Between? && w.passes[pod].todo != []
    case Decide => StageOf(w, pod).Counted?
    case Resolve => StageOf(w, pod).Wanted?
    case Publish => StageOf(w, pod).Ready?
    case Finish => pod in w.passes && w.passes[pod].stage.Between? && w.passes[pod].todo == []
  }

  ghost predicate Enabled(w: World, step: Step) {
    match step
    case Track(run, member, now) => run in w.homes && member !in Members(w.live, run) && w.clock <= now
    case Untrack(_, _) => true
    case Beat(run, member, now) => member in Members(w.live, run) && run in w.homes && w.clock <= now
    case Sweep(now) => w.clock <= now && Timely(w, now)
    case Open(ear) => ear !in w.sockets
    case Opening(ear, reading) => ear in w.sockets && MayRead(w, ear.agent, w.sockets[ear].opening, reading)
    case Shut(ear) => ear in w.sockets
    case Deliver(ear) => ear in w.sockets && w.sockets[ear].inbox != []
    case Lose(ear) => ear in w.sockets && w.sockets[ear].inbox != []
    case Passing(pod, move) => MayPass(w, pod, move)
  }

  /** The messages for one agent, in the order published. */
  function For(envelopes: seq<Envelope>, agent: AgentId): seq<Control> {
    if envelopes == [] then []
    else (if envelopes[0].agent == agent then [envelopes[0].control] else []) + For(envelopes[1..], agent)
  }

  /** Redis hands a message to every pod subscribed to the agent's channel. */
  function Published(w: World, envelopes: seq<Envelope>): World {
    w.(log := w.log + envelopes,
       sockets := map ear | ear in w.sockets ::
           w.sockets[ear].(inbox := w.sockets[ear].inbox + For(envelopes, ear.agent)))
  }

  function RunOf(stage: Stage): Option<RunId> {
    match stage
    case Between => None
    case Counted(run, _) => Some(run)
    case Wanted(run, _) => Some(run)
    case Ready(control) => Some(control.run)
  }

  /** `run` was tracked or untracked: no reading of it that is under way is calm any more. */
  function Stirred(w: World, run: RunId): World {
    w.(sockets := map ear | ear in w.sockets :: w.sockets[ear].(calm := w.sockets[ear].calm - {run}),
       passes := map pod | pod in w.passes ::
                   w.passes[pod].(calm := w.passes[pod].calm && RunOf(w.passes[pod].stage) != Some(run)))
  }

  function StreamingAt(w: World, ear: Ear): set<RunId> {
    if ear in w.sockets then w.sockets[ear].streaming else {}
  }

  /** What a pass wants of a run it has counted. */
  function Wish(card: nat, streamed: bool, run: RunId): Stage {
    if card >= 1 && !streamed then Wanted(run, true)
    else if card == 0 && streamed then Wanted(run, false)
    else Between
  }

  function ControlOf(subscribe: bool, workspace: WorkspaceId, run: RunId): Control {
    if subscribe then Subscribe(workspace, run) else Unsubscribe(workspace, run)
  }

  function AtSocket(w: World, ear: Ear, s: Socket): World {
    w.(sockets := w.sockets[ear := s])
  }

  function AtPass(w: World, pod: PodId, p: Pass): World {
    w.(passes := w.passes[pod := p])
  }

  /** The steps by which a socket opens. */
  ghost function Read(w: World, agent: AgentId, s: Socket, reading: Reading): Socket
    requires MayRead(w, agent, s.opening, reading)
  {
    var o := s.opening;
    match reading
    case ListRoutes(runs) => s.(opening := Listed(runs, None, []))
    case CountRun =>
      var run, rest := o.todo[0], o.todo[1..];
      if |Members(w.store.subscribers, run)| >= 1
      then s.(opening := Listed(rest, Some(run), o.replay), calm := s.calm + {run})
      else s.(opening := Listed(rest, None, o.replay))
    case RouteRun =>
      var run := o.counted.value;
      s.(opening := Listed(o.todo, None, if run in w.store.routes then o.replay + [run] else o.replay))
    case ReplayRun(sent) =>
      s.(opening := Listed([], None, o.replay[1..]),
         streaming := if sent then s.streaming + {o.replay[0]} else s.streaming)
  }

  /** The steps of a reconcile pass. */
  ghost function Passed(w: World, pod: PodId, move: PassMove): World
    requires MayPass(w, pod, move)
  {
    match move
    case Begin(agent, runs) => AtPass(w, pod, Pass(agent, runs, Between, true))
    case Finish => w.(passes := w.passes - {pod})
    case Count =>
      var p := w.passes[pod];
      AtPass(w, pod, Pass(p.agent, p.todo[1..], Counted(p.todo[0], |Members(w.store.subscribers, p.todo[0])|), true))
    case Decide =>
      var p := w.passes[pod];
      AtPass(w, pod, p.(stage := Wish(p.stage.card, p.stage.run in StreamingAt(w, Ear(pod, p.agent)), p.stage.run)))
    case Resolve =>
      var p := w.passes[pod];
      var run := p.stage.run;
      AtPass(w, pod, p.(stage := if run in w.store.routes
                                 then Ready(ControlOf(p.stage.subscribe, w.store.routes[run].workspace, run))
                                     else Between))
    case Publish =>
      var p := w.passes[pod];
      AtPass(Published(w, [Envelope(p.agent, p.stage.control)]), pod, p.(stage := Between))
  }

  ghost function After(w: World, step: Step): World
    requires Enabled(w, step)
  {
    match step
    case Track(run, member, now) =>
      var route := w.homes[run];
      Stirred(Published(w, [Envelope(route.agent, Subscribe(route.workspace, run))]), run)
      .(store := Tracked(w.store, run, route, member, now), live := Add(w.live, run, member, now), clock := now)
    case Untrack(run, member) =>
      if member !in Members(w.live, run) then w
      else
        var (store, envelopes) := Untracked(w.store, run, member);
        Stirred(Published(w, envelopes), run).(store := store, live := Remove(w.live, run, member))
    case Beat(run, member, now) =>
      w.(store := Beaten(w.store, run, w.homes[run].agent, member, now),
          live := Add(w.live, run, member, now), clock := now)
    case Sweep(now) => w.(store := Swept(w.store, now), clock := now)
    case Open(ear) => AtSocket(w, ear, Socket({}, [], Unlisted, {}))
    case Shut(ear) => w.(sockets := w.sockets - {ear})
    case Deliver(ear) =>
      var s := w.sockets[ear];
      AtSocket(w, ear, s.(streaming := Heard(s.streaming, s.inbox[0]), inbox := s.inbox[1..]))
    case Lose(ear) =>
      var s := w.sockets[ear];
      AtSocket(w, ear, s.(inbox := s.inbox[1..]))
    case Opening(ear, reading) => AtSocket(w, ear, Read(w, ear.agent, w.sockets[ear], reading))
    case Passing(pod, move) => Passed(w, pod, move)
  }

  ghost predicate Runs(w: World, steps: seq<Step>, end: World)
    decreases |steps|
  {
    if steps == [] then w == end
    else Enabled(w, steps[0]) && Runs(After(w, steps[0]), steps[1..], end)
  }

  ghost predicate Startup(w: World) {
    && w.store == Store(map[], map[], map[]) && w.live == map[] && w.log == [] && w.clock >= 0
    && w.sockets == map[] && w.passes == map[]
  }

  // ----- Redis agrees with the open connections -----

  ghost predicate SetIsLive(w: World, run: RunId) {
    && Members(w.store.subscribers, run) == Members(w.live, run)
    && forall m :: m in Members(w.live, run) ==> 0 <= Members(w.live, run)[m] <= w.clock
  }

  predicate Watched(w: World, run: RunId) {
    Members(w.live, run) != map[]
  }

  predicate Routed(w: World, run: RunId) {
    && run in w.homes && run in w.store.routes && w.store.routes[run] == w.homes[run]
    && run in Members(w.store.agentRoutes, w.homes[run].agent)
  }

  /** A watched run has its route and its agent's entry, no older than any of its subscribers. */
  ghost predicate WatchedIsRouted(w: World, run: RunId) {
    Watched(w, run) ==>
      && Routed(w, run)
      && forall m :: m in Members(w.live, run) ==>
          Members(w.live, run)[m] <= Members(w.store.agentRoutes, w.homes[run].agent)[run]
  }

  ghost predicate RoutedIsWatched(w: World, run: RunId, agent: AgentId) {
    && (run in Members(w.store.agentRoutes, agent) ==> Watched(w, run) && run in w.homes && w.homes[run].agent == agent)
    && (run in w.store.routes ==> Watched(w, run))
  }

  ghost predicate Inv(w: World) {
    && w.clock >= 0
    && (forall run :: SetIsLive(w, run))
    && (forall run :: WatchedIsRouted(w, run))
    && (forall run, agent :: RoutedIsWatched(w, run, agent))
  }

  /** A sweep at a time when every connection is timely removes nothing. */
  lemma TimelySweepRemovesNothing(w: World, now: Time)
    requires Inv(w) && Timely(w, now)
    ensures forall run :: Members(Swept(w.store, now).subscribers, run) == Members(w.store.subscribers, run)
    ensures forall agent :: Members(Swept(w.store, now).agentRoutes, agent) == Members(w.store.agentRoutes, agent)
  {
    forall run ensures Members(Swept(w.store, now).subscribers, run) == Members(w.store.subscribers, run) {
      assert SetIsLive(w, run);
    }
    forall agent ensures Members(Swept(w.store, now).agentRoutes, agent) == Members(w.store.agentRoutes, agent) {
      forall run | run in Members(w.store.agentRoutes, agent)
        ensures !IsStale(Members(w.store.agentRoutes, agent)[run], now)
      {
        assert RoutedIsWatched(w, run, agent) && WatchedIsRouted(w, run);
        var m :| m in Members(w.live, run);
      }
    }
  }

  /** All other steps leave Redis and the connections alone. */
  predicate TouchesRedis(step: Step) {
    step.Track? || step.Untrack? || step.Beat? || step.Sweep?
  }

  lemma OthersLeaveRedis(w: World, step: Step)
    requires Enabled(w, step) && !TouchesRedis(step)
    ensures var w' := After(w, step);
            w'.store == w.store && w'.live == w.live && w'.homes == w.homes && w'.clock == w.clock
  {
    if step.Passing? {
      PassesLeaveRedis(w, step.pod, step.move);
    }
    hide Passed, Read, MayRead, MayPass;
  }

  lemma PassesLeaveRedis(w: World, pod: PodId, move: PassMove)
    requires MayPass(w, pod, move)
    ensures var w' := Passed(w, pod, move);
            w'.store == w.store && w'.live == w.live && w'.homes == w.homes && w'.clock == w.clock
  {
  }

  lemma StepKeepsInv(w: World, step: Step)
    requires Inv(w) && Enabled(w, step)
    ensures Inv(After(w, step))
  {
    var w' := After(w, step);
    match step {
      case Sweep(now) => SweepKeepsInv(w, now);
      case Untrack(run, member) => UntrackKeepsInv(w, run, member);
      case Track(run, member, now) => StampKeepsInv(w, step);
      case Beat(run, member, now) => StampKeepsInv(w, step);
      case _ =>
        OthersLeaveRedis(w, step);
        SameRedis(w, w');
    }
  }

  lemma SameRedis(w: World, w': World)
    requires Inv(w) && w'.store == w.store && w'.live == w.live && w'.homes == w.homes && w'.clock == w.clock
    ensures Inv(w')
  {
    forall run ensures SetIsLive(w', run) && WatchedIsRouted(w', run) {
      assert SetIsLive(w, run) && WatchedIsRouted(w, run);
    }
    forall run, agent ensures RoutedIsWatched(w', run, agent) { assert RoutedIsWatched(w, run, agent); }
  }

  lemma SweepKeepsInv(w: World, now: Time)
    requires Inv(w) && Enabled(w, Sweep(now))
    ensures Inv(After(w, Sweep(now)))
  {
    var w' := After(w, Sweep(now));
    TimelySweepRemovesNothing(w, now);
    forall run ensures SetIsLive(w', run) && WatchedIsRouted(w', run) {
      assert SetIsLive(w, run) && WatchedIsRouted(w, run);
    }
    forall run, agent ensures RoutedIsWatched(w', run, agent) { assert RoutedIsWatched(w, run, agent); }
  }

  lemma AddMembers<K, M>(sets: map<K, Scores<M>>, key: K, member: M, score: Time, k: K)
    ensures Members(Add(sets, key, member, score), k) == if k == key then Members(sets, k)[member := score]
        else Members(sets, k)
  {
  }

  lemma RemoveMembers<K, M>(sets: map<K, Scores<M>>, key: K, member: M, k: K)
    ensures Members(Remove(sets, key, member), k) == if k == key then Members(sets, k) - {member} else Members(sets, k)
  {
  }

  /** What a track or a heartbeat leaves of one run and one agent. */
  lemma StampMoves(w: World, step: Step, run: RunId, agent: AgentId)
    requires Enabled(w, step) && (step.Track? || step.Beat?)
    ensures var w' := After(w, step);
            && w'.homes == w.homes && w'.clock == step.now
            && (run != step.run ==>
                Members(w'.store.subscribers, run) == Members(w.store.subscribers, run)
                    && Members(w'.live, run) == Members(w.live, run))
            && (run == step.run ==>
                  && Members(w'.store.subscribers, run) == Members(w.store.subscribers, run)[step.member := step.now]
                  && Members(w'.live, run) == Members(w.live, run)[step.member := step.now])
            && Members(w'.store.agentRoutes, agent)
               == (if agent == w.homes[step.run].agent then Members(w.store.agentRoutes, agent)[step.run := step.now]
                   else Members(w.store.agentRoutes, agent))
            && w'.store.routes == if step.Track? then w.store.routes[step.run := w.homes[step.run]] else w.store.routes
  {
    AddMembers(w.store.subscribers, step.run, step.member, step.now, run);
    AddMembers(w.live, step.run, step.member, step.now, run);
    AddMembers(w.store.agentRoutes, w.homes[step.run].agent, step.run, step.now, agent);
    hide Add, Members;
  }

  lemma StampKeepsInv(w: World, step: Step)
    requires Inv(w) && Enabled(w, step) && (step.Track? || step.Beat?)
    ensures Inv(After(w, step))
  {
    var w' := After(w, step);
    hide After, Members, Add;
    StampMoves(w, step, step.run, 0);
    forall run ensures SetIsLive(w', run) && WatchedIsRouted(w', run) { StampKeepsRun(w, step, run); }
    forall run, agent ensures RoutedIsWatched(w', run, agent) {
      StampMoves(w, step, run, agent);
      assert RoutedIsWatched(w, run, agent);
      assert step.member in Members(w'.live, step.run);
    }
  }

  lemma StampKeepsRun(w: World, step: Step, run: RunId)
    requires Enabled(w, step) && (step.Track? || step.Beat?) && w.clock >= 0
    requires SetIsLive(w, run) && WatchedIsRouted(w, run) && WatchedIsRouted(w, step.run)
    ensures SetIsLive(After(w, step), run) && WatchedIsRouted(After(w, step), run)
  {
    hide After, Members, Add;
    StampMoves(w, step, run, if run in w.homes then w.homes[run].agent else 0);
  }

  /** What the untracking of an open connection leaves of one run and one agent. */
  lemma UntrackMoves(w: World, run: RunId, member: Member, r: RunId, agent: AgentId)
    requires member in Members(w.live, run) && SetIsLive(w, run) && WatchedIsRouted(w, run)
    ensures var w' := After(w, Untrack(run, member));
            && w'.homes == w.homes && w'.clock == w.clock
            && (r != run ==>
                  && Members(w'.store.subscribers, r) == Members(w.store.subscribers, r)
                  && Members(w'.live, r) == Members(w.live, r))
            && (r == run ==>
                  && Members(w'.store.subscribers, r) == Members(w.store.subscribers, r) - {member}
                  && Members(w'.live, r) == Members(w.live, r) - {member})
            && (if |Members(w.live, run) - {member}| == 0 then
                  && w'.store.routes == w.store.routes - {run}
                  && Members(w'.store.agentRoutes, agent) == (if agent == w.homes[run].agent
                      then Members(w.store.agentRoutes, agent) - {run} else Members(w.store.agentRoutes, agent))
                else w'.store.routes == w.store.routes && w'.store.agentRoutes == w.store.agentRoutes)
  {
    RemoveMembers(w.store.subscribers, run, member, r);
    RemoveMembers(w.store.subscribers, run, member, run);
    RemoveMembers(w.live, run, member, r);
    RemoveMembers(w.store.agentRoutes, w.homes[run].agent, run, agent);
    hide Remove, Members;
  }

  lemma UntrackKeepsInv(w: World, run: RunId, member: Member)
    requires Inv(w)
    ensures Inv(After(w, Untrack(run, member)))
  {
    if member in Members(w.live, run) {
      var w' := After(w, Untrack(run, member));
      assert SetIsLive(w, run) && WatchedIsRouted(w, run);
      UntrackMoves(w, run, member, run, 0);
      hide After, Members, SetIsLive, WatchedIsRouted, RoutedIsWatched;
      forall r ensures SetIsLive(w', r) && WatchedIsRouted(w', r) {
        assert SetIsLive(w, r) && WatchedIsRouted(w, r);
        UntrackKeepsRun(w, run, member, r);
      }
      forall r, agent ensures RoutedIsWatched(w', r, agent) {
        assert RoutedIsWatched(w, r, agent);
        UntrackKeepsRoutes(w, run, member, r, agent);
      }
    }
  }

  lemma UntrackKeepsRoutes(w: World, run: RunId, member: Member, r: RunId, agent: AgentId)
    requires member in Members(w.live, run) && SetIsLive(w, run) && WatchedIsRouted(w, run)
    requires RoutedIsWatched(w, r, agent)
    ensures RoutedIsWatched(After(w, Untrack(run, member)), r, agent)
  {
    hide After, Members;
    UntrackMoves(w, run, member, run, agent);
    UntrackMoves(w, run, member, r, agent);
  }

  lemma UntrackKeepsRun(w: World, run: RunId, member: Member, r: RunId)
    requires member in Members(w.live, run) && SetIsLive(w, run) && WatchedIsRouted(w, run)
    requires SetIsLive(w, r) && WatchedIsRouted(w, r)
    ensures SetIsLive(After(w, Untrack(run, member)), r) && WatchedIsRouted(After(w, Untrack(run, member)), r)
  {
    hide After, Members;
    UntrackMoves(w, run, member, r, if r in w.homes then w.homes[r].agent else 0);
  }

  lemma {:induction false} RunKeepsInv(w: World, steps: seq<Step>, end: World)
    requires Inv(w) && Runs(w, steps, end)
    ensures Inv(end)
    decreases |steps|
  {
    if steps != [] {
      StepKeepsInv(w, steps[0]);
      RunKeepsInv(After(w, steps[0]), steps[1..], end);
    }
  }

  lemma StartupIsInv(w: World)
    requires Startup(w)
    ensures Inv(w)
  {
  }

  /** Over every run of every pod: a run's subscriber set is the union of the pods' open
      connections, and while it is not empty the run has its route and its agent's entry. */
  lemma SubscribersAreConnections(w: World, steps: seq<Step>, end: World, run: RunId)
    requires Startup(w) && Runs(w, steps, end)
    ensures Members(end.store.subscribers, run).Keys == Members(end.live, run).Keys
    ensures Watched(end, run) <==> Routed(end, run)
    ensures run in end.store.routes <==> Watched(end, run)
  {
    StartupIsInv(w);
    RunKeepsInv(w, steps, end);
    assert SetIsLive(end, run) && WatchedIsRouted(end, run);
    if run in end.homes { assert RoutedIsWatched(end, run, end.homes[run].agent); }
    assert RoutedIsWatched(end, run, 0);
  }

  /** Tracking puts the member, the route and the agent's entry there, with one score, and nothing else
      changes. */
  lemma TrackIsExact(s: Store, run: RunId, route: Route, member: Member, now: Time, r: RunId, agent: AgentId)
    ensures var s' := Tracked(s, run, route, member, now);
            && s'.routes == s.routes[run := route]
            && Members(s'.subscribers, r)
               == (if r == run then Members(s.subscribers, r)[member := now] else Members(s.subscribers, r))
            && Members(s'.agentRoutes, agent)
               == (if agent == route.agent then Members(s.agentRoutes, agent)[run := now]
                   else Members(s.agentRoutes, agent))
  {
    AddMembers(s.subscribers, run, member, now, r);
    AddMembers(s.agentRoutes, route.agent, run, now, agent);
  }

  /** Untracking takes the member out. If nobody is left and the run has a route, the route and the
      agent's entry go too, and one unsubscribe is announced to that agent; otherwise nothing else
      changes and nothing is announced. */
  lemma UntrackIsExact(s: Store, run: RunId, member: Member, r: RunId, agent: AgentId)
    ensures var (s', sent) := Untracked(s, run, member);
            var last := Members(s.subscribers, run).Keys <= {member} && run in s.routes;
            && Members(s'.subscribers, r)
               == (if r == run then Members(s.subscribers, r) - {member} else Members(s.subscribers, r))
            && (!last ==> s'.routes == s.routes && s'.agentRoutes == s.agentRoutes && sent == [])
            && (last ==>
                  && s'.routes == s.routes - {run}
                  && sent == [Envelope(s.routes[run].agent, Unsubscribe(s.routes[run].workspace, run))]
                  && Members(s'.agentRoutes, agent)
                     == if agent == s.routes[run].agent then Members(s.agentRoutes, agent) - {run}
                        else Members(s.agentRoutes, agent))
  {
    RemoveMembers(s.subscribers, run, member, r);
    RemoveMembers(s.subscribers, run, member, run);
    if run in s.routes {
      RemoveMembers(s.agentRoutes, s.routes[run].agent, run, agent);
    }
    NobodyLeftIff(Members(s.subscribers, run), member);
    hide Members, Remove;
  }

  lemma NobodyLeftIff(scores: Scores<Member>, member: Member)
    ensures |scores - {member}| == 0 <==> scores.Keys <= {member}
  {
    assert (scores - {member}).Keys == scores.Keys - {member};
    if |scores - {member}| == 0 { assert (scores - {member}).Keys == {}; }
  }

  /** Of the steps of a run, a sweep changes Redis as the sweeper does and nothing else; a message that
      is handled or lost is the first of its inbox, and only handling it changes what is streamed. */
  lemma StepsAreExact(w: World, now: Time, ear: Ear)
    ensures Enabled(w, Sweep(now)) ==> After(w, Sweep(now)) == w.(store := Swept(w.store, now), clock := now)
    ensures ear in w.sockets && w.sockets[ear].inbox != [] ==>
              var (s, c) := (w.sockets[ear], w.sockets[ear].inbox[0]);
              && Enabled(w, Deliver(ear)) && Enabled(w, Lose(ear))
              && After(w, Lose(ear)) == w.(sockets := w.sockets[ear := s.(inbox := s.inbox[1..])])
              && After(w, Deliver(ear))
                 == w.(sockets := w.sockets[ear := s.(inbox := s.inbox[1..],
                       streaming := if c.Subscribe? then s.streaming + {c.run} else s.streaming - {c.run})])
  {
  }

  /** A sweep takes out of each scored set exactly the members whose own score is from 0 to 60 seconds
      ago, whatever the other members' scores, and leaves every other score and the routes alone. */
  lemma SweepIsExact(s: Store, now: Time)
    ensures var s' := Swept(s, now);
            && s'.routes == s.routes
            && s'.subscribers.Keys == s.subscribers.Keys && s'.agentRoutes.Keys == s.agentRoutes.Keys
            && (forall run, m :: run in s.subscribers ==>
                  (m in s'.subscribers[run] <==>
                     m in s.subscribers[run] && (s.subscribers[run][m] < 0 || s.subscribers[run][m] > now - 60)))
            && (forall run, m :: run in s.subscribers && m in s'.subscribers[run] ==>
                  s'.subscribers[run][m] == s.subscribers[run][m])
            && (forall agent, run :: agent in s.agentRoutes ==>
                  (run in s'.agentRoutes[agent] <==>
                     run in s.agentRoutes[agent]
                         && (s.agentRoutes[agent][run] < 0 || s.agentRoutes[agent][run] > now - 60)))
            && (forall agent, run :: agent in s.agentRoutes && run in s'.agentRoutes[agent] ==>
                  s'.agentRoutes[agent][run] == s.agentRoutes[agent][run])
  {
  }

  lemma SweepSparesOneIff(w: World, now: Time, run: RunId, m: Member)
    requires Inv(w) && m in Members(w.live, run)
    ensures m in Members(Swept(w.store, now).subscribers, run) <==> now - Members(w.live, run)[m] < 60
  {
    assert SetIsLive(w, run);
    SweepIsExact(w.store, now);
  }

  /** A sweep spares an open connection if and only if it has stamped its own score within the last
      minute, so it spares all of them exactly when each has; it then spares every entry of every
      agent's route set as well. */
  lemma SweepSparesTheLiveIff(w: World, now: Time)
    requires Inv(w)
    ensures forall run, m :: m in Members(w.live, run) ==>
              (m in Members(Swept(w.store, now).subscribers, run) <==> now - Members(w.live, run)[m] < 60)
    ensures Timely(w, now) <==>
        forall run :: Members(Swept(w.store, now).subscribers, run).Keys == Members(w.live, run).Keys
    ensures Timely(w, now) ==> forall agent ::
        Members(Swept(w.store, now).agentRoutes, agent) == Members(w.store.agentRoutes, agent)
  {
    forall run, m | m in Members(w.live, run)
      ensures m in Members(Swept(w.store, now).subscribers, run) <==> now - Members(w.live, run)[m] < 60
    {
      SweepSparesOneIff(w, now, run, m);
    }
    if Timely(w, now) {
      TimelySweepRemovesNothing(w, now);
      forall run ensures Members(Swept(w.store, now).subscribers, run).Keys == Members(w.live, run).Keys {
        assert SetIsLive(w, run);
      }
    } else {
      var run, m :| m in Members(w.live, run) && now - Members(w.live, run)[m] >= STALE_THRESHOLD_SECONDS;
      assert SetIsLive(w, run);
      assert m !in Members(Swept(w.store, now).subscribers, run);
    }
  }
}
