/**
 What becomes of the control messages, in every interleaving of tracking, socket openings,
 reconcile passes, deliveries and losses: how many are published, when a pod's belief
 matches what is watched, and what one pass repairs.
 */
module SubscriberDelivery {
  import opened Basics
  import opened Subscribers
  import opened SubscriberRuns

  // ----- What passes and openings know -----

  predicate HomedAt(w: World, run: RunId, agent: AgentId) {
    run in w.homes && w.homes[run].agent == agent
  }

  predicate AllHomed(w: World, runs: seq<RunId>, agent: AgentId) {
    forall i :: 0 <= i < |runs| ==> HomedAt(w, runs[i], agent)
  }

  /** A stage that nothing disturbed tells the truth about its run. */
  predicate StageTrue(w: World, stage: Stage) {
    match stage
    case Between => true
    case Counted(run, card) => card >= 1 <==> Watched(w, run)
    case Wanted(run, subscribe) => subscribe <==> Watched(w, run)
    case Ready(control) => control.Subscribe? && Watched(w, control.run)
  }

  predicate PassOk(w: World, p: Pass) {
    && AllHomed(w, p.todo, p.agent)
    && (RunOf(p.stage).Some? ==> HomedAt(w, RunOf(p.stage).value, p.agent))
    && (p.calm ==> StageTrue(w, p.stage))
  }

  predicate OpeningOk(w: World, agent: AgentId, s: Socket) {
    && (s.opening.Listed? ==>
          && AllHomed(w, s.opening.todo, agent) && AllHomed(w, s.opening.replay, agent)
          && (s.opening.counted.Some? ==> HomedAt(w, s.opening.counted.value, agent)))
    && (forall run :: run in s.calm ==> Watched(w, run))
  }

  ghost predicate ReadsOk(w: World) {
    && (forall pod :: pod in w.passes ==> PassOk(w, w.passes[pod]))
    && (forall ear :: ear in w.sockets ==> OpeningOk(w, ear.agent, w.sockets[ear]))
  }

  /** The step changes who is watching. */
  predicate Counts(w: World, step: Step) {
    step.Track? || (step.Untrack? && step.member in Members(w.live, step.run))
  }

  lemma LiveMoves(w: World, step: Step)
    requires Enabled(w, step)
    ensures After(w, step).homes == w.homes
    ensures After(w, step).live == (if step.Track? || step.Beat? then Add(w.live, step.run, step.member, step.now)
                                    else if Counts(w, step) then Remove(w.live, step.run, step.member)
                                    else w.live)
    ensures !Counts(w, step) && step.Untrack? ==> After(w, step) == w
  {
    if !TouchesRedis(step) {
      OthersLeaveRedis(w, step);
    }
    hide Passed, Read, MayRead, MayPass, Published, Untracked, Tracked, Timely;
  }

  /** Only tracking and untracking a run changes whether it is watched. */
  lemma WatchMoves(w: World, step: Step, run: RunId)
    requires Enabled(w, step)
    ensures After(w, step).homes == w.homes
    ensures !(Counts(w, step) && step.run == run) ==> (Watched(After(w, step), run) <==> Watched(w, run))
    ensures step.Track? && step.run == run ==> Watched(After(w, step), run)
    ensures step.Untrack? && step.run == run && Counts(w, step) ==>
              (Watched(After(w, step), run) <==> Members(w.live, run).Keys != {step.member})
  {
    LiveMoves(w, step);
    if step.Track? || step.Beat? {
      AddMembers(w.live, step.run, step.member, step.now, run);
      assert step.Beat? ==> step.member in Members(w.live, step.run);
      assert step.member in Members(w.live, step.run)[step.member := step.now];
    } else if Counts(w, step) {
      RemoveMembers(w.live, step.run, step.member, run);
      LeftEmptyIff(Members(w.live, step.run), step.member);
    }
    hide After, Enabled, Add, Remove;
  }

  lemma LeftEmptyIff(live: Scores<Member>, member: Member)
    requires member in live
    ensures live - {member} == map[] <==> live.Keys == {member}
    ensures |live - {member}| == 0 <==> live.Keys == {member}
  {
    var left := live - {member};
    assert left.Keys == live.Keys - {member};
    if |left| == 0 { assert left.Keys == {}; }
  }

  lemma PassesMove(w: World, step: Step)
    requires Enabled(w, step)
    ensures After(w, step).passes == if Counts(w, step) then Stirred(w, step.run).passes
                                     else if step.Passing? then Passed(w, step.pod, step.move).passes
                                     else w.passes
  {
    hide Passed, Read, MayRead, MayPass, Untracked, Tracked, Timely;
  }

  /** What a step leaves of a pass it does not move. */
  lemma PassStays(w: World, step: Step, pod: PodId)
    requires Enabled(w, step) && !(step.Passing? && step.pod == pod)
    ensures pod in After(w, step).passes <==> pod in w.passes
    ensures pod in w.passes ==>
              var (p, p') := (w.passes[pod], After(w, step).passes[pod]);
              p' == p.(calm := p.calm && !(Counts(w, step) && RunOf(p.stage) == Some(step.run)))
  {
    PassesMove(w, step);
    if step.Passing? {
      OtherPassesStay(w, step.pod, step.move, pod);
    }
    hide After, Enabled, Passed, MayPass;
  }

  lemma OtherPassesStay(w: World, moved: PodId, move: PassMove, pod: PodId)
    requires MayPass(w, moved, move) && moved != pod
    ensures pod in Passed(w, moved, move).passes <==> pod in w.passes
    ensures pod in w.passes ==> Passed(w, moved, move).passes[pod] == w.passes[pod]
  {
  }

  lemma StageStaysTrue(w: World, step: Step, pod: PodId)
    requires Enabled(w, step) && !(step.Passing? && step.pod == pod)
    requires pod in w.passes && PassOk(w, w.passes[pod])
    ensures pod in After(w, step).passes && PassOk(After(w, step), After(w, step).passes[pod])
  {
    var p := w.passes[pod];
    hide After, Enabled;
    PassStays(w, step, pod);
    WatchMoves(w, step, if RunOf(p.stage).Some? then RunOf(p.stage).value else 0);
  }

  /** A pass that moves on stays truthful: what it reads is so when it reads it. */
  lemma PassMoves(w: World, pod: PodId, move: PassMove)
    requires Inv(w) && MayPass(w, pod, move) && (pod in w.passes ==> PassOk(w, w.passes[pod]))
    ensures pod in Passed(w, pod, move).passes ==> PassOk(Passed(w, pod, move), Passed(w, pod, move).passes[pod])
  {
    var w' := Passed(w, pod, move);
    assert w'.live == w.live && w'.homes == w.homes by { PassesLeaveRedis(w, pod, move); }
    match move {
      case Begin(agent, runs) =>
        forall i | 0 <= i < |runs| ensures HomedAt(w, runs[i], agent) {
          assert runs[i] in runs && RoutedIsWatched(w, runs[i], agent);
        }
      case Count => assert SetIsLive(w, w.passes[pod].todo[0]);
      case Decide =>
      case Resolve =>
        var run := w.passes[pod].stage.run;
        assert WatchedIsRouted(w, run) && RoutedIsWatched(w, run, 0);
      case Publish =>
      case Finish =>
    }
  }

  /** What a step publishes. */
  ghost function SentBy(w: World, step: Step): seq<Envelope>
    requires Enabled(w, step)
  {
    match step
    case Track(run, _, _) => [Envelope(w.homes[run].agent, Subscribe(w.homes[run].workspace, run))]
    case Untrack(run, member) => if member in Members(w.live, run) then Untracked(w.store, run, member).1 else []
    case Passing(pod, Publish) => [Envelope(w.passes[pod].agent, w.passes[pod].stage.control)]
    case _ => []
  }

  /** The step handles a message, loses one, or reads on for `ear`. */
  predicate Moves(step: Step, ear: Ear) {
    (step.Opening? || step.Deliver? || step.Lose? || step.Open? || step.Shut?) && step.ear == ear
  }

  lemma ForNothing(agent: AgentId)
    ensures For([], agent) == []
  {
  }

  lemma SocketsMove(w: World, step: Step, ear: Ear)
    requires Enabled(w, step) && !Moves(step, ear)
    ensures ear in After(w, step).sockets <==> ear in w.sockets
    ensures ear in w.sockets ==>
              var s := w.sockets[ear];
              After(w, step).sockets[ear] == s.(inbox := s.inbox + For(SentBy(w, step), ear.agent),
                                                calm := if Counts(w, step) then s.calm - {step.run} else s.calm)
  {
    hide For, Untracked, Tracked, Beaten, Swept, Timely, Read, MayRead;
    ForNothing(ear.agent);
    if ear in w.sockets {
      assert w.sockets[ear].inbox + [] == w.sockets[ear].inbox;
    }
  }

  lemma LogMoves(w: World, step: Step)
    requires Enabled(w, step)
    ensures After(w, step).log == w.log + SentBy(w, step)
  {
    hide For, Untracked, Tracked, Beaten, Swept, Timely, Read, MayRead;
    assert w.log + [] == w.log;
  }

  lemma OpeningMoves(w: World, ear: Ear, reading: Reading)
    requires Inv(w) && Enabled(w, Opening(ear, reading)) && OpeningOk(w, ear.agent, w.sockets[ear])
    ensures OpeningOk(w, ear.agent, Read(w, ear.agent, w.sockets[ear], reading))
  {
    var s := w.sockets[ear];
    match reading {
      case ListRoutes(runs) =>
        forall i | 0 <= i < |runs| ensures HomedAt(w, runs[i], ear.agent) {
          assert runs[i] in runs && RoutedIsWatched(w, runs[i], ear.agent);
        }
      case CountRun =>
        assert SetIsLive(w, s.opening.todo[0]);
      case RouteRun =>
      case ReplayRun(_) =>
    }
  }

  lemma SocketStaysOk(w: World, step: Step, ear: Ear)
    requires Enabled(w, step) && !Moves(step, ear)
    requires ear in w.sockets && OpeningOk(w, ear.agent, w.sockets[ear])
    ensures ear in After(w, step).sockets && OpeningOk(After(w, step), ear.agent, After(w, step).sockets[ear])
  {
    var w' := After(w, step);
    hide After, Enabled, For, Counts;
    SocketsMove(w, step, ear);
    forall run | run in w'.sockets[ear].calm ensures Watched(w', run) {
      WatchMoves(w, step, run);
    }
    WatchMoves(w, step, 0);
  }

  lemma SameWatch(w: World, w': World, agent: AgentId, s: Socket)
    requires w'.live == w.live && w'.homes == w.homes && OpeningOk(w, agent, s)
    ensures OpeningOk(w', agent, s)
  {
  }

  lemma StepKeepsReads(w: World, step: Step)
    requires Inv(w) && ReadsOk(w) && Enabled(w, step)
    ensures ReadsOk(After(w, step))
  {
    var w' := After(w, step);
    forall pod | pod in w'.passes ensures PassOk(w', w'.passes[pod]) {
      if step.Passing? && step.pod == pod {
        PassMoves(w, pod, step.move);
      } else {
        PassStays(w, step, pod);
        StageStaysTrue(w, step, pod);
      }
    }
    forall ear | ear in w'.sockets ensures OpeningOk(w', ear.agent, w'.sockets[ear]) {
      if Moves(step, ear) {
        if step.Opening? {
          OpeningMoves(w, ear, step.reading);
          SameWatch(w, w', ear.agent, Read(w, ear.agent, w.sockets[ear], step.reading));
        }
      } else {
        SocketsMove(w, step, ear);
        SocketStaysOk(w, step, ear);
      }
    }
  }

  lemma {:induction false} RunKeepsReads(w: World, steps: seq<Step>, end: World)
    requires Inv(w) && ReadsOk(w) && Runs(w, steps, end)
    ensures Inv(end) && ReadsOk(end)
    decreases |steps|
  {
    hide Inv, ReadsOk, After, Enabled;
    if steps != [] {
      StepKeepsInv(w, steps[0]);
      StepKeepsReads(w, steps[0]);
      RunKeepsReads(After(w, steps[0]), steps[1..], end);
    }
  }

  lemma StartupIsOk(w: World)
    requires Startup(w)
    ensures Inv(w) && ReadsOk(w)
  {
    StartupIsInv(w);
  }

  // ----- One unsubscribe for each drop to zero -----

  function Unsubscribes(log: seq<Envelope>, run: RunId): nat {
    if log == [] then 0
    else
      var last := log[|log| - 1].control;
      Unsubscribes(log[..|log| - 1], run) + if last.Unsubscribe? && last.run == run then 1 else 0
  }

  lemma {:induction false} UnsubscribesAdd(a: seq<Envelope>, b: seq<Envelope>, run: RunId)
    ensures Unsubscribes(a + b, run) == Unsubscribes(a, run) + Unsubscribes(b, run)
  {
    if b == [] {
      assert a + b == a;
    } else {
      assert (a + b)[..|a + b| - 1] == a + b[..|b| - 1];
      UnsubscribesAdd(a, b[..|b| - 1], run);
    }
  }

  lemma UnsubscribesOne(e: Envelope, run: RunId)
    ensures Unsubscribes([e], run) == if e.control.Unsubscribe? && e.control.run == run then 1 else 0
  {
    assert [e][..0] == [];
  }

  /** The step untracks the last open connection of `run`. */
  predicate DropsToZero(w: World, step: Step, run: RunId) {
    step.Untrack? && step.run == run && Members(w.live, run).Keys == {step.member}
  }

  /** A pass publishes an unsubscribe of `run`. */
  predicate Retracts(w: World, step: Step, run: RunId) {
    && step.Passing? && step.move.Publish? && step.pod in w.passes
    && var stage := w.passes[step.pod].stage; stage.Ready? && stage.control.Unsubscribe? && stage.control.run == run
  }

  lemma StepUnsubscribes(w: World, step: Step, run: RunId)
    requires Inv(w) && Enabled(w, step)
    ensures Unsubscribes(After(w, step).log, run)
            == Unsubscribes(w.log, run) + (if DropsToZero(w, step, run) then 1 else 0)
                + (if Retracts(w, step, run) then 1 else 0)
  {
    LogMoves(w, step);
    var sent := SentBy(w, step);
    UnsubscribesAdd(w.log, sent, run);
    if step.Untrack? && Counts(w, step) {
      UntrackSends(w, step.run, step.member);
    }
    if sent != [] {
      UnsubscribesOne(sent[0], run);
      assert sent == [sent[0]];
    }
    hide After, Untracked, Inv;
  }

  /** Untracking announces exactly the drop to zero. */
  lemma UntrackSends(w: World, run: RunId, member: Member)
    requires Inv(w) && member in Members(w.live, run)
    ensures run in w.homes
    ensures Untracked(w.store, run, member).1
            == if Members(w.live, run).Keys == {member}
               then [Envelope(w.homes[run].agent, Unsubscribe(w.homes[run].workspace, run))] else []
  {
    assert SetIsLive(w, run) && WatchedIsRouted(w, run);
    RemoveMembers(w.store.subscribers, run, member, run);
    LeftEmptyIff(Members(w.live, run), member);
  }

  ghost function Drops(w: World, steps: seq<Step>, end: World, run: RunId): nat
    requires Runs(w, steps, end)
    decreases |steps|
  {
    if steps == [] then 0
    else (if DropsToZero(w, steps[0], run) then 1 else 0) + Drops(After(w, steps[0]), steps[1..], end, run)
  }

  ghost function Retractions(w: World, steps: seq<Step>, end: World, run: RunId): nat
    requires Runs(w, steps, end)
    decreases |steps|
  {
    if steps == [] then 0
    else (if Retracts(w, steps[0], run) then 1 else 0) + Retractions(After(w, steps[0]), steps[1..], end, run)
  }

  lemma {:induction false} UnsubscribesAreDrops(w: World, steps: seq<Step>, end: World, run: RunId)
    requires Inv(w) && Runs(w, steps, end)
    ensures Unsubscribes(end.log, run)
        == Unsubscribes(w.log, run) + Drops(w, steps, end, run) + Retractions(w, steps, end, run)
    decreases |steps|
  {
    hide Inv, After, Enabled, DropsToZero, Retracts, Unsubscribes;
    if steps != [] {
      StepUnsubscribes(w, steps[0], run);
      StepKeepsInv(w, steps[0]);
      UnsubscribesAreDrops(After(w, steps[0]), steps[1..], end, run);
    }
  }

  /** Nothing tracked or untracked the run between the pass's card read and its publish. */
  predicate PublishesCalmly(w: World, step: Step) {
    step.Passing? && step.move.Publish? && step.pod in w.passes ==> w.passes[step.pod].calm
  }

  ghost predicate AllPublishCalmly(w: World, steps: seq<Step>, end: World)
    requires Runs(w, steps, end)
    decreases |steps|
  {
    steps != [] ==> PublishesCalmly(w, steps[0]) && AllPublishCalmly(After(w, steps[0]), steps[1..], end)
  }

  lemma {:induction false} CalmPassesRetractNothing(w: World, steps: seq<Step>, end: World, run: RunId)
    requires Inv(w) && ReadsOk(w) && Runs(w, steps, end) && AllPublishCalmly(w, steps, end)
    ensures Retractions(w, steps, end, run) == 0
    decreases |steps|
  {
    if steps != [] {
      assert !Retracts(w, steps[0], run);
      hide Inv, ReadsOk, After, Enabled, Retracts, PublishesCalmly;
      StepKeepsInv(w, steps[0]);
      StepKeepsReads(w, steps[0]);
      CalmPassesRetractNothing(After(w, steps[0]), steps[1..], end, run);
    }
  }

  /** Over every run, the unsubscribes published for a run are one for each time untracking took it
      to zero viewers and one for each pass that retracts it; and no pass retracts anything if no
      run is tracked or untracked between a pass's reading its card and publishing. */
  lemma OneUnsubscribePerDrop(w: World, steps: seq<Step>, end: World, run: RunId)
    requires Startup(w) && Runs(w, steps, end)
    ensures Unsubscribes(end.log, run) == Drops(w, steps, end, run) + Retractions(w, steps, end, run)
    ensures AllPublishCalmly(w, steps, end) ==> Unsubscribes(end.log, run) == Drops(w, steps, end, run)
  {
    StartupIsOk(w);
    UnsubscribesAreDrops(w, steps, end, run);
    if AllPublishCalmly(w, steps, end) {
      CalmPassesRetractNothing(w, steps, end, run);
    }
  }

  /** In every reachable state: a pass that found no subscriber goes on to retract the run if and
      only if the run is watched when its route is read, that is, was tracked again since. */
  lemma RetractsIffWatchedAgain(from: World, steps: seq<Step>, w: World, pod: PodId)
    requires Startup(from) && Runs(from, steps, w)
    requires pod in w.passes && w.passes[pod].stage.Wanted? && !w.passes[pod].stage.subscribe
    ensures Enabled(w, Passing(pod, Resolve))
    ensures After(w, Passing(pod, Resolve)).passes[pod].stage.Ready? <==> Watched(w, w.passes[pod].stage.run)
    ensures w.passes[pod].calm ==> After(w, Passing(pod, Resolve)).passes[pod].stage.Between?
  {
    StartupIsOk(from);
    RunKeepsReads(from, steps, w);
    var run := w.passes[pod].stage.run;
    assert WatchedIsRouted(w, run) && RoutedIsWatched(w, run, 0) && PassOk(w, w.passes[pod]);
  }

  // ----- What the agents stream -----

  /** What a pod will believe once it has handled everything in the inbox. */
  function Caught(streaming: set<RunId>, inbox: seq<Control>): set<RunId> {
    if inbox == [] then streaming else Heard(Caught(streaming, inbox[..|inbox| - 1]), inbox[|inbox| - 1])
  }

  lemma {:induction false} CaughtHead(streaming: set<RunId>, inbox: seq<Control>)
    requires inbox != []
    ensures Caught(Heard(streaming, inbox[0]), inbox[1..]) == Caught(streaming, inbox)
  {
    if |inbox| > 1 {
      var n := |inbox| - 1;
      CaughtHead(streaming, inbox[..n]);
      assert inbox[1..][..n - 1] == inbox[..n][1..];
    }
  }

  lemma CaughtOne(streaming: set<RunId>, inbox: seq<Control>, c: Control)
    ensures Caught(streaming, inbox + [c]) == Heard(Caught(streaming, inbox), c)
  {
    assert (inbox + [c])[..|inbox|] == inbox;
  }

  predicate Mentions(inbox: seq<Control>, run: RunId) {
    exists i :: 0 <= i < |inbox| && inbox[i].run == run
  }

  /** The last message about a run decides, and without one the belief stays. */
  lemma {:induction false} CaughtAt(streaming: set<RunId>, more: set<RunId>, inbox: seq<Control>, run: RunId)
    ensures !Mentions(inbox, run) ==> (run in Caught(streaming, inbox) <==> run in streaming)
    ensures Mentions(inbox, run) ==> (run in Caught(streaming, inbox) <==> run in Caught(more, inbox))
    ensures (run in streaming <==> run in more) ==> (run in Caught(streaming, inbox) <==> run in Caught(more, inbox))
  {
    if inbox != [] {
      var n := |inbox| - 1;
      CaughtAt(streaming, more, inbox[..n], run);
      if inbox[n].run != run {
        assert Mentions(inbox, run) ==> Mentions(inbox[..n], run) by {
          if Mentions(inbox, run) {
            var i :| 0 <= i < |inbox| && inbox[i].run == run;
            assert inbox[..n][i].run == run;
          }
        }
        assert Mentions(inbox[..n], run) ==> Mentions(inbox, run) by {
          if Mentions(inbox[..n], run) {
            var i :| 0 <= i < n && inbox[..n][i].run == run;
            assert inbox[i].run == run;
          }
        }
      } else {
        assert Mentions(inbox, run);
      }
    }
  }

  /** What the pod will believe of `run` at `ear` once it has handled everything in the inbox. */
  predicate WillStream(w: World, ear: Ear, run: RunId)
    requires ear in w.sockets
  {
    run in Caught(w.sockets[ear].streaming, w.sockets[ear].inbox)
  }

  /** `run` is one of the agent's runs and someone is watching it. */
  predicate Due(w: World, agent: AgentId, run: RunId) {
    Watched(w, run) && HomedAt(w, run, agent)
  }

  /** The runs of `agent` that someone is watching. */
  ghost function WatchedOf(w: World, agent: AgentId): (runs: set<RunId>)
    ensures forall run :: run in runs <==> Due(w, agent, run)
  {
    set run | run in w.live && Due(w, agent, run)
  }

  /** The opening of the socket has still to come to `run`. */
  predicate Coming(o: Stand, run: RunId) {
    o.Unlisted? || run in o.todo || o.counted == Some(run) || run in o.replay
  }

  /** Nothing is streamed that is not watched; what is watched is streamed or still to be
      replayed; and a watched run with a message under way will be streamed. */
  predicate RightAt(w: World, ear: Ear, run: RunId)
    requires ear in w.sockets
  {
    && (WillStream(w, ear, run) ==> Due(w, ear.agent, run))
    && (Due(w, ear.agent, run) ==> WillStream(w, ear, run) || Coming(w.sockets[ear].opening, run))
    && (Due(w, ear.agent, run) && Mentions(w.sockets[ear].inbox, run) ==> WillStream(w, ear, run))
  }

  ghost predicate InStep(w: World, ear: Ear)
    requires ear in w.sockets
  {
    forall run :: RightAt(w, ear, run)
  }

  /** No message is lost, and no replay fails to be sent. */
  predicate Reliable(step: Step) {
    !step.Lose? && (step.Opening? ==> step.reading != ReplayRun(false))
  }

  /** The step says of a run what is no longer so: a pass publishes the wrong message, or an opening
      replays a run that nobody watches and about which no message is under way. */
  predicate Stale(w: World, step: Step) {
    || (step.Passing? && step.move.Publish? && StageOf(w, step.pod).Ready?
        && (StageOf(w, step.pod).control.Subscribe? <==> !Watched(w, StageOf(w, step.pod).control.run)))
    || (step.Opening? && step.reading == ReplayRun(true) && step.ear in w.sockets
        && w.sockets[step.ear].opening.Listed? && w.sockets[step.ear].opening.replay != []
        && !Watched(w, w.sockets[step.ear].opening.replay[0])
        && !Mentions(w.sockets[step.ear].inbox, w.sockets[step.ear].opening.replay[0]))
  }

  /** What a step does to `run` at a socket it does not move: at most one message arrives. */
  lemma SentIsOne(w: World, step: Step)
    requires Inv(w) && ReadsOk(w) && Enabled(w, step)
    ensures |SentBy(w, step)| <= 1
    ensures forall e :: e in SentBy(w, step) ==> HomedAt(w, e.control.run, e.agent)
    ensures step.Track? ==>
              SentBy(w, step)
              == [Envelope(w.homes[step.run].agent, Subscribe(w.homes[step.run].workspace, step.run))]
    ensures step.Untrack? && Counts(w, step) ==>
              && step.run in w.homes
              && SentBy(w, step) == if Members(w.live, step.run).Keys == {step.member}
                                    then [Envelope(w.homes[step.run].agent,
                                        Unsubscribe(w.homes[step.run].workspace, step.run))] else []
    ensures !Counts(w, step) && !(step.Passing? && step.move.Publish?) ==> SentBy(w, step) == []
  {
    if step.Untrack? && Counts(w, step) {
      UntrackSends(w, step.run, step.member);
    }
    if step.Passing? && step.move.Publish? {
      assert PassOk(w, w.passes[step.pod]);
    }
    hide Untracked, Inv, ReadsOk;
  }

  lemma ForOne(e: Envelope, agent: AgentId)
    ensures For([e], agent) == if e.agent == agent then [e.control] else []
  {
    assert [e][1..] == [];
  }

  /** One more message about a run decides what will be streamed of it, and of nothing else. */
  lemma OneMoreMessage(s: set<RunId>, inbox: seq<Control>, c: Control, run: RunId)
    ensures run in Caught(s, inbox + [c]) <==> if c.run == run then c.Subscribe? else run in Caught(s, inbox)
    ensures Mentions(inbox + [c], run) <==> c.run == run || Mentions(inbox, run)
  {
    CaughtOne(s, inbox, c);
    assert c.run == run ==> (inbox + [c])[|inbox|].run == run;
    if Mentions(inbox, run) {
      var i :| 0 <= i < |inbox| && inbox[i].run == run;
      assert (inbox + [c])[i].run == run;
    }
    if Mentions(inbox + [c], run) && c.run != run {
      var i :| 0 <= i < |inbox + [c]| && (inbox + [c])[i].run == run;
      assert inbox[i].run == run;
    }
  }

  /** The message that a step brings to the sockets of an agent. */
  ghost function MessageFor(w: World, step: Step, agent: AgentId): Option<Control>
    requires Enabled(w, step)
  {
    var sent := SentBy(w, step);
    if sent != [] && sent[0].agent == agent then Some(sent[0].control) else None
  }

  lemma Arrives(w: World, step: Step, ear: Ear, run: RunId)
    requires Inv(w) && ReadsOk(w) && Enabled(w, step) && !Moves(step, ear) && ear in w.sockets
    ensures ear in After(w, step).sockets && After(w, step).sockets[ear].opening == w.sockets[ear].opening
    ensures var m := MessageFor(w, step, ear.agent);
            && (WillStream(After(w, step), ear, run)
                <==> if m.Some? && m.value.run == run then m.value.Subscribe? else WillStream(w, ear, run))
            && (Mentions(After(w, step).sockets[ear].inbox, run)
                <==> (m.Some? && m.value.run == run) || Mentions(w.sockets[ear].inbox, run))
  {
    var (s, sent) := (w.sockets[ear], SentBy(w, step));
    SocketsMove(w, step, ear);
    SentIsOne(w, step);
    hide After, SentBy, Inv, ReadsOk, Caught, Mentions, For, Enabled, Counts;
    if sent == [] {
      ForNothing(ear.agent);
      assert s.inbox + [] == s.inbox;
    } else {
      var e := sent[0];
      assert sent == [e];
      ForOne(e, ear.agent);
      if e.agent == ear.agent {
        OneMoreMessage(s.streaming, s.inbox, e.control, run);
      } else {
        assert s.inbox + [] == s.inbox;
      }
    }
  }

  /** How a message and what is watched go together, unless the message is stale. */
  lemma MessageIsRight(w: World, step: Step, agent: AgentId, run: RunId)
    requires Inv(w) && ReadsOk(w) && Enabled(w, step) && !Stale(w, step)
    ensures var m := MessageFor(w, step, agent);
            if m.Some? && m.value.run == run then m.value.Subscribe? <==> Due(After(w, step), agent, run)
            else Due(After(w, step), agent, run) <==> Due(w, agent, run)
  {
    SentIsOne(w, step);
    WatchMoves(w, step, run);
    if SentBy(w, step) != [] {
      assert SentBy(w, step)[0] in SentBy(w, step);
    }
    if step.Untrack? && Counts(w, step) {
      assert Members(w.live, step.run) != map[];
    }
    hide After, Inv, ReadsOk, Members, Enabled, MayPass;
  }

  /** Away from its own moves a socket stays right unless a pass's message is stale. */
  lemma ArrivalKeepsRight(w: World, step: Step, ear: Ear, run: RunId)
    requires Inv(w) && ReadsOk(w) && Enabled(w, step) && !Moves(step, ear) && !Stale(w, step)
    requires ear in w.sockets && RightAt(w, ear, run)
    ensures ear in After(w, step).sockets && RightAt(After(w, step), ear, run)
  {
    hide After, Inv, ReadsOk, Enabled, MessageFor, WillStream, Mentions, Due, Stale;
    Arrives(w, step, ear, run);
    MessageIsRight(w, step, ear.agent, run);
  }

  lemma DueSame(w: World, step: Step, agent: AgentId, run: RunId)
    requires Enabled(w, step)
        && (step.Open? || step.Opening? || step.Deliver? || step.Lose? || step.Shut? || step.Passing?)
    ensures Due(After(w, step), agent, run) <==> Due(w, agent, run)
  {
    WatchMoves(w, step, run);
    hide After, Enabled, Watched;
  }

  lemma ReplayKeepsRight(w: World, ear: Ear, run: RunId)
    requires Enabled(w, Opening(ear, ReplayRun(true))) && RightAt(w, ear, run)
    requires !Stale(w, Opening(ear, ReplayRun(true))) && OpeningOk(w, ear.agent, w.sockets[ear])
    ensures ear in After(w, Opening(ear, ReplayRun(true))).sockets
    ensures RightAt(After(w, Opening(ear, ReplayRun(true))), ear, run)
  {
    var step, s := Opening(ear, ReplayRun(true)), w.sockets[ear];
    DueSame(w, step, ear.agent, run);
    var first := s.opening.replay[0];
    assert s.opening.replay == [first] + s.opening.replay[1..];
    assert HomedAt(w, first, ear.agent);
    CaughtAt(s.streaming, s.streaming + {first}, s.inbox, run);
    CaughtAt(s.streaming + {first}, s.streaming, s.inbox, run);
    hide Caught, Mentions, Watched, Members;
  }

  /** The readings that replay nothing leave what will be streamed alone. */
  lemma LookingKeepsRight(w: World, ear: Ear, reading: Reading, run: RunId)
    requires Inv(w) && Enabled(w, Opening(ear, reading)) && RightAt(w, ear, run) && !reading.ReplayRun?
    ensures ear in After(w, Opening(ear, reading)).sockets && RightAt(After(w, Opening(ear, reading)), ear, run)
  {
    var step, s := Opening(ear, reading), w.sockets[ear];
    DueSame(w, step, ear.agent, run);
    match reading {
      case ListRoutes(runs) =>
        assert WatchedIsRouted(w, run);
      case CountRun =>
        assert SetIsLive(w, s.opening.todo[0]);
        assert s.opening.todo == [s.opening.todo[0]] + s.opening.todo[1..];
      case RouteRun =>
        assert WatchedIsRouted(w, s.opening.counted.value) && RoutedIsWatched(w, s.opening.counted.value, 0);
    }
    hide Caught, Mentions, Inv, Watched, Members;
  }

  lemma ReadingKeepsRight(w: World, ear: Ear, reading: Reading, run: RunId)
    requires Inv(w) && Enabled(w, Opening(ear, reading)) && RightAt(w, ear, run)
    requires Reliable(Opening(ear, reading)) && !Stale(w, Opening(ear, reading))
    requires OpeningOk(w, ear.agent, w.sockets[ear])
    ensures ear in After(w, Opening(ear, reading)).sockets && RightAt(After(w, Opening(ear, reading)), ear, run)
  {
    if reading.ReplayRun? {
      ReplayKeepsRight(w, ear, run);
    } else {
      LookingKeepsRight(w, ear, reading, run);
    }
  }

  lemma DeliveryKeepsRight(w: World, ear: Ear, run: RunId)
    requires Enabled(w, Deliver(ear)) && RightAt(w, ear, run)
    ensures ear in After(w, Deliver(ear)).sockets && RightAt(After(w, Deliver(ear)), ear, run)
  {
    var s := w.sockets[ear];
    DueSame(w, Deliver(ear), ear.agent, run);
    CaughtHead(s.streaming, s.inbox);
    if Mentions(s.inbox[1..], run) {
      var i :| 0 <= i < |s.inbox[1..]| && s.inbox[1..][i].run == run;
      assert s.inbox[i + 1].run == run;
    }
    hide Caught, Watched, Mentions;
  }

  lemma StepKeepsInStep(w: World, step: Step)
    requires Inv(w) && ReadsOk(w) && Enabled(w, step) && Reliable(step) && !Stale(w, step)
    requires forall ear :: ear in w.sockets ==> InStep(w, ear)
    ensures forall ear :: ear in After(w, step).sockets ==> InStep(After(w, step), ear)
  {
    var w' := After(w, step);
    forall ear, run | ear in w'.sockets ensures RightAt(w', ear, run) {
      if !Moves(step, ear) {
        SocketsMove(w, step, ear);
        assert InStep(w, ear);
        ArrivalKeepsRight(w, step, ear, run);
      } else if step.Opening? {
        assert InStep(w, ear) && OpeningOk(w, ear.agent, w.sockets[ear]);
        ReadingKeepsRight(w, ear, step.reading, run);
      } else if step.Deliver? {
        assert InStep(w, ear);
        DeliveryKeepsRight(w, ear, run);
      } else {
        OpenIsRight(w, step, run);
      }
    }
  }

  lemma OpenIsRight(w: World, step: Step, run: RunId)
    requires step.Open? && Enabled(w, step)
    ensures step.ear in After(w, step).sockets && RightAt(After(w, step), step.ear, run)
  {
  }

  ghost predicate AllReliable(w: World, steps: seq<Step>, end: World)
    requires Runs(w, steps, end)
    decreases |steps|
  {
    steps != [] ==> Reliable(steps[0]) && !Stale(w, steps[0]) && AllReliable(After(w, steps[0]), steps[1..], end)
  }

  lemma {:induction false} ReliableRunIsInStep(w: World, steps: seq<Step>, end: World)
    requires Inv(w) && ReadsOk(w) && Runs(w, steps, end) && AllReliable(w, steps, end)
    requires forall ear :: ear in w.sockets ==> InStep(w, ear)
    ensures forall ear :: ear in end.sockets ==> InStep(end, ear)
    decreases |steps|
  {
    hide Inv, ReadsOk, After, Enabled, InStep, Stale, Reliable;
    if steps != [] {
      StepKeepsInv(w, steps[0]);
      StepKeepsReads(w, steps[0]);
      StepKeepsInStep(w, steps[0]);
      ReliableRunIsInStep(After(w, steps[0]), steps[1..], end);
    }
  }

  /** Without losses and without a stale publish or replay: a socket that has finished opening will
      stream, once its pod has caught up, exactly the agent's runs that someone watches; and no
      socket, opening or open, will ever stream a run that nobody watches. */
  lemma ReliablePodsAreInStep(w: World, steps: seq<Step>, end: World, ear: Ear)
    requires Startup(w) && Runs(w, steps, end) && AllReliable(w, steps, end) && ear in end.sockets
    ensures forall run :: WillStream(end, ear, run) ==> Due(end, ear.agent, run)
    ensures end.sockets[ear].opening == Opened ==> forall run :: WillStream(end, ear, run) <==> Due(end, ear.agent, run)
  {
    StartupIsOk(w);
    ReliableRunIsInStep(w, steps, end);
    forall run
      ensures WillStream(end, ear, run) ==> Due(end, ear.agent, run)
      ensures end.sockets[ear].opening == Opened ==> (WillStream(end, ear, run) <==> Due(end, ear.agent, run))
    {
      assert InStep(end, ear) && RightAt(end, ear, run);
    }
  }

  /** The run that the step publishes or replays was neither tracked nor untracked since the step's
      pass or opening read its card. */
  predicate Undisturbed(w: World, step: Step) {
    && PublishesCalmly(w, step)
    && (step.Opening? && step.reading == ReplayRun(true) && step.ear in w.sockets
        && w.sockets[step.ear].opening.Listed? && w.sockets[step.ear].opening.replay != [] ==>
          w.sockets[step.ear].opening.replay[0] in w.sockets[step.ear].calm)
  }

  lemma CalmIsNotStale(w: World, step: Step)
    requires ReadsOk(w) && Enabled(w, step) && Undisturbed(w, step)
    ensures !Stale(w, step)
  {
    if step.Passing? && step.move.Publish? {
      assert PassOk(w, w.passes[step.pod]);
    }
    if step.Opening? {
      assert OpeningOk(w, step.ear.agent, w.sockets[step.ear]);
    }
  }

  /** In every reachable state an undisturbed publish or replay is not stale. */
  lemma UndisturbedIsNotStale(from: World, steps: seq<Step>, w: World, step: Step)
    requires Startup(from) && Runs(from, steps, w) && Enabled(w, step) && Undisturbed(w, step)
    ensures !Stale(w, step)
  {
    StartupIsOk(from);
    RunKeepsReads(from, steps, w);
    CalmIsNotStale(w, step);
  }

  ghost predicate AllUndisturbed(w: World, steps: seq<Step>, end: World)
    requires Runs(w, steps, end)
    decreases |steps|
  {
    steps != [] ==>
      Reliable(steps[0]) && Undisturbed(w, steps[0]) && AllUndisturbed(After(w, steps[0]), steps[1..], end)
  }

  lemma {:induction false} UndisturbedRunIsReliable(w: World, steps: seq<Step>, end: World)
    requires Inv(w) && ReadsOk(w) && Runs(w, steps, end) && AllUndisturbed(w, steps, end)
    ensures AllReliable(w, steps, end)
    decreases |steps|
  {
    hide Inv, ReadsOk, After, Enabled, Undisturbed, Stale, Reliable;
    if steps != [] {
      CalmIsNotStale(w, steps[0]);
      StepKeepsInv(w, steps[0]);
      StepKeepsReads(w, steps[0]);
      UndisturbedRunIsReliable(After(w, steps[0]), steps[1..], end);
    }
  }

  /** Without losses, and with no run tracked or untracked between the reading of its card and its
      publish or replay: a pod that has finished opening a socket and handled its inbox believes
      exactly the watched runs to be streaming. */
  lemma UndisturbedPodsAreInStep(w: World, steps: seq<Step>, end: World, ear: Ear)
    requires Startup(w) && Runs(w, steps, end) && AllUndisturbed(w, steps, end) && ear in end.sockets
    requires end.sockets[ear].opening == Opened && end.sockets[ear].inbox == []
    ensures end.sockets[ear].streaming == WatchedOf(end, ear.agent)
  {
    StartupIsOk(w);
    UndisturbedRunIsReliable(w, steps, end);
    ReliablePodsAreInStep(w, steps, end, ear);
    forall run ensures run in end.sockets[ear].streaming <==> run in WatchedOf(end, ear.agent) {
      assert WillStream(end, ear, run) <==> Due(end, ear.agent, run);
    }
    hide Startup, Runs, Inv, ReadsOk;
  }

  /** A publish is right at every socket of its agent, about its own run, exactly when it is not
      stale. */
  lemma PublishIsRightIff(from: World, steps: seq<Step>, w: World, pod: PodId, ear: Ear)
    requires Startup(from) && Runs(from, steps, w) && Enabled(w, Passing(pod, Publish))
    requires ear in w.sockets && ear.agent == w.passes[pod].agent
    ensures var w' := After(w, Passing(pod, Publish));
            var run := w.passes[pod].stage.control.run;
            && ear in w'.sockets
            && ((WillStream(w', ear, run) <==> Due(w', ear.agent, run)) <==> !Stale(w, Passing(pod, Publish)))
  {
    StartupIsOk(from);
    RunKeepsReads(from, steps, w);
    var step, run := Passing(pod, Publish), w.passes[pod].stage.control.run;
    assert PassOk(w, w.passes[pod]);
    DueSame(w, step, ear.agent, run);
    Arrives(w, step, ear, run);
    hide After, Inv, ReadsOk, WillStream, Watched;
  }

  /** A replay leaves nothing streamed that is not watched exactly when it is not stale. */
  lemma ReplayIsRightIff(from: World, steps: seq<Step>, w: World, ear: Ear)
    requires Startup(from) && Runs(from, steps, w) && AllReliable(from, steps, w)
    requires Enabled(w, Opening(ear, ReplayRun(true)))
    ensures var w' := After(w, Opening(ear, ReplayRun(true)));
            && ear in w'.sockets
            && ((forall run :: WillStream(w', ear, run) ==> Due(w', ear.agent, run)) <==>
                !Stale(w, Opening(ear, ReplayRun(true))))
  {
    StartupIsOk(from);
    RunKeepsReads(from, steps, w);
    ReliableRunIsInStep(from, steps, w);
    var step, s := Opening(ear, ReplayRun(true)), w.sockets[ear];
    var w' := After(w, step);
    assert InStep(w, ear);
    var first := s.opening.replay[0];
    if Stale(w, step) {
      DueSame(w, step, ear.agent, first);
      CaughtAt(s.streaming + {first}, s.streaming, s.inbox, first);
      assert WillStream(w', ear, first) && !Due(w', ear.agent, first);
    } else {
      assert OpeningOk(w, ear.agent, w.sockets[ear]);
      forall run ensures WillStream(w', ear, run) ==> Due(w', ear.agent, run) {
        assert RightAt(w, ear, run);
        ReadingKeepsRight(w, ear, ReplayRun(true), run);
      }
    }
  }

  // ----- Two interleavings that mislead without any loss -----

  lemma {:induction false} RunsAppend(w: World, a: seq<Step>, mid: World, b: seq<Step>, end: World)
    requires Runs(w, a, mid) && Runs(mid, b, end)
    ensures Runs(w, a + b, end)
    decreases |a|
  {
    hide After, Enabled;
    if a == [] {
      assert a + b == b;
    } else {
      assert (a + b)[0] == a[0] && (a + b)[1..] == a[1..] + b;
      RunsAppend(After(w, a[0]), a[1..], mid, b, end);
    }
  }

  lemma OneStep(w: World, step: Step)
    requires Enabled(w, step)
    ensures Runs(w, [step], After(w, step))
  {
    hide After, Enabled;
    assert [step][1..] == [];
  }

  predicate OnlyReliable(steps: seq<Step>) {
    forall i :: 0 <= i < |steps| ==> Reliable(steps[i])
  }

  lemma ReliableAppend(a: seq<Step>, b: seq<Step>)
    requires OnlyReliable(a) && OnlyReliable(b)
    ensures OnlyReliable(a + b)
  {
  }

  /** `m` is the only viewer of `run`. */
  predicate OnlyViewer(w: World, run: RunId, m: Member) {
    Members(w.live, run).Keys == {m}
  }

  /** A viewer, then an opening that has read the run as watched and has it left to replay. */
  lemma RunIsListed(from: World, ear: Ear, run: RunId, m: Member, now: Time) returns (steps: seq<Step>, w: World)
    requires Startup(from) && HomedAt(from, run, ear.agent) && from.clock <= now
    ensures Runs(from, steps, w) && OnlyReliable(steps) && OnlyViewer(w, run, m) && HomedAt(w, run, ear.agent)
    ensures w.sockets == map[ear := Socket({}, [], Listed([], None, [run]), {run})] && w.passes == map[]
        && w.clock == now
    ensures Members(w.store.agentRoutes, ear.agent).Keys == {run}
    ensures w.log == [Envelope(ear.agent, Subscribe(w.homes[run].workspace, run))]
  {
    var w1 := After(from, Track(run, m, now));
    assert w1.sockets == map[] && w1.passes == map[] && OnlyViewer(w1, run, m);
    assert Members(w1.store.agentRoutes, ear.agent).Keys == {run} && |Members(w1.store.subscribers, run)| == 1;
    assert run in w1.store.routes && w1.clock == now && w1.homes == from.homes;
    assert w1.log == [Envelope(ear.agent, Subscribe(w1.homes[run].workspace, run))];
    OneStep(from, Track(run, m, now));
    hide Tracked, Stirred, Published;
    var rest;
    rest, w := OpeningLists(w1, ear, run);
    steps := [Track(run, m, now)] + rest;
    RunsAppend(from, [Track(run, m, now)], w1, rest, w);
  }

  lemma OneReading(w: World, ear: Ear, reading: Reading, s: Socket)
    requires ear in w.sockets && MayRead(w, ear.agent, w.sockets[ear].opening, reading)
    requires Read(w, ear.agent, w.sockets[ear], reading) == s
    ensures Runs(w, [Opening(ear, reading)], w.(sockets := w.sockets[ear := s]))
  {
    OneStep(w, Opening(ear, reading));
    hide Read, MayRead;
  }

  lemma CountsOne(w: World, agent: AgentId, run: RunId)
    requires |Members(w.store.subscribers, run)| == 1
    ensures MayRead(w, agent, Listed([run], None, []), CountRun)
    ensures Read(w, agent, Socket({}, [], Listed([run], None, []), {}), CountRun)
        == Socket({}, [], Listed([], Some(run), []), {run})
  {
    var none: seq<RunId> := [];
    var empty: set<RunId> := {};
    assert [run][1..] == none && empty + {run} == {run};
  }

  lemma RoutesOne(w: World, agent: AgentId, run: RunId)
    requires run in w.store.routes
    ensures MayRead(w, agent, Listed([], Some(run), []), RouteRun)
    ensures Read(w, agent, Socket({}, [], Listed([], Some(run), []), {run}), RouteRun)
        == Socket({}, [], Listed([], None, [run]), {run})
  {
    var none: seq<RunId> := [];
    assert none + [run] == [run];
  }

  lemma ListsOne(w: World, agent: AgentId, run: RunId)
    requires Members(w.store.agentRoutes, agent).Keys == {run}
    ensures MayRead(w, agent, Unlisted, ListRoutes([run]))
    ensures Read(w, agent, Socket({}, [], Unlisted, {}), ListRoutes([run]))
        == Socket({}, [], Listed([run], None, []), {})
  {
  }

  lemma OpensOne(w: World, ear: Ear)
    requires ear !in w.sockets
    ensures Runs(w, [Open(ear)], w.(sockets := w.sockets[ear := Socket({}, [], Unlisted, {})]))
  {
    OneStep(w, Open(ear));
  }

  lemma FourReliable(ear: Ear, run: RunId)
    ensures OnlyReliable([Open(ear)] + [Opening(ear, ListRoutes([run]))] + [Opening(ear, CountRun)]
        + [Opening(ear, RouteRun)])
  {
  }

  lemma OpeningLists(w: World, ear: Ear, run: RunId) returns (steps: seq<Step>, end: World)
    requires w.sockets == map[] && Members(w.store.agentRoutes, ear.agent).Keys == {run}
    requires |Members(w.store.subscribers, run)| == 1 && run in w.store.routes
    ensures Runs(w, steps, end) && OnlyReliable(steps)
    ensures end == w.(sockets := map[ear := Socket({}, [], Listed([], None, [run]), {run})])
  {
    hide *;
    var s0 := Socket({}, [], Unlisted, {});
    var s1 := Socket({}, [], Listed([run], None, []), {});
    var s2 := Socket({}, [], Listed([], Some(run), []), {run});
    var s3 := Socket({}, [], Listed([], None, [run]), {run});
    var w0, w1, w2 := w.(sockets := map[ear := s0]), w.(sockets := map[ear := s1]), w.(sockets := map[ear := s2]);
    end := w.(sockets := map[ear := s3]);
    assert w.(sockets := w.sockets[ear := s0]) == w0 && w0.(sockets := w0.sockets[ear := s1]) == w1;
    assert w1.(sockets := w1.sockets[ear := s2]) == w2 && w2.(sockets := w2.sockets[ear := s3]) == end;
    OpensOne(w, ear);
    ListsOne(w0, ear.agent, run);
    OneReading(w0, ear, ListRoutes([run]), s1);
    CountsOne(w1, ear.agent, run);
    OneReading(w1, ear, CountRun, s2);
    RoutesOne(w2, ear.agent, run);
    OneReading(w2, ear, RouteRun, s3);
    var a, b, c, d := [Open(ear)], [Opening(ear, ListRoutes([run]))], [Opening(ear, CountRun)],
        [Opening(ear, RouteRun)];
    RunsAppend(w, a, w0, b, w1);
    RunsAppend(w, a + b, w1, c, w2);
    RunsAppend(w, a + b + c, w2, d, end);
    FourReliable(ear, run);
    steps := a + b + c + d;
  }

  /** What untracking the only viewer leaves at a socket with nothing under way. */
  lemma LastViewerLeaves(w: World, ear: Ear, run: RunId, m: Member)
    requires Inv(w) && ReadsOk(w) && OnlyViewer(w, run, m) && HomedAt(w, run, ear.agent)
    requires ear in w.sockets && w.sockets[ear].inbox == []
    ensures Enabled(w, Untrack(run, m))
    ensures var w' := After(w, Untrack(run, m));
            && !Watched(w', run) && w'.homes == w.homes && w'.clock == w.clock
            && ear in w'.sockets && w'.sockets[ear].inbox == [Unsubscribe(w.homes[run].workspace, run)]
            && w'.sockets[ear].opening == w.sockets[ear].opening
                && w'.sockets[ear].streaming == w.sockets[ear].streaming
            && w'.log == w.log + [Envelope(ear.agent, Unsubscribe(w.homes[run].workspace, run))]
  {
    var step := Untrack(run, m);
    assert m in Members(w.live, run);
    WatchMoves(w, step, run);
    SentIsOne(w, step);
    SocketsMove(w, step, ear);
    LogMoves(w, step);
    UntrackKeepsInv(w, run, m);
    ForOne(Envelope(ear.agent, Unsubscribe(w.homes[run].workspace, run)), ear.agent);
    hide SentBy, ReadsOk;
  }

  ghost predicate SameViewers(w: World, w': World) {
    w'.homes == w.homes && w'.store == w.store && w'.live == w.live && w'.log == w.log && w'.clock == w.clock
        && w'.passes == w.passes
  }

  lemma SameViewersWatch(w: World, w': World, run: RunId)
    requires SameViewers(w, w')
    ensures Watched(w', run) <==> Watched(w, run)
  {
  }

  /** Handling the only message under way. */
  lemma OneDelivery(w: World, ear: Ear, c: Control)
    requires ear in w.sockets && w.sockets[ear].inbox == [c]
    ensures Enabled(w, Deliver(ear)) && Reliable(Deliver(ear))
    ensures var w' := After(w, Deliver(ear));
            SameViewers(w, w') && ear in w'.sockets
            && w'.sockets[ear] == w.sockets[ear].(streaming := Heard(w.sockets[ear].streaming, c), inbox := [])
  {
    var none: seq<Control> := [];
    assert [c][1..] == none;
  }

  /** Replaying the only run left. */
  lemma OneReplay(w: World, ear: Ear, run: RunId)
    requires ear in w.sockets && w.sockets[ear].opening == Listed([], None, [run])
    ensures Enabled(w, Opening(ear, ReplayRun(true))) && Reliable(Opening(ear, ReplayRun(true)))
    ensures var w' := After(w, Opening(ear, ReplayRun(true)));
            SameViewers(w, w') && ear in w'.sockets
            && w'.sockets[ear] == w.sockets[ear].(opening := Opened, streaming := w.sockets[ear].streaming + {run})
  {
    var none: seq<RunId> := [];
    assert [run][1..] == none;
  }

  lemma ThreeReliable(a: Step, b: Step, c: Step)
    requires Reliable(a) && Reliable(b) && Reliable(c)
    ensures OnlyReliable([a] + [b] + [c])
  {
  }

  /** The three steps of the race. */
  lemma ReplayRace(w: World, ear: Ear, run: RunId, m: Member) returns (steps: seq<Step>, end: World)
    requires Inv(w) && ReadsOk(w) && OnlyViewer(w, run, m) && HomedAt(w, run, ear.agent) && run in w.homes
    requires ear in w.sockets && w.sockets[ear].inbox == [] && w.sockets[ear].opening == Listed([], None, [run])
    ensures Runs(w, steps, end) && OnlyReliable(steps)
    ensures ear in end.sockets && end.sockets[ear].opening == Opened && end.sockets[ear].inbox == []
    ensures run in end.sockets[ear].streaming && !Watched(end, run)
  {
    assert Reliable(Untrack(run, m));
    hide *;
    var w1 := After(w, Untrack(run, m));
    LastViewerLeaves(w, ear, run, m);
    OneStep(w, Untrack(run, m));
    OneDelivery(w1, ear, Unsubscribe(w.homes[run].workspace, run));
    var w2 := After(w1, Deliver(ear));
    OneStep(w1, Deliver(ear));
    OneReplay(w2, ear, run);
    end := After(w2, Opening(ear, ReplayRun(true)));
    OneStep(w2, Opening(ear, ReplayRun(true)));
    SameViewersWatch(w1, w2, run);
    SameViewersWatch(w2, end, run);
    RunsAppend(w, [Untrack(run, m)], w1, [Deliver(ear)], w2);
    RunsAppend(w, [Untrack(run, m)] + [Deliver(ear)], w2, [Opening(ear, ReplayRun(true))], end);
    steps := [Untrack(run, m)] + [Deliver(ear)] + [Opening(ear, ReplayRun(true))];
    ThreeReliable(Untrack(run, m), Deliver(ear), Opening(ear, ReplayRun(true)));
  }

  /** From every startup: the opening of a socket has read a run as watched; its last viewer leaves
      and the pod handles the unsubscribe; then the replay marks the run as streaming. Nothing was
      lost, nobody watches, and nothing is under way that would end it. */
  lemma RacingReplayMisleads(from: World, ear: Ear, run: RunId, m: Member, now: Time)
    returns (steps: seq<Step>, end: World)
    requires Startup(from) && HomedAt(from, run, ear.agent) && from.clock <= now
    ensures Runs(from, steps, end) && OnlyReliable(steps)
    ensures ear in end.sockets && end.sockets[ear].opening == Opened && end.sockets[ear].inbox == []
    ensures run in end.sockets[ear].streaming && !Watched(end, run)
  {
    var a, w := RunIsListed(from, ear, run, m, now);
    StartupIsOk(from);
    RunKeepsReads(from, a, w);
    assert run in w.homes;
    hide *;
    var b;
    b, end := ReplayRace(w, ear, run, m);
    steps := a + b;
    RunsAppend(from, a, w, b, end);
    ReliableAppend(a, b);
  }

  /** A pass about to read the card of a run that it will then retract. */
  lemma PassCountsNothing(w: World, pod: PodId, ear: Ear, run: RunId) returns (steps: seq<Step>, end: World)
    requires Inv(w) && !Watched(w, run) && ear.pod == pod && ear in w.sockets && run in w.sockets[ear].streaming
    requires pod in w.passes && w.passes[pod].agent == ear.agent && w.passes[pod].stage.Between?
        && w.passes[pod].todo == [run]
    ensures Runs(w, steps, end) && OnlyReliable(steps)
    ensures end == w.(passes := w.passes[pod := Pass(ear.agent, [], Wanted(run, false), true)])
  {
    assert SetIsLive(w, run);
    var none: seq<RunId> := [];
    assert [run][1..] == none;
    var w1 := w.(passes := w.passes[pod := Pass(ear.agent, [], Counted(run, 0), true)]);
    end := w.(passes := w.passes[pod := Pass(ear.agent, [], Wanted(run, false), true)]);
    assert After(w, Passing(pod, Count)) == w1;
    OneStep(w, Passing(pod, Count));
    assert After(w1, Passing(pod, Decide)) == end;
    OneStep(w1, Passing(pod, Decide));
    hide After, Enabled;
    RunsAppend(w, [Passing(pod, Count)], w1, [Passing(pod, Decide)], end);
    steps := [Passing(pod, Count)] + [Passing(pod, Decide)];
  }

  /** What a new viewer leaves at a socket and at a pass. */
  lemma ViewerComes(w: World, ear: Ear, run: RunId, m: Member, now: Time)
    requires Inv(w) && ReadsOk(w) && !Watched(w, run) && HomedAt(w, run, ear.agent) && w.clock <= now
    requires ear in w.sockets && StageOf(w, ear.pod) == Wanted(run, false)
    ensures Enabled(w, Track(run, m, now))
    ensures var w' := After(w, Track(run, m, now));
            var c := Subscribe(w.homes[run].workspace, run);
            && Inv(w') && Watched(w', run) && w'.homes == w.homes && w'.clock == now
                && StageOf(w', ear.pod) == Wanted(run, false)
            && ear.pod in w'.passes && w'.passes[ear.pod].agent == w.passes[ear.pod].agent
            && ear in w'.sockets && w'.sockets[ear].inbox == w.sockets[ear].inbox + [c]
            && w'.sockets[ear].streaming == w.sockets[ear].streaming
                && w'.sockets[ear].opening == w.sockets[ear].opening
            && w'.log == w.log + [Envelope(ear.agent, c)]
  {
    var step := Track(run, m, now);
    WatchMoves(w, step, run);
    SentIsOne(w, step);
    SocketsMove(w, step, ear);
    LogMoves(w, step);
    PassStays(w, step, ear.pod);
    StampKeepsInv(w, step);
    ForOne(Envelope(ear.agent, Subscribe(w.homes[run].workspace, run)), ear.agent);
    hide SentBy, ReadsOk, Inv;
  }

  /** The route is there again, so the pass retracts the run. */
  lemma PassRetracts(w: World, ear: Ear, run: RunId) returns (steps: seq<Step>, end: World)
    requires Inv(w) && Watched(w, run) && HomedAt(w, run, ear.agent) && run in w.homes && ear in w.sockets
    requires StageOf(w, ear.pod) == Wanted(run, false) && ear.pod in w.passes && w.passes[ear.pod].agent == ear.agent
    ensures Runs(w, steps, end) && OnlyReliable(steps)
    ensures var c := Unsubscribe(w.homes[run].workspace, run);
            && ear in end.sockets && end.sockets[ear].inbox == w.sockets[ear].inbox + [c]
            && end.sockets[ear].streaming == w.sockets[ear].streaming
                && end.sockets[ear].opening == w.sockets[ear].opening
            && end.live == w.live && end.homes == w.homes && end.log == w.log + [Envelope(ear.agent, c)]
  {
    var pod, p := ear.pod, w.passes[ear.pod];
    assert WatchedIsRouted(w, run);
    var c := Unsubscribe(w.homes[run].workspace, run);
    var w1 := w.(passes := w.passes[pod := p.(stage := Ready(c))]);
    assert After(w, Passing(pod, Resolve)) == w1;
    OneStep(w, Passing(pod, Resolve));
    end := After(w1, Passing(pod, Publish));
    ForOne(Envelope(ear.agent, c), ear.agent);
    OneStep(w1, Passing(pod, Publish));
    hide Enabled, Inv;
    RunsAppend(w, [Passing(pod, Resolve)], w1, [Passing(pod, Publish)], end);
    steps := [Passing(pod, Resolve)] + [Passing(pod, Publish)];
  }

  /** The whole race: the last viewer leaves, the pass reads no subscriber, a viewer comes, the pass
      reads the new route and retracts. */
  lemma PassRace(w: World, ear: Ear, run: RunId, m: Member, other: Member, now: Time)
    returns (steps: seq<Step>, end: World)
    requires Inv(w) && ReadsOk(w) && OnlyViewer(w, run, m) && run in w.homes && HomedAt(w, run, ear.agent)
        && w.clock <= now
    requires ear in w.sockets && w.sockets[ear].inbox == [] && run in w.sockets[ear].streaming
        && w.sockets[ear].opening == Opened
    requires ear.pod in w.passes && w.passes[ear.pod] == Pass(ear.agent, [run], Between, true)
    ensures Runs(w, steps, end) && OnlyReliable(steps)
    ensures var (u, t) := (Unsubscribe(w.homes[run].workspace, run), Subscribe(w.homes[run].workspace, run));
            && ear in end.sockets && end.sockets[ear].opening == Opened && end.sockets[ear].inbox == [u, t, u]
            && end.log == w.log + [Envelope(ear.agent, u), Envelope(ear.agent, t), Envelope(ear.agent, u)]
            && Watched(end, run) && end.homes == w.homes
  {
    hide *;
    var u, t := Unsubscribe(w.homes[run].workspace, run), Subscribe(w.homes[run].workspace, run);
    LeavesPassAlone(w, run, m, ear.pod);
    var w1 := After(w, Untrack(run, m));
    LastViewerLeaves(w, ear, run, m);
    OneStep(w, Untrack(run, m));
    StepKeepsInv(w, Untrack(run, m));
    StepKeepsReads(w, Untrack(run, m));
    StillHomed(w, w1, run, ear.agent);
    var b, w2 := PassCountsNothing(w1, ear.pod, ear, run);
    RunKeepsReads(w1, b, w2);
    StillUnwatched(w1, w2, ear, run);
    ViewerComes(w2, ear, run, other, now);
    var w3 := After(w2, Track(run, other, now));
    OneStep(w2, Track(run, other, now));
    StillHomed(w, w3, run, ear.agent);
    var d;
    d, end := PassRetracts(w3, ear, run);
    StillWatched(w3, end, run);
    RunsAppend(w, [Untrack(run, m)], w1, b, w2);
    RunsAppend(w, [Untrack(run, m)] + b, w2, [Track(run, other, now)], w3);
    RunsAppend(w, [Untrack(run, m)] + b + [Track(run, other, now)], w3, d, end);
    steps := [Untrack(run, m)] + b + [Track(run, other, now)] + d;
    FourParts(run, m, b, other, now, d);
    assert [u] + [t] + [u] == [u, t, u];
    var e, f := Envelope(ear.agent, u), Envelope(ear.agent, t);
    assert w.log + [e] + [f] + [e] == w.log + [e, f, e];
  }

  lemma FourParts(run: RunId, m: Member, b: seq<Step>, other: Member, now: Time, d: seq<Step>)
    requires OnlyReliable(b) && OnlyReliable(d)
    ensures OnlyReliable([Untrack(run, m)] + b + [Track(run, other, now)] + d)
  {
  }

  lemma LeavesPassAlone(w: World, run: RunId, m: Member, pod: PodId)
    requires pod in w.passes && w.passes[pod].stage.Between?
    ensures Enabled(w, Untrack(run, m))
    ensures pod in After(w, Untrack(run, m)).passes && After(w, Untrack(run, m)).passes[pod] == w.passes[pod]
  {
    PassStays(w, Untrack(run, m), pod);
  }

  lemma StillUnwatched(w: World, w': World, ear: Ear, run: RunId)
    requires !Watched(w, run) && w' == w.(passes := w.passes[ear.pod := Pass(ear.agent, [], Wanted(run, false), true)])
    requires run in w.homes && HomedAt(w, run, ear.agent)
    ensures !Watched(w', run) && HomedAt(w', run, ear.agent) && StageOf(w', ear.pod) == Wanted(run, false)
  {
  }

  lemma StillHomed(w: World, w': World, run: RunId, agent: AgentId)
    requires HomedAt(w, run, agent) && w'.homes == w.homes
    ensures HomedAt(w', run, agent)
  {
  }

  lemma StillWatched(w: World, w': World, run: RunId)
    requires Watched(w, run) && w'.live == w.live
    ensures Watched(w', run)
  {
  }

  /** The socket is open and the pass of its pod has listed the run. */
  lemma PassIsListed(w: World, ear: Ear, run: RunId) returns (steps: seq<Step>, end: World)
    requires w.sockets == map[ear := Socket({}, [], Listed([], None, [run]), {run})] && w.passes == map[]
    requires Members(w.store.agentRoutes, ear.agent).Keys == {run}
    ensures Runs(w, steps, end) && OnlyReliable(steps)
    ensures end == w.(sockets := map[ear := Socket({run}, [], Opened, {run})],
        passes := map[ear.pod := Pass(ear.agent, [run], Between, true)])
  {
    var w1 := After(w, Opening(ear, ReplayRun(true)));
    OneReplay(w, ear, run);
    OneStep(w, Opening(ear, ReplayRun(true)));
    var empty: set<RunId> := {};
    assert empty + {run} == {run};
    assert w1 == w.(sockets := map[ear := Socket({run}, [], Opened, {run})]);
    var begin := Passing(ear.pod, Begin(ear.agent, [run]));
    end := After(w1, begin);
    OneStep(w1, begin);
    RunsAppend(w, [Opening(ear, ReplayRun(true))], w1, [begin], end);
    steps := [Opening(ear, ReplayRun(true))] + [begin];
  }

  /** From every startup: the last viewer of a streaming run leaves, a pass reads that nobody is
      left, a viewer comes, and the pass, reading the new route, retracts the run. Nothing was lost,
      yet the run is watched and will not be streamed, and one drop has been announced twice. */
  lemma RacingPassMisleads(from: World, ear: Ear, run: RunId, m: Member, other: Member, now: Time)
    returns (steps: seq<Step>, end: World)
    requires Startup(from) && HomedAt(from, run, ear.agent) && from.clock <= now
    ensures Runs(from, steps, end) && OnlyReliable(steps)
    ensures ear in end.sockets && end.sockets[ear].opening == Opened
    ensures Watched(end, run) && !WillStream(end, ear, run)
    ensures Unsubscribes(end.log, run) == 2
  {
    var a, w := RunIsListed(from, ear, run, m, now);
    StartupIsOk(from);
    RunKeepsReads(from, a, w);
    var t := Subscribe(w.homes[run].workspace, run);
    var w1: World, b: seq<Step>;
    b, w1 := PassIsListed(w, ear, run);
    RunKeepsReads(w, b, w1);
    assert OnlyViewer(w1, run, m) && HomedAt(w1, run, ear.agent) && w1.log == [Envelope(ear.agent, t)]
        && w1.clock <= now;
    hide *;
    RunsAppend(from, a, w, b, w1);
    var c;
    c, end := PassRace(w1, ear, run, m, other, now);
    RunsAppend(from, a + b, w1, c, end);
    steps := a + b + c;
    ReliableAppend(a, b);
    ReliableAppend(a + b, c);
    RetractedInTheEnd(end, ear, run, w1.homes[run].workspace);
  }

  lemma RetractedInTheEnd(w: World, ear: Ear, run: RunId, workspace: WorkspaceId)
    requires var (u, t) := (Unsubscribe(workspace, run), Subscribe(workspace, run));
             && ear in w.sockets && w.sockets[ear].inbox == [u, t, u]
             && w.log == [Envelope(ear.agent, t)]
                 + [Envelope(ear.agent, u), Envelope(ear.agent, t), Envelope(ear.agent, u)]
    ensures !WillStream(w, ear, run) && Unsubscribes(w.log, run) == 2
  {
    var u, t := Unsubscribe(workspace, run), Subscribe(workspace, run);
    var e, f := Envelope(ear.agent, u), Envelope(ear.agent, t);
    assert [u, t] + [u] == [u, t, u];
    OneMoreMessage(w.sockets[ear].streaming, [u, t], u, run);
    assert w.log == [f] + [e] + [f] + [e];
    UnsubscribesOne(e, run);
    UnsubscribesOne(f, run);
    UnsubscribesAdd([f], [e], run);
    UnsubscribesAdd([f] + [e], [f], run);
    UnsubscribesAdd([f] + [e] + [f], [e], run);
  }

  // ----- What a pass repairs -----

  /** The belief after handling messages all of which are subscribes. */
  lemma {:induction false} CaughtSubscribes(streaming: set<RunId>, inbox: seq<Control>, more: seq<Control>)
    requires forall c :: c in more ==> c.Subscribe?
    ensures Caught(streaming, inbox + more) == Caught(streaming, inbox) + set c | c in more :: c.run
  {
    if more == [] {
      assert inbox + more == inbox;
    } else {
      var n := |more| - 1;
      assert inbox + more == inbox + more[..n] + [more[n]] && more == more[..n] + [more[n]];
      CaughtSubscribes(streaming, inbox, more[..n]);
      CaughtOne(streaming, inbox + more[..n], more[n]);
    }
  }

  lemma {:induction false} ForMembers(envelopes: seq<Envelope>, agent: AgentId)
    ensures forall c :: c in For(envelopes, agent) <==> Envelope(agent, c) in envelopes
  {
    if envelopes != [] {
      ForMembers(envelopes[1..], agent);
      assert envelopes == [envelopes[0]] + envelopes[1..];
    }
  }

  lemma ForFront(e: Envelope, rest: seq<Envelope>, agent: AgentId)
    ensures For([e] + rest, agent) == (if e.agent == agent then [e.control] else []) + For(rest, agent)
  {
    assert ([e] + rest)[1..] == rest;
  }

  lemma {:induction false} ForAdds(a: seq<Envelope>, b: seq<Envelope>, agent: AgentId)
    ensures For(a + b, agent) == For(a, agent) + For(b, agent)
  {
    if a == [] {
      assert a + b == b;
    } else {
      var e, rest := a[0], a[1..];
      assert a == [e] + rest && a + b == [e] + (rest + b);
      hide For;
      ForFront(e, rest, agent);
      ForFront(e, rest + b, agent);
      ForAdds(rest, b, agent);
      Associates(if e.agent == agent then [e.control] else [], For(rest, agent), For(b, agent));
    }
  }

  /** With nothing in between, a pass publishes a subscribe for exactly the routed runs its pod does
      not stream, and nothing else. */
  lemma {:induction false} PassesOnlySubscribe(w: World, streaming: set<RunId>, agent: AgentId, runs: seq<RunId>)
    requires Inv(w) && forall run :: run in runs ==> run in Members(w.store.agentRoutes, agent)
    ensures forall run :: run in runs ==> run in w.homes
    ensures forall e :: e in Repairs(w.store, streaming, agent, runs) ==>
              e.agent == agent && e.control.Subscribe? && e.control.run in runs && e.control.run !in streaming
    ensures forall run :: run in runs && run !in streaming ==>
              Envelope(agent, Subscribe(w.homes[run].workspace, run)) in Repairs(w.store, streaming, agent, runs)
  {
    if runs != [] {
      var n := |runs| - 1;
      PassesOnlySubscribe(w, streaming, agent, runs[..n]);
      assert RoutedIsWatched(w, runs[n], agent) && WatchedIsRouted(w, runs[n]) && SetIsLive(w, runs[n]);
      assert runs == runs[..n] + [runs[n]];
    }
  }

  lemma PassCatchesUp(w: World, ear: Ear, runs: seq<RunId>)
    requires Inv(w) && ear in w.sockets && Lists(runs, Members(w.store.agentRoutes, ear.agent).Keys)
    ensures var s := w.sockets[ear];
            var more := For(Repairs(w.store, s.streaming, ear.agent, runs), ear.agent);
            Caught(s.streaming, s.inbox + more)
                == Caught(s.streaming, s.inbox) + (WatchedOf(w, ear.agent) - s.streaming)
  {
    var s := w.sockets[ear];
    var repairs := Repairs(w.store, s.streaming, ear.agent, runs);
    var more := For(repairs, ear.agent);
    PassesOnlySubscribe(w, s.streaming, ear.agent, runs);
    ForMembers(repairs, ear.agent);
    CaughtSubscribes(s.streaming, s.inbox, more);
    forall run ensures run in (set c | c in more :: c.run) <==> run in WatchedOf(w, ear.agent) - s.streaming {
      assert SetIsLive(w, run) && WatchedIsRouted(w, run) && RoutedIsWatched(w, run, ear.agent);
      if run in WatchedOf(w, ear.agent) - s.streaming {
        var c := Subscribe(w.homes[run].workspace, run);
        assert run in runs && Envelope(ear.agent, c) in repairs && c in more;
      }
    }
  }

  /** The steps of one pass with nothing in between. */
  predicate OnlyPass(steps: seq<Step>, pod: PodId) {
    forall i :: 0 <= i < |steps| ==> steps[i].Passing? && steps[i].pod == pod
  }

  /** A pass at `run`, with what it still has to do. */
  ghost predicate PassAt(w: World, ear: Ear, todo: seq<RunId>) {
    && ear.pod in w.passes && w.passes[ear.pod].agent == ear.agent
    && w.passes[ear.pod].todo == todo && w.passes[ear.pod].stage.Between?
  }

  /** `end` is `w` with `sent` published and the pass of the pod moved on. */
  ghost predicate PublishedSo(w: World, ear: Ear, sent: seq<Envelope>, todo: seq<RunId>, end: World) {
    && PassAt(end, ear, todo)
    && end == Published(w, sent).(passes := end.passes)
    && end.passes - {ear.pod} == w.passes - {ear.pod}
  }

  lemma NothingPublished(w: World)
    ensures Published(w, []) == w
  {
    forall ear | ear in w.sockets ensures w.sockets[ear].inbox + For([], ear.agent) == w.sockets[ear].inbox {
    }
    assert Published(w, []).sockets == w.sockets;
    assert w.log + [] == w.log;
  }

  lemma PublishedTwice(w: World, a: seq<Envelope>, b: seq<Envelope>)
    ensures Published(Published(w, a), b) == Published(w, a + b)
  {
    var once, twice := Published(w, a), Published(Published(w, a), b);
    forall ear | ear in w.sockets ensures twice.sockets[ear] == Published(w, a + b).sockets[ear] {
      ForAdds(a, b, ear.agent);
      var (x, y, z) := (w.sockets[ear].inbox, For(a, ear.agent), For(b, ear.agent));
      assert (x + y) + z == x + (y + z);
    }
    assert twice.sockets == Published(w, a + b).sockets;
    assert (w.log + a) + b == w.log + (a + b);
  }

  /** One move of a pass that publishes nothing. */
  lemma QuietMove(w: World, ear: Ear, move: PassMove, stage: Stage, todo: seq<RunId>, calm: bool)
    requires MayPass(w, ear.pod, move) && (move.Count? || move.Decide? || move.Resolve?)
        && w.passes[ear.pod].agent == ear.agent
    requires Passed(w, ear.pod, move) == AtPass(w, ear.pod, Pass(ear.agent, todo, stage, calm))
    ensures Runs(w, [Passing(ear.pod, move)], AtPass(w, ear.pod, Pass(ear.agent, todo, stage, calm)))
  {
    OneStep(w, Passing(ear.pod, move));
    hide Passed, MayPass;
  }

  lemma OnlyPassAppend(a: seq<Step>, b: seq<Step>, pod: PodId)
    requires OnlyPass(a, pod) && OnlyPass(b, pod)
    ensures OnlyPass(a + b, pod)
  {
  }

  /** The pass counts a run and compares the count with what the pod streams. */
  lemma CountAndDecide(w: World, ear: Ear, todo: seq<RunId>) returns (steps: seq<Step>, end: World)
    requires PassAt(w, ear, todo) && todo != []
    ensures Runs(w, steps, end) && OnlyPass(steps, ear.pod)
    ensures var stage := Wish(|Members(w.store.subscribers, todo[0])|, todo[0] in StreamingAt(w, ear), todo[0]);
            end == AtPass(w, ear.pod, Pass(ear.agent, todo[1..], stage, true))
  {
    var pod, run, rest := ear.pod, todo[0], todo[1..];
    var card := |Members(w.store.subscribers, run)|;
    var stage := Wish(card, run in StreamingAt(w, ear), run);
    var w1 := AtPass(w, pod, Pass(ear.agent, rest, Counted(run, card), true));
    QuietMove(w, ear, Count, Counted(run, card), rest, true);
    end := AtPass(w, pod, Pass(ear.agent, rest, stage, true));
    assert AtPass(w1, pod, Pass(ear.agent, rest, stage, true)) == end;
    QuietMove(w1, ear, Decide, stage, rest, true);
    steps := [Passing(pod, Count)] + [Passing(pod, Decide)];
    RunsAppend(w, [Passing(pod, Count)], w1, [Passing(pod, Decide)], end);
  }

  lemma MovedOn(w: World, ear: Ear, todo: seq<RunId>, end: World)
    requires ear.pod in w.passes && end == AtPass(w, ear.pod, Pass(ear.agent, todo, Between, true))
    ensures PublishedSo(w, ear, [], todo, end)
  {
    NothingPublished(w);
    assert end.passes - {ear.pod} == w.passes - {ear.pod};
  }

  /** One run of a pass: at most four steps, which publish its repair. */
  lemma OneRunOfPass(w: World, ear: Ear, todo: seq<RunId>) returns (steps: seq<Step>, end: World)
    requires PassAt(w, ear, todo) && todo != []
    ensures Runs(w, steps, end) && OnlyPass(steps, ear.pod)
    ensures PublishedSo(w, ear, Repair(w.store, StreamingAt(w, ear), ear.agent, todo[0]), todo[1..], end)
  {
    var run := todo[0];
    var stage := Wish(|Members(w.store.subscribers, run)|, run in StreamingAt(w, ear), run);
    steps, end := CountAndDecide(w, ear, todo);
    hide Runs, OnlyPass, PublishedSo, Members, StreamingAt, AtPass;
    if stage.Between? {
      MovedOn(w, ear, todo[1..], end);
    } else {
      var c, last := ResolveRun(w, end, ear, todo[1..], run, stage.subscribe);
      RunsAppend(w, steps, end, c, last);
      OnlyPassAppend(steps, c, ear.pod);
      steps, end := steps + c, last;
    }
  }

  /** The rest of a run that the pass wants something of. */
  lemma ResolveRun(w: World, w2: World, ear: Ear, rest: seq<RunId>, run: RunId, subscribe: bool)
    returns (steps: seq<Step>, end: World)
    requires ear.pod in w.passes && w2 == AtPass(w, ear.pod, Pass(ear.agent, rest, Wanted(run, subscribe), true))
    ensures Runs(w2, steps, end) && OnlyPass(steps, ear.pod)
    ensures PublishedSo(w, ear,
              if run in w.store.routes
                  then [Envelope(ear.agent, ControlOf(subscribe, w.store.routes[run].workspace, run))] else [],
              rest, end)
  {
    var pod := ear.pod;
    NothingPublished(w);
    if run !in w.store.routes {
      end := AtPass(w, pod, Pass(ear.agent, rest, Between, true));
      assert AtPass(w2, pod, Pass(ear.agent, rest, Between, true)) == end;
      QuietMove(w2, ear, Resolve, Between, rest, true);
      steps := [Passing(pod, Resolve)];
      assert end.passes - {pod} == w.passes - {pod};
    } else {
      var c := ControlOf(subscribe, w.store.routes[run].workspace, run);
      var w3 := AtPass(w, pod, Pass(ear.agent, rest, Ready(c), true));
      assert AtPass(w2, pod, Pass(ear.agent, rest, Ready(c), true)) == w3;
      QuietMove(w2, ear, Resolve, Ready(c), rest, true);
      end := After(w3, Passing(pod, Publish));
      OneStep(w3, Passing(pod, Publish));
      assert end.passes - {pod} == w.passes - {pod};
      steps := [Passing(pod, Resolve)] + [Passing(pod, Publish)];
      RunsAppend(w2, [Passing(pod, Resolve)], w3, [Passing(pod, Publish)], end);
    }
  }

  lemma {:induction false} RepairsFront(s: Store, streaming: set<RunId>, agent: AgentId, runs: seq<RunId>)
    requires runs != []
    ensures Repairs(s, streaming, agent, runs)
            == Repair(s, streaming, agent, runs[0]) + Repairs(s, streaming, agent, runs[1..])
  {
    var n := |runs| - 1;
    if n == 0 {
      assert runs[..0] == [] && runs[1..] == [];
    } else {
      RepairsFront(s, streaming, agent, runs[..n]);
      assert runs[..n][1..] == runs[1..][..n - 1] && runs[1..][n - 1] == runs[n];
      var x, y, z := Repair(s, streaming, agent, runs[0]), Repairs(s, streaming, agent, runs[1..][..n - 1]),
          Repair(s, streaming, agent, runs[n]);
      assert (x + y) + z == x + (y + z);
    }
  }

  /** Everything a pass has still to do, with nothing in between. */
  lemma {:induction false} RestOfPass(w: World, ear: Ear, todo: seq<RunId>) returns (steps: seq<Step>, end: World)
    requires PassAt(w, ear, todo)
    ensures Runs(w, steps, end) && OnlyPass(steps, ear.pod)
    ensures PublishedSo(w, ear, Repairs(w.store, StreamingAt(w, ear), ear.agent, todo), [], end)
    decreases |todo|
  {
    if todo == [] {
      NothingPublished(w);
      steps, end := [], w;
    } else {
      var a, w1 := OneRunOfPass(w, ear, todo);
      var b, w2 := RestOfPass(w1, ear, todo[1..]);
      steps, end := a + b, w2;
      RunsAppend(w, a, w1, b, w2);
      RepairsFront(w.store, StreamingAt(w, ear), ear.agent, todo);
      var x, y := Repair(w.store, StreamingAt(w, ear), ear.agent, todo[0]),
          Repairs(w.store, StreamingAt(w, ear), ear.agent, todo[1..]);
      assert StreamingAt(w1, ear) == StreamingAt(w, ear) && w1.store == w.store;
      PublishedTwice(w, x, y);
      assert Published(w1, y) == Published(Published(w, x), y).(passes := w1.passes);
    }
  }

  lemma PassBegins(w: World, ear: Ear, runs: seq<RunId>) returns (w1: World)
    requires MayPass(w, ear.pod, Begin(ear.agent, runs))
    ensures Runs(w, [Passing(ear.pod, Begin(ear.agent, runs))], w1) && PassAt(w1, ear, runs)
    ensures w1 == AtPass(w, ear.pod, Pass(ear.agent, runs, Between, true))
  {
    w1 := After(w, Passing(ear.pod, Begin(ear.agent, runs)));
    OneStep(w, Passing(ear.pod, Begin(ear.agent, runs)));
  }

  lemma PassFinishes(w: World, w1: World, w2: World, ear: Ear, runs: seq<RunId>, sent: seq<Envelope>)
    requires ear.pod !in w.passes && w1 == AtPass(w, ear.pod, Pass(ear.agent, runs, Between, true))
    requires PublishedSo(w1, ear, sent, [], w2)
    ensures Runs(w2, [Passing(ear.pod, Finish)], Published(w, sent))
  {
    hide For;
    assert w1.passes - {ear.pod} == w.passes;
    assert After(w2, Passing(ear.pod, Finish)) == Published(w, sent);
    OneStep(w2, Passing(ear.pod, Finish));
  }

  /** A whole pass with nothing in between: it publishes its repairs and is gone. */
  lemma WholePass(w: World, ear: Ear, runs: seq<RunId>) returns (steps: seq<Step>, end: World)
    requires MayPass(w, ear.pod, Begin(ear.agent, runs))
    ensures Runs(w, steps, end) && OnlyPass(steps, ear.pod)
    ensures end == Published(w, Repairs(w.store, StreamingAt(w, ear), ear.agent, runs))
  {
    var begin, finish := Passing(ear.pod, Begin(ear.agent, runs)), Passing(ear.pod, Finish);
    var w1 := PassBegins(w, ear, runs);
    var b, w2 := RestOfPass(w1, ear, runs);
    var sent := Repairs(w.store, StreamingAt(w, ear), ear.agent, runs);
    assert sent == Repairs(w1.store, StreamingAt(w1, ear), ear.agent, runs);
    hide Runs, Repairs, PublishedSo, PassAt, Published, StreamingAt;
    PassFinishes(w, w1, w2, ear, runs, sent);
    end := Published(w, sent);
    RunsAppend(w, [begin], w1, b, w2);
    RunsAppend(w, [begin] + b, w2, [finish], end);
    steps := [begin] + b + [finish];
  }

  function Deliveries(ear: Ear, n: nat): seq<Step> {
    seq(n, _ => Deliver(ear))
  }

  /** Handling the whole inbox, one message after the other. */
  lemma {:induction false} DeliveryCatchesUp(w: World, ear: Ear) returns (end: World)
    requires ear in w.sockets
    ensures Runs(w, Deliveries(ear, |w.sockets[ear].inbox|), end)
    ensures end.live == w.live && end.homes == w.homes && ear in end.sockets
    ensures end.sockets[ear].streaming == Caught(w.sockets[ear].streaming, w.sockets[ear].inbox)
    ensures end.sockets[ear].inbox == []
    decreases |w.sockets[ear].inbox|
  {
    var s := w.sockets[ear];
    if s.inbox == [] {
      end := w;
    } else {
      var step := Deliver(ear);
      end := DeliveryCatchesUp(After(w, step), ear);
      CaughtHead(s.streaming, s.inbox);
      assert Deliveries(ear, |s.inbox|)[1..] == Deliveries(ear, |s.inbox| - 1);
    }
  }

  /** From every reachable state, whatever was lost before and whatever is still under way: one
      pass with nothing in between, and the handling of all that is then in the inbox, leave the pod
      streaming what it would have come to stream and every watched run it did not stream. All that
      is watched is then streamed exactly when no message under way ends a run that is both watched
      and streamed; and a run that nobody watches and that would be streamed stays. */
  lemma OnePassRepairs(from: World, before: seq<Step>, w: World, ear: Ear, runs: seq<RunId>)
    returns (pass: seq<Step>, mid: World, end: World)
    requires Startup(from) && Runs(from, before, w) && ear in w.sockets
    requires Enabled(w, Passing(ear.pod, Begin(ear.agent, runs)))
    ensures Runs(w, pass, mid) && OnlyPass(pass, ear.pod)
    ensures ear in mid.sockets && Runs(mid, Deliveries(ear, |mid.sockets[ear].inbox|), end)
    ensures ear in end.sockets && end.sockets[ear].inbox == [] && WatchedOf(end, ear.agent) == WatchedOf(w, ear.agent)
    ensures var (s, caught, watched) :=
        (w.sockets[ear], Caught(w.sockets[ear].streaming, w.sockets[ear].inbox), WatchedOf(w, ear.agent));
            && end.sockets[ear].streaming == caught + (watched - s.streaming)
            && (watched <= end.sockets[ear].streaming <==> watched * s.streaming <= caught)
            && (end.sockets[ear].streaming <= watched <==> caught <= watched)
  {
    StartupIsOk(from);
    RunKeepsReads(from, before, w);
    pass, mid := WholePass(w, ear, runs);
    PassCatchesUp(w, ear, runs);
    end := DeliveryCatchesUp(mid, ear);
    SameWatched(w, end, ear.agent);
    hide Caught, Runs, Repairs, For, Inv, ReadsOk, Startup;
  }

  lemma SameWatched(w: World, w': World, agent: AgentId)
    requires w'.live == w.live && w'.homes == w.homes
    ensures WatchedOf(w', agent) == WatchedOf(w, agent)
  {
  }
}
