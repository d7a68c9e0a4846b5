/**
 The supervisor and the workspace process side by side, with every goroutine of every
 execution: what each send returns, that nothing follows a terminal event, and when a
 command whose context is done comes to its answer.
 */
module PipeRuns {
  import opened Basics
  import opened Pipe

  /** What one `Send` returned, and the progress it forwarded before. */
  datatype Result = Result(terminal: Frame, forwarded: seq<Frame>)

  /** The pool sends its commands one at a time: the next only after the last has returned, and none
      after an error. The process looks at its context (`cancelled`), then reads a command
      (`reading`), then executes it; `written` is everything ever written to the event pipe. */
  datatype Machine = Machine(
    commands: seq<Command>,
    events: seq<Frame>,
    waiting: bool,
    forwarding: seq<Frame>,
    given: seq<Result>,
    broken: bool,
    cancelled: bool,
    reading: bool,
    stopped: bool,
    executions: seq<Execution>,
    written: seq<Frame>)

  /** The goroutines of an execution can move as long as they are able to, whatever the executor of
      the process is doing by then. */
  datatype Move = Send | Receive | Break | Cancel | Look | Take | Do(i: nat, act: Act)

  const Fresh := Machine([], [], false, [], [], false, false, false, false, [], [])

  predicate Busy(m: Machine) {
    m.executions != [] && m.executions[|m.executions| - 1].answer == None
  }

  predicate Enabled(m: Machine, sends: seq<Command>, move: Move) {
    match move
    case Send => !m.broken && !m.waiting && |m.given| < |sends|
    case Receive => !m.broken && m.waiting && m.events != []
    case Break => !m.broken && m.waiting
    case Cancel => true
    case Look => !m.reading && !m.stopped && !Busy(m)
    case Take => m.reading && m.commands != []
    case Do(i, act) => i < |m.executions| && Can(m.executions[i], m.cancelled, act)
  }

  function Acted(m: Machine, i: nat, act: Act): Machine
    requires i < |m.executions| && Can(m.executions[i], true, act)
  {
    var frames := WrittenBy(m.executions[i], act);
    m.(executions := m.executions[i := Performed(m.executions[i], act)], events := m.events + frames,
        written := m.written + frames)
  }

  function After(m: Machine, sends: seq<Command>, move: Move): Machine
    requires Enabled(m, sends, move)
  {
    match move
    case Send => m.(commands := m.commands + [sends[|m.given|]], waiting := true, forwarding := [])
    case Receive =>
      var f, m' := m.events[0], m.(events := m.events[1..]);
      if f.body.Progress? then m'.(forwarding := m.forwarding + [f])
      else m'.(waiting := false, given := m.given + [Result(f, m.forwarding)], forwarding := [])
    case Break => m.(broken := true)
    case Cancel => m.(cancelled := true)
    case Look => if m.cancelled then m.(stopped := true) else m.(reading := true)
    case Take => m.(commands := m.commands[1..], reading := false, executions := m.executions + [Taken(m.commands[0])])
    case Do(i, act) => Acted(m, i, act)
  }

  function Plays(m: Machine, sends: seq<Command>, moves: seq<Move>): Option<Machine>
    decreases |moves|
  {
    if moves == [] then Some(m)
    else if Enabled(m, sends, moves[0]) then Plays(After(m, sends, moves[0]), sends, moves[1..])
    else None
  }

  // ----- Everything written -----

  ghost predicate AllButLastAnswered(es: seq<Execution>) {
    forall i :: 0 <= i < |es| - 1 ==> es[i].answer.Some?
  }

  /** What was written is the output of the executions, one after the other, and only the last of
      them can have no terminal event yet. */
  ghost predicate InBlocks(m: Machine) {
    && AllJoined(m.executions) && AllButLastAnswered(m.executions)
    && m.written == Outputs(m.executions)
    && (m.reading ==> !Busy(m))
  }

  lemma {:induction false} OutputsAt(es: seq<Execution>, i: nat, e: Execution, more: seq<Frame>)
    requires AllJoined(es) && i < |es| && Joined(e) && Output(e) == Output(es[i]) + more
    requires i < |es| - 1 ==> more == []
    ensures AllJoined(es[i := e]) && Outputs(es[i := e]) == Outputs(es) + more
    decreases |es|
  {
    hide Joined, Output;
    var n := |es| - 1;
    if i == n {
      assert es[i := e][..n] == es[..n];
      Associates(Outputs(es[..n]), Output(es[n]), more);
    } else {
      OutputsAt(es[..n], i, e, more);
      assert es[i := e][..n] == es[..n][i := e];
      Associates(Outputs(es[..n]), [], []);
      Associates(Outputs(es), [], []);
    }
  }

  lemma MoveKeepsBlocks(m: Machine, sends: seq<Command>, move: Move)
    requires InBlocks(m) && Enabled(m, sends, move)
    ensures InBlocks(After(m, sends, move))
  {
    hide Joined, Output, Outputs, Can, Performed, WrittenBy;
    match move {
      case Take =>
        TakenIsJoined(m.commands[0]);
        OneMore(m.executions, Taken(m.commands[0]));
        Associates(m.written, [], []);
      case Do(i, act) =>
        var e := m.executions[i];
        ActWrites(e, m.cancelled, act);
        OutputsAt(m.executions, i, Performed(e, act), WrittenBy(e, act));
        StillAnswered(m, i, act);
      case _ =>
    }
  }

  lemma TakenIsJoined(c: Command)
    ensures Joined(Taken(c)) && Output(Taken(c)) == []
  {
  }

  lemma StillAnswered(m: Machine, i: nat, act: Act)
    requires i < |m.executions| && Can(m.executions[i], m.cancelled, act) && Joined(m.executions[i])
    ensures AllButLastAnswered(m.executions) ==> AllButLastAnswered(Acted(m, i, act).executions)
    ensures !Busy(m) ==> !Busy(Acted(m, i, act))
  {
    ActWrites(m.executions[i], m.cancelled, act);
    hide Joined, Output, WrittenBy;
  }

  lemma {:induction false} PlayKeepsBlocks(m: Machine, sends: seq<Command>, moves: seq<Move>)
    requires InBlocks(m) && Plays(m, sends, moves).Some?
    ensures InBlocks(Plays(m, sends, moves).value)
    decreases |moves|
  {
    hide InBlocks, Enabled, After;
    if moves != [] {
      MoveKeepsBlocks(m, sends, moves[0]);
      PlayKeepsBlocks(After(m, sends, moves[0]), sends, moves[1..]);
    }
  }

  /** In every reachable state: what has been written to the event pipe is one block for each
      execution, in order, each of the child's lines and then at most one terminal event; once an
      execution has written its terminal event nothing more can be written for it, by a goroutine
      of its reader or otherwise; and a success was never reported for a child that failed or was
      interrupted. */
  lemma NothingFollowsTheTerminal(sends: seq<Command>, moves: seq<Move>, i: nat, act: Act)
    requires Plays(Fresh, sends, moves).Some?
    ensures var m := Plays(Fresh, sends, moves).value;
            && AllJoined(m.executions) && m.written == Outputs(m.executions)
            && (i < |m.executions| && m.executions[i].answer.Some? ==>
                  && Output(m.executions[i]) == Answered(m.executions[i])
                  && (Can(m.executions[i], m.cancelled, act) ==> WrittenBy(m.executions[i], act) == []))
            && (i < |m.executions| && m.executions[i].answer == Some(true) && !m.executions[i].stage.Idle? ==>
                  m.executions[i].status && !m.executions[i].timedOut)
  {
    PlayKeepsBlocks(Fresh, sends, moves);
    var m := Plays(Fresh, sends, moves).value;
    if i < |m.executions| && m.executions[i].answer.Some? {
      AnsweredIsAll(m.executions[i]);
      if Can(m.executions[i], m.cancelled, act) {
        ActWrites(m.executions[i], m.cancelled, act);
      }
    }
    hide Output, Plays;
  }

  // ----- What the sends return -----

  /** What the `Send` of an answered execution returns. */
  function Expected(e: Execution): Result
    requires e.answer.Some?
  {
    Result(Terminal(e.command, e.answer.value), ProgressFrames(e.command, Scannable(e.printed)))
  }

  predicate OnlyProgress(frames: seq<Frame>) {
    forall i :: 0 <= i < |frames| ==> frames[i].body.Progress?
  }

  /** The send under way: its command is still in the pipe, or what its execution has written was
      forwarded or is in the pipe. */
  ghost predicate UnderWay(m: Machine, c: Command, n: nat)
    requires AllJoined(m.executions)
  {
    if |m.executions| == n then m.commands == [c] && m.events == [] && m.forwarding == []
    else
      && |m.executions| == n + 1 && m.commands == [] && m.executions[n].command == c
      && m.forwarding + m.events == Output(m.executions[n]) && OnlyProgress(m.forwarding)
  }

  ghost predicate GivenRight(m: Machine, sends: seq<Command>, i: nat)
    requires i < |m.given|
  {
    && i < |m.executions| && i < |sends| && m.executions[i].command == sends[i] && m.executions[i].answer.Some?
    && m.given[i] == Expected(m.executions[i])
  }

  ghost predicate Lockstep(m: Machine, sends: seq<Command>) {
    && InBlocks(m) && |m.given| <= |sends|
    && (forall i :: 0 <= i < |m.given| ==> GivenRight(m, sends, i))
    && (if m.waiting then |m.given| < |sends| && UnderWay(m, sends[|m.given|], |m.given|)
        else m.commands == [] && m.events == [] && m.forwarding == [] && |m.executions| == |m.given|)
  }

  lemma OutputShape(e: Execution, k: nat)
    requires Joined(e) && k < |Output(e)|
    ensures Output(e)[k].body.Progress? <==> k < e.read
    ensures k == e.read ==>
              e.answer.Some? && Output(e) == Answered(e) && Output(e)[k] == Expected(e).terminal
              && Output(e)[..k] == Expected(e).forwarded && |Output(e)| == k + 1
  {
    if k == e.read {
      AnsweredIsAll(e);
    }
  }

  lemma BlocksAreJoined(m: Machine)
    requires InBlocks(m)
    ensures AllJoined(m.executions)
  {
  }

  /** Only progress has been forwarded, so the first other frame is the terminal one. */
  lemma NotPastTheEnd(e: Execution, forwarding: seq<Frame>, k: nat)
    requires Joined(e) && k < |Output(e)| && forwarding == Output(e)[..k] && OnlyProgress(forwarding)
    requires !Output(e)[k].body.Progress?
    ensures k == e.read
  {
    OutputShape(e, k);
    OutputShape(e, if k < e.read then k else e.read);
    assert forall j :: 0 <= j < k ==> forwarding[j] == Output(e)[j];
  }

  /** The frame at the head of the event pipe, in the output of the execution under way. */
  lemma HeadOfOutput(m: Machine, sends: seq<Command>)
    requires Lockstep(m, sends) && Enabled(m, sends, Receive)
    ensures var (n, k) := (|m.given|, |m.forwarding|);
            && n < |sends| && |m.executions| == n + 1 && m.commands == [] && m.executions[n].command == sends[n]
            && Joined(m.executions[n]) && m.forwarding + m.events == Output(m.executions[n])
                && OnlyProgress(m.forwarding)
            && k < |Output(m.executions[n])| && m.events[0] == Output(m.executions[n])[k]
            && m.forwarding == Output(m.executions[n])[..k] && m.events[1..] == Output(m.executions[n])[k + 1..]
            && InBlocks(After(m, sends, Receive))
  {
    BlocksAreJoined(m);
    MoveKeepsBlocks(m, sends, Receive);
    var all := m.forwarding + m.events;
    assert all[|m.forwarding|] == m.events[0] && all[..|m.forwarding|] == m.forwarding;
    assert all[|m.forwarding| + 1..] == m.events[1..];
    hide Joined, Output, InBlocks;
  }

  lemma ProgressKeepsLockstep(m: Machine, sends: seq<Command>)
    requires Lockstep(m, sends) && Enabled(m, sends, Receive) && m.events[0].body.Progress?
    ensures Lockstep(After(m, sends, Receive), sends)
  {
    var m' := After(m, sends, Receive);
    HeadOfOutput(m, sends);
    BlocksAreJoined(m');
    hide Joined, Output, InBlocks;
    forall i | 0 <= i < |m.given| ensures GivenRight(m', sends, i) {
      assert GivenRight(m, sends, i);
    }
    assert (m.forwarding + [m.events[0]]) + m.events[1..] == m.forwarding + m.events;
    hide GivenRight;
  }

  lemma TerminalKeepsLockstep(m: Machine, sends: seq<Command>)
    requires Lockstep(m, sends) && Enabled(m, sends, Receive) && !m.events[0].body.Progress?
    ensures Lockstep(After(m, sends, Receive), sends)
  {
    var m', n, k := After(m, sends, Receive), |m.given|, |m.forwarding|;
    var e := m.executions[n];
    HeadOfOutput(m, sends);
    BlocksAreJoined(m');
    hide Joined, Output, InBlocks, Answered, Expected;
    NotPastTheEnd(e, m.forwarding, k);
    OutputShape(e, k);
    forall i | 0 <= i < n ensures GivenRight(m', sends, i) {
      assert GivenRight(m, sends, i);
    }
    assert m'.given[n] == Expected(e);
  }

  /** A goroutine of an execution that has been received writes nothing and changes nothing of it
      that was received. */
  lemma DoKeepsGiven(m: Machine, sends: seq<Command>, i: nat, act: Act, j: nat)
    requires i < |m.executions| && Joined(m.executions[i]) && Can(m.executions[i], m.cancelled, act)
    requires j < |m.given| && GivenRight(m, sends, j)
    ensures GivenRight(Acted(m, i, act), sends, j)
    ensures i == j ==> WrittenBy(m.executions[i], act) == []
  {
    ActKeepsJoined(m.executions[i], m.cancelled, act);
    ActWrites(m.executions[i], m.cancelled, act);
    hide Can, Joined, Performed, WrittenBy, Output, ProgressFrames, Scannable;
  }

  lemma DoKeepsUnderWay(m: Machine, i: nat, act: Act, c: Command, n: nat)
    requires AllJoined(m.executions) && i < |m.executions| && Can(m.executions[i], m.cancelled, act)
    requires n <= |m.executions| && UnderWay(m, c, n) && (i < n ==> WrittenBy(m.executions[i], act) == [])
    ensures AllJoined(Acted(m, i, act).executions) && UnderWay(Acted(m, i, act), c, n)
  {
    var e := m.executions[i];
    ActKeepsJoined(e, m.cancelled, act);
    ActWrites(e, m.cancelled, act);
    Associates(m.forwarding, m.events, WrittenBy(e, act));
    Associates(m.events, [], []);
    hide Can, Joined, Performed, WrittenBy, Output;
  }

  lemma DoKeepsLockstep(m: Machine, sends: seq<Command>, i: nat, act: Act)
    requires Lockstep(m, sends) && Enabled(m, sends, Do(i, act))
    ensures Lockstep(After(m, sends, Do(i, act)), sends)
  {
    var n := |m.given|;
    MoveKeepsBlocks(m, sends, Do(i, act));
    BlocksAreJoined(m);
    assert i < n ==> GivenRight(m, sends, i);
    hide Joined, Output, Can, Performed, WrittenBy, InBlocks, UnderWay, GivenRight;
    forall j | 0 <= j < n ensures GivenRight(Acted(m, i, act), sends, j) {
      DoKeepsGiven(m, sends, i, act, j);
    }
    if i < n {
      DoKeepsGiven(m, sends, i, act, i);
    }
    Associates(m.events, [], []);
    if m.waiting {
      DoKeepsUnderWay(m, i, act, sends[n], n);
    }
  }

  lemma MoveKeepsLockstep(m: Machine, sends: seq<Command>, move: Move)
    requires Lockstep(m, sends) && Enabled(m, sends, move)
    ensures Lockstep(After(m, sends, move), sends)
  {
    match move {
      case Receive =>
        if m.events[0].body.Progress? {
          ProgressKeepsLockstep(m, sends);
        } else {
          TerminalKeepsLockstep(m, sends);
        }
      case Do(i, act) => DoKeepsLockstep(m, sends, i, act);
      case _ =>
        MoveKeepsBlocks(m, sends, move);
        OthersKeepLockstep(m, sends, move);
    }
  }

  lemma OthersKeepLockstep(m: Machine, sends: seq<Command>, move: Move)
    requires Lockstep(m, sends) && Enabled(m, sends, move) && !move.Receive? && !move.Do?
    requires InBlocks(After(m, sends, move))
    ensures Lockstep(After(m, sends, move), sends)
  {
    hide Joined, InBlocks;
    BlocksAreJoined(m);
    var m', n := After(m, sends, move), |m.given|;
    BlocksAreJoined(m');
    assert forall j :: 0 <= j < n ==> GivenRight(m, sends, j) ==> GivenRight(m', sends, j);
    if move.Take? {
      TakenIsJoined(m.commands[0]);
    }
  }

  lemma {:induction false} PlayKeepsLockstep(m: Machine, sends: seq<Command>, moves: seq<Move>)
    requires Lockstep(m, sends) && Plays(m, sends, moves).Some?
    ensures Lockstep(Plays(m, sends, moves).value, sends)
    decreases |moves|
  {
    hide Lockstep, Enabled, After;
    if moves != [] {
      MoveKeepsLockstep(m, sends, moves[0]);
      PlayKeepsLockstep(After(m, sends, moves[0]), sends, moves[1..]);
    }
  }

  /** For every sequence of commands sent one at a time and every interleaving of the supervisor, the
      process, the children and the goroutines that read from them: the i-th send returns the
      terminal event of the i-th command, after forwarding the lines its child printed, all of
      them in order up to the first that does not fit the scanner, however the execution ended; and
      whenever no send is under way both pipes are empty and every execution is answered. */
  lemma SendsAreAnsweredInOrder(sends: seq<Command>, moves: seq<Move>)
    requires Plays(Fresh, sends, moves).Some?
    ensures var end := Plays(Fresh, sends, moves).value;
            && |end.given| <= |sends| && |end.given| <= |end.executions|
            && (forall i :: 0 <= i < |end.given| ==>
                  var e := end.executions[i];
                  && e.command == sends[i] && e.answer.Some?
                  && end.given[i].terminal == Frame(sends[i].id, sends[i].token, Completed(e.answer.value))
                  && Forwards(end.given[i].forwarded, sends[i], e.printed))
            && (!end.waiting ==> end.commands == [] && end.events == [] && !Busy(end))
  {
    PlayKeepsLockstep(Fresh, sends, moves);
    var end := Plays(Fresh, sends, moves).value;
    forall i | 0 <= i < |end.given|
      ensures i < |end.executions| && end.executions[i].command == sends[i] && end.executions[i].answer.Some?
      ensures end.given[i] == Expected(end.executions[i])
      ensures Forwards(end.given[i].forwarded, sends[i], end.executions[i].printed)
    {
      assert GivenRight(end, sends, i);
      ScannedIsForwarded(sends[i], end.executions[i].printed);
    }
    hide GivenRight, Plays, InBlocks, Scannable, Forwards;
  }

  // ----- Who can move -----

  /** What the goroutines and the executor of the process can do next for a child that is gone. */
  function NextOwn(e: Execution): Act {
    if e.stage.Idle? || e.stage.Returned? then Answer(false)
    else if !e.outDone then (if e.read < |e.printed| then ReadLine else EndOfOutput)
    else if !e.errDone then EndOfErrors
    else if !e.waited then Wait
    else Return
  }

  lemma NextOwnCan(e: Execution, cancelled: bool)
    requires Joined(e) && e.answer == None && !Running(e)
    ensures Can(e, cancelled, NextOwn(e))
  {
  }

  /** In every reachable state in which a send is under way on an intact pipe: a frame is there to be
      received, or the process can go on by itself, or the child is still running, or the process
      has stopped because its context was done before it took the command. */
  lemma NobodyIsStuck(sends: seq<Command>, moves: seq<Move>)
    requires Plays(Fresh, sends, moves).Some?
    ensures var m := Plays(Fresh, sends, moves).value;
            m.waiting && !m.broken ==>
              || Enabled(m, sends, Receive) || Enabled(m, sends, Look) || Enabled(m, sends, Take)
              || (Busy(m) && Running(m.executions[|m.executions| - 1]))
              || (Busy(m) && Enabled(m, sends, Do(|m.executions| - 1, NextOwn(m.executions[|m.executions| - 1]))))
              || (m.stopped && |m.executions| == |m.given|)
  {
    PlayKeepsLockstep(Fresh, sends, moves);
    var m := Plays(Fresh, sends, moves).value;
    if m.waiting && !m.broken {
      BlocksAreJoined(m);
      var n := |m.given|;
      if |m.executions| == n + 1 {
        var e := m.executions[n];
        if e.answer == None && !Running(e) {
          NextOwnCan(e, m.cancelled);
        } else if e.answer.Some? {
          OutputShape(e, e.read);
          assert m.events == [] ==> m.forwarding + m.events == m.forwarding;
        }
      }
    }
    hide Plays, Can, Joined;
  }

  // ----- A command whose context is done -----

  /** The act is the executor's or a goroutine's, and not the child's. */
  predicate Own(act: Act) {
    !act.Print? && !act.Exit? && !act.Escape? && !act.LetGo?
  }

  predicate AllOwn(acts: seq<Act>) {
    forall i :: 0 <= i < |acts| ==> Own(acts[i])
  }

  /** What is left to do once the context is done. */
  function Left(e: Execution): nat
    requires Joined(e)
  {
    |e.printed| - e.read
    + (if e.outDone then 0 else 1) + (if e.errDone then 0 else 1) + (if e.waited then 0 else 1)
    + match e.stage
      case Selecting => 4
      case Stopping => 3
      case Killed => 2
      case Idle => 1
      case Returned => 1
  }

  function NextWhenDone(e: Execution): Act {
    if e.stage.Selecting? then Interrupt else if e.stage.Stopping? then Kill else NextOwn(e)
  }

  lemma OneWhenDone(e: Execution)
    requires Joined(e) && e.answer == None && !e.escaped
    ensures Can(e, true, NextWhenDone(e)) && Own(NextWhenDone(e))
    ensures var e' := Performed(e, NextWhenDone(e));
            && Joined(e') && !e'.escaped
            && e'.printed == e.printed && e'.command == e.command && (e'.answer == None || e'.answer == Some(false))
            && (e'.answer == None ==> Left(e') < Left(e))
  {
    ActKeepsJoined(e, true, NextWhenDone(e));
  }

  /** The acts that bring an execution to its answer when its context is done. */
  lemma {:induction false} StopsByItself(e: Execution) returns (acts: seq<Act>, end: Execution)
    requires Joined(e) && e.answer == None && !e.escaped
    ensures AllOwn(acts) && Scheduled(e, acts) == Some(end)
    ensures Joined(end) && end.answer == Some(false) && end.printed == e.printed && end.command == e.command
    decreases Left(e)
  {
    OneWhenDone(e);
    hide Can, Performed, Joined, Left, NextWhenDone;
    var act := NextWhenDone(e);
    var e' := Performed(e, act);
    if e'.answer == None {
      var rest;
      rest, end := StopsByItself(e');
      acts := [act] + rest;
    } else {
      acts, end := [act], e';
    }
  }

  /** While a descendant that left the group holds the pipes, nothing the process does by itself
      answers the command. */
  lemma {:induction false} HeldIsNotAnswered(e: Execution, acts: seq<Act>)
    requires Joined(e) && e.answer == None && e.escaped && AllOwn(acts) && Scheduled(e, acts).Some?
    ensures Scheduled(e, acts).value.answer == None
    decreases |acts|
  {
    if acts != [] {
      ActKeepsJoined(e, true, acts[0]);
      var e' := Performed(e, acts[0]);
      assert e'.answer == None && e'.escaped by { HeldStaysHeld(e, acts[0]); }
      hide Can, Performed, Joined;
      HeldIsNotAnswered(e', acts[1..]);
    }
  }

  lemma HeldStaysHeld(e: Execution, act: Act)
    requires Joined(e) && e.answer == None && e.escaped && Own(act) && Can(e, true, act)
    ensures Performed(e, act).answer == None && Performed(e, act).escaped
  {
  }

  function Doing(i: nat, acts: seq<Act>): seq<Move> {
    seq(|acts|, k requires 0 <= k < |acts| => Do(i, acts[k]))
  }

  /** The acts of one execution, as moves of the machine. */
  lemma {:induction false} DoingIsScheduled(m: Machine, sends: seq<Command>, i: nat, acts: seq<Act>)
    requires m.cancelled && i < |m.executions|
    ensures Plays(m, sends, Doing(i, acts)).Some? <==> Scheduled(m.executions[i], acts).Some?
    ensures Scheduled(m.executions[i], acts).Some? ==>
              Plays(m, sends, Doing(i, acts)).value.executions
              == m.executions[i := Scheduled(m.executions[i], acts).value]
    decreases |acts|
  {
    if acts == [] {
      assert m.executions[i := m.executions[i]] == m.executions;
    } else {
      assert Doing(i, acts)[0] == Do(i, acts[0]) && Doing(i, acts)[1..] == Doing(i, acts[1..]);
      if Can(m.executions[i], true, acts[0]) {
        hide Can, Performed, WrittenBy;
        DoingIsScheduled(Acted(m, i, acts[0]), sends, i, acts[1..]);
      }
    }
  }

  /** In every reachable state in which the context is done while a command is being executed: the
      executor and the goroutines can bring the command to its answer by themselves, whatever the
      child does, if and only if no descendant of the child that left its group holds its pipes. */
  lemma DoneIsAnsweredIff(sends: seq<Command>, moves: seq<Move>)
    requires Plays(Fresh, sends, moves).Some?
    ensures var m := Plays(Fresh, sends, moves).value;
            m.cancelled && Busy(m) ==>
              var i := |m.executions| - 1;
              !m.executions[i].escaped <==>
                exists acts :: AllOwn(acts) && Plays(m, sends, Doing(i, acts)).Some?
                    && !Busy(Plays(m, sends, Doing(i, acts)).value)
  {
    PlayKeepsBlocks(Fresh, sends, moves);
    var m := Plays(Fresh, sends, moves).value;
    if m.cancelled && Busy(m) {
      var i := |m.executions| - 1;
      var e := m.executions[i];
      BlocksAreJoined(m);
      hide Joined, Plays, Scheduled, InBlocks, Doing;
      if e.escaped {
        forall acts | AllOwn(acts) && Plays(m, sends, Doing(i, acts)).Some?
          ensures Busy(Plays(m, sends, Doing(i, acts)).value)
        {
          DoingIsScheduled(m, sends, i, acts);
          HeldIsNotAnswered(e, acts);
        }
      } else {
        var acts, end := StopsByItself(e);
        DoingIsScheduled(m, sends, i, acts);
        assert AllOwn(acts) && !Busy(Plays(m, sends, Doing(i, acts)).value);
      }
    }
  }
}
