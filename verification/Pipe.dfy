/**
 The pipe between the supervisor and a workspace process: commands one way, event
 frames the other. A command's progress comes from goroutines that read its child's
 output; the machine below interleaves them with the child, with the process that
 answers and with the supervisor that sends and receives.
 */
module Pipe {
  import opened Basics
  import opened CommandRows

  datatype Command = Command(id: CommandId, token: Token)

  datatype Body = Progress(line: string) | Completed(success: bool)

  datatype Frame = Frame(command: CommandId, token: Token, body: Body)

  // ----- One execution -----

  /** Where the execution of a command stands: no child yet, waiting for the child or for the
      context, the child's group told to stop, the group killed, or the streaming call returned. */
  datatype Stage = Idle | Selecting | Stopping | Killed | Returned

  /** `printed` has the lines the child has written to its stdout, of which the reader has forwarded
      the first `read`. The child's group is `alive`; a descendant that `escaped` from the group
      holds the child's pipes open as well. `outDone`, `errDone` and `waited` are the three channels
      by which the goroutines say that they are through, `status` whether the child exited with 0. */
  datatype Execution = Execution(
    command: Command,
    stage: Stage,
    printed: seq<string>,
    read: nat,
    alive: bool,
    escaped: bool,
    status: bool,
    outDone: bool,
    errDone: bool,
    waited: bool,
    timedOut: bool,
    answer: Option<bool>)

  /** The child moves by the first five, the goroutines by the next four, the executor by the rest. */
  datatype Act =
    | Print(line: string) | Exit(ok: bool) | Escape | LetGo
    | ReadLine | EndOfOutput | EndOfErrors | Wait
    | Start | Return | Interrupt | Kill | Answer(success: bool)

  /** The scanner gives up at a line that does not fit its buffer with the newline. */
  const MAX_TOKEN := 8 * 1024 * 1024

  predicate Fits(line: string) {
    |line| < MAX_TOKEN
  }

  /** The scanner drops one carriage return at the end of a line. */
  function TextOf(line: string): string {
    if line != [] && line[|line| - 1] == '\r' then line[..|line| - 1] else line
  }

  function Taken(c: Command): Execution {
    Execution(c, Idle, [], 0, false, false, false, false, false, false, false, None)
  }

  /** Somebody holds the child's ends of the pipes. */
  predicate Running(e: Execution) {
    e.alive || e.escaped
  }

  predicate Can(e: Execution, cancelled: bool, act: Act) {
    match act
    case Print(_) => Running(e)
    case Exit(_) => e.alive
    case Escape => e.alive
    case LetGo => e.escaped
    case ReadLine => !e.stage.Idle? && !e.outDone && e.read < |e.printed|
    case EndOfOutput => !e.stage.Idle? && !e.outDone && e.read == |e.printed| && !Running(e)
    case EndOfErrors => !e.stage.Idle? && !e.errDone && !Running(e)
    case Wait => e.outDone && e.errDone && !e.alive && !e.waited
    case Start => e.stage.Idle? && e.answer == None
    case Return => e.waited && !e.stage.Idle? && !e.stage.Returned?
    case Interrupt => e.stage.Selecting? && cancelled
    case Kill => e.stage.Stopping?
    case Answer(success) =>
      && e.answer == None
      && (e.stage.Idle? || (e.stage.Returned? && (success ==> e.status && !e.timedOut)))
  }

  function Performed(e: Execution, act: Act): Execution
    requires Can(e, true, act)
  {
    match act
    case Print(line) => e.(printed := e.printed + [line])
    case Exit(ok) => e.(alive := false, status := ok)
    case Escape => e.(escaped := true)
    case LetGo => e.(escaped := false)
    case ReadLine => if Fits(e.printed[e.read]) then e.(read := e.read + 1) else e.(outDone := true)
    case EndOfOutput => e.(outDone := true)
    case EndOfErrors => e.(errDone := true)
    case Wait => e.(waited := true)
    case Start => e.(stage := Selecting, alive := true)
    case Return => e.(stage := Returned)
    case Interrupt => e.(stage := Stopping, timedOut := true)
    case Kill => e.(stage := Killed, alive := false, status := e.status && !e.alive)
    case Answer(success) => e.(answer := Some(success))
  }

  function ProgressFrame(c: Command, line: string): Frame {
    Frame(c.id, c.token, Progress(TextOf(line)))
  }

  function ProgressFrames(c: Command, lines: seq<string>): (frames: seq<Frame>)
    ensures |frames| == |lines|
  {
    seq(|lines|, i requires 0 <= i < |lines| => ProgressFrame(c, lines[i]))
  }

  function Terminal(c: Command, success: bool): Frame {
    Frame(c.id, c.token, Completed(success))
  }

  /** What an act writes to the event pipe. */
  function WrittenBy(e: Execution, act: Act): seq<Frame>
    requires Can(e, true, act)
  {
    match act
    case ReadLine => if Fits(e.printed[e.read]) then [ProgressFrame(e.command, e.printed[e.read])] else []
    case Answer(success) => [Terminal(e.command, success)]
    case _ => []
  }

  /** The reader stops only at the end of the output or at a line that does not fit, the waiter waits
      for both readers, and the streaming call returns only when the waiter is through. */
  predicate Joined(e: Execution) {
    && e.read <= |e.printed| && (forall j :: 0 <= j < e.read ==> Fits(e.printed[j]))
    && (e.stage.Idle? ==> e.printed == [] && !Running(e) && !e.outDone && !e.errDone && !e.waited)
    && (e.outDone ==> if e.read == |e.printed| then !Running(e) else !Fits(e.printed[e.read]))
    && (e.errDone ==> !Running(e))
    && (e.waited ==> e.outDone && e.errDone)
    && (e.stage.Returned? ==> e.waited)
    && (e.stage.Killed? ==> !e.alive)
    && (e.answer.Some? ==> e.stage.Idle? || e.stage.Returned?)
    && (e.answer == Some(true) && e.stage.Returned? ==> e.status && !e.timedOut)
  }

  /** Everything written so far for an execution. */
  function Output(e: Execution): seq<Frame>
    requires Joined(e)
  {
    ProgressFrames(e.command, e.printed[..e.read]) + if e.answer.Some? then [Terminal(e.command, e.answer.value)]
        else []
  }

  lemma ActKeepsJoined(e: Execution, cancelled: bool, act: Act)
    requires Joined(e) && Can(e, cancelled, act)
    ensures Can(e, true, act) && Joined(Performed(e, act)) && Performed(e, act).command == e.command
  {
  }

  lemma LineIsLast(e: Execution)
    requires Joined(e) && Can(e, true, ReadLine)
    ensures Joined(Performed(e, ReadLine)) && Output(Performed(e, ReadLine)) == Output(e) + WrittenBy(e, ReadLine)
  {
    assert e.printed[..e.read + 1] == e.printed[..e.read] + [e.printed[e.read]];
  }

  /** An act writes at the end of what was written, and nothing once the execution is answered. */
  lemma ActWrites(e: Execution, cancelled: bool, act: Act)
    requires Joined(e) && Can(e, cancelled, act)
    ensures Can(e, true, act) && Joined(Performed(e, act)) && Output(Performed(e, act)) == Output(e) + WrittenBy(e, act)
    ensures e.answer.Some? ==>
              WrittenBy(e, act) == [] && Performed(e, act).answer == e.answer && Performed(e, act).printed == e.printed
  {
    ActKeepsJoined(e, cancelled, act);
    if act.ReadLine? {
      LineIsLast(e);
    } else {
      assert Performed(e, act).printed[..e.read] == e.printed[..e.read];
    }
    hide Fits, Running, ProgressFrame;
  }

  /** The lines before the first one that does not fit. */
  function Scannable(printed: seq<string>): seq<string> {
    if printed == [] || !Fits(printed[0]) then [] else [printed[0]] + Scannable(printed[1..])
  }

  lemma {:induction false} ScannableIs(printed: seq<string>, n: nat)
    requires n <= |printed| && (forall j :: 0 <= j < n ==> Fits(printed[j]))
    requires n < |printed| ==> !Fits(printed[n])
    ensures Scannable(printed) == printed[..n]
  {
    if n > 0 {
      ScannableIs(printed[1..], n - 1);
      assert printed[..n] == [printed[0]] + printed[1..][..n - 1];
    }
  }

  /** Everything an answered execution wrote: the child's lines up to the first that does not fit,
      then its answer. */
  function Answered(e: Execution): seq<Frame>
    requires e.answer.Some?
  {
    ProgressFrames(e.command, Scannable(e.printed)) + [Terminal(e.command, e.answer.value)]
  }

  lemma AnsweredIsAll(e: Execution)
    requires Joined(e) && e.answer.Some?
    ensures Output(e) == Answered(e)
  {
    ScannableIs(e.printed, e.read);
  }

  /** The line without the carriage return it may end in. */
  ghost predicate IsTextOf(text: string, line: string) {
    text + "\r" == line || (text == line && (line == "" || line[|line| - 1] != '\r'))
  }

  /** The frames are progress of the command, one for each of the child's lines in order, up to the
      first line that with its newline is longer than 8 MiB. */
  ghost predicate Forwards(frames: seq<Frame>, c: Command, printed: seq<string>) {
    && |frames| <= |printed|
    && (forall i :: 0 <= i < |frames| ==>
          && |printed[i]| + 1 <= 8388608
          && frames[i].command == c.id && frames[i].token == c.token
          && frames[i].body.Progress? && IsTextOf(frames[i].body.line, printed[i]))
    && (|frames| < |printed| ==> |printed[|frames|]| + 1 > 8388608)
  }

  lemma {:induction false} ScannableIsPrefix(printed: seq<string>) returns (n: nat)
    ensures n <= |printed| && Scannable(printed) == printed[..n]
    ensures (forall j :: 0 <= j < n ==> Fits(printed[j])) && (n < |printed| ==> !Fits(printed[n]))
  {
    if printed == [] || !Fits(printed[0]) {
      n := 0;
    } else {
      n := ScannableIsPrefix(printed[1..]);
      n := n + 1;
      assert printed[..n] == [printed[0]] + printed[1..][..n - 1];
    }
  }

  lemma ScannedIsForwarded(c: Command, printed: seq<string>)
    ensures Forwards(ProgressFrames(c, Scannable(printed)), c, printed)
  {
    var n := ScannableIsPrefix(printed);
    var frames := ProgressFrames(c, Scannable(printed));
    forall i | 0 <= i < n ensures IsTextOf(TextOf(printed[i]), printed[i]) {
    }
  }

  /** An answered command's output: its progress as above, then one frame with its outcome, all with
      its own id and token. */
  lemma AnsweredIsExact(e: Execution) returns (frames: seq<Frame>)
    requires e.answer.Some?
    ensures Answered(e) == frames + [Frame(e.command.id, e.command.token, Completed(e.answer.value))]
    ensures Forwards(frames, e.command, e.printed)
  {
    frames := ProgressFrames(e.command, Scannable(e.printed));
    ScannedIsForwarded(e.command, e.printed);
  }

  // ----- The two loops -----

  class Channel<T> {
    var frames: seq<T>

    constructor ()
      ensures frames == []
    {
      frames := [];
    }

    method Write(x: T)
      modifies this
      ensures frames == old(frames) + [x]
    {
      frames := frames + [x];
    }

    method Read() returns (x: T)
      requires frames != []
      modifies this
      ensures old(frames) == [x] + frames
    {
      x := frames[0];
      frames := frames[1..];
    }
  }

  /** What an execution comes to by a schedule of acts; `None` when one of them cannot be taken. */
  function Scheduled(e: Execution, acts: seq<Act>): Option<Execution>
    decreases |acts|
  {
    if acts == [] then Some(e)
    else if Can(e, true, acts[0]) then Scheduled(Performed(e, acts[0]), acts[1..])
    else None
  }

  lemma NextAct(e: Execution, acts: seq<Act>, n: nat)
    requires Joined(e) && n < |acts| && Scheduled(e, acts[n..]).Some?
    ensures Can(e, true, acts[n]) && Joined(Performed(e, acts[n])) && Performed(e, acts[n]).command == e.command
    ensures Scheduled(e, acts[n..]) == Scheduled(Performed(e, acts[n]), acts[n + 1..])
    ensures Output(Performed(e, acts[n])) == Output(e) + WrittenBy(e, acts[n])
  {
    assert acts[n..][0] == acts[n] && acts[n..][1..] == acts[n + 1..];
    assert Can(e, true, acts[n]);
    hide Can, Performed, Joined, Output, WrittenBy;
    ActKeepsJoined(e, true, acts[n]);
    ActWrites(e, true, acts[n]);
  }

  /** `e` is what the schedule makes of the command, and it is answered. */
  ghost predicate Executed(e: Execution, cmd: Command, acts: seq<Act>) {
    Joined(e) && e.command == cmd && e.answer.Some? && Scheduled(Taken(cmd), acts) == Some(e)
  }

  ghost predicate Answers(cmd: Command, acts: seq<Act>) {
    Scheduled(Taken(cmd), acts).Some? && Scheduled(Taken(cmd), acts).value.answer.Some?
  }

  lemma NoMoreActs(e: Execution, acts: seq<Act>)
    requires |acts| == 0
    ensures Scheduled(e, acts) == Some(e)
  {
  }

  /** Executes one command as the goroutines, the child and the clock are scheduled. */
  method ExecuteCommand(cmd: Command, acts: seq<Act>, output: Channel<Frame>) returns (ghost e: Execution)
    requires Answers(cmd, acts)
    modifies output
    ensures Executed(e, cmd, acts)
    ensures output.frames == old(output.frames) + Answered(e)
  {
    var now, n := Taken(cmd), 0;
    assert acts[0..] == acts && output.frames == old(output.frames) + Output(now);
    hide Can, Performed, Joined, Output, WrittenBy, Scheduled;
    while n < |acts|
      invariant n <= |acts| && Joined(now) && now.command == cmd
      invariant Scheduled(now, acts[n..]) == Scheduled(Taken(cmd), acts)
      invariant output.frames == old(output.frames) + Output(now)
    {
      NextAct(now, acts, n);
      Associates(old(output.frames), Output(now), WrittenBy(now, acts[n]));
      WriteOf(now, acts[n], output);
      now := Performed(now, acts[n]);
      n := n + 1;
    }
    e := now;
    NoMoreActs(e, acts[n..]);
    AnsweredIsAll(e);
  }

  /** The write an act does, if any. */
  method WriteOf(e: Execution, act: Act, output: Channel<Frame>)
    requires Can(e, true, act)
    modifies output
    ensures output.frames == old(output.frames) + WrittenBy(e, act)
  {
    if act.ReadLine? && Fits(e.printed[e.read]) {
      output.Write(ProgressFrame(e.command, e.printed[e.read]));
    } else if act.Answer? {
      output.Write(Terminal(e.command, act.success));
    }
  }

  lemma Associates(a: seq<Frame>, b: seq<Frame>, c: seq<Frame>)
    ensures a + (b + c) == (a + b) + c
    ensures b + [] == b
  {
  }

  ghost predicate AllJoined(es: seq<Execution>) {
    forall i :: 0 <= i < |es| ==> Joined(es[i])
  }

  /** Everything written for a sequence of executions. */
  ghost function Outputs(es: seq<Execution>): seq<Frame>
    requires AllJoined(es)
  {
    if es == [] then [] else Outputs(es[..|es| - 1]) + Output(es[|es| - 1])
  }

  lemma OneMore(es: seq<Execution>, e: Execution)
    requires AllJoined(es) && Joined(e)
    ensures AllJoined(es + [e]) && Outputs(es + [e]) == Outputs(es) + Output(e)
  {
    assert (es + [e])[..|es|] == es;
  }

  /** The first commands of `cmds`, executed as scheduled, one after the other. */
  ghost predicate AllExecuted(es: seq<Execution>, cmds: seq<Command>, schedules: seq<seq<Act>>)
    requires |es| <= |cmds| == |schedules|
  {
    forall i :: 0 <= i < |es| ==> Executed(es[i], cmds[i], schedules[i])
  }

  /** The workspace process: takes commands one at a time until its input ends or its context is
      done; `done[k]` is what the k-th look at the context finds. */
  method Run(input: Channel<Command>, output: Channel<Frame>, done: seq<bool>, schedules: seq<seq<Act>>)
    returns (ghost es: seq<Execution>)
    requires |schedules| == |input.frames| && |done| == |input.frames| + 1
    requires forall i :: 0 <= i < |schedules| ==> Answers(input.frames[i], schedules[i])
    modifies input, output
    ensures |es| <= |schedules| && old(input.frames)[|es|..] == input.frames
    ensures (|es| == |schedules| || done[|es|]) && (forall i :: 0 <= i < |es| ==> !done[i])
    ensures AllExecuted(es, old(input.frames), schedules) && AllJoined(es)
    ensures output.frames == old(output.frames) + Outputs(es)
  {
    ghost var all := input.frames;
    es := [];
    var n := 0;
    while !done[n] && input.frames != []
      invariant n == |es| <= |all| && input.frames == all[n..]
      invariant forall i :: 0 <= i < n ==> !done[i]
      invariant AllExecuted(es, all, schedules) && AllJoined(es)
      invariant output.frames == old(output.frames) + Outputs(es)
      decreases |input.frames|
    {
      var cmd := input.Read();
      assert cmd == all[n] && Answers(all[n], schedules[n]);
      ghost var e := ExecuteCommand(cmd, schedules[n], output);
      hide Outputs, Answers, Scheduled, Joined, Output, Answered;
      OneExecuted(es, e, all, schedules);
      OneWritten(es, e, cmd, schedules[n]);
      Associates(old(output.frames), Outputs(es), Output(e));
      es := es + [e];
      n := n + 1;
    }
  }

  lemma OneExecuted(es: seq<Execution>, e: Execution, cmds: seq<Command>, schedules: seq<seq<Act>>)
    requires |es| < |cmds| == |schedules| && AllExecuted(es, cmds, schedules)
    requires Executed(e, cmds[|es|], schedules[|es|])
    ensures AllExecuted(es + [e], cmds, schedules)
  {
    hide Executed;
  }

  lemma OneWritten(es: seq<Execution>, e: Execution, cmd: Command, acts: seq<Act>)
    requires AllJoined(es) && Executed(e, cmd, acts)
    ensures Joined(e) && AllJoined(es + [e])
    ensures Output(e) == Answered(e) && Outputs(es + [e]) == Outputs(es) + Output(e)
  {
    hide Joined, Outputs, Output, Answered, Scheduled;
    OneMore(es, e);
    AnsweredIsAll(e);
  }

  /** The read loop of `Send`: forwards progress up to the first terminal frame and returns
      that one; `None` when the pipe ends first. */
  method ReadEvents(input: Channel<Frame>) returns (terminal: Option<Frame>, forwarded: seq<Frame>)
    modifies input
    ensures forall f :: f in forwarded ==> f.body.Progress?
    ensures terminal.Some? ==>
              terminal.value.body.Completed? && old(input.frames) == forwarded + [terminal.value] + input.frames
    ensures terminal.None? ==> input.frames == [] && old(input.frames) == forwarded
  {
    forwarded := [];
    while input.frames != []
      invariant forall f :: f in forwarded ==> f.body.Progress?
      invariant old(input.frames) == forwarded + input.frames
      decreases |input.frames|
    {
      var ev := input.Read();
      if ev.body.Progress? {
        forwarded := forwarded + [ev];
      } else {
        return Some(ev), forwarded;
      }
    }
    return None, forwarded;
  }

  /** The frames of one command are read back exactly: its progress and its own terminal
      event, and what comes after stays in the pipe. */
  lemma {:induction false} ReadBack(e: Execution, forwarded: seq<Frame>, terminal: Frame, rest: seq<Frame>,
      after: seq<Frame>)
    requires e.answer.Some? && (forall f :: f in forwarded ==> f.body.Progress?) && terminal.body.Completed?
    requires Answered(e) + after == forwarded + [terminal] + rest
    ensures forwarded == ProgressFrames(e.command, Scannable(e.printed))
    ensures terminal == Terminal(e.command, e.answer.value) && rest == after
  {
    var c, lines := e.command, Scannable(e.printed);
    var all, n, m := Answered(e) + after, |lines|, |forwarded|;
    assert all[..n] == ProgressFrames(c, lines) && all[n] == Terminal(c, e.answer.value) && all[n + 1..] == after;
    assert all[..m] == forwarded && all[m] == terminal && all[m + 1..] == rest;
    assert forall i :: 0 <= i < n ==> all[..n][i].body.Progress?;
    assert forall i :: 0 <= i < n ==> all[i].body.Progress?;
    assert forall i :: 0 <= i < m ==> all[..m][i].body.Progress?;
    assert n == m;
  }
}
