/**
 The retry schedule and the identity-exchange loop that it bounds. Durations and clock
 readings are nanoseconds.
 */
module Backoff {
  import opened Basics

  type Nanos = int

  const SECOND: Nanos := 1_000_000_000
  const MINUTE: Nanos := 60 * SECOND
  const HOUR: Nanos := 60 * MINUTE

  const DEFAULT_STEPS: seq<Nanos> := [MINUTE, 3 * MINUTE, 5 * MINUTE, 15 * MINUTE, 60 * MINUTE]
  const BOOTSTRAP_DEADLINE: Nanos := HOUR
  const JITTER: real := 0.2

  /** `maxElapsed` 0 means no deadline; `firstFailed` is stamped by the first sleep. */
  datatype Schedule = Schedule(steps: seq<Nanos>, attempt: nat, maxElapsed: Nanos, firstFailed: Option<Nanos>)

  /** What the world does during one `Sleep`: the clock when it stamps, when it checks and when
      it wakes, the random draw, what an out-of-range conversion gives, and whether the context was
      cancelled first. */
  datatype Nap = Nap(stamp: Nanos, check: Nanos, draw: real, overflow: Nanos, wake: Nanos, cancelled: bool)

  datatype Outcome = Slept | Cancelled | DeadlineExceeded

  const MAX_INT64 := 0x7FFF_FFFF_FFFF_FFFF

  predicate InInt64(x: int) {
    -MAX_INT64 - 1 <= x <= MAX_INT64
  }

  /** Conversion from a float to a duration truncates toward zero. */
  function Truncate(x: real): int {
    if x >= 0.0 then x.Floor else -((-x).Floor)
  }

  function Factor(draw: real): real {
    1.0 + (draw * 2.0 - 1.0) * JITTER
  }

  function Scaled(base: Nanos, factor: real): real {
    base as real * factor
  }

  /** What a float out of the range of int64 converts to is up to the implementation. */
  function Converted(x: real, overflow: Nanos): Nanos {
    if InInt64(Truncate(x)) then Truncate(x) else overflow
  }

  function Windowed(base: Nanos, draw: real, overflow: Nanos): Nanos {
    Converted(Scaled(base, Factor(draw)), overflow)
  }

  function StepAt(steps: seq<Nanos>, i: nat): Nanos
    requires steps != []
  {
    if i >= |steps| then steps[|steps| - 1] else steps[i]
  }

  function Delay(s: Schedule, n: Nap): Nanos
    requires s.steps != []
  {
    Windowed(StepAt(s.steps, s.attempt), n.draw, n.overflow)
  }

  function Expired(s: Schedule, now: Nanos): bool {
    s.maxElapsed > 0 && s.firstFailed.Some? && now - s.firstFailed.value >= s.maxElapsed
  }

  function Stamped(s: Schedule, n: Nap): Schedule {
    if s.maxElapsed > 0 && s.firstFailed == None then s.(firstFailed := Some(n.stamp)) else s
  }

  function Sleep(s: Schedule, n: Nap): (Schedule, Outcome)
    requires s.steps != []
  {
    var s1 := Stamped(s, n);
    if Expired(s1, n.check) then (s1, DeadlineExceeded)
    else
      var s2 := if s1.attempt < |s1.steps| - 1 then s1.(attempt := s1.attempt + 1) else s1;
      (s2, if n.cancelled then Cancelled else if Expired(s2, n.wake) then DeadlineExceeded else Slept)
  }

  /** The clock does not run backwards, and a timer does not fire early; one set to a time that is not
      positive fires at once. */
  predicate Physical(s: Schedule, n: Nap)
    requires s.steps != []
  {
    && 0.0 <= n.draw < 1.0 && InInt64(n.overflow)
    && n.stamp <= n.check <= n.wake
    && (!n.cancelled ==> n.wake >= n.check + Delay(s, n))
  }

  class ScheduleInPlace {
    const steps: seq<Nanos>
    const maxElapsed: Nanos
    var attempt: nat
    var firstFailed: Option<Nanos>

    function State(): Schedule
      reads this
    {
      Schedule(steps, attempt, maxElapsed, firstFailed)
    }

    /** No steps means the default ramp. */
    constructor (steps: seq<Nanos>, maxElapsed: Nanos)
      ensures State() == Schedule(if steps == [] then DEFAULT_STEPS else steps, 0, maxElapsed, None)
    {
      this.steps, this.maxElapsed := if steps == [] then DEFAULT_STEPS else steps, maxElapsed;
      attempt, firstFailed := 0, None;
    }

    method SleepFor(n: Nap) returns (outcome: Outcome)
      requires steps != []
      modifies this
      ensures (State(), outcome) == Sleep(old(State()), n)
    {
      if maxElapsed > 0 && firstFailed == None {
        firstFailed := Some(n.stamp);
      }
      if maxElapsed > 0 && firstFailed != None && n.check - firstFailed.value >= maxElapsed {
        return DeadlineExceeded;
      }
      if attempt < |steps| - 1 {
        attempt := attempt + 1;
      }
      if n.cancelled {
        return Cancelled;
      }
      if maxElapsed > 0 && firstFailed != None && n.wake - firstFailed.value >= maxElapsed {
        return DeadlineExceeded;
      }
      return Slept;
    }

    method Reset()
      modifies this
      ensures State() == Schedule(steps, 0, maxElapsed, None)
    {
      attempt, firstFailed := 0, None;
    }
  }

  // ----- The jitter band -----

  function Low(step: Nanos): Nanos {
    step * 4 / 5
  }

  lemma ScaledInBand(base: Nanos, factor: real)
    requires base >= 0 && 0.8 <= factor <= 1.2
    ensures base as real * 0.8 <= Scaled(base, factor) <= base as real * 1.2
  {
    var x := base as real;
    assert x * (factor - 0.8) >= 0.0 && x * (1.2 - factor) >= 0.0;
  }

  lemma Fifths(step: int, n: int)
    ensures n * 5 <= step * 4 ==> n as real <= step as real * 0.8
    ensures n * 5 > step * 6 ==> n as real > step as real * 1.2
  {
    assert (n * 5) as real == n as real * 5.0;
    assert (step * 4) as real == step as real * 4.0;
    assert (step * 6) as real == step as real * 6.0;
  }

  lemma FloorBetween(x: real, low: int, high: int)
    requires low as real <= x < (high + 1) as real
    ensures low <= x.Floor <= high
  {
  }

  lemma TruncateInBand(step: Nanos, x: real)
    requires step >= 0 && step as real * 0.8 <= x <= step as real * 1.2
    ensures Low(step) <= Truncate(x) <= step * 6 / 5
  {
    var low, high := step * 4 / 5, step * 6 / 5;
    assert low * 5 <= step * 4 && (high + 1) * 5 > step * 6;
    Fifths(step, low);
    Fifths(step, high + 1);
    FloorBetween(x, low, high);
  }

  /** The step is not negative and leaves room for a fifth more. */
  predicate Safe(step: Nanos) {
    0 <= step && step * 6 / 5 <= MAX_INT64
  }

  predicate AllSafe(steps: seq<Nanos>) {
    forall i :: 0 <= i < |steps| ==> Safe(steps[i])
  }

  /** Every delay of a safe step lies within a fifth of it. */
  lemma DelayIsInBand(step: Nanos, draw: real, overflow: Nanos)
    requires Safe(step) && 0.0 <= draw < 1.0
    ensures Low(step) <= Windowed(step, draw, overflow) <= step * 6 / 5
  {
    FactorInBand(draw);
    ScaledInBand(step, Factor(draw));
    hide Factor, Scaled, Truncate;
    TruncateInBand(step, Scaled(step, Factor(draw)));
  }

  lemma FactorInBand(draw: real)
    requires 0.0 <= draw < 1.0
    ensures 0.8 <= Factor(draw) <= 1.2
  {
  }

  // ----- How many sleeps fit before the deadline -----

  /** The least time that a sleep can take: a step that is not safe may come out negative. */
  function LeastTime(step: Nanos): Nanos {
    if Safe(step) then Low(step) else 0
  }

  /** The least time that `k` sleeps from the start of the ramp can take. */
  function LowSum(steps: seq<Nanos>, k: nat): Nanos
    requires steps != []
  {
    if k == 0 then 0 else LowSum(steps, k - 1) + LeastTime(StepAt(steps, k - 1))
  }

  function Min(a: int, b: int): int {
    if a < b then a else b
  }

  /** The naps of the schedule's first sleeps, all of which returned nil. */
  ghost predicate AllSlept(s: Schedule, naps: seq<Nap>)
    requires s.steps != []
    decreases |naps|
  {
    naps == [] ||
    (Physical(s, naps[0]) && Sleep(s, naps[0]).1 == Slept
     && (|naps| > 1 ==> naps[0].wake <= naps[1].stamp)
     && AllSlept(Sleep(s, naps[0]).0, naps[1..]))
  }

  function AfterNaps(s: Schedule, naps: seq<Nap>): Schedule
    requires s.steps != []
    decreases |naps|
  {
    if naps == [] then s else AfterNaps(Sleep(s, naps[0]).0, naps[1..])
  }

  /** `k` sleeps into a run: the step index, and the time already gone. */
  ghost predicate Along(s: Schedule, k: nat, now: Nanos) {
    && s.steps != [] && s.attempt == Min(k, |s.steps| - 1)
    && s.maxElapsed > 0
    && (k > 0 ==> s.firstFailed.Some? && s.firstFailed.value + LowSum(s.steps, k) <= now && !Expired(s, now))
    && (k == 0 ==> s.firstFailed == None)
  }

  lemma NapMovesAlong(s: Schedule, k: nat, now: Nanos, n: Nap)
    requires Along(s, k, now) && now <= n.stamp && Physical(s, n) && Sleep(s, n).1 == Slept
    ensures Along(Sleep(s, n).0, k + 1, n.wake)
  {
    if Safe(StepAt(s.steps, s.attempt)) {
      DelayIsInBand(StepAt(s.steps, s.attempt), n.draw, n.overflow);
    }
    assert StepAt(s.steps, s.attempt) == StepAt(s.steps, k);
  }

  lemma {:induction false} NapsMoveAlong(s: Schedule, k: nat, now: Nanos, naps: seq<Nap>) returns (end: Nanos)
    requires Along(s, k, now) && AllSlept(s, naps) && (naps != [] ==> now <= naps[0].stamp)
    ensures Along(AfterNaps(s, naps), k + |naps|, end)
    decreases |naps|
  {
    if naps == [] {
      end := now;
    } else {
      NapMovesAlong(s, k, now, naps[0]);
      end := NapsMoveAlong(Sleep(s, naps[0]).0, k + 1, naps[0].wake, naps[1..]);
    }
  }

  /** After k sleeps that returned nil the step index is min(k, n-1), and the least time those
      sleeps can have taken is still below the deadline. */
  lemma SleepsFitTheDeadline(steps: seq<Nanos>, maxElapsed: Nanos, naps: seq<Nap>)
    requires steps != [] && maxElapsed > 0
    requires AllSlept(Schedule(steps, 0, maxElapsed, None), naps)
    ensures AfterNaps(Schedule(steps, 0, maxElapsed, None), naps).attempt == Min(|naps|, |steps| - 1)
    ensures LowSum(steps, |naps|) < maxElapsed
  {
    var s := Schedule(steps, 0, maxElapsed, None);
    var start := if naps == [] then 0 else naps[0].stamp;
    var end := NapsMoveAlong(s, 0, start, naps);
    AfterNapsKeeps(s, naps);
  }

  lemma {:induction false} AfterNapsKeeps(s: Schedule, naps: seq<Nap>)
    requires s.steps != []
    ensures AfterNaps(s, naps).steps == s.steps && AfterNaps(s, naps).maxElapsed == s.maxElapsed
    decreases |naps|
  {
    if naps != [] {
      AfterNapsKeeps(Sleep(s, naps[0]).0, naps[1..]);
    }
  }

  lemma {:induction false} LowSumGrows(steps: seq<Nanos>, j: nat, k: nat)
    requires steps != [] && j <= k
    ensures 0 <= LowSum(steps, j) <= LowSum(steps, k)
    decreases k
  {
    if k > 0 {
      if j == k {
        LowSumGrows(steps, k - 1, k - 1);
      } else {
        LowSumGrows(steps, j, k - 1);
      }
    }
  }

  // ----- And that so many can fit -----

  /** The draws and conversions that make a sleep as short as it can be. */
  function LeastDraw(step: Nanos): real {
    if Safe(step) then 0.0 else if step < 0 then 0.5 else 1.0 - 0.0000000000000000001
  }

  lemma ScaledPastTheTop(step: Nanos)
    requires step >= 0 && step * 6 / 5 > MAX_INT64
    ensures Scaled(step, Factor(LeastDraw(step))) >= (MAX_INT64 + 1) as real
  {
    assert step >= 7686143364045646507;
    var x := step as real;
    assert Factor(LeastDraw(step)) == 1.2 - 0.00000000000000000004;
    assert x * (1.2 - 0.00000000000000000004) >= 7686143364045646507.0 * (1.2 - 0.00000000000000000004);
  }

  lemma ScaledDown(step: Nanos)
    requires step >= 0
    ensures Truncate(Scaled(step, 0.8)) == Low(step)
  {
    var low := step * 4 / 5;
    assert low * 5 <= step * 4 < (low + 1) * 5;
    Fifths(step, low);
    assert ((low + 1) * 5) as real == (low + 1) as real * 5.0 && (step * 4) as real == step as real * 4.0;
    FloorBetween(step as real * 0.8, low, low);
  }

  /** The least time is attained. */
  lemma LeastIsAttained(step: Nanos)
    ensures 0.0 <= LeastDraw(step) < 1.0 && Windowed(step, LeastDraw(step), -1) <= LeastTime(step)
  {
    if Safe(step) {
      ScaledDown(step);
    } else if step >= 0 {
      ScaledPastTheTop(step);
    }
  }

  /** The shortest nap at a time. */
  function ShortNap(step: Nanos, now: Nanos): Nap {
    Nap(now, now, LeastDraw(step), -1, now + LeastTime(step), false)
  }

  lemma OneShortNap(s: Schedule, k: nat, now: Nanos)
    requires Along(s, k, now) && (k > 0 ==> now == s.firstFailed.value + LowSum(s.steps, k))
    requires LowSum(s.steps, k + 1) < s.maxElapsed
    ensures var n := ShortNap(StepAt(s.steps, s.attempt), now);
            && Physical(s, n) && Sleep(s, n).1 == Slept && Along(Sleep(s, n).0, k + 1, n.wake)
            && n.wake == Sleep(s, n).0.firstFailed.value + LowSum(s.steps, k + 1)
            && Sleep(s, n).0.steps == s.steps && Sleep(s, n).0.maxElapsed == s.maxElapsed
  {
    assert StepAt(s.steps, s.attempt) == StepAt(s.steps, k);
    LeastIsAttained(StepAt(s.steps, k));
    assert 0 <= LeastTime(StepAt(s.steps, k));
    LowSumGrows(s.steps, 0, k);
    hide Windowed, LeastDraw, LeastTime;
    NapMovesAlong(s, k, now, ShortNap(StepAt(s.steps, s.attempt), now));
  }

  lemma {:induction false} ShortNaps(s: Schedule, k: nat, more: nat, now: Nanos) returns (naps: seq<Nap>)
    requires Along(s, k, now) && (k > 0 ==> now == s.firstFailed.value + LowSum(s.steps, k))
    requires LowSum(s.steps, k + more) < s.maxElapsed
    ensures |naps| == more && AllSlept(s, naps) && (more > 0 ==> naps[0].stamp == now)
    decreases more
  {
    if more == 0 {
      naps := [];
    } else {
      LowSumGrows(s.steps, k + 1, k + more);
      OneShortNap(s, k, now);
      hide Along, LowSum, Sleep, Physical, LeastDraw, LeastTime;
      var n := ShortNap(StepAt(s.steps, s.attempt), now);
      var rest := ShortNaps(Sleep(s, n).0, k + 1, more - 1, n.wake);
      naps := [n] + rest;
    }
  }

  /** For every ramp and deadline, k sleeps can return nil one after the other if and only if the
      least time they can take is below the deadline. */
  lemma SleepsFitIff(steps: seq<Nanos>, maxElapsed: Nanos, k: nat)
    requires steps != [] && maxElapsed > 0
    ensures (exists naps :: |naps| == k && AllSlept(Schedule(steps, 0, maxElapsed, None), naps)) <==>
        LowSum(steps, k) < maxElapsed
  {
    var s := Schedule(steps, 0, maxElapsed, None);
    if naps :| |naps| == k && AllSlept(s, naps) {
      SleepsFitTheDeadline(steps, maxElapsed, naps);
    }
    if LowSum(steps, k) < maxElapsed {
      var naps := ShortNaps(s, 0, k, 0);
    }
  }

  /** One, three, five, fifteen and sixty minutes, then sixty for ever. */
  lemma DefaultRampIsExact(k: nat)
    ensures StepAt(DEFAULT_STEPS, k)
            == (if k == 0 then 60 else if k == 1 then 180 else if k == 2 then 300 else if k == 3 then 900 else 3600)
               * 1_000_000_000
    ensures BOOTSTRAP_DEADLINE == 3600 * 1_000_000_000
  {
  }

  /** Five sleeps of the default ramp take longer than an hour, whatever the jitter. */
  lemma DefaultRampFillsTheHour()
    ensures LowSum(DEFAULT_STEPS, 4) < BOOTSTRAP_DEADLINE <= LowSum(DEFAULT_STEPS, 5)
  {
    assert LowSum(DEFAULT_STEPS, 1) == Low(MINUTE);
    assert LowSum(DEFAULT_STEPS, 2) == Low(MINUTE) + Low(3 * MINUTE);
    assert LowSum(DEFAULT_STEPS, 3) == Low(MINUTE) + Low(3 * MINUTE) + Low(5 * MINUTE);
    assert LowSum(DEFAULT_STEPS, 4) == Low(MINUTE) + Low(3 * MINUTE) + Low(5 * MINUTE) + Low(15 * MINUTE);
  }

  /** A ramp of no steps under a second. */
  predicate WholeSeconds(steps: seq<Nanos>) {
    steps != [] && forall i :: 0 <= i < |steps| ==> steps[i] >= SECOND
  }

  lemma {:induction false} SecondsAddUp(steps: seq<Nanos>, k: nat)
    requires WholeSeconds(steps) && AllSafe(steps)
    ensures LowSum(steps, k) >= k * Low(SECOND)
  {
    if k > 0 {
      SecondsAddUp(steps, k - 1);
    }
  }

  // ----- The bootstrap loop -----

  /** One turn of the loop as the world answers it. */
  datatype Turn = Turn(accepted: bool, contextDone: bool, nap: Nap)

  datatype Bootstrap = Exchanged | Aborted | Exited

  /** The most exchange attempts the schedule can allow: one more than the sleeps that fit. */
  ghost predicate Allows(steps: seq<Nanos>, maxElapsed: Nanos, attempts: nat)
    requires steps != []
  {
    attempts == 0 || LowSum(steps, attempts - 1) < maxElapsed
  }

  ghost predicate World(turns: nat -> Turn, steps: seq<Nanos>)
    requires steps != []
  {
    && (forall k: nat :: Physical(Schedule(steps, Min(k, |steps| - 1), 0, None), turns(k).nap))
    && (forall k: nat :: turns(k).nap.wake <= turns(k + 1).nap.stamp)
  }

  lemma StartsAlong(steps: seq<Nanos>, maxElapsed: Nanos, now: Nanos)
    requires steps != [] && maxElapsed > 0
    ensures Along(Schedule(steps, 0, maxElapsed, None), 0, now) && Allows(steps, maxElapsed, 1)
  {
  }

  /** A turn of the loop that goes on: the schedule is one sleep further, one more attempt is
      allowed, and less time is left. */
  lemma TurnMovesAlong(s: Schedule, k: nat, now: Nanos, n: Nap)
    requires Along(s, k, now) && now <= n.stamp && WholeSeconds(s.steps) && AllSafe(s.steps)
    requires Physical(Schedule(s.steps, Min(k, |s.steps| - 1), 0, None), n) && Sleep(s, n).1 == Slept
    ensures Along(Sleep(s, n).0, k + 1, n.wake)
    ensures Allows(s.steps, s.maxElapsed, k + 2) && LowSum(s.steps, k) < LowSum(s.steps, k + 1) < s.maxElapsed
  {
    NapMovesAlong(s, k, now, n);
    assert Safe(StepAt(s.steps, k)) && StepAt(s.steps, k) >= SECOND;
    hide Windowed, Physical;
  }

  /** Retries the identity exchange until it succeeds, the context ends or the deadline is hit. */
  method RunBootstrap(schedule: ScheduleInPlace, turns: nat -> Turn) returns (result: Bootstrap, attempts: nat)
    requires schedule.State() == Schedule(schedule.steps, 0, schedule.maxElapsed, None)
    requires WholeSeconds(schedule.steps) && AllSafe(schedule.steps) && schedule.maxElapsed > 0
    requires World(turns, schedule.steps)
    modifies schedule
    ensures attempts > 0 && Allows(schedule.steps, schedule.maxElapsed, attempts)
    ensures result == Exchanged ==>
        turns(attempts - 1).accepted && schedule.State() == Schedule(schedule.steps, 0, schedule.maxElapsed, None)
    ensures result != Exchanged ==> !turns(attempts - 1).accepted
    ensures forall k :: 0 <= k < attempts - 1 ==> !turns(k).accepted
  {
    attempts := 0;
    ghost var now := turns(0).nap.stamp;
    hide LowSum, AllSafe, WholeSeconds, Physical, Sleep, Along, Allows;
    StartsAlong(schedule.steps, schedule.maxElapsed, now);
    while true
      invariant Along(schedule.State(), attempts, now) && now <= turns(attempts).nap.stamp
      invariant Allows(schedule.steps, schedule.maxElapsed, attempts + 1)
      invariant forall k :: 0 <= k < attempts ==> !turns(k).accepted
      decreases schedule.maxElapsed - LowSum(schedule.steps, attempts)
    {
      var turn := turns(attempts);
      attempts := attempts + 1;
      if turn.accepted {
        schedule.Reset();
        return Exchanged, attempts;
      }
      if turn.contextDone {
        return Aborted, attempts;
      }
      ghost var before := schedule.State();
      var outcome := schedule.SleepFor(turn.nap);
      if outcome == DeadlineExceeded {
        return Exited, attempts;
      }
      if outcome != Slept {
        return Aborted, attempts;
      }
      assert Physical(Schedule(schedule.steps, Min(attempts - 1, |schedule.steps| - 1), 0, None),
          turns(attempts - 1).nap);
      TurnMovesAlong(before, attempts - 1, now, turn.nap);
      now := turn.nap.wake;
      assert turns(attempts - 1).nap.wake <= turns(attempts).nap.stamp;
    }
  }

  /** The default ramp with its one-hour deadline allows at most five exchange attempts. */
  lemma DefaultAllowsFive(attempts: nat)
    ensures Allows(DEFAULT_STEPS, BOOTSTRAP_DEADLINE, attempts) <==> attempts <= 5
  {
    DefaultRampFillsTheHour();
    if attempts > 5 {
      LowSumGrows(DEFAULT_STEPS, 5, attempts - 1);
    } else if attempts > 0 {
      LowSumGrows(DEFAULT_STEPS, attempts - 1, 4);
    }
  }
}
