/**
 The ramp of the identity exchange as an environment variable gives it: a comma-separated
 list of seconds, and what becomes of seconds that int64 nanoseconds cannot hold.
 */
module StsBackoff {
  import opened Basics
  import opened Backoff

  // ----- Reading the text -----

  predicate IsSpace(c: char) {
    || '\t' <= c <= '\r' || c == ' ' || c == '\U{85}' || c == '\U{A0}' || c == '\U{1680}'
    || '\U{2000}' <= c <= '\U{200A}' || c == '\U{2028}' || c == '\U{2029}' || c == '\U{202F}'
    || c == '\U{205F}' || c == '\U{3000}'
  }

  function TrimLeft(s: string): string {
    if s != "" && IsSpace(s[0]) then TrimLeft(s[1..]) else s
  }

  function TrimRight(s: string): string {
    if s != "" && IsSpace(s[|s| - 1]) then TrimRight(s[..|s| - 1]) else s
  }

  function TrimSpace(s: string): string {
    TrimRight(TrimLeft(s))
  }

  function Split(s: string, sep: char): (parts: seq<string>)
    ensures parts != []
  {
    if s == "" then [""]
    else if s[0] == sep then [""] + Split(s[1..], sep)
    else
      var rest := Split(s[1..], sep);
      [[s[0]] + rest[0]] + rest[1..]
  }

  predicate IsDigit(c: char) {
    '0' <= c <= '9'
  }

  predicate AllDigits(s: string) {
    forall i :: 0 <= i < |s| ==> IsDigit(s[i])
  }

  function ValueOf(digits: string): nat
    requires AllDigits(digits)
  {
    if digits == "" then 0
    else ValueOf(digits[..|digits| - 1]) * 10 + (digits[|digits| - 1] as int - '0' as int)
  }

  /** A sign and digits, within int64. */
  function Atoi(s: string): Option<int> {
    var digits := if s != "" && (s[0] == '+' || s[0] == '-') then s[1..] else s;
    if digits == "" || !AllDigits(digits) then None
    else
      var value: int := ValueOf(digits);
      var n := if s[0] == '-' then -value else value;
      if InInt64(n) then Some(n) else None
  }

  /** The product of a duration and a second wraps around. */
  function Wrap64(x: int): int {
    (x + MAX_INT64 + 1) % 0x1_0000_0000_0000_0000 - MAX_INT64 - 1
  }

  function StepOf(seconds: int): Nanos {
    Wrap64(seconds * SECOND)
  }

  /** The seconds a token stands for, if it is acceptable. */
  function SecondsOf(token: string): Option<int> {
    var n := Atoi(TrimSpace(token));
    if n.Some? && n.value > 0 then n else None
  }

  /** The seconds of every token, if each is acceptable. */
  function AllSeconds(tokens: seq<string>): Option<seq<int>> {
    if tokens == [] then Some([])
    else
      var (before, last) := (AllSeconds(tokens[..|tokens| - 1]), SecondsOf(tokens[|tokens| - 1]));
      if before.Some? && last.Some? then Some(before.value + [last.value]) else None
  }

  function StepsOf(seconds: seq<int>): (steps: seq<Nanos>)
    ensures |steps| == |seconds|
  {
    seq(|seconds|, i requires 0 <= i < |seconds| => StepOf(seconds[i]))
  }

  function StepsIn(s: string): Option<seq<Nanos>> {
    var seconds := AllSeconds(Split(s, ','));
    if seconds.Some? then Some(StepsOf(seconds.value)) else None
  }

  lemma {:induction false} OneBadTokenIsEnough(tokens: seq<string>, i: nat)
    requires i < |tokens| && SecondsOf(tokens[i]) == None
    ensures AllSeconds(tokens) == None
    decreases |tokens|
  {
    if i < |tokens| - 1 {
      OneBadTokenIsEnough(tokens[..|tokens| - 1], i);
    }
  }

  lemma OneMoreToken(tokens: seq<string>, i: nat)
    requires i < |tokens| && AllSeconds(tokens[..i]).Some? && SecondsOf(tokens[i]).Some?
    ensures AllSeconds(tokens[..i + 1]) == Some(AllSeconds(tokens[..i]).value + [SecondsOf(tokens[i]).value])
  {
    assert tokens[..i + 1][..i] == tokens[..i];
  }

  method ParseBackoffSeconds(s: string) returns (steps: Option<seq<Nanos>>)
    ensures steps == StepsIn(s)
  {
    var parts := Split(s, ',');
    var done: seq<Nanos> := [];
    for i := 0 to |parts|
      invariant AllSeconds(parts[..i]).Some? && done == StepsOf(AllSeconds(parts[..i]).value)
    {
      var n := Atoi(TrimSpace(parts[i]));
      if n == None || n.value <= 0 {
        OneBadTokenIsEnough(parts, i);
        return None;
      }
      OneMoreToken(parts, i);
      done := done + [Wrap64(n.value * SECOND)];
    }
    assert parts[..|parts|] == parts;
    return Some(done);
  }

  /** The ramp that a value of the variable gives; an unset variable reads as empty. */
  function RampOf(value: string): seq<Nanos> {
    if value == "" || StepsIn(value) == None then DEFAULT_STEPS else StepsIn(value).value
  }

  method ParseStsBackoffEnv(value: string) returns (schedule: ScheduleInPlace)
    ensures fresh(schedule)
    ensures RampOf(value) != [] && schedule.State() == Schedule(RampOf(value), 0, BOOTSTRAP_DEADLINE, None)
  {
    RampIsNotEmpty(value);
    if value == "" {
      schedule := new ScheduleInPlace(DEFAULT_STEPS, BOOTSTRAP_DEADLINE);
      return;
    }
    var steps := ParseBackoffSeconds(value);
    if steps == None {
      schedule := new ScheduleInPlace(DEFAULT_STEPS, BOOTSTRAP_DEADLINE);
    } else {
      schedule := new ScheduleInPlace(steps.value, BOOTSTRAP_DEADLINE);
    }
  }

  lemma {:induction false} AsManySeconds(tokens: seq<string>)
    requires AllSeconds(tokens).Some?
    ensures |AllSeconds(tokens).value| == |tokens|
    ensures forall i :: 0 <= i < |tokens| ==> 0 < AllSeconds(tokens).value[i] <= MAX_INT64
  {
    if tokens != [] {
      AsManySeconds(tokens[..|tokens| - 1]);
    }
  }

  lemma RampIsNotEmpty(value: string)
    ensures RampOf(value) != []
  {
    if StepsIn(value).Some? {
      AsManySeconds(Split(value, ','));
    }
  }

  // ----- Writing a ramp and reading it back -----

  function Digit(d: nat): char
    requires d < 10
  {
    '0' + d as char
  }

  function Decimal(n: nat): (s: string)
    ensures s != "" && AllDigits(s)
  {
    if n < 10 then [Digit(n)] else Decimal(n / 10) + [Digit(n % 10)]
  }

  lemma {:induction false} DecimalValue(n: nat)
    ensures ValueOf(Decimal(n)) == n
  {
    if n < 10 {
      assert Decimal(n)[..0] == "" && Decimal(n)[0] == Digit(n);
    } else {
      DecimalValue(n / 10);
      assert Decimal(n)[..|Decimal(n)| - 1] == Decimal(n / 10);
    }
  }

  lemma DigitsAreNotSpace(s: string)
    requires s != "" && AllDigits(s)
    ensures TrimSpace(s) == s && Atoi(s) == if ValueOf(s) <= MAX_INT64 then Some(ValueOf(s)) else None
  {
    assert IsDigit(s[0]) && IsDigit(s[|s| - 1]);
  }

  function Joined(ns: seq<nat>): string
    requires ns != []
  {
    if |ns| == 1 then Decimal(ns[0]) else Decimal(ns[0]) + "," + Joined(ns[1..])
  }

  function Decimals(ns: seq<nat>): seq<string> {
    seq(|ns|, i requires 0 <= i < |ns| => Decimal(ns[i]))
  }

  lemma {:induction false} SplitFirst(digits: string, rest: string)
    requires AllDigits(digits)
    ensures Split(digits, ',') == [digits]
    ensures Split(digits + "," + rest, ',') == [digits] + Split(rest, ',')
  {
    if digits == "" {
      assert digits + "," + rest == "," + rest && ("," + rest)[1..] == rest;
    } else {
      var (c, more) := (digits[0], digits[1..]);
      assert IsDigit(c);
      SplitFirst(more, rest);
      assert (digits + "," + rest)[0] == c && (digits + "," + rest)[1..] == more + "," + rest;
      assert digits == [c] + more;
    }
  }

  lemma {:induction false} SplitJoined(ns: seq<nat>)
    requires ns != []
    ensures Split(Joined(ns), ',') == Decimals(ns)
  {
    if |ns| == 1 {
      SplitFirst(Decimal(ns[0]), "");
    } else {
      SplitFirst(Decimal(ns[0]), Joined(ns[1..]));
      SplitJoined(ns[1..]);
    }
  }

  predicate Acceptable(ns: seq<int>) {
    forall i :: 0 <= i < |ns| ==> 0 < ns[i] <= MAX_INT64
  }

  lemma DecimalSeconds(n: nat)
    ensures SecondsOf(Decimal(n)) == if 0 < n <= MAX_INT64 then Some(n) else None
  {
    DecimalValue(n);
    DigitsAreNotSpace(Decimal(n));
  }

  lemma {:induction false} DecimalsSeconds(ns: seq<nat>)
    ensures AllSeconds(Decimals(ns)) == if Acceptable(ns) then Some(ns) else None
  {
    if ns != [] {
      var n := |ns| - 1;
      DecimalsSeconds(ns[..n]);
      DecimalSeconds(ns[n]);
      assert Decimals(ns)[..n] == Decimals(ns[..n]);
      assert ns == ns[..n] + [ns[n]];
    }
  }

  /** Every list of seconds written in decimal is read back as itself, and it is refused exactly when
      one of them is zero or does not fit int64. */
  lemma SecondsAreReadBack(ns: seq<nat>)
    requires ns != []
    ensures AllSeconds(Split(Joined(ns), ',')) == if Acceptable(ns) then Some(ns) else None
    ensures StepsIn(Joined(ns)) == if Acceptable(ns) then Some(StepsOf(ns)) else None
  {
    SplitJoined(ns);
    DecimalsSeconds(ns);
  }

  // ----- Seconds that int64 nanoseconds can hold -----

  /** The most seconds whose product and a fifth more of it are within int64. */
  const MAX_HONEST_SECONDS := 7_686_143_364

  lemma HonestStep(n: nat)
    ensures n <= MAX_HONEST_SECONDS <==> Safe(n * SECOND)
    ensures n <= MAX_HONEST_SECONDS ==> StepOf(n) == n * SECOND
  {
  }

  lemma WrappedStep(n: nat)
    ensures StepOf(n) == n * SECOND || StepOf(n) <= n * SECOND - 0x1_0000_0000_0000_0000
  {
    var x := n * SECOND + MAX_INT64 + 1;
    assert x == x / 0x1_0000_0000_0000_0000 * 0x1_0000_0000_0000_0000 + x % 0x1_0000_0000_0000_0000;
  }

  /** For every number of seconds that the parser accepts: all delays lie within a fifth of that
      many seconds, whatever the draw and whatever an out-of-range conversion gives, if and only if
      the number is at most 7686143364. */
  lemma DelaysAreHonestIff(n: nat)
    requires 0 < n <= MAX_INT64
    ensures (forall draw, overflow :: 0.0 <= draw < 1.0 && InInt64(overflow) ==>
              Low(n * SECOND) <= Windowed(StepOf(n), draw, overflow) <= n * SECOND * 6 / 5)
            <==> n <= MAX_HONEST_SECONDS
  {
    HonestStep(n);
    var step := StepOf(n);
    if n <= MAX_HONEST_SECONDS {
      forall draw, overflow | 0.0 <= draw < 1.0 && InInt64(overflow)
        ensures Low(n * SECOND) <= Windowed(step, draw, overflow) <= n * SECOND * 6 / 5
      {
        DelayIsInBand(step, draw, overflow);
      }
    } else {
      WrappedStep(n);
      LeastIsAttained(step);
      assert Windowed(step, LeastDraw(step), -1) < Low(n * SECOND) && InInt64(-1);
    }
  }

  /** Every number of seconds that the value lists is at most 7686143364. */
  predicate Honest(value: string) {
    var seconds := AllSeconds(Split(value, ','));
    seconds.Some? ==> forall i :: 0 <= i < |seconds.value| ==> seconds.value[i] <= MAX_HONEST_SECONDS
  }

  lemma HonestRampIsSafe(value: string)
    requires Honest(value)
    ensures WholeSeconds(RampOf(value)) && AllSafe(RampOf(value))
  {
    RampIsNotEmpty(value);
    if StepsIn(value).Some? {
      var seconds := AllSeconds(Split(value, ',')).value;
      AsManySeconds(Split(value, ','));
      forall i | 0 <= i < |seconds| ensures StepOf(seconds[i]) >= SECOND && Safe(StepOf(seconds[i])) {
        HonestStep(seconds[i]);
      }
    }
  }

  /** Every value of the variable whose seconds are honest, and every value that is refused, gives a
      ramp on which the bootstrap ends after at most 4500 attempts. */
  lemma HonestRampIsBounded(value: string, attempts: nat)
    requires Honest(value)
    ensures WholeSeconds(RampOf(value)) && AllSafe(RampOf(value))
    ensures Allows(RampOf(value), BOOTSTRAP_DEADLINE, attempts) ==> attempts <= 4500
  {
    HonestRampIsSafe(value);
    if attempts > 0 {
      SecondsAddUp(RampOf(value), attempts - 1);
    }
  }

  lemma {:induction false} OneStepSum(step: Nanos, k: nat)
    ensures LowSum([step], k) == k * LeastTime(step)
  {
    if k > 0 {
      OneStepSum(step, k - 1);
    }
  }

  /** For every ramp of one accepted number of seconds: the number of sleeps before the deadline
      stays below 4500 if and only if what is left of the product in int64 is at least a second and
      leaves room for the jitter; otherwise 4500 sleeps can all return nil. */
  lemma SleepsAreBoundedIff(n: nat)
    requires 0 < n <= MAX_INT64
    ensures (forall naps :: AllSlept(Schedule([StepOf(n)], 0, BOOTSTRAP_DEADLINE, None), naps) ==> |naps| < 4500)
            <==> Safe(StepOf(n)) && StepOf(n) >= SECOND
  {
    var step := StepOf(n);
    OneStepSum(step, 4500);
    if Safe(step) && step >= SECOND {
      forall naps | AllSlept(Schedule([step], 0, BOOTSTRAP_DEADLINE, None), naps) ensures |naps| < 4500 {
        SleepsFitTheDeadline([step], BOOTSTRAP_DEADLINE, naps);
        OneStepSum(step, |naps|);
        SecondsAddUp([step], |naps|);
      }
    } else {
      SleepsFitIff([step], BOOTSTRAP_DEADLINE, 4500);
    }
  }

  lemma NextDigit(s: string, d: nat, t: string)
    requires d < 10 && AllDigits(s) && t == s + [Digit(d)]
    ensures AllDigits(t) && ValueOf(t) == ValueOf(s) * 10 + d
  {
    assert t[..|s|] == s;
  }

  lemma LongValue()
    ensures AllDigits("9223372037") && ValueOf("9223372037") == 9_223_372_037
  {
    hide ValueOf, AllDigits;
    NoDigits();
    NextDigit("", 9, "9");
    NextDigit("9", 2, "92");
    NextDigit("92", 2, "922");
    NextDigit("922", 3, "9223");
    NextDigit("9223", 3, "92233");
    NextDigit("92233", 7, "922337");
    NextDigit("922337", 2, "9223372");
    NextDigit("9223372", 0, "92233720");
    NextDigit("92233720", 3, "922337203");
    NextDigit("922337203", 7, "9223372037");
  }

  lemma NoDigits()
    ensures AllDigits("") && ValueOf("") == 0
  {
  }

  lemma LongRamp()
    ensures RampOf("9223372037") == [-9_223_372_036_709_551_616] && StepOf(9_223_372_037) == -9_223_372_036_709_551_616
  {
    hide AllDigits, ValueOf, RampOf;
    LongValue();
    OneNumber("9223372037");
  }

  /** A value that is one number. */
  lemma OneNumber(digits: string)
    requires digits != "" && AllDigits(digits) && 0 < ValueOf(digits) <= MAX_INT64
    ensures RampOf(digits) == [StepOf(ValueOf(digits))]
  {
    DigitsAreNotSpace(digits);
    SplitFirst(digits, "");
    var none: seq<string>, nothing: seq<int> := [], [];
    assert [digits][..0] == none && [digits][..1] == [digits] && nothing + [ValueOf(digits)] == [ValueOf(digits)];
    OneMoreToken([digits], 0);
    hide TrimSpace, Atoi, Split, ValueOf, AllDigits, StepOf;
  }

  /** "9223372037" is accepted, and its product wraps around to a negative step: the timer fires at
      once every time, and no number of sleeps reaches the deadline. */
  lemma WrappedSecondsNeverWait(k: nat)
    ensures var ramp := RampOf("9223372037");
            && ramp == [-9_223_372_036_709_551_616]
            && exists naps :: |naps| == k && AllSlept(Schedule(ramp, 0, BOOTSTRAP_DEADLINE, None), naps)
  {
    hide RampOf, AllSlept, StepOf;
    LongRamp();
    NegativeNeverWaits(StepOf(9_223_372_037), k);
  }

  lemma NegativeNeverWaits(step: Nanos, k: nat)
    requires step < 0
    ensures exists naps :: |naps| == k && AllSlept(Schedule([step], 0, BOOTSTRAP_DEADLINE, None), naps)
  {
    OneStepSum(step, k);
    SleepsFitIff([step], BOOTSTRAP_DEADLINE, k);
    hide AllSlept, LowSum;
  }
}
