/**
 The guard that keeps written files inside a workspace: `filepath.Clean` as a stack of
 path segments, and `safeJoin` on top of it.
 */
module SafeJoin {
  import opened Basics

  type Segment = string

  const DOT: Segment := "."
  const DOTDOT: Segment := ".."

  predicate HasPrefix(s: string, prefix: string) {
    |prefix| <= |s| && s[..|prefix|] == prefix
  }

  predicate Contains(s: string, sub: string) {
    exists i | 0 <= i <= |s| :: HasPrefix(s[i..], sub)
  }

  /** The pieces between slashes. */
  function Split(s: string): (segments: seq<Segment>)
    ensures segments != []
  {
    if s == "" then [""]
    else
      var rest := Split(s[1..]);
      if s[0] == '/' then [""] + rest else [[s[0]] + rest[0]] + rest[1..]
  }

  function Join(segments: seq<Segment>): string {
    if segments == [] then ""
    else if |segments| == 1 then segments[0]
    else segments[0] + "/" + Join(segments[1..])
  }

  // ----- Clean -----

  datatype Path = Path(rooted: bool, segments: seq<Segment>)

  /** One segment onto the stack: `..` takes the top off, or stays when there is nothing to take. */
  function Push(stack: seq<Segment>, s: Segment, rooted: bool): seq<Segment> {
    if s == "" || s == DOT then stack
    else if s != DOTDOT then stack + [s]
    else if stack != [] && stack[|stack| - 1] != DOTDOT then stack[..|stack| - 1]
    else if rooted then stack
    else stack + [DOTDOT]
  }

  function Reduce(stack: seq<Segment>, segments: seq<Segment>, rooted: bool): seq<Segment>
    decreases |segments|
  {
    if segments == [] then stack else Reduce(Push(stack, segments[0], rooted), segments[1..], rooted)
  }

  predicate IsAbs(s: string) {
    s != "" && s[0] == '/'
  }

  function Parse(s: string): Path {
    Path(IsAbs(s), Reduce([], Split(s), IsAbs(s)))
  }

  function Render(p: Path): string {
    if p.rooted then "/" + Join(p.segments) else if p.segments == [] then DOT else Join(p.segments)
  }

  function Clean(s: string): string {
    Render(Parse(s))
  }

  /** `filepath.Join` of two elements, the second not empty. */
  function JoinPath(base: string, elem: string): string {
    if base == "" then Clean(elem) else Clean(base + "/" + elem)
  }

  function CommonPrefix(a: seq<Segment>, b: seq<Segment>): (n: nat)
    ensures n <= |a| && n <= |b| && a[..n] == b[..n]
    ensures n < |a| && n < |b| ==> a[n] != b[n]
  {
    if a == [] || b == [] || a[0] != b[0] then 0 else 1 + CommonPrefix(a[1..], b[1..])
  }

  function Ups(k: nat): (ups: seq<Segment>)
    ensures |ups| == k && forall i :: 0 <= i < k ==> ups[i] == DOTDOT
  {
    if k == 0 then [] else [DOTDOT] + Ups(k - 1)
  }

  /** Up out of what the base has of its own, then down into what the target has of its own. */
  function UpAndDown(b: seq<Segment>, t: seq<Segment>, n: nat): seq<Segment>
    requires n <= |b| && n <= |t|
  {
    Ups(|b| - n) + t[n..]
  }

  /** `filepath.Rel`: up out of what is left of the base, then down into the target. */
  function Rel(base: string, target: string): Option<string> {
    var b, t := Parse(base), Parse(target);
    if b == t then Some(DOT)
    else if b.rooted != t.rooted then None
    else
      var n := CommonPrefix(b.segments, t.segments);
      if n < |b.segments| && b.segments[n] == DOTDOT then None
      else Some(Join(UpAndDown(b.segments, t.segments, n)))
  }

  // ----- safeJoin -----

  datatype Refusal = EmptyPath | AbsolutePath | ParentTraversal | EscapesRoot

  datatype Joined = Ok(full: string) | Refused(why: Refusal)

  function SafeJoinPath(base: string, rel: string): Joined {
    if rel == "" then Refused(EmptyPath)
    else if IsAbs(rel) then Refused(AbsolutePath)
    else
      var cleaned := Clean(rel);
      if HasPrefix(cleaned, DOTDOT) || Contains(cleaned, "/..") then Refused(ParentTraversal)
      else
        var full := JoinPath(base, cleaned);
        var rel2 := Rel(base, full);
        if rel2 == None || HasPrefix(rel2.value, DOTDOT) then Refused(EscapesRoot) else Ok(full)
  }

  // ----- Strings and their segments -----

  predicate NoSlash(s: Segment) {
    forall i :: 0 <= i < |s| ==> s[i] != '/'
  }

  predicate Plain(segments: seq<Segment>) {
    forall i :: 0 <= i < |segments| ==> NoSlash(segments[i])
  }

  lemma {:induction false} SplitIsPlain(s: string)
    ensures Plain(Split(s))
  {
    if s != "" {
      SplitIsPlain(s[1..]);
    }
  }

  lemma {:induction false} SplitOne(s: Segment)
    requires NoSlash(s)
    ensures Split(s) == [s]
  {
    if s != "" {
      assert s == [s[0]] + s[1..];
      SplitOne(s[1..]);
    }
  }

  /** A slash between two strings concatenates their segments. */
  lemma {:induction false} SplitSlash(a: string, b: string)
    ensures Split(a + "/" + b) == Split(a) + Split(b)
  {
    var s := a + "/" + b;
    if a == "" {
      assert s[1..] == b;
    } else {
      assert s[1..] == a[1..] + "/" + b && s[0] == a[0];
      SplitSlash(a[1..], b);
    }
  }

  /** Segments survive being joined and split again. */
  lemma {:induction false} SplitJoin(segments: seq<Segment>)
    requires segments != [] && Plain(segments)
    ensures Split(Join(segments)) == segments
  {
    if |segments| == 1 {
      SplitOne(segments[0]);
    } else {
      SplitOne(segments[0]);
      SplitJoin(segments[1..]);
      assert Join(segments) == segments[0] + "/" + Join(segments[1..]);
      SplitSlash(segments[0], Join(segments[1..]));
    }
  }

  // ----- What the stack looks like -----

  predicate Normal(s: Segment) {
    s != "" && s != DOT && s != DOTDOT && NoSlash(s)
  }

  /** `ups` times `..`, then only ordinary segments; a rooted path has no `..` at all. */
  predicate Reduced(stack: seq<Segment>, ups: nat, rooted: bool) {
    && ups <= |stack| && (rooted ==> ups == 0)
    && (forall i :: 0 <= i < ups ==> stack[i] == DOTDOT)
    && (forall i :: ups <= i < |stack| ==> Normal(stack[i]))
  }

  /** How far below its start a path gets on its way: 0 when it never climbs above it. */
  function Climb(segments: seq<Segment>, height: int, ups: nat): nat
    requires height + ups >= 0
  {
    if segments == [] then ups
    else
      var s := segments[0];
      var h := if s == "" || s == DOT then height else if s == DOTDOT then height - 1 else height + 1;
      Climb(segments[1..], h, if h < 0 && -h > ups then -h else ups)
  }

  /** The stack of a relative path starts with as many `..` as the path climbs above its start. */
  lemma {:induction false} ReduceClimbs(stack: seq<Segment>, segments: seq<Segment>, ups: nat)
    requires Reduced(stack, ups, false) && Plain(segments)
    ensures Reduced(Reduce(stack, segments, false), Climb(segments, |stack| - 2 * ups, ups), false)
    decreases |segments|
  {
    if segments != [] {
      var stack' := Push(stack, segments[0], false);
      var ups' := if segments[0] == DOTDOT && |stack| == ups then ups + 1 else ups;
      assert Reduced(stack', ups', false);
      ReduceClimbs(stack', segments[1..], ups');
    }
  }

  lemma {:induction false} ReduceRooted(stack: seq<Segment>, segments: seq<Segment>)
    requires Reduced(stack, 0, true) && Plain(segments)
    ensures Reduced(Reduce(stack, segments, true), 0, true)
    decreases |segments|
  {
    if segments != [] {
      ReduceRooted(Push(stack, segments[0], true), segments[1..]);
    }
  }

  /** Every cleaned path is reduced. */
  lemma ParseIsReduced(s: string) returns (ups: nat)
    ensures Reduced(Parse(s).segments, ups, Parse(s).rooted)
    ensures ups == if IsAbs(s) then 0 else Climb(Split(s), 0, 0)
  {
    SplitIsPlain(s);
    if IsAbs(s) {
      ReduceRooted([], Split(s));
      ups := 0;
    } else {
      ReduceClimbs([], Split(s), 0);
      ups := Climb(Split(s), 0, 0);
    }
  }

  lemma {:induction false} ReduceAppend(stack: seq<Segment>, a: seq<Segment>, b: seq<Segment>, rooted: bool)
    ensures Reduce(stack, a + b, rooted) == Reduce(Reduce(stack, a, rooted), b, rooted)
    decreases |a|
  {
    if a == [] {
      assert a + b == b;
    } else {
      assert (a + b)[1..] == a[1..] + b;
      ReduceAppend(Push(stack, a[0], rooted), a[1..], b, rooted);
    }
  }

  /** A reduced stack is rebuilt by pushing its own segments. */
  lemma {:induction false} ReduceRebuilds(stack: seq<Segment>, rest: seq<Segment>, ups: nat, rooted: bool)
    requires Reduced(stack + rest, ups, rooted)
    ensures Reduce(stack, rest, rooted) == stack + rest
    decreases |rest|
  {
    if rest == [] {
      assert stack + rest == stack;
    } else {
      assert (stack + rest)[|stack|] == rest[0];
      assert stack + rest == (stack + [rest[0]]) + rest[1..];
      if stack != [] { assert (stack + rest)[|stack| - 1] == stack[|stack| - 1]; }
      ReduceRebuilds(stack + [rest[0]], rest[1..], ups, rooted);
    }
  }

  /** Ordinary segments are only ever appended. */
  lemma {:induction false} ReduceNormals(stack: seq<Segment>, rest: seq<Segment>, rooted: bool)
    requires forall i :: 0 <= i < |rest| ==> Normal(rest[i])
    ensures Reduce(stack, rest, rooted) == stack + rest
    decreases |rest|
  {
    if rest == [] {
      assert stack + rest == stack;
    } else {
      assert stack + rest == (stack + [rest[0]]) + rest[1..];
      ReduceNormals(stack + [rest[0]], rest[1..], rooted);
    }
  }

  lemma ReducedIsPlain(stack: seq<Segment>, ups: nat, rooted: bool)
    requires Reduced(stack, ups, rooted)
    ensures Plain(stack)
  {
  }

  /** The segments of a rendered relative path. */
  lemma SplitRender(segments: seq<Segment>)
    requires Plain(segments) && (forall i :: 0 <= i < |segments| ==> segments[i] != "")
    ensures Split(Render(Path(false, segments))) == if segments == [] then [DOT] else segments
    ensures !IsAbs(Render(Path(false, segments))) && Render(Path(false, segments)) != ""
  {
    if segments == [] {
      SplitOne(DOT);
    } else {
      SplitJoin(segments);
      assert |segments| > 1 ==> Join(segments)[0] == segments[0][0];
      assert segments[0][0] != '/';
    }
  }

  /** Rendering a reduced path and parsing it again gives the path back: Clean is idempotent. */
  lemma ParseRender(p: Path, ups: nat)
    requires Reduced(p.segments, ups, p.rooted)
    ensures Parse(Render(p)) == p
  {
    ReducedIsPlain(p.segments, ups, p.rooted);
    assert [] + p.segments == p.segments;
    ReduceRebuilds([], p.segments, ups, p.rooted);
    if p.rooted {
      var text := Render(p);
      assert text[1..] == Join(p.segments) && text[0] == '/';
      if p.segments == [] {
        assert Split(text) == ["", ""] && ["", ""][1..] == [""];
        assert Reduce([], [""], true) == [];
      } else {
        SplitJoin(p.segments);
        assert Split(text) == [""] + p.segments;
        assert Split(text)[1..] == p.segments;
      }
    } else {
      SplitRender(p.segments);
    }
  }

  /** Joining a relative path that does not climb puts its segments after those of the base. */
  lemma JoinExtends(base: string, c: seq<Segment>)
    requires forall i :: 0 <= i < |c| ==> Normal(c[i])
    ensures JoinPath(base, Render(Path(false, c))) == Render(Path(IsAbs(base), Parse(base).segments + c))
    ensures Parse(JoinPath(base, Render(Path(false, c)))) == Path(IsAbs(base), Parse(base).segments + c)
  {
    var elem := Render(Path(false, c));
    var q := Path(IsAbs(base), Parse(base).segments + c);
    var ups := ParseIsReduced(base);
    assert Reduced(q.segments, ups, q.rooted);
    ParseRender(q, ups);
    SplitRender(c);
    if base == "" {
      assert Parse(base).segments == [] && q == Path(false, c);
      ParseRender(Path(false, c), 0);
    } else {
      var text := base + "/" + elem;
      assert IsAbs(text) == IsAbs(base);
      SplitSlash(base, elem);
      ReduceAppend([], Split(base), Split(elem), IsAbs(base));
      ReduceNormals(Parse(base).segments, c, IsAbs(base));
      if c == [] {
        assert Reduce(Parse(base).segments, [DOT], IsAbs(base)) == Parse(base).segments;
      }
      assert Parse(text) == q;
    }
  }

  // ----- The two checks on the cleaned text -----

  predicate StartsDotDot(s: Segment) {
    HasPrefix(s, DOTDOT)
  }

  lemma {:induction false} ContainsSlash(a: Segment, r: string)
    requires NoSlash(a)
    ensures Contains(a + "/" + r, "/..") <==> HasPrefix(r, DOTDOT) || Contains(r, "/..")
  {
    var text := a + "/" + r;
    if i :| 0 <= i <= |text| && HasPrefix(text[i..], "/..") {
      assert text[i] == '/';
      assert i >= |a|;
      if i == |a| {
        assert text[i..] == "/" + r;
        assert ("/" + r)[..3] == "/..";
        assert r[..2] == ("/" + r)[1..3];
      } else {
        assert r[i - |a| - 1..] == text[i..];
      }
    }
    if HasPrefix(r, DOTDOT) {
      assert text[|a|..] == "/" + r && ("/" + r)[..3] == "/" + r[..2];
      assert HasPrefix(text[|a|..], "/..");
    }
    if i :| 0 <= i <= |r| && HasPrefix(r[i..], "/..") {
      assert text[|a| + 1 + i..] == r[i..];
    }
  }

  lemma {:induction false} DotDotText(segments: seq<Segment>)
    requires segments != [] && Plain(segments)
    ensures HasPrefix(Join(segments), DOTDOT) <==> StartsDotDot(segments[0])
    ensures Contains(Join(segments), "/..") <==> exists i :: 1 <= i < |segments| && StartsDotDot(segments[i])
  {
    var a := segments[0];
    if |segments| == 1 {
      forall i | 0 <= i <= |a| ensures !HasPrefix(a[i..], "/..") {
        assert i < |a| ==> a[i..][0] == a[i];
      }
    } else {
      var r := Join(segments[1..]);
      DotDotText(segments[1..]);
      ContainsSlash(a, r);
      PrefixOfFirst(a, r);
      assert forall i :: 1 <= i < |segments| ==> segments[i] == segments[1..][i - 1];
      if i :| 1 <= i < |segments[1..]| && StartsDotDot(segments[1..][i]) {
        assert StartsDotDot(segments[i + 1]);
      }
    }
  }

  lemma PrefixOfFirst(a: Segment, r: string)
    requires NoSlash(a)
    ensures HasPrefix(a + "/" + r, DOTDOT) <==> StartsDotDot(a)
  {
    var text := a + "/" + r;
    if |a| >= 2 {
      assert text[..2] == a[..2];
    } else {
      assert text[|a|] == '/' && DOTDOT[|a|] == '.';
      assert |text| >= 2 ==> text[..2][|a|] == '/';
    }
  }

  // ----- What safeJoin accepts, and where it leads -----

  /** No cleaned segment begins with two dots. */
  ghost predicate NoDotDot(segments: seq<Segment>) {
    forall i :: 0 <= i < |segments| ==> !StartsDotDot(segments[i])
  }

  lemma TextIsSegments(rel: string)
    requires rel != "" && !IsAbs(rel)
    ensures HasPrefix(Clean(rel), DOTDOT) || Contains(Clean(rel), "/..") <==> !NoDotDot(Parse(rel).segments)
  {
    var ups := ParseIsReduced(rel);
    var c := Parse(rel).segments;
    if c == [] {
      assert Clean(rel) == DOT;
      assert !Contains(DOT, "/..");
    } else {
      DotDotText(c);
    }
  }

  lemma {:induction false} PrefixIsCommon(a: seq<Segment>, b: seq<Segment>)
    ensures CommonPrefix(a, a + b) == |a|
  {
    if a != [] {
      assert (a + b)[1..] == a[1..] + b;
      PrefixIsCommon(a[1..], b);
    }
  }

  /** As many `..` as there are ordinary segments on top take exactly these off. */
  lemma {:induction false} ReducePops(stack: seq<Segment>, k: nat, rooted: bool)
    requires k <= |stack| && forall i :: |stack| - k <= i < |stack| ==> Normal(stack[i])
    ensures Reduce(stack, Ups(k), rooted) == stack[..|stack| - k]
    decreases k
  {
    if k == 0 {
      assert stack[..|stack|] == stack;
    } else {
      var top := |stack| - 1;
      assert Normal(stack[top]);
      assert Ups(k)[1..] == Ups(k - 1);
      assert Push(stack, DOTDOT, rooted) == stack[..top];
      ReducePops(stack[..top], k - 1, rooted);
      assert stack[..top][..top - (k - 1)] == stack[..|stack| - k];
    }
  }

  /** Cleaning does not change what a path means. */
  lemma ParseClean(s: string)
    ensures Parse(Clean(s)) == Parse(s)
  {
    var ups := ParseIsReduced(s);
    ParseRender(Parse(s), ups);
  }

  lemma JoinReduces(base: string, segments: seq<Segment>)
    requires segments != [] && Plain(segments) && forall i :: 0 <= i < |segments| ==> segments[i] != ""
    ensures Parse(JoinPath(base, Join(segments)))
            == Path(IsAbs(base), Reduce(Parse(base).segments, segments, IsAbs(base)))
  {
    var elem := Join(segments);
    SplitRender(segments);
    assert Render(Path(false, segments)) == elem;
    if base == "" {
      ParseClean(elem);
      assert Parse(base).segments == [];
    }
    hide Reduce, Join, Render, Push, Plain;
    if base != "" {
      var text := base + "/" + elem;
      assert IsAbs(text) == IsAbs(base);
      SplitSlash(base, elem);
      ReduceAppend([], Split(base), Split(elem), IsAbs(base));
      ParseClean(text);
    }
  }

  lemma UpAndDownLeads(b: seq<Segment>, ups: nat, t: seq<Segment>, tups: nat, n: nat, rooted: bool)
    requires Reduced(b, ups, rooted) && Reduced(t, tups, rooted)
    requires n <= |b| && n <= |t| && b[..n] == t[..n] && (n < |b| ==> b[n] != DOTDOT)
    ensures Reduce(b, UpAndDown(b, t, n), rooted) == t
  {
    var k := |b| - n;
    assert forall i :: n <= i < |b| ==> Normal(b[i]);
    assert t[..n] + t[n..] == t && b[..|b| - k] == t[..n];
    hide Reduce, Normal, Ups;
    ReducePops(b, k, rooted);
    ReduceAppend(b, Ups(k), t[n..], rooted);
    ReduceRebuilds(t[..n], t[n..], tups, rooted);
  }

  lemma UpAndDownIsPlain(b: seq<Segment>, t: seq<Segment>, tups: nat, n: nat, rooted: bool)
    requires Reduced(t, tups, rooted) && n <= |b| && n <= |t| && b[..n] == t[..n] && b != t
    ensures UpAndDown(b, t, n) != [] && Plain(UpAndDown(b, t, n))
    ensures forall i :: 0 <= i < |UpAndDown(b, t, n)| ==> UpAndDown(b, t, n)[i] != ""
  {
    assert b[..|b|] == b && t[..|t|] == t;
  }

  /** What Rel answers leads from the base to the target, for all paths: joined to the base it means what
      the target means. */
  lemma RelLeadsToTarget(base: string, target: string)
    requires Rel(base, target).Some?
    ensures Parse(JoinPath(base, Rel(base, target).value)) == Parse(target)
  {
    var b, t := Parse(base), Parse(target);
    if b == t {
      JoinExtends(base, []);
      assert b.segments + [] == b.segments;
    } else {
      var n := CommonPrefix(b.segments, t.segments);
      assert Rel(base, target).value == Join(UpAndDown(b.segments, t.segments, n));
      assert b.rooted == t.rooted == IsAbs(base) && (n < |b.segments| ==> b.segments[n] != DOTDOT);
      var ups := ParseIsReduced(base);
      var tups := ParseIsReduced(target);
      hide CommonPrefix, Rel, UpAndDown, Reduced, Reduce, JoinPath, Join;
      UpAndDownIsPlain(b.segments, t.segments, tups, n, t.rooted);
      JoinReduces(base, UpAndDown(b.segments, t.segments, n));
      UpAndDownLeads(b.segments, ups, t.segments, tups, n, b.rooted);
    }
  }

  /** Rel has no answer exactly when one path is absolute and the other is not, or when the base climbs
      out of a place the target does not name. */
  lemma RelHasNoAnswerIff(base: string, target: string)
    ensures var (b, t) := (Parse(base), Parse(target));
            Rel(base, target) == None
            <==> b.rooted != t.rooted
                 || (exists n :: 0 <= n < |b.segments| && n <= |t.segments| && b.segments[..n] == t.segments[..n]
                       && b.segments[n] == DOTDOT && (n < |t.segments| ==> t.segments[n] != DOTDOT))
  {
    var b, t := Parse(base), Parse(target);
    var n := CommonPrefix(b.segments, t.segments);
    if b.rooted == t.rooted {
      forall m | 0 <= m < |b.segments| && m <= |t.segments| && b.segments[..m] == t.segments[..m]
        && b.segments[m] == DOTDOT && (m < |t.segments| ==> t.segments[m] != DOTDOT)
        ensures m == n
      {
        assert forall i :: 0 <= i < n ==> b.segments[..n][i] == t.segments[..n][i];
        assert forall i :: 0 <= i < m ==> b.segments[..m][i] == t.segments[..m][i];
      }
    }
  }

  /** The second look through Rel never refuses what passed the first. */
  lemma RelNeverEscapes(base: string, c: seq<Segment>)
    requires forall i :: 0 <= i < |c| ==> Normal(c[i])
    requires NoDotDot(c)
    ensures var r := Rel(base, JoinPath(base, Render(Path(false, c)))); r.Some? && !HasPrefix(r.value, DOTDOT)
  {
    JoinExtends(base, c);
    var b := Parse(base).segments;
    if c != [] {
      PrefixIsCommon(b, c);
      assert (b + c)[|b|..] == c;
      assert UpAndDown(b, b + c, |b|) == c;
      DotDotText(c);
    } else {
      assert b + c == b;
    }
  }

  /** Accepted are exactly the non-empty relative paths that never climb above their start and
      whose cleaned form has no segment beginning with two dots. */
  lemma AcceptedIff(base: string, rel: string)
    ensures SafeJoinPath(base, rel).Ok? <==> rel != "" && !IsAbs(rel) && NoDotDot(Parse(rel).segments)
    ensures SafeJoinPath(base, rel).Ok? ==> Climb(Split(rel), 0, 0) == 0
    ensures rel != "" && !IsAbs(rel) ==>
              (SafeJoinPath(base, rel).Ok? <==>
                 Climb(Split(rel), 0, 0) == 0 && forall i :: 0 <= i < |Parse(rel).segments| ==>
                   Parse(rel).segments[i] == DOTDOT || !StartsDotDot(Parse(rel).segments[i]))
  {
    if rel != "" && !IsAbs(rel) {
      var ups := ParseIsReduced(rel);
      var c := Parse(rel).segments;
      TextIsSegments(rel);
      assert ups > 0 ==> StartsDotDot(c[0]);
      if NoDotDot(c) {
        RelNeverEscapes(base, c);
      } else if ups == 0 {
        assert forall i :: 0 <= i < |c| ==> c[i] != DOTDOT;
      }
    }
  }

  /** An accepted path lies under the base: its cleaned segments are the base's followed by
      those of `rel`, none of which is `..`; and it is already clean. */
  lemma AcceptedIsContained(base: string, rel: string)
    requires SafeJoinPath(base, rel).Ok?
    ensures var full := SafeJoinPath(base, rel).full;
            && Parse(full) == Path(IsAbs(base), Parse(base).segments + Parse(rel).segments)
            && full == Render(Parse(full)) == Clean(full)
            && forall i :: 0 <= i < |Parse(rel).segments| ==> Normal(Parse(rel).segments[i])
  {
    AcceptedIff(base, rel);
    var ups := ParseIsReduced(rel);
    var c := Parse(rel).segments;
    JoinExtends(base, c);
  }

  /** A file whose name merely begins with two dots is refused, though it never climbs. */
  lemma DotDotNamesAreRefused(base: string)
    ensures SafeJoinPath(base, "..x") == Refused(ParentTraversal) && Climb(Split("..x"), 0, 0) == 0
  {
    SplitOne("..x");
    assert Parse("..x") == Path(false, ["..x"]);
    assert Clean("..x") == "..x";
  }

  // ----- Writing files -----

  datatype Entry = Entry(path: string, content: string)

  datatype Written = Written(full: string, content: string)

  /** The files written before the first refused entry, and whether none was refused. Each write
      succeeds; a failing one would stop the loop like a refusal. */
  function FilesOf(base: string, entries: seq<Entry>): (seq<Written>, bool) {
    if entries == [] then ([], true)
    else
      var joined := SafeJoinPath(base, entries[0].path);
      if joined.Refused? then ([], false)
      else
        var (rest, ok) := FilesOf(base, entries[1..]);
        ([Written(joined.full, entries[0].content)] + rest, ok)
  }

  method WriteFiles(base: string, entries: seq<Entry>) returns (written: seq<Written>, ok: bool)
    ensures (written, ok) == FilesOf(base, entries)
  {
    hide SafeJoinPath;
    written, ok := [], true;
    assert entries[0..] == entries;
    var none: seq<Written> := [];
    assert none + FilesOf(base, entries).0 == FilesOf(base, entries).0;
    for i := 0 to |entries|
      invariant FilesOf(base, entries) == (written + FilesOf(base, entries[i..]).0, FilesOf(base, entries[i..]).1)
    {
      assert entries[i..][0] == entries[i] && entries[i..][1..] == entries[i + 1..];
      var joined := SafeJoinPath(base, entries[i].path);
      if joined.Refused? {
        assert written + none == written;
        return written, false;
      }
      assert written + ([Written(joined.full, entries[i].content)] + FilesOf(base, entries[i + 1..]).0)
             == written + [Written(joined.full, entries[i].content)] + FilesOf(base, entries[i + 1..]).0;
      written := written + [Written(joined.full, entries[i].content)];
    }
    assert entries[|entries|..] == [] && written + none == written;
  }

  /** Everything ever written lies under the workspace: one file per entry, in order, up to the
      first entry that is not acceptable; with acceptable entries only, all of them are written. */
  lemma {:induction false} WritesStayInside(base: string, entries: seq<Entry>)
    ensures var (written, ok) := FilesOf(base, entries);
            && |written| <= |entries|
            && (ok <==> |written| == |entries|)
            && (forall i :: 0 <= i < |written| ==>
                  && SafeJoinPath(base, entries[i].path) == Ok(written[i].full)
                  && written[i].content == entries[i].content
                  && Parse(written[i].full) == Path(IsAbs(base), Parse(base).segments + Parse(entries[i].path).segments)
                  && NoDotDot(Parse(entries[i].path).segments))
            && (!ok ==> SafeJoinPath(base, entries[|written|].path).Refused?)
  {
    if entries != [] && SafeJoinPath(base, entries[0].path).Ok? {
      WritesStayInside(base, entries[1..]);
      AcceptedIsContained(base, entries[0].path);
      AcceptedIff(base, entries[0].path);
    }
  }
}
