/**
 What one `claim_next` call does to the whole table, said in terms of the table
 before and the table after.
 */
module ClaimContract {
  import opened Basics
  import opened CommandRows
  import opened CommandQueue

  /** The rows one call went through: those it retired, in order, and the one it stopped at. */
  datatype Visit = Visit(retired: seq<CommandId>, last: Option<CommandId>)

  ghost function VisitFrom(q: Queue, c: ClaimCall, retired: nat): Visit
    requires retired <= HYDRATION_RETIRE_CAP
    decreases HYDRATION_RETIRE_CAP - retired
  {
    var picked := Select(q.rows, c.req);
    if picked == None then Visit([], None)
    else
      SelectedIsEligible(q.rows, c.req);
      var id := picked.value;
      if c.Hydrate(id) == CredentialFailure && RunBearing(q.rows[id].kind) && retired < HYDRATION_RETIRE_CAP then
        var rest := VisitFrom(RetireUnhydrated(Stamp(q, id, c), id), c, retired + 1);
        Visit([id] + rest.retired, rest.last)
      else Visit([], picked)
  }

  /** The failure events owed to the retired rows: one for each row with a run, in order. */
  ghost function FailuresOf(t: Table, ids: seq<CommandId>): seq<Effect>
    requires forall id :: id in ids ==> id in t
  {
    if ids == [] then [] else FailureOf(ids[0], t[ids[0]]) + FailuresOf(t, ids[1..])
  }

  ghost predicate NoRepeats(ids: seq<CommandId>) {
    forall i, j :: 0 <= i < j < |ids| ==> ids[i] != ids[j]
  }

  /** A row retired for want of credentials: pending and run-bearing before, done after. */
  ghost predicate RetiredRow(before: Row, after: Row, c: ClaimCall, id: CommandId) {
    && before.status == Pending
    && before.kind in {InvokeClaudeCode, InvokeCodex}
    && c.Hydrate(id) == CredentialFailure
    && after.hash.Some?
    && after == before.(agent := Some(c.req.agent), status := Done, claimedAt := Some(c.now), hash := after.hash)
  }

  /** What became of the row the call stopped at. */
  ghost predicate LastRow(before: Row, after: Row, c: ClaimCall, id: CommandId, result: ClaimResult) {
    && before.status == Pending
    && after.hash.Some?
    && match result
       case Command(given, token) =>
         && given == id
         && before.kind != PushBranch
         && c.Hydrate(id) in {NoHydrator, Injected}
         && after == before.(agent := Some(c.req.agent), status := Claimed, claimedAt := Some(c.now),
                             hash := Some(Sha256(token)))
       case NoCommand =>
         && c.Hydrate(id) == CredentialFailure
         && after == before.(agent := Some(c.req.agent), claimedAt := None, hash := after.hash)
       case Raised =>
         c.Hydrate(id) == Crash || (c.Hydrate(id) != CredentialFailure && before.kind == PushBranch)
  }

  /** `next` is `q` after the loop has stamped `id` and retired it. */
  ghost predicate Linked(q: Queue, next: Queue, c: ClaimCall, id: CommandId) {
    && id in q.rows
    && next.rows.Keys == q.rows.Keys
    && RetiredRow(q.rows[id], next.rows[id], c, id)
    && (forall x :: x in q.rows && x != id ==> next.rows[x] == q.rows[x])
    && next.rows[id].hash == Some(Sha256(q.nextToken))
    && next.nextToken == q.nextToken + 1
    && next.log == q.log + FailureOf(id, q.rows[id])
  }

  /** One turn of the loop: it retires a row and goes on from `next`, or it stops at the
      row it selected, or for want of one. */
  lemma LoopStep(q: Queue, c: ClaimCall, retired: nat) returns (go: bool, id: CommandId, next: Queue)
    requires retired <= HYDRATION_RETIRE_CAP
    ensures go ==>
              && retired < HYDRATION_RETIRE_CAP
              && Linked(q, next, c, id)
              && ClaimFrom(q, c, retired) == ClaimFrom(next, c, retired + 1)
              && VisitFrom(q, c, retired)
                 == Visit([id] + VisitFrom(next, c, retired + 1).retired, VisitFrom(next, c, retired + 1).last)
    ensures !go ==>
              var (q', result) := ClaimFrom(q, c, retired);
              var v := VisitFrom(q, c, retired);
              && v.retired == []
              && q'.log == q.log
              && q'.rows.Keys == q.rows.Keys
              && q'.nextToken == q.nextToken + (if v.last.Some? then 1 else 0)
              && (forall x :: x in q.rows && v.last != Some(x) ==> q'.rows[x] == q.rows[x])
              && (v.last.None? ==> result == NoCommand)
              && (v.last.Some? ==>
                    && v.last.value in q.rows
                    && q.rows[v.last.value].status == Pending
                    && q'.rows[v.last.value].hash == Some(Sha256(q.nextToken))
                    && (result.NoCommand? ==>
                          q.rows[v.last.value].kind !in {InvokeClaudeCode, InvokeCodex} || retired
                              == HYDRATION_RETIRE_CAP)
                    && LastRow(q.rows[v.last.value], q'.rows[v.last.value], c, v.last.value, result))
  {
    go, id, next := false, 0, q;
    var picked := Select(q.rows, c.req);
    if picked.Some? {
      SelectedIsEligible(q.rows, c.req);
      id := picked.value;
      go := c.Hydrate(id) == CredentialFailure && RunBearing(q.rows[id].kind) && retired < HYDRATION_RETIRE_CAP;
      next := RetireUnhydrated(Stamp(q, id, c), id);
    }
  }

  /** The visited rows are distinct, were pending before, and the retired ones are run-bearing. */
  ghost predicate VisitsPending(t: Table, c: ClaimCall, v: Visit) {
    && NoRepeats(v.retired)
    && (forall id :: id in v.retired ==> id in t && t[id].status == Pending)
    && (v.last.Some? ==> v.last.value in t && t[v.last.value].status == Pending && v.last.value !in v.retired)
  }

  lemma {:induction false} LoopVisitsPending(q: Queue, c: ClaimCall, retired: nat)
    requires retired <= HYDRATION_RETIRE_CAP
    ensures VisitsPending(q.rows, c, VisitFrom(q, c, retired))
    ensures |VisitFrom(q, c, retired).retired| <= HYDRATION_RETIRE_CAP - retired
    decreases HYDRATION_RETIRE_CAP - retired
  {
    hide *;
    var go, id, next := LoopStep(q, c, retired);
    if go {
      LoopVisitsPending(next, c, retired + 1);
      VisitsPendingPrepend(q, next, c, id, VisitFrom(next, c, retired + 1));
    } else {
      VisitsPendingStop(q.rows, c, VisitFrom(q, c, retired));
    }
  }

  lemma VisitsPendingStop(t: Table, c: ClaimCall, v: Visit)
    requires v.retired == []
    requires v.last.Some? ==> v.last.value in t && t[v.last.value].status == Pending
    ensures VisitsPending(t, c, v)
  {
  }

  lemma VisitsPendingPrepend(q: Queue, next: Queue, c: ClaimCall, id: CommandId, rest: Visit)
    requires Linked(q, next, c, id) && VisitsPending(next.rows, c, rest)
    ensures VisitsPending(q.rows, c, Visit([id] + rest.retired, rest.last))
  {
    assert id !in rest.retired && rest.last != Some(id);
    assert forall x :: x in [id] + rest.retired ==> x == id || x in rest.retired;
  }

  /** Retired rows are done, the rest but the last are untouched. */
  ghost predicate Framed(before: Table, after: Table, c: ClaimCall, v: Visit) {
    && after.Keys == before.Keys
    && (forall id :: id in v.retired ==> id in before && RetiredRow(before[id], after[id], c, id))
    && (forall id :: id in before && id !in v.retired && v.last != Some(id) ==> after[id] == before[id])
  }

  lemma {:induction false} LoopIsFramed(q: Queue, c: ClaimCall, retired: nat)
    requires retired <= HYDRATION_RETIRE_CAP
    ensures Framed(q.rows, ClaimFrom(q, c, retired).0.rows, c, VisitFrom(q, c, retired))
    decreases HYDRATION_RETIRE_CAP - retired
  {
    hide *;
    var go, id, next := LoopStep(q, c, retired);
    if go {
      LoopIsFramed(next, c, retired + 1);
      LoopVisitsPending(next, c, retired + 1);
      FramedPrepend(q, next, ClaimFrom(next, c, retired + 1).0.rows, c, id, VisitFrom(next, c, retired + 1));
    } else {
      FramedStop(q.rows, ClaimFrom(q, c, retired).0.rows, c, VisitFrom(q, c, retired));
    }
  }

  lemma FramedStop(t: Table, after: Table, c: ClaimCall, v: Visit)
    requires v.retired == [] && after.Keys == t.Keys
    requires forall id :: id in t && v.last != Some(id) ==> after[id] == t[id]
    ensures Framed(t, after, c, v)
  {
  }

  lemma FramedPrepend(q: Queue, next: Queue, after: Table, c: ClaimCall, id: CommandId, rest: Visit)
    requires Linked(q, next, c, id)
    requires VisitsPending(next.rows, c, rest) && Framed(next.rows, after, c, rest)
    ensures Framed(q.rows, after, c, Visit([id] + rest.retired, rest.last))
  {
    assert id !in rest.retired && rest.last != Some(id);
    assert after[id] == next.rows[id];
    assert forall x :: x in [id] + rest.retired ==> x == id || x in rest.retired;
  }

  ghost predicate SettlesLast(before: Table, after: Table, c: ClaimCall, v: Visit, result: ClaimResult) {
    match v.last
    case Some(id) => id in before && id in after && LastRow(before[id], after[id], c, id, result)
    case None => result == NoCommand
  }

  lemma {:induction false} LoopSettlesLast(q: Queue, c: ClaimCall, retired: nat)
    requires retired <= HYDRATION_RETIRE_CAP
    ensures var (q', result) := ClaimFrom(q, c, retired);
            SettlesLast(q.rows, q'.rows, c, VisitFrom(q, c, retired), result)
    decreases HYDRATION_RETIRE_CAP - retired
  {
    hide *;
    var go, id, next := LoopStep(q, c, retired);
    if go {
      LoopSettlesLast(next, c, retired + 1);
      LoopVisitsPending(next, c, retired + 1);
      var (q', result) := ClaimFrom(next, c, retired + 1);
      SettlesLastPrepend(q, next, q'.rows, c, id, VisitFrom(next, c, retired + 1), result);
    } else {
      var (q', result) := ClaimFrom(q, c, retired);
      SettlesLastStop(q.rows, q'.rows, c, VisitFrom(q, c, retired), result);
    }
  }

  lemma SettlesLastStop(t: Table, after: Table, c: ClaimCall, v: Visit, result: ClaimResult)
    requires after.Keys == t.Keys
    requires v.last.None? ==> result == NoCommand
    requires v.last.Some? ==>
        v.last.value in t && LastRow(t[v.last.value], after[v.last.value], c, v.last.value, result)
    ensures SettlesLast(t, after, c, v, result)
  {
  }

  lemma SettlesLastPrepend(q: Queue, next: Queue, after: Table, c: ClaimCall, id: CommandId, rest: Visit,
      result: ClaimResult)
    requires Linked(q, next, c, id) && VisitsPending(next.rows, c, rest)
    requires SettlesLast(next.rows, after, c, rest, result)
    ensures SettlesLast(q.rows, after, c, Visit([id] + rest.retired, rest.last), result)
  {
    assert rest.last != Some(id);
  }

  /** A row whose credentials could not be resolved is given back only if it bears no run, or the
      cap on retirements has been reached. */
  lemma {:induction false} LoopGivesBackIf(q: Queue, c: ClaimCall, retired: nat)
    requires retired <= HYDRATION_RETIRE_CAP
    ensures var (result, v) := (ClaimFrom(q, c, retired).1, VisitFrom(q, c, retired));
            result.NoCommand? && v.last.Some? ==>
              && v.last.value in q.rows
              && (q.rows[v.last.value].kind !in {InvokeClaudeCode, InvokeCodex}
                  || retired + |v.retired| == HYDRATION_RETIRE_CAP)
    decreases HYDRATION_RETIRE_CAP - retired
  {
    hide *;
    var go, id, next := LoopStep(q, c, retired);
    if go {
      LoopGivesBackIf(next, c, retired + 1);
      SameKinds(q, next, c, id);
    }
  }

  lemma SameKinds(q: Queue, next: Queue, c: ClaimCall, id: CommandId)
    requires Linked(q, next, c, id)
    ensures next.rows.Keys == q.rows.Keys && forall x :: x in q.rows ==> next.rows[x].kind == q.rows[x].kind
  {
  }

  ghost predicate Visited(v: Visit, id: CommandId) {
    id in v.retired || v.last == Some(id)
  }

  /** Exactly the visited rows carry a token minted by this call afterwards. */
  ghost predicate Mints(q: Queue, q': Queue, v: Visit) {
    && q'.rows.Keys == q.rows.Keys
    && q.nextToken <= q'.nextToken
    && forall id :: id in q.rows ==>
         if Visited(v, id)
         then q'.rows[id].hash.Some? && q.nextToken <= q'.rows[id].hash.value.token < q'.nextToken
         else q'.rows[id].hash == q.rows[id].hash
  }

  lemma {:induction false} LoopMints(q: Queue, c: ClaimCall, retired: nat)
    requires retired <= HYDRATION_RETIRE_CAP
    ensures Mints(q, ClaimFrom(q, c, retired).0, VisitFrom(q, c, retired))
    decreases HYDRATION_RETIRE_CAP - retired
  {
    hide *;
    var go, id, next := LoopStep(q, c, retired);
    if go {
      LoopMints(next, c, retired + 1);
      LoopVisitsPending(next, c, retired + 1);
      MintsPrepend(q, next, ClaimFrom(next, c, retired + 1).0, c, id, VisitFrom(next, c, retired + 1));
    } else {
      MintsStop(q, ClaimFrom(q, c, retired).0, VisitFrom(q, c, retired));
    }
  }

  lemma MintsStop(q: Queue, q': Queue, v: Visit)
    requires v.retired == [] && q'.rows.Keys == q.rows.Keys
    requires q'.nextToken == q.nextToken + (if v.last.Some? then 1 else 0)
    requires forall id :: id in q.rows && v.last != Some(id) ==> q'.rows[id] == q.rows[id]
    requires v.last.Some? ==> v.last.value in q.rows && q'.rows[v.last.value].hash == Some(Sha256(q.nextToken))
    ensures Mints(q, q', v)
  {
  }

  lemma MintsPrepend(q: Queue, next: Queue, q': Queue, c: ClaimCall, id: CommandId, rest: Visit)
    requires Linked(q, next, c, id) && VisitsPending(next.rows, c, rest) && Mints(next, q', rest)
    ensures Mints(q, q', Visit([id] + rest.retired, rest.last))
  {
    var v := Visit([id] + rest.retired, rest.last);
    assert !Visited(rest, id);
    assert forall x :: Visited(v, x) <==> x == id || Visited(rest, x);
  }

  /** The row the loop stops at goes before every eligible row that it did not retire. */
  ghost predicate TakesHead(t: Table, req: Request, v: Visit) {
    && (v.last.Some? ==> Eligible(t, v.last.value, req))
    && (forall id :: Eligible(t, id, req) && id !in v.retired ==>
          v.last.Some? && Eligible(t, v.last.value, req) && Precedes(t, v.last.value, id, req))
  }

  lemma {:induction false} LoopTakesHead(q: Queue, c: ClaimCall, retired: nat)
    requires retired <= HYDRATION_RETIRE_CAP
    ensures TakesHead(q.rows, c.req, VisitFrom(q, c, retired))
    decreases HYDRATION_RETIRE_CAP - retired
  {
    hide *;
    var go, id, next := LoopStep(q, c, retired);
    if go {
      LoopTakesHead(next, c, retired + 1);
      LoopVisitsPending(next, c, retired + 1);
      TakesHeadPrepend(q, next, c, id, VisitFrom(next, c, retired + 1));
    } else {
      VisitStops(q, c, retired);
      TakesHeadStop(q.rows, c.req, VisitFrom(q, c, retired));
    }
  }

  lemma VisitStops(q: Queue, c: ClaimCall, retired: nat)
    requires retired <= HYDRATION_RETIRE_CAP
    requires VisitFrom(q, c, retired).retired == []
    ensures VisitFrom(q, c, retired).last == Select(q.rows, c.req)
  {
  }

  lemma TakesHeadStop(t: Table, req: Request, v: Visit)
    requires v == Visit([], Select(t, req))
    ensures TakesHead(t, req, v)
  {
    SelectIsPriorityMinimum(t, req);
  }

  lemma TakesHeadPrepend(q: Queue, next: Queue, c: ClaimCall, id: CommandId, rest: Visit)
    requires Linked(q, next, c, id) && VisitsPending(next.rows, c, rest)
    requires TakesHead(next.rows, c.req, rest)
    ensures TakesHead(q.rows, c.req, Visit([id] + rest.retired, rest.last))
  {
    assert rest.last != Some(id);
    assert forall x :: x in q.rows && x != id ==> (Eligible(next.rows, x, c.req) <==> Eligible(q.rows, x, c.req));
    assert forall x :: x in [id] + rest.retired <==> x == id || x in rest.retired;
  }

  ghost predicate LogsFailures(q: Queue, q': Queue, v: Visit) {
    && (forall id :: id in v.retired ==> id in q.rows)
    && q'.log == q.log + FailuresOf(q.rows, v.retired)
    && q'.nextToken == q.nextToken + |v.retired| + (if v.last.Some? then 1 else 0)
  }

  lemma {:induction false} LoopLogsFailures(q: Queue, c: ClaimCall, retired: nat)
    requires retired <= HYDRATION_RETIRE_CAP
    ensures LogsFailures(q, ClaimFrom(q, c, retired).0, VisitFrom(q, c, retired))
    decreases HYDRATION_RETIRE_CAP - retired
  {
    hide *;
    var go, id, next := LoopStep(q, c, retired);
    if go {
      LoopLogsFailures(next, c, retired + 1);
      LogsFailuresPrepend(q, next, ClaimFrom(next, c, retired + 1).0, c, id, VisitFrom(next, c, retired + 1));
    } else {
      LogsFailuresStop(q, ClaimFrom(q, c, retired).0, VisitFrom(q, c, retired));
    }
  }

  lemma LogsFailuresStop(q: Queue, q': Queue, v: Visit)
    requires v.retired == [] && q'.log == q.log
    requires q'.nextToken == q.nextToken + (if v.last.Some? then 1 else 0)
    ensures LogsFailures(q, q', v)
  {
  }

  lemma LogsFailuresPrepend(q: Queue, next: Queue, q': Queue, c: ClaimCall, id: CommandId, rest: Visit)
    requires Linked(q, next, c, id) && LogsFailures(next, q', rest)
    ensures LogsFailures(q, q', Visit([id] + rest.retired, rest.last))
  {
    FailuresPrepend(q.rows, next.rows, id, rest.retired);
    assert q.log + FailureOf(id, q.rows[id]) + FailuresOf(q.rows, rest.retired)
        == q.log + (FailureOf(id, q.rows[id]) + FailuresOf(q.rows, rest.retired));
  }

  lemma FailuresPrepend(t: Table, next: Table, id: CommandId, rest: seq<CommandId>)
    requires id in t && next.Keys == t.Keys && forall x :: x in rest ==> x in t
    requires forall x :: x in t ==> next[x].run == t[x].run
    ensures FailuresOf(next, rest) == FailuresOf(t, rest)
    ensures FailuresOf(t, [id] + rest) == FailureOf(id, t[id]) + FailuresOf(t, rest)
  {
    FailuresAgree(t, next, rest);
    assert ([id] + rest)[1..] == rest;
  }

  lemma {:induction false} FailuresAgree(t: Table, t': Table, ids: seq<CommandId>)
    requires forall id :: id in ids ==> id in t && id in t' && t[id].run == t'[id].run
    ensures FailuresOf(t, ids) == FailuresOf(t', ids)
  {
    if ids != [] {
      FailuresAgree(t, t', ids[1..]);
    }
  }

  /** The rows whose status one call moved from something else to `s`. */
  ghost function Newly(s: Status, before: Table, after: Table): set<CommandId> {
    set id | id in after && after[id].status == s && (id in before ==> before[id].status != s)
  }

  /** The failure of the run of one of `gone`. */
  ghost predicate FailureOfOne(t: Table, gone: set<CommandId>, e: Effect) {
    && e.EngineEvent? && e.command in gone && e.command in t
    && t[e.command].run == Some(e.run) && e.outcome == "failure"
  }

  /** Each element of `more` is an effect owed and each effect owed is there, exactly once. */
  ghost predicate OnceEach(more: seq<Effect>, owed: Effect -> bool) {
    forall e :: multiset(more)[e] == if owed(e) then 1 else 0
  }

  /** For each of `gone` that has a run the engine got exactly one event, "failure", and it got
      nothing else. */
  ghost predicate FailuresLogged(q: Queue, q': Queue, gone: set<CommandId>) {
    q.log <= q'.log && OnceEach(q'.log[|q.log|..], e => FailureOfOne(q.rows, gone, e))
  }

  lemma {:induction false} FailuresCounted(t: Table, ids: seq<CommandId>, e: Effect)
    requires NoRepeats(ids) && forall id :: id in ids ==> id in t
    ensures multiset(FailuresOf(t, ids))[e] == if FailureOfOne(t, Elements(ids), e) then 1 else 0
  {
    if ids != [] {
      var id, rest := ids[0], ids[1..];
      assert id !in rest && forall x :: x in ids <==> x == id || x in rest;
      FailuresCounted(t, rest, e);
      assert multiset(FailuresOf(t, ids)) == multiset(FailureOf(id, t[id])) + multiset(FailuresOf(t, rest));
    }
  }

  ghost function Elements(ids: seq<CommandId>): set<CommandId> {
    set id | id in ids
  }

  lemma FailuresAreLogged(q: Queue, q': Queue, v: Visit, gone: set<CommandId>)
    requires LogsFailures(q, q', v) && NoRepeats(v.retired) && forall id :: id in v.retired <==> id in gone
    ensures FailuresLogged(q, q', gone)
  {
    var more := q'.log[|q.log|..];
    assert more == FailuresOf(q.rows, v.retired) && Elements(v.retired) == gone;
    forall e ensures multiset(more)[e] == if FailureOfOne(q.rows, gone, e) then 1 else 0 {
      FailuresCounted(q.rows, v.retired, e);
    }
  }

  /** `held` is the one row besides `gone` that may have changed: the row the call stopped at. It
      goes before every row the caller could have had but for `gone`, and it was given back only if
      it bears no run or five rows are gone. */
  ghost predicate OnlyHeldChanged(q: Queue, q': Queue, c: ClaimCall, gone: set<CommandId>, result: ClaimResult,
                                  held: Option<CommandId>) {
    && (forall id :: id in q.rows && id !in gone && held != Some(id) ==> id in q'.rows && q'.rows[id] == q.rows[id])
    && (held.Some? ==>
          && held.value in q.rows && held.value in q'.rows && Eligible(q.rows, held.value, c.req)
          && LastRow(q.rows[held.value], q'.rows[held.value], c, held.value, result)
          && (result.NoCommand? ==> q.rows[held.value].kind !in {InvokeClaudeCode, InvokeCodex} || |gone| == 5))
    && (forall id :: Eligible(q.rows, id, c.req) && id !in gone ==>
          held.Some? && Eligible(q.rows, held.value, c.req) && Precedes(q.rows, held.value, id, c.req))
  }

  /** The call came upon a row that makes it raise. */
  ghost predicate MeetsRaiser(q: Queue, c: ClaimCall) {
    exists id :: Eligible(q.rows, id, c.req)
      && (c.Hydrate(id) == Crash || (c.Hydrate(id) != CredentialFailure && q.rows[id].kind == PushBranch))
  }

  ghost predicate OneMoreChanged(q: Queue, q': Queue, c: ClaimCall, gone: set<CommandId>, result: ClaimResult) {
    exists held: Option<CommandId> :: OnlyHeldChanged(q, q', c, gone, result, held)
  }

  /**
   The contract of `claim_next`, for every table, caller, clock and hydrator: at most
   five rows are retired, all of them run-bearing, and for each that has a run the engine
   gets exactly one failure event; a returned command leaves exactly one newly claimed
   row, carrying the hash of the returned token, and goes before every other row the
   caller could have had; without a command no row is newly claimed; a raise changes
   nothing; at most one other row changes, the one whose credentials could not be resolved.
   */
  lemma ClaimMeetsContract(q: Queue, c: ClaimCall)
    ensures var (q', result) := Claim(q, c);
            var gone := Newly(Done, q.rows, q'.rows);
            var taken := Newly(Claimed, q.rows, q'.rows);
            && q'.rows.Keys == q.rows.Keys
            && |gone| <= 5
            && (forall id :: id in gone ==> RetiredRow(q.rows[id], q'.rows[id], c, id))
            && FailuresLogged(q, q', gone)
            && (result.Raised? ==> q' == q && MeetsRaiser(q, c))
            && (!result.Raised? ==> OneMoreChanged(q, q', c, gone, result))
            && (result.NoCommand? ==> taken == {})
            && (result.Command? ==>
                  && taken == {result.id}
                  && LastRow(q.rows[result.id], q'.rows[result.id], c, result.id, result))
  {
    hide ClaimFrom, VisitFrom, Claim, FailuresOf, RetiredRow, LastRow, Eligible, Precedes, OnceEach;
    var (q1, result) := ClaimFrom(q, c, 0);
    var v := VisitFrom(q, c, 0);
    LoopVisitsPending(q, c, 0);
    LoopIsFramed(q, c, 0);
    LoopSettlesLast(q, c, 0);
    LoopLogsFailures(q, c, 0);
    LoopTakesHead(q, c, 0);
    LoopGivesBackIf(q, c, 0);
    ClaimUnfolds(q, c);
    if result.Raised? {
      assert Newly(Done, q.rows, q.rows) == {};
      NothingLogged(q);
      RaiserIsMet(q, c, v, q1);
    } else {
      ChangesAreTheVisit(q.rows, q1.rows, c, result, v);
      SeqCoversSet(v.retired, Newly(Done, q.rows, q1.rows));
      FailuresAreLogged(q, q1, v, Newly(Done, q.rows, q1.rows));
      assert OnlyHeldChanged(q, q1, c, Newly(Done, q.rows, q1.rows), result, v.last);
    }
  }

  lemma ClaimUnfolds(q: Queue, c: ClaimCall)
    ensures var (q1, result) := ClaimFrom(q, c, 0);
            Claim(q, c) == if result.Raised? then (q, Raised) else (q1, result)
  {
  }

  lemma NothingLogged(q: Queue)
    ensures FailuresLogged(q, q, {})
  {
    assert q.log[|q.log|..] == [];
  }

  lemma RaiserIsMet(q: Queue, c: ClaimCall, v: Visit, q1: Queue)
    requires SettlesLast(q.rows, q1.rows, c, v, Raised) && TakesHead(q.rows, c.req, v)
    ensures MeetsRaiser(q, c)
  {
    assert Eligible(q.rows, v.last.value, c.req);
  }

  lemma ChangesAreTheVisit(before: Table, after: Table, c: ClaimCall, result: ClaimResult, v: Visit)
    requires VisitsPending(before, c, v) && Framed(before, after, c, v) && !result.Raised?
    requires SettlesLast(before, after, c, v, result)
    ensures forall id :: id in v.retired <==> id in Newly(Done, before, after)
    ensures Newly(Claimed, before, after) == if result.Command? then {result.id} else {}
  {
  }

  lemma {:induction false} SeqCoversSet(s: seq<CommandId>, ids: set<CommandId>)
    requires NoRepeats(s)
    requires forall id :: id in s <==> id in ids
    ensures |s| == |ids|
  {
    if s == [] {
      assert ids == {};
    } else {
      var rest := s[1..];
      assert s[0] !in rest;
      assert forall id :: id in s <==> id == s[0] || id in rest;
      SeqCoversSet(rest, ids - {s[0]});
      assert ids == ids - {s[0]} + {s[0]};
    }
  }

  /** A call whose first choice is a `PushBranch` row that hydrates or needs no hydration
      raises and changes nothing, so the same call raises again for as long as the row is
      at the head: the kind is missing from the adapter. */
  lemma PushBranchBlocksTheHead(q: Queue, c: ClaimCall, id: CommandId)
    requires Select(q.rows, c.req) == Some(id)
    requires c.Hydrate(id) in {NoHydrator, Injected}
    ensures Claim(q, c) == (q, Raised) <==> !Decodable(q.rows[id].kind)
  {
    SelectedIsEligible(q.rows, c.req);
  }

  /** The status revert leaves `agent_id` stamped. A row the caller already owned is as
      eligible as before; an unassigned ProvisionWorkspace row is eligible again only for a
      caller that names its workspace among the idle ones. */
  lemma RevertKeepsRowEligibleIff(q: Queue, c: ClaimCall, id: CommandId)
    requires Eligible(q.rows, id, c.req)
    ensures var row := q.rows[id];
            Eligible(Revert(Stamp(q, id, c), id).rows, id, c.req)
            <==> row.agent == Some(c.req.agent)
                 || (row.workspace.Some? && row.workspace.value in c.req.workspaceIds)
  {
  }

  /** A reverted ProvisionWorkspace row is lost to every other agent and to the
      new-workspace bucket. */
  lemma RevertedProvisionIsStranded(q: Queue, c: ClaimCall, id: CommandId, other: Request)
    requires Eligible(q.rows, id, c.req) && Urgency(q.rows[id], c.req) == Some(1)
    requires other.agent != c.req.agent
    ensures !Eligible(Revert(Stamp(q, id, c), id).rows, id, other)
    ensures id !in Candidates(Revert(Stamp(q, id, c), id).rows, NewWorkspace, c.req)
  {
  }
}
