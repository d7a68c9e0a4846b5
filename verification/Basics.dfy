/** Types shared by the control-plane and the agent modules. */
module Basics {

  datatype Option<+T> = None | Some(value: T)

  type AgentId = nat
  type CommandId = nat
  type WorkspaceId = nat
  type RunId = nat

  /** Seconds on the control plane's clock. */
  type Time = int

  /** The backend's drain lifecycle; the agent's own copy never reaches `Shutdown`. */
  datatype Lifecycle = Unconfigured | Active | Draining | Shutdown

  ghost predicate IsLeast(m: nat, s: set<nat>) {
    m in s && forall x :: x in s ==> m <= x
  }

  ghost predicate IsGreatest(m: nat, s: set<nat>) {
    m in s && forall x :: x in s ==> x <= m
  }

  /** The least element of a non-empty set of ids: what `ORDER BY id LIMIT 1` returns. */
  function Least(s: set<nat>): (m: nat)
    requires s != {}
    ensures IsLeast(m, s)
  {
    LeastExists(s);
    var m :| m in s && forall x :: x in s ==> m <= x;
    m
  }

  lemma {:induction false} LeastExists(s: set<nat>)
    requires s != {}
    ensures exists m :: IsLeast(m, s)
  {
    var y :| y in s;
    var rest := s - {y};
    assert s == rest + {y};
    if rest == {} {
      assert IsLeast(y, s);
    } else {
      LeastExists(rest);
      var m :| IsLeast(m, rest);
      assert IsLeast(if m <= y then m else y, s);
    }
  }

  lemma {:induction false} GreatestExists(s: set<nat>)
    requires s != {}
    ensures exists m :: IsGreatest(m, s)
  {
    var y :| y in s;
    var rest := s - {y};
    assert s == rest + {y};
    if rest == {} {
      assert IsGreatest(y, s);
    } else {
      GreatestExists(rest);
      var m :| IsGreatest(m, rest);
      assert IsGreatest(if m <= y then y else m, s);
    }
  }
}
