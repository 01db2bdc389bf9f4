/** Paths of the protocol, and the states that its runs reach. */
module Paths {
  import opened Prelude
  import opened Protocol
  import opened Invariant
  import Runs

  ghost predicate IsPath(path: seq<State>) {
    |path| > 0 && forall i :: 0 <= i < |path| - 1 ==> Follows(path, i)
  }

  ghost predicate Reached(s: State, t: State) {
    exists path: seq<State> :: IsPath(path) && path[0] == s && path[|path| - 1] == t
  }

  lemma ReachedItself(s: State)
    ensures Reached(s, s)
  {
    assert IsPath([s]) && [s][0] == s;
  }

  lemma ReachedNext(s: State, t: State)
    requires Next(s, t)
    ensures Reached(s, t)
  {
    var path := [s, t];
    assert IsPath(path) && path[0] == s && path[|path| - 1] == t;
  }

  lemma ReachedTransitive(s: State, t: State, u: State)
    requires Reached(s, t) && Reached(t, u)
    ensures Reached(s, u)
  {
    var a: seq<State> :| IsPath(a) && a[0] == s && a[|a| - 1] == t;
    var b: seq<State> :| IsPath(b) && b[0] == t && b[|b| - 1] == u;
    var c := a + b[1..];
    forall i | 0 <= i < |c| - 1 ensures Follows(c, i) {
      if i < |a| - 1 {
        assert Follows(a, i);
      } else {
        var j := i - (|a| - 1);
        assert Follows(b, j);
      }
    }
    assert IsPath(c) && c[0] == s && c[|c| - 1] == u;
  }

  ghost predicate Reachable(s: State) {
    exists states: seq<State> :: IsRun(states) && states[|states| - 1] == s
  }

  lemma ReachableKeepsInv(s: State)
    requires Reachable(s)
    ensures Inv(s)
  {
    var states: seq<State> :| IsRun(states) && states[|states| - 1] == s;
    Runs.RunKeepsInv(states, |states| - 1);
  }

  lemma ReachedIsReachable(s: State, t: State)
    requires Reachable(s) && Reached(s, t)
    ensures Reachable(t)
  {
    var a: seq<State> :| IsRun(a) && a[|a| - 1] == s;
    var b: seq<State> :| IsPath(b) && b[0] == s && b[|b| - 1] == t;
    var c := a + b[1..];
    forall i | 0 <= i < |c| - 1 ensures Follows(c, i) {
      if i < |a| - 1 {
        assert Follows(a, i);
      } else {
        var j := i - (|a| - 1);
        assert Follows(b, j);
      }
    }
    assert IsRun(c) && c[|c| - 1] == t;
  }

  lemma StepReaches(r: State, s: State, p: Pid, l: Label)
    requires Reachable(s) && Reached(r, s) && Enabled(s, p, l)
    ensures Reached(r, After(s, p, l)) && Reachable(After(s, p, l))
  {
    assert Next(s, After(s, p, l));
    ReachedNext(s, After(s, p, l));
    ReachedTransitive(r, s, After(s, p, l));
    ReachedIsReachable(s, After(s, p, l));
  }
}
