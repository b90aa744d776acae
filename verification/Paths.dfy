// Paths of a state machine, given as a relation between a state, an action and the state
// after it.

module Paths {

  ghost predicate IsPath<S(!new), A>(step: (S, A, S) -> bool, states: seq<S>, actions: seq<A>) {
    && |states| == |actions| + 1
    && forall i :: 0 <= i < |actions| ==> step(states[i], actions[i], states[i + 1])
  }

  /** `actions` lead from `s` to `t`. */
  ghost predicate Leads<S(!new), A>(step: (S, A, S) -> bool, s: S, actions: seq<A>, t: S) {
    exists states :: IsPath(step, states, actions) && states[0] == s && states[|actions|] == t
  }

  lemma LeadsNowhere<S(!new), A>(step: (S, A, S) -> bool, s: S)
    ensures Leads(step, s, [], s)
  {
    assert IsPath(step, [s], []);
  }

  lemma LeadsFar<S(!new), A>(step: (S, A, S) -> bool, s: S, a: seq<A>, t: S, b: seq<A>, u: S)
    requires Leads(step, s, a, t) && Leads(step, t, b, u)
    ensures Leads(step, s, a + b, u)
  {
    var front :| IsPath(step, front, a) && front[0] == s && front[|a|] == t;
    var back :| IsPath(step, back, b) && back[0] == t && back[|b|] == u;
    var states := front + back[1..];
    forall i | 0 <= i < |a + b|
      ensures step(states[i], (a + b)[i], states[i + 1])
    {
      if i >= |a| {
        assert states[i] == back[i - |a|] && states[i + 1] == back[i - |a| + 1];
      }
    }
    assert IsPath(step, states, a + b);
  }

  lemma LeadsOn<S(!new), A>(step: (S, A, S) -> bool, s: S, actions: seq<A>, t: S, a: A, u: S)
    requires Leads(step, s, actions, t) && step(t, a, u)
    ensures Leads(step, s, actions + [a], u)
  {
    assert IsPath(step, [t, u], [a]);
    assert [t, u][0] == t && [t, u][|[a]|] == u;
    LeadsFar(step, s, actions, t, [a], u);
  }
}
