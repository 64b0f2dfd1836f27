/** Continuations: where a run of the protocol may go on to. */
module Reach {
  import opened Protocol

  /** A run may be continued from s to s'. */
  ghost predicate Reaches(s: State, s': State) {
    exists states, acts :: Steps(states, acts) && states[0] == s && states[|acts|] == s'
  }

  lemma ReachesSelf(s: State)
    ensures Reaches(s, s)
  {
    var states, acts: seq<Action> := [s], [];
    assert Steps(states, acts) && states[0] == s && states[|acts|] == s;
  }

  lemma ReachesNext(s: State, mid: State, a: Action, s': State)
    requires Reaches(s, mid) && Next(mid, a, s')
    ensures Reaches(s, s')
  {
    var states, acts :| Steps(states, acts) && states[0] == s && states[|acts|] == mid;
    var states', acts' := states + [s'], acts + [a];
    forall i | 0 <= i < |acts'| ensures Next(states'[i], acts'[i], states'[i + 1]) {
      assert i < |acts| ==> states'[i] == states[i] && states'[i + 1] == states[i + 1] && acts'[i] == acts[i];
    }
    assert Steps(states', acts') && states'[0] == s && states'[|acts'|] == s';
  }

  /** One operation of a client. */
  function After(s: State, c: nat, op: Op): State
    requires c in s.clients && Enabled(s, s.clients[c], op)
  {
    Apply(s, c, Plan(s, s.clients[c], op))
  }

  lemma Takes(s: State, mid: State, c: nat, op: Op) returns (s': State)
    requires Reaches(s, mid) && c in mid.clients && Enabled(mid, mid.clients[c], op)
    ensures s' == After(mid, c, op) && Reaches(s, s')
  {
    s' := After(mid, c, op);
    ReachesNext(s, mid, Turn(c, op), s');
  }

  lemma ReachesTrans(s: State, mid: State, s': State)
    requires Reaches(s, mid) && Reaches(mid, s')
    ensures Reaches(s, s')
  {
    var states, acts :| Steps(states, acts) && states[0] == mid && states[|acts|] == s';
    ReachesAlong(s, states, acts, |acts|);
  }

  lemma {:induction false} ReachesAlong(s: State, states: seq<State>, acts: seq<Action>, n: nat)
    requires Steps(states, acts) && n < |states| && Reaches(s, states[0])
    ensures Reaches(s, states[n])
  {
    if n == 0 {
    } else {
      ReachesAlong(s, states, acts, n - 1);
      ReachesNext(s, states[n - 1], acts[n - 1], states[n]);
    }
  }
}
