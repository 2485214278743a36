/** Where the step machine of the job queue can get to by steps of a given kind. */
module Continuation {
  import opened WorkerProtocol

  /** Which steps are allowed. */
  type Rule = (State, Action) -> bool

  ghost predicate Obeys(ss: seq<State>, acts: seq<Action>, rule: Rule)
    requires |ss| == |acts| + 1
  {
    forall k :: 0 <= k < |acts| ==> rule(ss[k], acts[k])
  }

  /** Allowed steps lead from `s` to `t`. */
  ghost predicate LeadsBy(s: State, t: State, rule: Rule) {
    exists ss: seq<State>, acts: seq<Action> ::
      Steps(ss, acts) && ss[0] == s && ss[|ss| - 1] == t && Obeys(ss, acts, rule)
  }

  lemma LeadsNowhere(s: State, rule: Rule)
    ensures LeadsBy(s, s, rule)
  {
    hide Enabled, Next;
    assert Steps([s], []) && [s][0] == s && Obeys([s], [], rule);
  }

  lemma LeadsElim(s: State, t: State, rule: Rule) returns (ss: seq<State>, acts: seq<Action>)
    requires LeadsBy(s, t, rule)
    ensures Steps(ss, acts) && ss[0] == s && ss[|ss| - 1] == t && Obeys(ss, acts, rule)
  {
    hide Enabled, Next;
    ss, acts :| Steps(ss, acts) && ss[0] == s && ss[|ss| - 1] == t && Obeys(ss, acts, rule);
  }

  lemma LeadsOn(s: State, t: State, rule: Rule, a: Action) returns (u: State)
    requires LeadsBy(s, t, rule) && Enabled(t, a) && rule(t, a)
    ensures u == Next(t, a) && LeadsBy(s, u, rule)
  {
    hide Enabled, Next;
    u := Next(t, a);
    var ss, acts := LeadsElim(s, t, rule);
    var ss', acts' := ss + [u], acts + [a];
    forall k | 0 <= k < |acts'|
      ensures Enabled(ss'[k], acts'[k]) && ss'[k + 1] == Next(ss'[k], acts'[k]) && rule(ss'[k], acts'[k])
    {
      if k < |acts| {
        assert Enabled(ss[k], acts[k]) && ss[k + 1] == Next(ss[k], acts[k]) && rule(ss[k], acts[k]);
      }
    }
    assert Steps(ss', acts') && ss'[0] == s && ss'[|ss'| - 1] == u && Obeys(ss', acts', rule);
  }

  lemma LeadsThrough(s: State, t: State, u: State, rule: Rule)
    requires LeadsBy(s, t, rule) && LeadsBy(t, u, rule)
    ensures LeadsBy(s, u, rule)
  {
    hide Enabled, Next, LeadsBy;
    var ss, acts := LeadsElim(t, u, rule);
    var i := 0;
    while i < |acts|
      invariant i <= |acts| && LeadsBy(s, ss[i], rule)
    {
      assert Enabled(ss[i], acts[i]) && ss[i + 1] == Next(ss[i], acts[i]) && rule(ss[i], acts[i]);
      var _ := LeadsOn(s, ss[i], rule, acts[i]);
      i := i + 1;
    }
  }

  /** What fewer steps reach, more steps reach. */
  lemma LeadsWeaker(s: State, t: State, rule: Rule, weaker: Rule)
    requires LeadsBy(s, t, rule)
    requires forall u, a :: rule(u, a) ==> weaker(u, a)
    ensures LeadsBy(s, t, weaker)
  {
    hide Enabled, Next;
    var ss, acts := LeadsElim(s, t, rule);
    assert Obeys(ss, acts, weaker);
  }
}
