/** Runs put end to end, and reachable states. */
module MembershipRuns {
  import opened Membership

  lemma {:induction false} RunsSplit(s: Sys, es: seq<Event>, more: seq<Event>)
    requires Runs(s, es) && Runs(Outcome(s, es), more)
    ensures Runs(s, es + more) && Outcome(s, es + more) == Outcome(Outcome(s, es), more)
    decreases |es|
  {
    if es == [] {
      assert es + more == more;
    } else {
      assert (es + more)[0] == es[0] && (es + more)[1..] == es[1..] + more;
      RunsSplit(Step(s, es[0]), es[1..], more);
    }
  }

  /** Some run from the empty room ends in s. */
  ghost predicate Reachable(s: Sys) {
    exists es :: Runs(Init(s.limit), es) && Outcome(Init(s.limit), es) == s
  }

  lemma InitReachable(limit: nat)
    ensures Reachable(Init(limit))
  {
    assert Runs(Init(limit), []) && Outcome(Init(limit), []) == Init(limit);
  }

  lemma Extend(s: Sys, e: Event)
    requires Reachable(s) && Enabled(s, e)
    ensures Reachable(Step(s, e)) && Step(s, e).limit == s.limit
  {
    var es :| Runs(Init(s.limit), es) && Outcome(Init(s.limit), es) == s;
    assert [e][1..] == [];
    var s' := Step(s, e);
    assert Runs(s', []) && Outcome(s', []) == s';
    assert Runs(s, [e]) && Outcome(s, [e]) == s';
    RunsSplit(Init(s.limit), es, [e]);
  }
}
