/** The followers of the step system are nodes that serve what reaches them. */
module NodeRefinement {
  import opened Replicas
  import opened Clusters
  import opened Nodes

  /** What one step brings to follower `i`: nothing if the request is lost before its effect. */
  function Brings(c: Cluster, i: nat, ch: Choice): seq<Request> {
    if ch.delivery == Dropped then []
    else
      match c.phase
      case Proposing(pid) => if pid == i then [Propose(c.coordinator.height, c.entry, ch.hook)] else []
      case Precommitting(pid) => if pid == i then [Precommit(c.coordinator.height)] else []
      case Committing(pid) => if pid == i then [Commit(c.coordinator.height, ch.hook, ch.dbOk)] else []
      case _ => []
  }

  /** The requests that reach follower `i` during a run. */
  function Reaches(c: Cluster, actions: seq<Action>, i: nat): seq<Request>
    requires Wf(c)
  {
    if actions == [] then []
    else
      var n := |actions| - 1;
      Reaches(c, actions[..n], i) +
      if actions[n].Env? then Brings(Run(c, actions[..n]), i, actions[n].choice) else []
  }

  lemma {:induction false} StepServes(c: Cluster, i: nat, ch: Choice, node: Node)
    requires Wf(c) && i < |c.followers| && node.replica == c.followers[i]
    ensures ServeAll(TwoPhase, node, Brings(c, i, ch)).0.replica == Advance(c, ch).followers[i]
  {
    var reqs := Brings(c, i, ch);
    if reqs != [] {
      assert reqs[..0] == [];
    }
  }

  lemma {:induction false} ServeAllAppend(mode: Mode, node: Node, a: seq<Request>, b: seq<Request>)
    ensures ServeAll(mode, node, a + b).0 == ServeAll(mode, ServeAll(mode, node, a).0, b).0
  {
    if b == [] {
      assert a + b == a;
    } else {
      var k := |b| - 1;
      ServeAllAppend(mode, node, a, b[..k]);
      assert (a + b)[..|a| + k] == a + b[..k];
    }
  }

  /** At every point of every run, each follower is what a node becomes that serves, in order, the
      requests that reached it, lost answers included. */
  lemma {:induction false} FollowersServe(c: Cluster, actions: seq<Action>, i: nat)
    requires Wf(c) && i < |c.followers|
    ensures
      ServeAll(TwoPhase, Node(c.followers[i], map[]), Reaches(c, actions, i)).0.replica == Run(c, actions).followers[i]
  {
    if actions != [] {
      var n := |actions| - 1;
      var node, before, now := Node(c.followers[i], map[]), Reaches(c, actions[..n], i), Run(c, actions[..n]);
      FollowersServe(c, actions[..n], i);
      match actions[n]
      case Call(_) => assert Reaches(c, actions, i) == before;
      case Env(ch) =>
        ServeAllAppend(TwoPhase, node, before, Brings(now, i, ch));
        StepServes(now, i, ch, ServeAll(TwoPhase, node, before).0);
    }
  }

  /** The same holds of followers in three-phase mode, whenever their timers go off. */
  lemma FollowersServeThreePhase(c: Cluster, actions: seq<Action>, i: nat, reqs: seq<Request>)
    requires Wf(c) && i < |c.followers| && WithoutTimers(reqs) == Reaches(c, actions, i)
    ensures ServeAll(ThreePhase, Node(c.followers[i], map[]), reqs).0.replica == Run(c, actions).followers[i]
  {
    FollowersServe(c, actions, i);
    ModeEquivalence(Node(c.followers[i], map[]), reqs);
  }
}
