/** A node serving requests in two- or three-phase mode. */
module Nodes {
  import opened Replicas

  datatype Mode = TwoPhase | ThreePhase

  /** The metadata of the context a `Commit` runs in. The three-phase timer attaches its "mode"
      to the outgoing side, so that its own `Commit` finds no incoming metadata. */
  datatype Metadata = NoIncoming | Incoming(mode: seq<string>)

  /** A node with its flags `cancelCommitOnHeight`. */
  datatype Node = Node(replica: Replica, progress: map<nat, bool>)

  function ServePropose(node: Node, index: nat, p: Proposal, hook: bool): (Node, Outcome) {
    (Node(AfterPropose(node.replica, index, p, hook), node.progress[index := false]),
     Outcome(Some(ProposeReply(node.replica, index, hook)), false))
  }

  function ServePrecommit(node: Node): (Node, Outcome) {
    (node, Outcome(Some(Response(Ack, 0)), false))
  }

  function ServeCommit(
      mode: Mode, node: Node, meta: Metadata, index: nat, isRollback: bool, hook: bool, dbOk: bool): (Node, Outcome)
  {
    var r := node.replica;
    var outcome := CommitOutcome(r, index, hook, dbOk);
    match mode
    case TwoPhase => (node.(replica := AfterCommit(r, index, hook, dbOk)), outcome)
    case ThreePhase =>
      match meta
      case NoIncoming => (node, Outcome(None, true))
      case Incoming(modes) =>
        if modes == [] then
          (Node(AfterCommit(r, index, hook, dbOk), node.progress[r.height := true]),
           if outcome.err then Outcome(None, true) else outcome)
        else if isRollback then (node.(replica := r.(cache := r.cache - {r.height})), Outcome(None, false))
        else (node, Outcome(None, false))
  }

  predicate HasProgress(node: Node, index: nat) {
    index in node.progress && node.progress[index]
  }

  /** The timer that `Precommit(index)` started goes off. */
  function FireTimer(mode: Mode, node: Node, index: nat, hook: bool, dbOk: bool): Node {
    if mode == TwoPhase || HasProgress(node, index) then node
    else ServeCommit(mode, node, NoIncoming, node.replica.height, false, hook, dbOk).0
  }

  /** What reaches a node: requests of the coordinator, and the timers of earlier `Precommit`s.
      Every request carries what the hook and the database will answer. */
  datatype Request =
    | Propose(index: nat, p: Proposal, hook: bool)
    | Precommit(index: nat)
    | Commit(index: nat, hook: bool, dbOk: bool)
    | Timer(index: nat, hook: bool, dbOk: bool)

  /** The node after a request, and the answer the caller of an RPC sees. */
  function Serve(mode: Mode, node: Node, req: Request): (Node, seq<Outcome>) {
    match req
    case Propose(index, p, hook) =>
      var (node', outcome) := ServePropose(node, index, p, hook);
      (node', [Wire(outcome)])
    case Precommit(index) =>
      var (node', outcome) := ServePrecommit(node);
      (node', [Wire(outcome)])
    case Commit(index, hook, dbOk) =>
      var (node', outcome) := ServeCommit(mode, node, Incoming([]), index, false, hook, dbOk);
      (node', [Wire(outcome)])
    case Timer(index, hook, dbOk) => (FireTimer(mode, node, index, hook, dbOk), [])
  }

  function ServeAll(mode: Mode, node: Node, reqs: seq<Request>): (Node, seq<Outcome>) {
    if reqs == [] then (node, [])
    else
      var (before, answers) := ServeAll(mode, node, reqs[..|reqs| - 1]);
      var (after, answer) := Serve(mode, before, reqs[|reqs| - 1]);
      (after, answers + answer)
  }

  function WithoutTimers(reqs: seq<Request>): seq<Request> {
    if reqs == [] then []
    else WithoutTimers(reqs[..|reqs| - 1]) + if reqs[|reqs| - 1].Timer? then [] else [reqs[|reqs| - 1]]
  }

  /** The mode makes no difference: a three-phase node, whenever its timers go off, answers as a
      two-phase node that has no timers, and keeps the same height, cache, store and writes. */
  lemma {:induction false} ModeEquivalence(node: Node, reqs: seq<Request>)
    ensures
      var (three, answers3) := ServeAll(ThreePhase, node, reqs);
      var (two, answers2) := ServeAll(TwoPhase, node, WithoutTimers(reqs));
      three.replica == two.replica && answers3 == answers2
  {
    if reqs != [] {
      var n := |reqs| - 1;
      ModeEquivalence(node, reqs[..n]);
      var rest := WithoutTimers(reqs[..n]);
      if reqs[n].Timer? {
        assert WithoutTimers(reqs) == rest;
      } else {
        assert WithoutTimers(reqs)[..|rest|] == rest;
      }
    }
  }

  // ---- what commits do ----

  /** The proposal that index `i` stands for: the latest accepted by the hook, unless a rejected
      commit deleted it. */
  function Latest(start: Replica, reqs: seq<Request>, i: nat): Option<Proposal> {
    if reqs == [] then
      if i in start.cache then Some(start.cache[i]) else None
    else
      var earlier := Latest(start, reqs[..|reqs| - 1], i);
      match reqs[|reqs| - 1]
      case Propose(j, p, hook) => if j == i && hook then Some(p) else earlier
      case Commit(j, hook, dbOk) => if j == i && !hook then None else earlier
      case _ => earlier
  }

  /** The proposals that commits made permanent, in order. */
  function Acknowledged(start: Replica, reqs: seq<Request>): seq<Proposal> {
    if reqs == [] then []
    else
      var n := |reqs| - 1;
      Acknowledged(start, reqs[..n]) +
      if reqs[n].Commit? && reqs[n].hook && reqs[n].dbOk && Latest(start, reqs[..n], reqs[n].index).Some?
      then [Latest(start, reqs[..n], reqs[n].index).value]
      else []
  }

  predicate CacheIs(r: Replica, start: Replica, reqs: seq<Request>, i: nat) {
    Latest(start, reqs, i) == if i in r.cache then Some(r.cache[i]) else None
  }

  /** Over any requests, the store holds exactly the acknowledged proposals, replayed in order,
      and the height counts them. */
  lemma {:induction false} CommitSemantics(node: Node, reqs: seq<Request>)
    ensures
      var start, end := node.replica, ServeAll(TwoPhase, node, reqs).0.replica;
      var done := Acknowledged(start, reqs);
      && end.store == Replay(start.store, done)
      && end.height == start.height + |done|
      && end.writes == start.writes + done
      && forall i :: CacheIs(end, start, reqs, i)
  {
    if reqs != [] {
      var n := |reqs| - 1;
      var start, before := node.replica, ServeAll(TwoPhase, node, reqs[..n]).0;
      var end, done := Serve(TwoPhase, before, reqs[n]).0.replica, Acknowledged(start, reqs[..n]);
      CommitSemantics(node, reqs[..n]);
      forall i ensures CacheIs(end, start, reqs, i) {
        assert CacheIs(before.replica, start, reqs[..n], i);
      }
      if reqs[n].Commit? {
        assert CacheIs(before.replica, start, reqs[..n], reqs[n].index);
        if Commits(before.replica, reqs[n].index, reqs[n].hook, reqs[n].dbOk) {
          ReplayAppend(start.store, done, before.replica.cache[reqs[n].index]);
        } else {
          assert Acknowledged(start, reqs) == done;
        }
      } else {
        assert Acknowledged(start, reqs) == done;
      }
    }
  }

  /** The request decides anew what index `i` stands for. */
  predicate Decides(req: Request, i: nat) {
    (req.Propose? && req.index == i && req.hook) || (req.Commit? && req.index == i && !req.hook)
  }

  predicate NoneDecides(reqs: seq<Request>, i: nat, k: nat) {
    forall j :: k <= j < |reqs| ==> !Decides(reqs[j], i)
  }

  /** `Latest` is what the last deciding request says; without one, what was cached at the start. */
  lemma {:induction false} LatestMeans(start: Replica, reqs: seq<Request>, i: nat)
    ensures forall k :: 0 <= k < |reqs| && Decides(reqs[k], i) && NoneDecides(reqs, i, k + 1) ==>
      Latest(start, reqs, i) == if reqs[k].Propose? then Some(reqs[k].p) else None
    ensures NoneDecides(reqs, i, 0) ==>
      Latest(start, reqs, i) == if i in start.cache then Some(start.cache[i]) else None
  {
    if reqs != [] {
      var n := |reqs| - 1;
      LatestMeans(start, reqs[..n], i);
      assert forall k :: 0 <= k < n ==> reqs[..n][k] == reqs[k];
      forall k | 0 <= k < |reqs| && Decides(reqs[k], i) && NoneDecides(reqs, i, k + 1)
        ensures Latest(start, reqs, i) == if reqs[k].Propose? then Some(reqs[k].p) else None
      {
        if k < n {
          assert !Decides(reqs[n], i) && NoneDecides(reqs[..n], i, k + 1);
        }
      }
    }
  }

  /** The answers agree with that. A commit is acknowledged if and only if hook and database accept
      and the index stands for a proposal, which is then what the store holds. A rejecting hook
      yields a plain NACK, a missing proposal or a failing database an error. */
  lemma {:induction false} CommitAnswer(node: Node, reqs: seq<Request>, index: nat, hook: bool, dbOk: bool)
    ensures
      var start, before := node.replica, ServeAll(TwoPhase, node, reqs).0;
      var (after, outcome) := ServeCommit(TwoPhase, before, Incoming([]), index, false, hook, dbOk);
      var latest := Latest(start, reqs, index);
      && (Wire(outcome) == Outcome(Some(Response(Ack, 0)), false) <==> hook && dbOk && latest.Some?)
      && (!hook ==> Wire(outcome) == Outcome(Some(Response(Nack, 0)), false))
      && (hook && !(dbOk && latest.Some?) ==> Wire(outcome) == Outcome(None, true))
      && (hook && latest.None? ==> outcome == Outcome(Some(Response(Nack, 0)), true))
      && (hook && dbOk && latest.Some? ==>
            latest.value.key in after.replica.store && after.replica.store[latest.value.key] == latest.value.value)
      && (!(hook && dbOk && latest.Some?) ==>
            after.replica.store == before.replica.store && after.replica.height == before.replica.height)
  {
    CommitSemantics(node, reqs);
    assert CacheIs(ServeAll(TwoPhase, node, reqs).0.replica, node.replica, reqs, index);
  }

  /** A proposal is acknowledged if and only if the hook accepts and the node has not committed past
      its index, and the answer carries the larger of that index and the node's height: the initial
      height plus the acknowledged commits. */
  lemma {:induction false} ProposeAnswer(mode: Mode, node: Node, reqs: seq<Request>, i: nat, p: Proposal, hook: bool)
    ensures
      var h := node.replica.height + |Acknowledged(node.replica, WithoutTimers(reqs))|;
      var outcome := ServePropose(ServeAll(mode, node, reqs).0, i, p, hook).1;
      && !outcome.err && outcome.response.Some?
      && (outcome.response.value.typ == Ack <==> hook && h <= i)
      && outcome.response.value.index == if h > i then h else i
  {
    CommitSemantics(node, WithoutTimers(reqs));
    if mode == ThreePhase {
      ModeEquivalence(node, reqs);
    } else {
      TimersChangeNothing(node, reqs);
    }
  }

  /** In two-phase mode there are no timers to go off. */
  lemma {:induction false} TimersChangeNothing(node: Node, reqs: seq<Request>)
    ensures ServeAll(TwoPhase, node, reqs) == ServeAll(TwoPhase, node, WithoutTimers(reqs))
  {
    if reqs != [] {
      var n := |reqs| - 1;
      TimersChangeNothing(node, reqs[..n]);
      var rest := WithoutTimers(reqs[..n]);
      if reqs[n].Timer? {
        assert WithoutTimers(reqs) == rest;
        var answers := ServeAll(TwoPhase, node, reqs[..n]).1;
        assert answers + [] == answers;
      } else {
        assert WithoutTimers(reqs)[..|rest|] == rest;
      }
    }
  }

  /** A precommit is acknowledged whenever it comes, and changes nothing. */
  lemma PrecommitAnswer(mode: Mode, node: Node, reqs: seq<Request>, index: nat)
    ensures
      var (before, answers) := ServeAll(mode, node, reqs);
      ServeAll(mode, node, reqs + [Precommit(index)]) ==
        (before, answers + [Outcome(Some(Response(Ack, 0)), false)])
  {
    assert (reqs + [Precommit(index)])[..|reqs|] == reqs;
  }

  // ---- the progress flags ----

  /** Request `k` is a commit that comes while the node's height is `i`. */
  predicate CommitsAtHeight(node: Node, reqs: seq<Request>, i: nat, k: nat)
    requires k < |reqs|
  {
    reqs[k].Commit? && ServeAll(ThreePhase, node, reqs[..k]).0.replica.height == i
  }

  predicate NotProposedSince(reqs: seq<Request>, i: nat, k: nat) {
    forall j :: k <= j < |reqs| ==> !(reqs[j].Propose? && reqs[j].index == i)
  }

  /** The flag that keeps the timer from committing: it is up for `i` if and only if, of the requests
      that touch it, the last is a commit that came at height `i`, whatever index it was for. */
  lemma {:induction false} ProgressMeans(node: Node, reqs: seq<Request>, i: nat)
    ensures HasProgress(ServeAll(ThreePhase, node, reqs).0, i) <==> Raised(node, reqs, i)
  {
    hide Raised;
    if reqs == [] {
      NeverRaised(node, i);
    } else {
      var n := |reqs| - 1;
      ProgressMeans(node, reqs[..n], i);
      ProgressStep(ServeAll(ThreePhase, node, reqs[..n]).0, reqs[n], i);
      RaisedStep(node, reqs[..n], reqs[n], i);
      assert reqs == reqs[..n] + [reqs[n]];
    }
  }

  /** The last request that touches the flag raises it, or there is none and it was up before. */
  predicate Raised(node: Node, reqs: seq<Request>, i: nat) {
    || (exists k :: 0 <= k < |reqs| && CommitsAtHeight(node, reqs, i, k) && NotProposedSince(reqs, i, k))
    || (HasProgress(node, i) && NotProposedSince(reqs, i, 0))
  }

  lemma NeverRaised(node: Node, i: nat)
    ensures Raised(node, [], i) <==> HasProgress(node, i)
  {
  }

  lemma RaisedStep(node: Node, before: seq<Request>, req: Request, i: nat)
    ensures Raised(node, before + [req], i) <==>
      || (req.Commit? && ServeAll(ThreePhase, node, before).0.replica.height == i)
      || (Raised(node, before, i) && !(req.Propose? && req.index == i))
  {
    hide ServeAll, HasProgress;
    var reqs := before + [req];
    var n := |before|;
    forall k | 0 <= k <= n
      ensures NotProposedSince(reqs, i, k) <==> NotProposedSince(before, i, k) && !(req.Propose? && req.index == i)
    {
      assert reqs[n] == req && forall j :: 0 <= j < n ==> reqs[j] == before[j];
    }
    forall k | 0 <= k < n ensures CommitsAtHeight(node, reqs, i, k) == CommitsAtHeight(node, before, i, k) {
      assert reqs[..k] == before[..k];
    }
    assert reqs[..n] == before;
    assert CommitsAtHeight(node, reqs, i, n) <==>
      req.Commit? && ServeAll(ThreePhase, node, before).0.replica.height == i;
  }

  lemma ProgressStep(node: Node, req: Request, i: nat)
    ensures HasProgress(Serve(ThreePhase, node, req).0, i) <==>
      || (req.Commit? && node.replica.height == i)
      || (HasProgress(node, i) && !(req.Propose? && req.index == i))
  {
  }

  /** A three-phase commit with a mode answers nothing and commits nothing; as a rollback it forgets
      the proposal at the node's height. */
  lemma RollbackForgets(node: Node, modes: seq<string>, index: nat, isRollback: bool, hook: bool, dbOk: bool, i: nat)
    requires modes != []
    ensures
      var (after, outcome) := ServeCommit(ThreePhase, node, Incoming(modes), index, isRollback, hook, dbOk);
      var r, r' := node.replica, after.replica;
      && outcome == Outcome(None, false) && after.progress == node.progress
      && r'.height == r.height && r'.store == r.store && r'.writes == r.writes
      && (i in r'.cache <==> i in r.cache && !(isRollback && i == r.height))
      && (i in r'.cache ==> r'.cache[i] == r.cache[i])
  {
  }
}
