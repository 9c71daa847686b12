/** `Put` together with the trace that it records: the step system of the replicated store, run
    side by side with the recorder, and the verdict of the monitor at the end of each `Put`. */
module Worlds {
  import opened Replicas
  import opened Clusters
  import opened Monitors
  import opened Recorders

  /** `crashed`: the check of the trace failed, and failing it panics. */
  datatype World = World(cluster: Cluster, rec: Recorder, crashed: bool)

  /** What `Put` records during one step. */
  function MarksOf(c: Cluster, ch: Choice): seq<Mark>
    requires Wf(c)
  {
    match c.phase
    case Proposing(pid) => [SendsPropose(pid)] + if ProposeAcked(c, ch) then [GotPropose(pid)] else []
    case Committing(pid) => [SendsCommit(pid)] + if CommitAcked(c, ch) then [GotCommit(pid)] else []
    case _ => []
  }

  predicate JustCompleted(c: Cluster, c': Cluster) {
    c.phase != Idle && c'.phase == Idle && c'.reply == Completed
  }

  /** A completed `Put` checks the whole buffered trace and, if that is accepted, resets it. */
  function Verdict(c: Cluster, w: World): World {
    if !JustCompleted(c, w.cluster) then w
    else if Accepted(w.rec.log) then w.(rec := w.rec.(log := []))
    else w.(crashed := true)
  }

  function Launch(w: World, entry: Proposal): World {
    w.(cluster := Begin(w.cluster, entry), rec := Record(w.rec, Mark.Start))
  }

  function Step(w: World, ch: Choice): (w': World)
    requires Wf(w.cluster)
    ensures Wf(w'.cluster) && |w'.cluster.followers| == |w.cluster.followers|
  {
    Verdict(w.cluster,
      w.(cluster := Advance(w.cluster, ch), rec := RecordAll(w.rec, MarksOf(w.cluster, ch))))
  }

  function StepAll(w: World, choices: seq<Choice>): (w': World)
    requires Wf(w.cluster)
    ensures Wf(w'.cluster) && |w'.cluster.followers| == |w.cluster.followers|
  {
    if choices == [] then w
    else Step(StepAll(w, choices[..|choices| - 1]), choices[|choices| - 1])
  }

  /** A crashed coordinator takes no further calls. */
  function Act(w: World, action: Action): (w': World)
    requires Wf(w.cluster)
    ensures Wf(w'.cluster) && |w'.cluster.followers| == |w.cluster.followers|
  {
    match action
    case Call(entry) => if w.cluster.phase == Idle && !w.crashed then Launch(w, entry) else w
    case Env(ch) => Step(w, ch)
  }

  /** A whole run. */
  function Play(w: World, actions: seq<Action>): (w': World)
    requires Wf(w.cluster)
    ensures Wf(w'.cluster) && |w'.cluster.followers| == |w.cluster.followers|
  {
    if actions == [] then w else Act(Play(w, actions[..|actions| - 1]), actions[|actions| - 1])
  }

  lemma IdleStep(w: World, ch: Choice)
    requires Wf(w.cluster) && w.cluster.phase == Idle
    ensures Step(w, ch) == w
  {
    hide Accepted;
  }

  function Envs(choices: seq<Choice>): seq<Action> {
    if choices == [] then [] else Envs(choices[..|choices| - 1]) + [Env(choices[|choices| - 1])]
  }

  /** One whole `Put` is a part of a run. */
  lemma {:induction false} PutIsPlay(w: World, past: seq<Action>, entry: Proposal, choices: seq<Choice>)
    requires Wf(w.cluster) && Play(w, past).cluster.phase == Idle && !Play(w, past).crashed
    ensures Play(w, past + [Call(entry)] + Envs(choices)) == StepAll(Launch(Play(w, past), entry), choices)
  {
    hide Step, Launch;
    var called := past + [Call(entry)];
    if choices == [] {
      assert called[..|past|] == past;
      assert called + Envs(choices) == called;
    } else {
      var k := |choices| - 1;
      PutIsPlay(w, past, entry, choices[..k]);
      var all := called + Envs(choices);
      assert all[..|all| - 1] == called + Envs(choices[..k]) && all[|all| - 1] == Env(choices[k]);
    }
  }

  // ---- the invariant that ties the trace to the phase ----

  /** `p` followers prepared, `q` committed. */
  predicate TraceAt(w: World, p: nat, q: nat) {
    && Current(w.rec)
    && GsAt(w.rec.gs, p, q, if q == 0 then "none" else "commit")
  }

  predicate TraceOk(w: World)
    requires Wf(w.cluster)
  {
    var n := |w.cluster.followers|;
    && NothingCached(w.cluster)
    && (n == 2 ==> Accepted(w.rec.log) && !w.crashed)
    && match w.cluster.phase
       case Idle => true
       case Proposing(pid) => TraceAt(w, pid, 0) && (pid > 2 ==> !Accepted(w.rec.log))
       case Committing(pid) => TraceAt(w, n, pid) && (n > 2 ==> !Accepted(w.rec.log))
       case _ => TraceAt(w, n, 0) && (n > 2 ==> !Accepted(w.rec.log))
  }

  lemma {:induction false} LaunchKeepsTrace(w: World, entry: Proposal)
    requires Wf(w.cluster) && TraceOk(w) && w.cluster.phase == Idle
    ensures TraceOk(Launch(w, entry))
  {
    hide Accepted;
    StartAccepted(w.rec);
  }

  lemma {:induction false} ProposePhases(c: Cluster, ch: Choice)
    requires Wf(c) && c.phase.Proposing?
    ensures
      var pid := c.phase.pid;
      Advance(c, ch).phase ==
        if !ProposeAcked(c, ch) then c.phase
        else if pid + 1 < |c.followers| then Proposing(pid + 1) else Precommitting(0)
  {
  }

  /** One attempt of the propose loop, on the recorder alone. */
  lemma {:induction false} ProposeRound(rec: Recorder, pid: nat, acked: bool)
    requires Current(rec) && GsAt(rec.gs, pid, 0, "none")
    requires pid > 2 ==> !Accepted(rec.log)
    ensures
      var rec' := RecordAll(rec, [SendsPropose(pid)] + if acked then [GotPropose(pid)] else []);
      && (Accepted(rec'.log) <==> Accepted(rec.log) && pid < 2)
      && Current(rec') && GsAt(rec'.gs, if acked then pid + 1 else pid, 0, "none")
  {
    hide Accepted, GsAt, Current, RecordProposes, RecordPrepared;
    var sent := RecordProposes(rec, Party(pid));
    PartiesOfTwo();
    ProposesAccepted(rec, pid, Party(pid));
    PreparedAccepted(sent, pid);
    RecordTwo(rec, SendsPropose(pid), GotPropose(pid));
    assert [SendsPropose(pid)] + [GotPropose(pid)] == [SendsPropose(pid), GotPropose(pid)];
    assert [SendsPropose(pid)] + [] == [SendsPropose(pid)];
  }

  /** Proposing: the third follower breaks the trace. */
  lemma {:induction false} ProposeTrace(w: World, ch: Choice)
    requires Wf(w.cluster) && TraceOk(w) && w.cluster.phase.Proposing?
    ensures TraceOk(Step(w, ch))
  {
    hide Accepted, ProposeAcked, Advance, RecordAll;
    ProposePhases(w.cluster, ch);
    ProposeRound(w.rec, w.cluster.phase.pid, ProposeAcked(w.cluster, ch));
  }

  lemma EmptyAccepted()
    ensures Accepted([])
  {
  }

  lemma {:induction false} CommitPhases(c: Cluster, ch: Choice)
    requires Wf(c) && c.phase.Committing?
    ensures
      var c', pid := Advance(c, ch), c.phase.pid;
      if CommitAcked(c, ch) then
        if pid + 1 < |c.followers| then c'.phase == Committing(pid + 1)
        else c'.phase == Idle && c'.reply == Completed
      else c'.phase == Idle && c'.reply != Completed
  {
  }

  /** One round of the commit loop, on the recorder alone. */
  lemma {:induction false} CommitRound(rec: Recorder, n: nat, pid: nat, acked: bool)
    requires pid < n && Current(rec) && GsAt(rec.gs, n, pid, if pid == 0 then "none" else "commit")
    requires n == 2 ==> Accepted(rec.log)
    requires n > 2 ==> !Accepted(rec.log)
    ensures
      var rec' := RecordAll(rec, [SendsCommit(pid)] + if acked then [GotCommit(pid)] else []);
      && (Accepted(rec'.log) <==> n == 2)
      && Current(rec') && GsAt(rec'.gs, n, if acked then pid + 1 else pid, "commit")
  {
    hide Accepted, GsAt, Current, RecordCommits, RecordCommitted;
    var sent := RecordCommits(rec, Party(pid));
    PartiesOfTwo();
    CommitsAccepted(rec, n, pid, if pid == 0 then "none" else "commit", Party(pid));
    CommittedAccepted(sent, n, pid);
    RecordTwo(rec, SendsCommit(pid), GotCommit(pid));
    assert [SendsCommit(pid)] + [GotCommit(pid)] == [SendsCommit(pid), GotCommit(pid)];
    assert [SendsCommit(pid)] + [] == [SendsCommit(pid)];
  }

  /** Committing: the trace of a coordinator with one follower breaks at the first commit. */
  lemma {:induction false} CommitTrace(w: World, ch: Choice)
    requires Wf(w.cluster) && TraceOk(w) && w.cluster.phase.Committing?
    ensures TraceOk(Step(w, ch))
    ensures JustCompleted(w.cluster, Step(w, ch).cluster) ==>
      (Step(w, ch).crashed <==> w.crashed || |w.cluster.followers| != 2)
  {
    hide Accepted, CommitAcked, Advance, RecordAll;
    CommitPhases(w.cluster, ch);
    CommitRound(w.rec, |w.cluster.followers|, w.cluster.phase.pid, CommitAcked(w.cluster, ch));
    EmptyAccepted();
  }

  lemma {:induction false} StepKeepsTrace(w: World, ch: Choice)
    requires Wf(w.cluster) && TraceOk(w)
    ensures TraceOk(Step(w, ch))
    ensures JustCompleted(w.cluster, Step(w, ch).cluster) ==>
      (Step(w, ch).crashed <==> w.crashed || |w.cluster.followers| != 2)
  {
    hide Accepted;
    match w.cluster.phase
    case Proposing(_) => ProposeTrace(w, ch);
    case Committing(_) => CommitTrace(w, ch);
    case _ => assert MarksOf(w.cluster, ch) == [];
  }

  predicate FreshWorld(w: World) {
    w.cluster.phase == Idle && w.rec.log == [] && !w.crashed && NothingCached(w.cluster)
  }

  lemma {:induction false} PlayKeepsTrace(w: World, actions: seq<Action>)
    requires FreshWorld(w)
    ensures TraceOk(Play(w, actions))
  {
    hide Accepted;
    if actions == [] {
      EmptyAccepted();
    } else {
      var before := Play(w, actions[..|actions| - 1]);
      PlayKeepsTrace(w, actions[..|actions| - 1]);
      match actions[|actions| - 1]
      case Call(entry) =>
        if before.cluster.phase == Idle && !before.crashed { LaunchKeepsTrace(before, entry); }
      case Env(ch) => StepKeepsTrace(before, ch);
    }
  }

  /** No false alarm: with exactly two followers, whatever `Put`s succeed or fail, and wherever
      they fail, the buffered trace is acceptable at every point, so that no check ever panics. */
  lemma NoFalseAlarm(w: World, actions: seq<Action>)
    requires FreshWorld(w) && |w.cluster.followers| == 2
    ensures Accepted(Play(w, actions).rec.log) && !Play(w, actions).crashed
  {
    hide Accepted;
    PlayKeepsTrace(w, actions);
  }

  /** The monitor fits two followers exactly: when a `Put` completes, its check passes if and only
      if there are two followers. */
  lemma ExactFit(w: World, actions: seq<Action>, ch: Choice)
    requires FreshWorld(w)
    requires JustCompleted(Play(w, actions).cluster, Step(Play(w, actions), ch).cluster)
    ensures Step(Play(w, actions), ch).crashed <==> |w.cluster.followers| != 2
  {
    hide Accepted;
    PlayKeepsTrace(w, actions);
    CrashIsFinal(w, actions);
    StepKeepsTrace(Play(w, actions), ch);
  }

  /** A crashed coordinator is idle. */
  lemma {:induction false} CrashIsFinal(w: World, actions: seq<Action>)
    requires FreshWorld(w)
    ensures Play(w, actions).crashed ==> Play(w, actions).cluster.phase == Idle
  {
    hide Accepted;
    if actions != [] {
      CrashIsFinal(w, actions[..|actions| - 1]);
    }
  }

  /** The recorder does not influence the store: a run of the world is, up to a crash, a run of
      the replicated store. */
  lemma {:induction false} PlayIsRun(w: World, actions: seq<Action>)
    requires Wf(w.cluster) && !Play(w, actions).crashed
    ensures Play(w, actions).cluster == Run(w.cluster, actions)
  {
    hide Accepted;
    if actions != [] {
      PlayIsRun(w, actions[..|actions| - 1]);
    }
  }
}
