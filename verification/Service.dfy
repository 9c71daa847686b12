/** What a client gets from the server: the guarantees of the step system, for the objects in the heap. */
module Services {
  import opened Replicas
  import opened Clusters
  import opened Nodes
  import opened Monitors
  import opened Recorders
  import opened Worlds
  import opened ClusterSafety
  import opened Replication
  import opened PutEndings
  import opened Servers

  /** Between two calls: the servers and the monitor are where the run `past` leaves them. */
  ghost predicate Serves(s: Server, start: World, past: seq<Action>, store: Store)
    reads s, s.nodeCache, s.monitor, s.followers, s.Caches()
  {
    && s.Distinct() && FreshWorld(start) && Fresh(start.cluster, store)
    && |start.cluster.followers| == |s.followers|
    && var now := Play(start, past);
    && now.cluster.phase == Idle && !now.crashed && s.InState(now, now.rec.gs)
  }

  /** A coordinator for newly started followers, whose databases hold the same. */
  method Deploy(mode: Mode, followers: seq<Server>, db: Store, ghost store: Store)
      returns (s: Server, ghost start: World)
    requires forall i :: 0 <= i < |followers| ==> followers[i].View() == Replica(0, map[], store, [])
    requires forall i, j :: 0 <= i < j < |followers| ==>
      followers[i] != followers[j] && followers[i].nodeCache != followers[j].nodeCache
    ensures fresh(s) && s.mode == mode && s.followers == followers && s.db == db && Serves(s, start, [], store)
  {
    s := new Server(mode, followers, db);
    start := World(s.Snapshot(Idle, Proposal("", []), NoReply), Recorder(StartState, []), false);
  }

  lemma {:induction false} PutSteps(w: World, entry: Proposal, choices: seq<Choice>)
    requires Wf(w.cluster)
    ensures StepAll(Launch(w, entry), choices).cluster == AdvanceAll(Begin(w.cluster, entry), choices)
  {
    hide Advance, MarksOf, Accepted, Record, RecordAll;
    if choices != [] {
      PutSteps(w, entry, choices[..|choices| - 1]);
    }
  }

  /** A `Put` that completes without a panic has replicated. */
  lemma CompletedReplicates(
      start: World, past: seq<Action>, store: Store, entry: Proposal, choices: seq<Choice>, i: nat)
    requires FreshWorld(start) && Fresh(start.cluster, store) && i < |start.cluster.followers|
    requires Play(start, past).cluster.phase == Idle && !Play(start, past).crashed
    requires
      var done := StepAll(Launch(Play(start, past), entry), choices).cluster;
      done.phase == Idle && done.reply == Completed
    ensures
      var before := Play(start, past);
      var done := StepAll(Launch(before, entry), choices).cluster;
      && Holds(done.coordinator, entry) && Holds(done.followers[i], entry)
      && done.followers[i].height == before.cluster.followers[i].height + 1
  {
    hide Play, StepAll, Launch, AdvanceAll, Begin, Accepted;
    PlayIsRun(start, past);
    PutSteps(Play(start, past), entry, choices);
    AcknowledgedMeansReplicated(start.cluster, store, past, entry, choices, i);
  }

  /** Only with two followers does a `Put` complete without a panic. */
  lemma {:induction false} CompletedMeansTwo(start: World, past: seq<Action>, entry: Proposal, choices: seq<Choice>)
    requires FreshWorld(start)
    requires Play(start, past).cluster.phase == Idle && !Play(start, past).crashed
    requires
      var done := StepAll(Launch(Play(start, past), entry), choices);
      done.cluster.phase == Idle && done.cluster.reply == Completed && !done.crashed
    ensures |start.cluster.followers| == 2
  {
    hide Play, Accepted, MarksOf, RecordAll, Record, Advance;
    var launched := Launch(Play(start, past), entry);
    if choices != [] {
      var k := |choices| - 1;
      var last := StepAll(launched, choices[..k]);
      PutIsPlay(start, past, entry, choices[..k]);
      if last.cluster.phase == Idle {
        IdleStep(last, choices[k]);
        CompletedMeansTwo(start, past, entry, choices[..k]);
      } else {
        ExactFit(start, past + [Call(entry)] + Envs(choices[..k]), choices[k]);
      }
    }
  }

  /** If all goes well, a `Put` ends with every commit acknowledged. */
  lemma GoodEnding(start: World, past: seq<Action>, store: Store, entry: Proposal, choices: seq<Choice>)
    requires FreshWorld(start) && Fresh(start.cluster, store) && start.cluster.followers != []
    requires Play(start, past).cluster.phase == Idle && !Play(start, past).crashed && GoesWell(choices)
    ensures
      var done := StepAll(Launch(Play(start, past), entry), choices).cluster;
      && (done.phase == Idle ==> done.reply == Completed)
      && (|choices| > 4 * |start.cluster.followers| ==> done.phase == Idle)
  {
    hide Play, StepAll, Launch, AdvanceAll, Begin, Accepted, Inv;
    PlayIsRun(start, past);
    RunKeepsInv(start.cluster, store, past);
    PutSteps(Play(start, past), entry, choices);
    PutSucceeds(Play(start, past).cluster, store, entry, choices);
  }

  /** A `Put` in any state that earlier calls can leave behind. If it returns an acknowledgement,
      the coordinator and every follower hold the value, and every follower's height rose by one.
      With two followers its check never panics; with any other number it never acknowledges. If
      nothing is lost and all accept, two followers get an acknowledgement, any other positive
      number a panic. */
  method PutForClient(s: Server, key: Key, value: Value, choices: seq<Choice>,
      ghost start: World, ghost past: seq<Action>, ghost store: Store)
      returns (result: PutResult, ghost run: seq<Action>)
    requires Serves(s, start, past, store)
    modifies s, s.nodeCache, s.monitor, s.followers, s.Caches()
    ensures result.Returned? ==> Serves(s, start, run, store)
    ensures result == Returned(Completed) ==>
      && key in s.db && s.db[key] == value
      && forall i :: 0 <= i < |s.followers| ==>
        && key in s.followers[i].db && s.followers[i].db[key] == value
        && s.followers[i].height == old(s.followers[i].height) + 1
    ensures |s.followers| == 2 ==> result != Panicked
    ensures |s.followers| != 2 ==> result != Returned(Completed)
    ensures GoesWell(choices) && |choices| > 4 * |s.followers| > 0 ==>
      result == if |s.followers| == 2 then Returned(Completed) else Panicked
  {
    hide Accepted, StepAll, Play, Launch;
    ghost var before := Play(start, past);
    ghost var entry := Proposal(key, value);
    var used, gs;
    ghost var w;
    result, used, gs, w := s.Put(key, value, choices, before);
    run := past + [Call(entry)] + Envs(choices[..used]);
    PutIsPlay(start, past, entry, choices[..used]);
    assert w == Play(start, run);
    if GoesWell(choices) && s.followers != [] {
      GoodEnding(start, past, store, entry, choices[..used]);
      assert choices[..|choices|] == choices;
    }
    if |s.followers| == 2 {
      NoFalseAlarm(start, run);
    }
    if result == Returned(Completed) {
      CompletedMeansTwo(start, past, entry, choices[..used]);
      CompletedReplicates(start, past, store, entry, choices[..used], 0);
      CompletedReplicates(start, past, store, entry, choices[..used], 1);
    }
  }
}
