/** The server itself: a node's cache, its request handlers, and the coordinator's `Put`, updating
    their state in place. Every method is tied to the step functions of the other modules. */
module Servers {
  import opened Replicas
  import opened Clusters
  import opened Nodes
  import opened Monitors
  import opened Recorders
  import opened Worlds

  /** Proposals by index. */
  class Cache {
    var store: map<nat, Proposal>

    constructor ()
      ensures store == map[]
    {
      store := map[];
    }

    method Set(index: nat, key: Key, value: Value)
      modifies this
      ensures store == old(store)[index := Proposal(key, value)]
    {
      store := store[index := Proposal(key, value)];
    }

    method Get(index: nat) returns (key: Key, value: Value, ok: bool)
      ensures ok <==> index in store
      ensures ok ==> store[index] == Proposal(key, value)
      ensures !ok ==> key == "" && value == []
    {
      if index in store {
        return store[index].key, store[index].value, true;
      }
      return "", [], false;
    }

    method Delete(index: nat)
      modifies this
      ensures store == old(store) - {index}
    {
      store := store - {index};
    }
  }

  /** How a call of `Put` ends: it returns, it is still waiting for the network, or the check of
      the trace panics. */
  datatype PutResult = Returned(reply: PutReply) | Waiting | Panicked

  class Server {
    const mode: Mode
    const nodeCache: Cache
    const monitor: Monitor
    const followers: seq<Server>
    var db: Store
    var height: nat
    var progress: map<nat, bool>
    ghost var writes: seq<Proposal>

    /** `db` is what the database holds when it is opened. */
    constructor (mode: Mode, followers: seq<Server>, db: Store)
      ensures this.mode == mode && this.followers == followers
      ensures NodeView() == Node(Replica(0, map[], db, []), map[])
      ensures monitor.events == [] && fresh(nodeCache) && fresh(monitor)
    {
      this.mode, this.followers := mode, followers;
      this.nodeCache := new Cache();
      this.monitor := new Monitor();
      this.db, this.height, this.progress, this.writes := db, 0, map[], [];
    }

    ghost function View(): Replica
      reads this, nodeCache
    {
      Replica(height, nodeCache.store, db, writes)
    }

    ghost function NodeView(): Node
      reads this, nodeCache
    {
      Node(View(), progress)
    }

    // ---- handlers ----

    /** The write to the database, which may fail. */
    method DbPut(key: Key, value: Value, dbOk: bool) returns (err: bool)
      modifies this`db, this`writes
      ensures err == !dbOk
      ensures View() == if dbOk then Write(old(View()), Proposal(key, value)) else old(View())
    {
      if dbOk {
        db := db[key := value];
        writes := writes + [Proposal(key, value)];
      }
      err := !dbOk;
    }

    method SetProgressForCommitPhase(height: nat, docancel: bool)
      modifies this`progress
      ensures progress == old(progress)[height := docancel]
    {
      progress := progress[height := docancel];
    }

    method HasProgressForCommitPhase(height: nat) returns (b: bool)
      ensures b == HasProgress(NodeView(), height)
    {
      b := height in progress && progress[height];
    }

    method ProposeHandler(index: nat, key: Key, value: Value, hook: bool)
        returns (response: Option<Response>, err: bool)
      modifies nodeCache
      ensures View() == AfterPropose(old(View()), index, Proposal(key, value), hook)
      ensures Outcome(response, err) == Outcome(Some(ProposeReply(old(View()), index, hook)), false)
    {
      if hook {
        nodeCache.Set(index, key, value);
        response := Some(Response(Ack, index));
      } else {
        response := Some(Response(Nack, index));
      }
      if height > index {
        response := Some(Response(Nack, height));
      }
      err := false;
    }

    method Propose(index: nat, key: Key, value: Value, hook: bool) returns (response: Option<Response>, err: bool)
      modifies this`progress, nodeCache
      ensures (NodeView(), Outcome(response, err)) == ServePropose(old(NodeView()), index, Proposal(key, value), hook)
    {
      SetProgressForCommitPhase(index, false);
      response, err := ProposeHandler(index, key, value, hook);
    }

    /** In three-phase mode this also starts the timer whose expiry is `TimerFires`. */
    method Precommit(index: nat) returns (response: Option<Response>, err: bool)
      ensures (NodeView(), Outcome(response, err)) == ServePrecommit(NodeView())
    {
      response, err := Some(Response(Ack, 0)), false;
    }

    method TimerFires(index: nat, hook: bool, dbOk: bool)
      modifies this, nodeCache
      ensures NodeView() == FireTimer(mode, old(NodeView()), index, hook, dbOk)
    {
      if mode == ThreePhase {
        var progressed := HasProgressForCommitPhase(index);
        if !progressed {
          var response, err := Commit(NoIncoming, height, false, hook, dbOk);
        }
      }
    }

    method CommitHandler(index: nat, hook: bool, dbOk: bool) returns (response: Option<Response>, err: bool)
      modifies this`db, this`writes, nodeCache
      ensures View() == AfterCommit(old(View()), index, hook, dbOk).(height := height)
      ensures Outcome(response, err) == CommitOutcome(old(View()), index, hook, dbOk)
    {
      if hook {
        var key, value, ok := nodeCache.Get(index);
        if !ok {
          nodeCache.Delete(index);
          return Some(Response(Nack, 0)), true;
        }
        err := DbPut(key, value, dbOk);
        if err {
          return None, true;
        }
        response := Some(Response(Ack, 0));
      } else {
        nodeCache.Delete(index);
        response := Some(Response(Nack, 0));
      }
      err := false;
    }

    method Rollback()
      modifies nodeCache
      ensures nodeCache.store == old(nodeCache.store) - {height}
    {
      nodeCache.Delete(height);
    }

    method Commit(meta: Metadata, index: nat, isRollback: bool, hook: bool, dbOk: bool)
        returns (response: Option<Response>, err: bool)
      modifies this, nodeCache
      ensures (NodeView(), Outcome(response, err)) ==
        ServeCommit(mode, old(NodeView()), meta, index, isRollback, hook, dbOk)
    {
      if mode == ThreePhase {
        if meta == NoIncoming {
          return None, true;
        }
        if |meta.mode| == 0 {
          SetProgressForCommitPhase(height, true);
          response, err := CommitHandler(index, hook, dbOk);
          if err {
            return None, true;
          }
          if response.value.typ == Ack {
            height := height + 1;
          }
          return;
        }
        if isRollback {
          Rollback();
        }
        return None, false;
      }
      response, err := CommitHandler(index, hook, dbOk);
      if err {
        return;
      }
      if response.value.typ == Ack {
        height := height + 1;
      }
    }

    // ---- RPCs, as the coordinator sees them ----

    static method CallPropose(follower: Server, index: nat, key: Key, value: Value, ch: Choice)
        returns (response: Option<Response>, err: bool)
      modifies follower`progress, follower.nodeCache
      ensures follower.View() ==
        if ch.delivery == Dropped then old(follower.View())
        else AfterPropose(old(follower.View()), index, Proposal(key, value), ch.hook)
      ensures Outcome(response, err) ==
        if ch.delivery == Delivered then Outcome(Some(ProposeReply(old(follower.View()), index, ch.hook)), false)
        else Outcome(None, true)
    {
      if ch.delivery == Dropped {
        return None, true;
      }
      response, err := follower.Propose(index, key, value, ch.hook);
      if ch.delivery == ReplyLost || err {
        return None, true;
      }
    }

    static method CallPrecommit(follower: Server, index: nat, ch: Choice)
        returns (response: Option<Response>, err: bool)
      ensures Outcome(response, err) ==
        if ch.delivery == Delivered then Outcome(Some(Response(Ack, 0)), false) else Outcome(None, true)
    {
      if ch.delivery == Dropped {
        return None, true;
      }
      response, err := follower.Precommit(index);
      if ch.delivery == ReplyLost || err {
        return None, true;
      }
    }

    static method CallCommit(follower: Server, index: nat, ch: Choice) returns (response: Option<Response>, err: bool)
      modifies follower, follower.nodeCache
      ensures follower.View() ==
        if ch.delivery == Dropped then old(follower.View())
        else AfterCommit(old(follower.View()), index, ch.hook, ch.dbOk)
      ensures Outcome(response, err) ==
        if ch.delivery == Delivered then Wire(CommitOutcome(old(follower.View()), index, ch.hook, ch.dbOk))
        else Outcome(None, true)
    {
      if ch.delivery == Dropped {
        return None, true;
      }
      response, err := follower.Commit(Incoming([]), index, false, ch.hook, ch.dbOk);
      if ch.delivery == ReplyLost || err {
        return None, true;
      }
    }

    // ---- the coordinator ----

    /** Followers are different servers, also different from the coordinator, with caches of
        their own. */
    ghost predicate Distinct() {
      && (forall i :: 0 <= i < |followers| ==> followers[i] != this && followers[i].nodeCache != nodeCache)
      && (forall i, j :: 0 <= i < j < |followers| ==>
            followers[i] != followers[j] && followers[i].nodeCache != followers[j].nodeCache)
    }

    ghost function Caches(): set<Cache> {
      set i | 0 <= i < |followers| :: followers[i].nodeCache
    }

    ghost function FollowerViews(): (views: seq<Replica>)
      reads followers, Caches()
      ensures |views| == |followers|
      ensures forall i :: 0 <= i < |followers| ==> views[i] == followers[i].View()
    {
      seq(|followers|, i requires 0 <= i < |followers| reads followers, Caches() => followers[i].View())
    }

    ghost function Snapshot(phase: Phase, entry: Proposal, reply: PutReply): Cluster
      reads this, nodeCache, followers, Caches()
    {
      Cluster(phase, entry, reply, View(), FollowerViews())
    }

    /** The servers and the monitor are in the state that `w` describes. */
    ghost predicate Tracks(w: World, gs: State)
      reads this, nodeCache, monitor, followers, Caches()
    {
      && w.cluster == Snapshot(w.cluster.phase, w.cluster.entry, w.cluster.reply)
      && w.rec == Recorder(gs, monitor.events)
      && !w.crashed
    }

    method CaptureProposes(gs: State, pid: nat) returns (gs': State)
      modifies monitor
      ensures Recorder(gs', monitor.events) == RecordProposes(Recorder(gs, old(monitor.events)), Party(pid))
    {
      var msg := FromCoordinator("Prepare", Party(pid));
      gs' := gs.(outbox := gs.outbox["coordinator" := [msg]]);
      gs' := gs'.(actions := gs'.actions + [PartyEntry("CSendPrepare", Party(pid))], who := "coordinator");
      monitor.CaptureState(gs', CSendPrepare(Party(pid)));
      gs' := CaptureTaken(gs', msg);
    }

    method CaptureTaken(gs: State, msg: Message) returns (gs': State)
      requires msg.msource == "coordinator"
      modifies monitor
      ensures Recorder(gs', monitor.events) == RecordTaken(Recorder(gs, old(monitor.events)), msg)
    {
      gs' := gs.(outbox := gs.outbox["coordinator" := []]);
      gs' := gs'.(actions := gs'.actions + [MessageEntry("NetworkTakeMessage", msg)], who := "Network");
      monitor.CaptureState(gs', NetworkTakeMessage(msg));
    }

    method CaptureDelivered(gs: State, msg: Message) returns (gs': State)
      requires msg.mdest == "coordinator"
      modifies monitor
      ensures Recorder(gs', monitor.events) == RecordDelivered(Recorder(gs, old(monitor.events)), msg)
    {
      gs' := gs.(inbox := gs.inbox["coordinator" := [msg]], who := "Network");
      gs' := gs'.(actions := gs'.actions + [MessageEntry("NetworkDeliverMessage", msg)]);
      monitor.CaptureState(gs', NetworkDeliverMessage(msg));
    }

    method CapturePrepared(gs: State, pid: nat) returns (gs': State)
      modifies monitor
      ensures Recorder(gs', monitor.events) == RecordPrepared(Recorder(gs, old(monitor.events)), Party(pid))
    {
      gs' := CaptureDelivered(gs, ToCoordinator("Prepared", Party(pid)));
      gs' := gs'.(inbox := gs'.inbox["coordinator" := []],
                  actions := gs'.actions + [PartyEntry("CReceivePrepare", Party(pid))]);
      gs' := gs'.(tmPrepared := gs'.tmPrepared + [Party(pid)], who := "coordinator");
      monitor.CaptureState(gs', CReceivePrepare(Party(pid)));
    }

    method CaptureCommits(gs: State, pid: nat) returns (gs': State)
      modifies monitor
      ensures Recorder(gs', monitor.events) == RecordCommits(Recorder(gs, old(monitor.events)), Party(pid))
    {
      var msg := FromCoordinator("Commit", Party(pid));
      gs' := gs.(outbox := gs.outbox["coordinator" := [msg]], tmDecision := "commit", who := "coordinator");
      gs' := gs'.(actions := gs'.actions + [PartyEntry("CSendCommit", Party(pid))]);
      monitor.CaptureState(gs', CSendCommit(Party(pid)));
      gs' := CaptureTaken(gs', msg);
    }

    method CaptureCommitted(gs: State, pid: nat) returns (gs': State)
      modifies monitor
      ensures Recorder(gs', monitor.events) == RecordCommitted(Recorder(gs, old(monitor.events)), Party(pid))
    {
      gs' := CaptureDelivered(gs, ToCoordinator("Committed", Party(pid)));
      gs' := gs'.(inbox := gs'.inbox["coordinator" := []],
                  actions := gs'.actions + [PartyEntry("CReceiveCommit", Party(pid))]);
      gs' := gs'.(tmCommitted := gs'.tmCommitted + [Party(pid)], who := "coordinator");
      monitor.CaptureState(gs', CReceiveCommit(Party(pid)));
    }

    /** The propose loop for one follower: retry until it answers with ACK. An error comes with a
        nil response, so that the loop can only end without one: the code after it that handles an
        error never runs. `used` counts the environment's choices; when they run out, the call is
        still waiting. */
    method ProposeTo(pid: nat, key: Key, value: Value, choices: seq<Choice>, used0: nat, gs0: State,
        ghost w0: World, ghost w1: World)
        returns (acked: bool, used: nat, gs: State, ghost w: World)
      requires Distinct() && pid < |followers| && used0 <= |choices| && Wf(w0.cluster)
      requires Tracks(w1, gs0) && w1 == StepAll(w0, choices[..used0])
      requires w1.cluster.phase == Proposing(pid) && w1.cluster.entry == Proposal(key, value)
      modifies this`height, nodeCache, monitor, followers, Caches()
      ensures used0 <= used <= |choices| && w == StepAll(w0, choices[..used]) && Tracks(w, gs)
      ensures w.cluster.entry == Proposal(key, value)
      ensures if acked then w.cluster.phase == (if pid + 1 < |followers| then Proposing(pid + 1) else Precommitting(0))
              else w.cluster.phase == Proposing(pid) && used == |choices|
    {
      hide Accepted, Advance, RecordAll, StepAll, MarksOf;
      used, gs, w := used0, gs0, w1;
      acked := false;
      while !acked && used < |choices|
        invariant used0 <= used <= |choices| && w == StepAll(w0, choices[..used]) && Tracks(w, gs)
        invariant w.cluster.entry == Proposal(key, value)
        invariant
          if acked then w.cluster.phase == (if pid + 1 < |followers| then Proposing(pid + 1) else Precommitting(0))
          else w.cluster.phase == Proposing(pid)
      {
        acked, gs, w := ProposeOnce(pid, key, value, choices[used], gs, w);
        StepAllNext(w0, choices, used);
        used := used + 1;
      }
    }

    /** The request of one pass, the height that it may make the coordinator adopt, and the cache
        entry for an acknowledgement. */
    method Ask(pid: nat, key: Key, value: Value, ch: Choice) returns (acked: bool)
      requires Distinct() && pid < |followers|
      modifies this`height, nodeCache, followers, Caches()
      ensures FollowerViews() ==
        if ch.delivery == Dropped then old(FollowerViews())
        else old(FollowerViews())[pid :=
          AfterPropose(old(followers[pid].View()), old(height), Proposal(key, value), ch.hook)]
      ensures
        var reply := ProposeReply(old(followers[pid].View()), old(height), ch.hook);
        && (acked <==> ch.delivery == Delivered && reply.typ == Ack)
        && height == (if ch.delivery == Delivered && reply.index > old(height) then reply.index else old(height))
        && View() == old(View()).(height := height, cache :=
             if acked then old(View()).cache[height := Proposal(key, value)] else old(View()).cache)
    {
      hide ProposeReply, AfterPropose;
      var response, err := CallPropose(followers[pid], height, key, value, ch);
      assert err ==> response == None;
      if response != None && response.value.index > height {
        height := response.value.index;
      }
      acked := response != None && response.value.typ == Ack;
      if acked {
        nodeCache.Set(height, key, value);
      }
    }

    /** One pass through the retry loop, and, if it is the last, the code up to the next follower. */
    method ProposeOnce(pid: nat, key: Key, value: Value, ch: Choice, gs0: State, ghost w: World)
        returns (acked: bool, gs: State, ghost w': World)
      requires Distinct() && pid < |followers| && Tracks(w, gs0)
      requires w.cluster.phase == Proposing(pid) && w.cluster.entry == Proposal(key, value)
      modifies this`height, nodeCache, monitor, followers, Caches()
      ensures w' == Step(w, ch) && Tracks(w', gs) && w'.cluster.entry == w.cluster.entry
      ensures acked <==> ProposeAcked(w.cluster, ch)
      ensures w'.cluster.phase ==
        if !acked then Proposing(pid) else if pid + 1 < |followers| then Proposing(pid + 1) else Precommitting(0)
    {
      hide RecordProposes, RecordPrepared, RecordAll, MarksOf, Step;
      hide ProposeAttempt, ProposeAcked, ProposeReply, AfterPropose, Distinct;
      ProposeSays(w.cluster, ch);
      ProposeStepIs(w, ch);
      gs := CaptureProposes(gs0, pid);
      acked := Ask(pid, key, value, ch);
      RecordTwo(w.rec, SendsPropose(pid), GotPropose(pid));
      if acked {
        gs := CapturePrepared(gs, pid);
      }
      w' := Step(w, ch);
      assert Recorder(gs, monitor.events) == w'.rec;
      assert View() == w'.cluster.coordinator && FollowerViews() == w'.cluster.followers;
    }

    /** The precommit loop; the code runs it in both modes. */
    method PrecommitPhase(choices: seq<Choice>, used0: nat, gs: State, ghost w0: World, ghost w1: World)
        returns (stop: Option<PutResult>, used: nat, ghost w: World)
      requires Distinct() && used0 <= |choices| && Wf(w0.cluster)
      requires Tracks(w1, gs) && w1 == StepAll(w0, choices[..used0])
      requires w1.cluster.phase == AfterProposing(|followers|)
      ensures used0 <= used <= |choices| && w == StepAll(w0, choices[..used]) && Tracks(w, gs)
      ensures w.cluster.entry == w1.cluster.entry
      ensures stop == if w.cluster.phase == Saving then None else Some(ResultOf(w))
      ensures stop == Some(Waiting) ==> used == |choices|
    {
      hide Accepted, StepAll, ProposeAttempt, CommitAttempt, SaveAttempt;
      used, w := used0, w1;
      for pid := 0 to |followers|
        invariant used0 <= used <= |choices| && w == StepAll(w0, choices[..used]) && Tracks(w, gs)
        invariant w.cluster.entry == w1.cluster.entry
        invariant w.cluster.phase == if pid < |followers| then Precommitting(pid) else Saving
      {
        if used == |choices| {
          return Some(Waiting), used, w;
        }
        var response, err := CallPrecommit(followers[pid], height, choices[used]);
        StepAllNext(w0, choices, used);
        RecordNothing(w.rec);
        w := Step(w, choices[used]);
        used := used + 1;
        if err {
          return Some(Returned(Nacked)), used, w;
        }
        assert response.value.typ == Ack;
      }
      stop := None;
    }

    /** The coordinator reads its own cache and writes its store. */
    method SavePhase(choices: seq<Choice>, used0: nat, gs: State, ghost w0: World, ghost w1: World)
        returns (stop: Option<PutResult>, used: nat, ghost w: World)
      requires Distinct() && used0 <= |choices| && Wf(w0.cluster)
      requires Tracks(w1, gs) && w1 == StepAll(w0, choices[..used0])
      requires w1.cluster.phase == Saving
      modifies this`db, this`writes
      ensures used0 <= used <= |choices| && (stop == Some(Waiting) ==> used == |choices|)
      ensures stop.Some? ==>
        w == StepAll(w0, choices[..used]) && Tracks(w, gs) && stop == Some(ResultOf(w))
      ensures stop.None? && followers != [] ==>
        w == StepAll(w0, choices[..used]) && Tracks(w, gs) && w.cluster.phase == Committing(0)
      ensures stop.None? && followers == [] ==>
        used0 < used && w == StepAll(w0, choices[..used - 1]) && AtEnd(w, choices[used - 1], gs)
    {
      hide Accepted, StepAll, ProposeAttempt, CommitAttempt, PrecommitAttempt;
      used, w := used0, w1;
      if used == |choices| {
        return Some(Waiting), used, w;
      }
      StepAllNext(w0, choices, used);
      RecordNothing(w.rec);
      w := Step(w, choices[used]);
      used := used + 1;
      var key, value, ok := nodeCache.Get(height);
      if !ok {
        return Some(Returned(CacheMiss)), used, w;
      }
      var err := DbPut(key, value, choices[used0].dbOk);
      assert FollowerViews() == w1.cluster.followers;
      if err {
        return Some(Returned(SaveFailed)), used, w;
      }
      stop, w := None, if followers == [] then w1 else w;
    }

    method AskToCommit(pid: nat, ch: Choice) returns (response: Option<Response>, err: bool)
      requires Distinct() && pid < |followers|
      modifies followers, Caches()
      ensures View() == old(View())
      ensures FollowerViews() ==
        if ch.delivery == Dropped then old(FollowerViews())
        else old(FollowerViews())[pid := AfterCommit(old(followers[pid].View()), height, ch.hook, ch.dbOk)]
      ensures Outcome(response, err) ==
        if ch.delivery == Delivered then Wire(CommitOutcome(old(followers[pid].View()), height, ch.hook, ch.dbOk))
        else Outcome(None, true)
    {
      hide AfterCommit, CommitOutcome, Wire;
      response, err := CallCommit(followers[pid], height, ch);
    }

    /** One pass through the commit loop. */
    method CommitOnce(pid: nat, ch: Choice, gs0: State, ghost c: Cluster, ghost rec: Recorder)
        returns (response: Option<Response>, err: bool, gs: State)
      requires Distinct() && pid < |followers| && Wf(c) && c.phase == Committing(pid)
      requires c == Snapshot(c.phase, c.entry, c.reply) && rec == Recorder(gs0, monitor.events)
      modifies monitor, followers, Caches()
      ensures View() == old(View()) && FollowerViews() == CommitAttempt(c, ch).followers
      ensures Recorder(gs, monitor.events) == RecordAll(rec, MarksOf(c, ch))
      ensures err ==> response == None && !CommitAcked(c, ch)
      ensures !err ==> response != None && (response.value.typ == Ack <==> CommitAcked(c, ch))
      ensures CommitAttempt(c, ch).phase == Idle && CommitAttempt(c, ch).reply != Completed ==>
        CommitAttempt(c, ch).reply == if err then Nacked else NotAcknowledged
    {
      hide RecordCommits, RecordCommitted, RecordAll, MarksOf;
      hide CommitAttempt, CommitAcked, AfterCommit, CommitOutcome, Wire, Distinct;
      CommitSays(c, ch);
      gs := CaptureCommits(gs0, pid);
      response, err := AskToCommit(pid, ch);
      RecordTwo(rec, SendsCommit(pid), GotCommit(pid));
      if !err && response.value.typ == Ack {
        gs := CaptureCommitted(gs, pid);
        assert MarksOf(c, ch) == [SendsCommit(pid), GotCommit(pid)];
      } else {
        assert MarksOf(c, ch) == [SendsCommit(pid)];
      }
    }

    /** What the commit loop does with one answer: go on, or return. */
    method CommitNext(pid: nat, ch: Choice, gs0: State, ghost w: World) returns (stop: Option<PutResult>, gs: State)
      requires Distinct() && pid < |followers| && Tracks(w, gs0) && w.cluster.phase == Committing(pid)
      modifies monitor, followers, Caches()
      ensures stop.Some? ==>
        InState(Step(w, ch), gs) && stop == Some(ResultOf(Step(w, ch))) && stop.value.Returned?
      ensures stop.None? && pid + 1 < |followers| ==>
        Tracks(Step(w, ch), gs) && Step(w, ch).cluster.phase == Committing(pid + 1)
      ensures stop.None? && pid + 1 == |followers| ==> AtEnd(w, ch, gs)
    {
      hide Accepted, RecordAll, MarksOf, CommitAcked, CommitAttempt, ProposeAttempt, PrecommitAttempt, SaveAttempt;
      CommitPhases(w.cluster, ch);
      CommitFrame(w.cluster, ch);
      var response, err;
      response, err, gs := CommitOnce(pid, ch, gs0, w.cluster, w.rec);
      if err {
        stop := Some(Returned(Nacked));
      } else if response.value.typ != Ack {
        stop := Some(Returned(NotAcknowledged));
      } else {
        stop := None;
      }
    }

    /** After the commit loop: the height rises and the trace is checked. */
    method FinishPut(ch: Choice, gs: State, ghost w: World) returns (result: PutResult)
      requires AtEnd(w, ch, gs)
      modifies this`height, monitor
      requires Distinct()
      ensures InState(Step(w, ch), gs) && result == ResultOf(Step(w, ch)) && result != Waiting
    {
      hide Accepted, RecordAll, MarksOf, Advance;
      ghost var c' := Advance(w.cluster, ch);
      height := height + 1;
      assert FollowerViews() == c'.followers;
      var ok := monitor.CheckTrace();
      if !ok {
        return Panicked;
      }
      monitor.Reset();
      result := Returned(Completed);
    }

    method CommitPhase(choices: seq<Choice>, used0: nat, gs0: State, ghost w0: World, ghost w1: World)
        returns (result: PutResult, used: nat, gs: State, ghost w: World)
      requires Distinct() && used0 <= |choices| && Wf(w0.cluster)
      requires Tracks(w1, gs0) && w1 == StepAll(w0, choices[..used0])
      requires w1.cluster.phase == Committing(0) && followers != []
      modifies this`height, monitor, followers, Caches()
      ensures used0 <= used <= |choices| && w == StepAll(w0, choices[..used])
      ensures InState(w, gs)
      ensures result == ResultOf(w) && (result == Waiting ==> used == |choices|)
    {
      hide Accepted, StepAll, Step, Tracks, InState, AtEnd, Distinct;
      used, gs, w := used0, gs0, w1;
      var pid := 0;
      while true
        invariant pid < |followers| && used0 <= used <= |choices| && Tracks(w, gs)
        invariant w.cluster.phase == Committing(pid) && w == StepAll(w0, choices[..used])
        decreases |followers| - pid
      {
        if used == |choices| {
          TracksMeans(w, gs);
          return Waiting, used, gs, w;
        }
        ghost var last := w;
        var stop;
        stop, gs := CommitNext(pid, choices[used], gs, w);
        StepAllNext(w0, choices, used);
        w := Step(last, choices[used]);
        used := used + 1;
        if stop.Some? {
          return stop.value, used, gs, w;
        }
        if pid + 1 == |followers| {
          result := FinishPut(choices[used - 1], gs, last);
          return;
        }
        pid := pid + 1;
      }
    }

    lemma TracksMeans(w: World, gs: State)
      requires Tracks(w, gs)
      ensures InState(w, gs) && !w.crashed
    {
    }

    /** The step `ch` completes the `Put`, and all of it is done but for the code after the commit
        loop: the height is not raised yet, and the trace not checked. */
    ghost predicate AtEnd(w: World, ch: Choice, gs: State)
      reads this, nodeCache, monitor, followers, Caches()
    {
      && !w.crashed && Wf(w.cluster)
      && var c' := Advance(w.cluster, ch);
      && JustCompleted(w.cluster, c')
      && View().(height := height + 1) == c'.coordinator && FollowerViews() == c'.followers
      && Recorder(gs, monitor.events) == RecordAll(w.rec, MarksOf(w.cluster, ch))
    }

    /** The servers and the monitor are in the state that `w` describes, crashed or not. */
    ghost predicate InState(w: World, gs: State)
      reads this, nodeCache, monitor, followers, Caches()
    {
      && w.cluster == Snapshot(w.cluster.phase, w.cluster.entry, w.cluster.reply)
      && w.rec == Recorder(gs, monitor.events)
    }

    /** The whole of `Put`. Whatever the environment chooses, it takes the servers and the monitor
        through exactly the steps of the step system, and returns what that says. */
    method Put(key: Key, value: Value, choices: seq<Choice>, ghost before: World)
        returns (result: PutResult, used: nat, gs: State, ghost w: World)
      requires Distinct()
      requires before.cluster.phase == Idle && !before.crashed && InState(before, before.rec.gs)
      modifies this, nodeCache, monitor, followers, Caches()
      ensures used <= |choices|
      ensures w == StepAll(Launch(before, Proposal(key, value)), choices[..used]) && InState(w, gs)
      ensures result == ResultOf(w) && (result == Waiting ==> used == |choices|)
    {
      hide Accepted, StepAll, Step, Tracks, InState, AtEnd, Distinct;
      ghost var w0;
      gs, w0 := StartTrace(Proposal(key, value), before);
      used, w := 0, w0;
      StepAllNone(w0, choices);
      for pid := 0 to |followers|
        invariant used <= |choices| && w == StepAll(w0, choices[..used]) && Tracks(w, gs)
        invariant w.cluster.entry == Proposal(key, value)
        invariant w.cluster.phase == if pid < |followers| then Proposing(pid) else AfterProposing(|followers|)
      {
        var acked;
        acked, used, gs, w := ProposeTo(pid, key, value, choices, used, gs, w0, w);
        if !acked {
          TracksMeans(w, gs);
          return Waiting, used, gs, w;
        }
      }
      var stop;
      stop, used, w := PrecommitPhase(choices, used, gs, w0, w);
      if stop.Some? {
        TracksMeans(w, gs);
        return stop.value, used, gs, w;
      }
      stop, used, w := SavePhase(choices, used, gs, w0, w);
      if stop.Some? {
        TracksMeans(w, gs);
        return stop.value, used, gs, w;
      }
      if followers == [] {
        StepAllNext(w0, choices, used - 1);
        ghost var last := w;
        w := Step(last, choices[used - 1]);
        result := FinishPut(choices[used - 1], gs, last);
      } else {
        result, used, gs, w := CommitPhase(choices, used, gs, w0, w);
      }
    }

    method StartTrace(entry: Proposal, ghost before: World) returns (gs: State, ghost w: World)
      requires before.cluster.phase == Idle && !before.crashed && InState(before, before.rec.gs)
      modifies monitor
      ensures w == Launch(before, entry) && Tracks(w, gs)
      ensures w.cluster.entry == entry
      ensures w.cluster.phase == if followers == [] then Saving else Proposing(0)
    {
      gs := StartState;
      monitor.CaptureState(gs, Initial);
      gs := gs.(who := "coordinator");
      w := Launch(before, entry);
    }
  }

  /** The propose loop over `n` followers is done. */
  function AfterProposing(n: nat): Phase {
    if n == 0 then Saving else Precommitting(0)
  }

  /** What `Put` returns in a given state of the step system. */
  function ResultOf(w: World): PutResult {
    if w.crashed then Panicked
    else if w.cluster.phase == Idle then Returned(w.cluster.reply)
    else Waiting
  }

  lemma StepAllNone(w: World, choices: seq<Choice>)
    requires Wf(w.cluster)
    ensures StepAll(w, choices[..0]) == w
  {
  }

  /** An attempt of the propose loop, in terms of what its caller sees. */
  lemma ProposeSays(c: Cluster, ch: Choice)
    requires Wf(c) && c.phase.Proposing?
    ensures
      var pid, index := c.phase.pid, c.coordinator.height;
      var f := c.followers[pid];
      var response := if ch.delivery == Delivered then Some(ProposeReply(f, index, ch.hook)) else None;
      var height := if response.Some? && response.value.index > index then response.value.index else index;
      var acked := response.Some? && response.value.typ == Ack;
      var c' := ProposeAttempt(c, ch);
      && (acked <==> ProposeAcked(c, ch))
      && c'.followers == (if ch.delivery == Dropped then c.followers
                          else c.followers[pid := AfterPropose(f, index, c.entry, ch.hook)])
      && c'.coordinator == c.coordinator.(height := height,
           cache := if acked then c.coordinator.cache[height := c.entry] else c.coordinator.cache)
      && c'.phase == (if !acked then c.phase
                      else if pid + 1 < |c.followers| then Proposing(pid + 1) else Precommitting(0))
      && c'.entry == c.entry && c'.reply == c.reply
    ensures MarksOf(c, ch) ==
      if ProposeAcked(c, ch) then [SendsPropose(c.phase.pid), GotPropose(c.phase.pid)] else [SendsPropose(c.phase.pid)]
  {
  }

  lemma ProposeStepIs(w: World, ch: Choice)
    requires Wf(w.cluster) && w.cluster.phase.Proposing?
    ensures Step(w, ch) ==
      w.(cluster := ProposeAttempt(w.cluster, ch), rec := RecordAll(w.rec, MarksOf(w.cluster, ch)))
  {
    hide Accepted, RecordAll, MarksOf;
  }

  /** A commit request, in terms of what its caller sees. */
  lemma CommitSays(c: Cluster, ch: Choice)
    requires Wf(c) && c.phase.Committing?
    ensures
      var pid, index := c.phase.pid, c.coordinator.height;
      var seen := if ch.delivery == Delivered then Wire(CommitOutcome(c.followers[pid], index, ch.hook, ch.dbOk))
                  else Outcome(None, true);
      var c' := CommitAttempt(c, ch);
      && c'.followers == (if ch.delivery == Dropped then c.followers
                          else c.followers[pid := AfterCommit(c.followers[pid], index, ch.hook, ch.dbOk)])
      && (seen.err ==> seen.response == None && !CommitAcked(c, ch))
      && (!seen.err ==> seen.response != None && (seen.response.value.typ == Ack <==> CommitAcked(c, ch)))
      && (c'.phase == Idle && c'.reply != Completed ==> c'.reply == if seen.err then Nacked else NotAcknowledged)
    ensures MarksOf(c, ch) ==
      if CommitAcked(c, ch) then [SendsCommit(c.phase.pid), GotCommit(c.phase.pid)] else [SendsCommit(c.phase.pid)]
  {
  }

  /** A commit attempt leaves the coordinator alone, but for the height at the end. */
  lemma CommitFrame(c: Cluster, ch: Choice)
    requires Wf(c) && c.phase.Committing?
    ensures
      var c' := CommitAttempt(c, ch);
      && c'.entry == c.entry
      && c'.coordinator ==
         if JustCompleted(c, c') then c.coordinator.(height := c.coordinator.height + 1) else c.coordinator
  {
  }

  lemma RecordNothing(rec: Recorder)
    ensures RecordAll(rec, []) == rec
  {
  }

  lemma StepAllNext(w: World, choices: seq<Choice>, used: nat)
    requires Wf(w.cluster) && used < |choices|
    ensures StepAll(w, choices[..used + 1]) == Step(StepAll(w, choices[..used]), choices[used])
  {
    assert choices[..used + 1][..used] == choices[..used];
  }
}
