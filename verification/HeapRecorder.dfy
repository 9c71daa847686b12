/** `Put` recording its trace with slices in the heap, and the heap monitor's verdict on it. */
module HeapRecorders {
  import opened Slices
  import opened Clusters
  import opened Monitors
  import opened Recorders
  import opened HeapMonitor
  import opened Worlds
  import Conformance

  /** No recorded slice of this array is longer than the current one. */
  predicate NotLonger<T>(s: Slice<T>, current: Slice<T>) {
    s.arr == current.arr ==> s.len <= current.len
  }

  predicate Behind(h: HState, gs: HState) {
    && NotLonger(h.actions, gs.actions)
    && NotLonger(h.tmPrepared, gs.tmPrepared)
    && NotLonger(h.tmCommitted, gs.tmCommitted)
    && h.tmPrepared.arr != gs.tmCommitted.arr && h.tmCommitted.arr != gs.tmPrepared.arr
    && h.tmAborted.len == 0
  }

  predicate SameSlices(h: HState, gs: HState) {
    && h.actions == gs.actions && h.tmPrepared == gs.tmPrepared
    && h.tmCommitted == gs.tmCommitted && h.tmAborted == gs.tmAborted
  }

  class HeapRecorder {
    var gs: HState
    var events: seq<HEvent>

    ghost predicate Valid()
      reads this, Footprint()
      ensures Valid() ==> AllOk(events) && gs.Ok() && gs.tmAborted.len == 0
    {
      && AllOk(events) && gs.Ok() && GrownTrace(events)
      && (forall i :: 0 <= i < |events| ==> Behind(events[i].state, gs))
      && gs.tmPrepared.arr != gs.tmCommitted.arr && gs.tmAborted.len == 0
      && (events != [] ==> SameSlices(events[|events| - 1].state, gs))
    }

    /** What a reader sees of the recorder now. */
    ghost function Rec(): Recorder
      requires AllOk(events) && gs.Ok()
      reads this, Footprint()
    {
      Recorder(gs.View(), Trace(events))
    }

    /** The arrays that the recorder can reach. */
    ghost function Footprint(): set<object>
      reads this
    {
      gs.Arrays() + ArraysOf(events)
    }

    /** Every array in reach is new or was in reach before. */
    twostate predicate GrowsFootprint()
      reads this
    {
      forall o :: o in Footprint() ==> o in old(Footprint()) || fresh(o)
    }

    method GrowActions(x: Entry) returns (s: Slice<Entry>)
      requires Valid()
      modifies gs.actions.arr
      ensures Valid() && Rec() == old(Rec())
      ensures s.Ok() && GrownBy(gs.actions, s, x) && (s.arr == gs.actions.arr || fresh(s.arr))
      ensures forall i :: 0 <= i < |events| ==> NotLonger(events[i].state.actions, s)
    {
      hide GrownTrace, Trace, ActionOf;
      s := Append(gs.actions, x);
      forall i | 0 <= i < |events|
        ensures SameContents(events[i].state) && NotLonger(events[i].state.actions, s)
      {
        assert Behind(events[i].state, gs);
      }
      SameContentsSameTrace(events);
    }

    method GrowPrepared(x: string) returns (s: Slice<string>)
      requires Valid()
      modifies gs.tmPrepared.arr
      ensures Valid() && Rec() == old(Rec())
      ensures s.Ok() && GrownBy(gs.tmPrepared, s, x) && (s.arr == gs.tmPrepared.arr || fresh(s.arr))
      ensures forall i :: 0 <= i < |events| ==>
        NotLonger(events[i].state.tmPrepared, s) && events[i].state.tmCommitted.arr != s.arr
      ensures gs.tmCommitted.arr != s.arr
    {
      hide GrownTrace, Trace, ActionOf;
      s := Append(gs.tmPrepared, x);
      forall i | 0 <= i < |events|
        ensures SameContents(events[i].state)
        ensures NotLonger(events[i].state.tmPrepared, s) && events[i].state.tmCommitted.arr != s.arr
      {
        assert Behind(events[i].state, gs);
      }
      SameContentsSameTrace(events);
    }

    method GrowCommitted(x: string) returns (s: Slice<string>)
      requires Valid()
      modifies gs.tmCommitted.arr
      ensures Valid() && Rec() == old(Rec())
      ensures s.Ok() && GrownBy(gs.tmCommitted, s, x) && (s.arr == gs.tmCommitted.arr || fresh(s.arr))
      ensures forall i :: 0 <= i < |events| ==>
        NotLonger(events[i].state.tmCommitted, s) && events[i].state.tmPrepared.arr != s.arr
      ensures gs.tmPrepared.arr != s.arr
    {
      hide GrownTrace, Trace, ActionOf;
      s := Append(gs.tmCommitted, x);
      forall i | 0 <= i < |events|
        ensures SameContents(events[i].state)
        ensures NotLonger(events[i].state.tmCommitted, s) && events[i].state.tmPrepared.arr != s.arr
      {
        assert Behind(events[i].state, gs);
      }
      SameContentsSameTrace(events);
    }

    /** Appends to the slices and records the state. `rest` gives the other fields; its lists say
        what the slices are to hold. */
    method Capture(kind: Kind, rest: State)
      requires Valid() && events != [] && kind != Initial
      requires rest.actions == gs.View().actions + [ActionOf(kind, rest)]
      requires rest.tmPrepared == gs.View().tmPrepared + if kind.CReceivePrepare? then [kind.r] else []
      requires rest.tmCommitted == gs.View().tmCommitted + if kind.CReceiveCommit? then [kind.r] else []
      requires rest.tmAborted == gs.View().tmAborted && !kind.CReceiveAbort?
      modifies this, Footprint()
      ensures Valid() && events != [] && GrowsFootprint()
      ensures Rec() == Recorders.Capture(old(Rec()), rest, kind)
    {
      hide Valid, Recorders.Capture, Behind, Grown, ActionOf, ArraysOf, ListsBehind, GrownBy;
      hide HState.View, HState.Ok;
      var tmPrepared, tmCommitted := GrowLists(kind);
      var h := GrowRest(kind, rest, tmPrepared, tmCommitted);
      Extend(kind, h);
    }

    /** The list that an event of this kind appends to. */
    method GrowLists(kind: Kind) returns (tmPrepared: Slice<string>, tmCommitted: Slice<string>)
      requires Valid()
      modifies gs.tmPrepared.arr, gs.tmCommitted.arr
      ensures Valid() && Rec() == old(Rec())
      ensures tmPrepared.Ok() && tmCommitted.Ok()
      ensures if kind.CReceivePrepare? then GrownBy(gs.tmPrepared, tmPrepared, kind.r) else tmPrepared == gs.tmPrepared
      ensures
        if kind.CReceiveCommit? then GrownBy(gs.tmCommitted, tmCommitted, kind.r) else tmCommitted == gs.tmCommitted
      ensures ListsBehind(tmPrepared, tmCommitted) && tmPrepared.arr != tmCommitted.arr
      ensures tmPrepared.arr == gs.tmPrepared.arr || fresh(tmPrepared.arr)
      ensures tmCommitted.arr == gs.tmCommitted.arr || fresh(tmCommitted.arr)
    {
      hide GrownTrace, Trace;
      tmPrepared, tmCommitted := gs.tmPrepared, gs.tmCommitted;
      if kind.CReceivePrepare? {
        tmPrepared := GrowPrepared(kind.r);
      } else if kind.CReceiveCommit? {
        tmCommitted := GrowCommitted(kind.r);
      }
      assert forall i :: 0 <= i < |events| ==> Behind(events[i].state, gs);
    }

    ghost predicate ListsBehind(tmPrepared: Slice<string>, tmCommitted: Slice<string>)
      reads this
    {
      && tmPrepared.arr != tmCommitted.arr
      && forall i :: 0 <= i < |events| ==>
        && NotLonger(events[i].state.tmPrepared, tmPrepared) && NotLonger(events[i].state.tmCommitted, tmCommitted)
        && events[i].state.tmPrepared.arr != tmCommitted.arr && events[i].state.tmCommitted.arr != tmPrepared.arr
        && events[i].state.tmAborted.len == 0
    }

    /** The action log, and the whole next state. */
    method GrowRest(kind: Kind, rest: State, tmPrepared: Slice<string>, tmCommitted: Slice<string>)
        returns (h: HState)
      requires Valid() && kind != Initial
      requires tmPrepared.Ok() && tmCommitted.Ok() && ListsBehind(tmPrepared, tmCommitted)
      requires if kind.CReceivePrepare? then GrownBy(gs.tmPrepared, tmPrepared, kind.r) else tmPrepared == gs.tmPrepared
      requires
        if kind.CReceiveCommit? then GrownBy(gs.tmCommitted, tmCommitted, kind.r) else tmCommitted == gs.tmCommitted
      requires rest.actions == gs.View().actions + [ActionOf(kind, rest)]
      requires rest.tmPrepared == gs.View().tmPrepared + if kind.CReceivePrepare? then [kind.r] else []
      requires rest.tmCommitted == gs.View().tmCommitted + if kind.CReceiveCommit? then [kind.r] else []
      requires rest.tmAborted == gs.View().tmAborted && !kind.CReceiveAbort?
      modifies gs.actions.arr
      ensures Valid() && Rec() == old(Rec())
      ensures h.Ok() && Grown(gs, kind, h) && h.View() == rest
      ensures forall i :: 0 <= i < |events| ==> Behind(events[i].state, h)
      ensures h.tmPrepared == tmPrepared && h.tmCommitted == tmCommitted && h.tmAborted == gs.tmAborted
      ensures h.actions.arr == gs.actions.arr || fresh(h.actions.arr)
    {
      hide Valid;
      var actions := GrowActions(ActionOf(kind, rest));
      h := HState(rest, actions, tmPrepared, tmCommitted, gs.tmAborted);
      assert actions.Content() == rest.actions;
      assert tmPrepared.Content() == rest.tmPrepared;
      assert tmCommitted.Content() == rest.tmCommitted;
    }

    /** Records `h`, which has grown out of the current state. */
    method Extend(kind: Kind, h: HState)
      requires Valid() && events != [] && kind != Initial && h.Ok()
      requires Grown(gs, kind, h)
      requires forall i :: 0 <= i < |events| ==> Behind(events[i].state, h)
      requires h.tmPrepared.arr != h.tmCommitted.arr && h.tmAborted.len == 0
      modifies this
      ensures Valid() && events != [] && gs == h && Footprint() == h.Arrays() + old(ArraysOf(events))
      ensures Rec() == Recorders.Capture(old(Rec()), h.View(), kind)
    {
      hide GrownTrace, Grown, Trace, HState.View, HState.Ok, ArraysOf, ActionOf;
      GrownTraceExtends(events, HEvent(kind, h), gs);
      assert Behind(h, h) && SameSlices(h, h);
      ArraysExtend(events, HEvent(kind, h));
      NoArray(events + [HEvent(kind, h)]);
      gs := h;
      events := events + [HEvent(kind, gs)];
    }

    lemma NoArray(recorded: seq<HEvent>)
      ensures this !in ArraysOf(recorded)
    {
    }

    constructor ()
      ensures Valid() && fresh(Footprint()) && Rec() == Recorder(StartState, [])
    {
      var actions, prepared, committed, aborted := new Entry[0], new string[0], new string[0], new string[0];
      gs := HState(StartState, Slice(actions, 0), Slice(prepared, 0), Slice(committed, 0), Slice(aborted, 0));
      events := [];
      new;
      assert actions[..0] == [] && prepared[..0] == [] && committed[..0] == [] && aborted[..0] == [];
    }

    /** A new `Put` starts from new slices. */
    method Start()
      requires Valid()
      modifies this
      ensures Valid() && events != [] && GrowsFootprint()
      ensures Rec() == Record(old(Rec()), Mark.Start)
    {
      hide Valid, GrownTrace, Trace, Record;
      var h := NewState();
      BeginWith(h);
    }

    method NewState() returns (h: HState)
      requires Valid()
      ensures Valid() && Rec() == old(Rec())
      ensures h.Ok() && h.View() == StartState && fresh(h.Arrays())
      ensures h.tmPrepared.arr != h.tmCommitted.arr && h.tmAborted.len == 0
      ensures forall i :: 0 <= i < |events| ==> Behind(events[i].state, h)
    {
      hide GrownTrace, Trace;
      h := EmptySlices();
      forall i | 0 <= i < |events| ensures SameContents(events[i].state) && Behind(events[i].state, h) {
        ArraysAt(events, i);
      }
      SameContentsSameTrace(events);
    }

    static method EmptySlices() returns (h: HState)
      ensures h.Ok() && h.View() == StartState && fresh(h.Arrays())
      ensures h.tmPrepared.arr != h.tmCommitted.arr && h.tmAborted.len == 0
    {
      var actions, prepared, committed, aborted := new Entry[0], new string[0], new string[0], new string[0];
      h := HState(StartState, Slice(actions, 0), Slice(prepared, 0), Slice(committed, 0), Slice(aborted, 0));
      assert actions[..0] == [] && prepared[..0] == [] && committed[..0] == [] && aborted[..0] == [];
    }

    method BeginWith(h: HState)
      requires Valid() && h.Ok() && h.View() == StartState
      requires h.tmPrepared.arr != h.tmCommitted.arr && h.tmAborted.len == 0
      requires forall i :: 0 <= i < |events| ==> Behind(events[i].state, h)
      modifies this
      ensures Valid() && events != [] && Footprint() == h.Arrays() + old(ArraysOf(events))
      ensures Rec() == Record(old(Rec()), Mark.Start)
    {
      hide GrownTrace, Trace, Record, HState.View, HState.Ok, ArraysOf;
      StartRecorded(Rec());
      StartExtends(events, h);
      var acting := h.(rest := h.rest.(who := "coordinator"));
      assert acting.Ok() && acting.View() == StartState.(who := "coordinator") by { Acts(h, "coordinator"); }
      assert Behind(h, acting) && SameSlices(h, acting);
      ArraysExtend(events, HEvent(Initial, h));
      NoArray(events + [HEvent(Initial, h)]);
      events := events + [HEvent(Initial, h)];
      gs := acting;
    }

    method Taken(msg: Message)
      requires Valid() && events != []
      modifies this, Footprint()
      ensures Valid() && events != [] && GrowsFootprint()
      ensures Rec() == RecordTaken(old(Rec()), msg)
    {
      hide Valid, Footprint, Grown, GrownTrace;
      Capture(NetworkTakeMessage(msg), RecordTaken(Recorder(ViewNow(), []), msg).gs);
    }

    method Delivered(msg: Message)
      requires Valid() && events != []
      modifies this, Footprint()
      ensures Valid() && events != [] && GrowsFootprint()
      ensures Rec() == RecordDelivered(old(Rec()), msg)
    {
      hide Valid, Footprint, Grown, GrownTrace;
      Capture(NetworkDeliverMessage(msg), RecordDelivered(Recorder(ViewNow(), []), msg).gs);
    }

    method Proposes(r: string)
      requires Valid() && events != []
      modifies this, Footprint()
      ensures Valid() && events != [] && GrowsFootprint()
      ensures Rec() == RecordProposes(old(Rec()), r)
    {
      hide Valid, Footprint, Grown, GrownTrace;
      var msg := FromCoordinator("Prepare", r);
      Capture(CSendPrepare(r),
        Acting(WithOutbox(ViewNow(), "coordinator", [msg]), PartyEntry("CSendPrepare", r), "coordinator"));
      Taken(msg);
    }

    method Prepared(r: string)
      requires Valid() && events != []
      modifies this, Footprint()
      ensures Valid() && events != [] && GrowsFootprint()
      ensures Rec() == RecordPrepared(old(Rec()), r)
    {
      hide Valid, Footprint, Grown, GrownTrace, RecordDelivered;
      Delivered(ToCoordinator("Prepared", r));
      var grown := ViewNow().(tmPrepared := ViewNow().tmPrepared + [r]);
      Capture(CReceivePrepare(r),
        Acting(WithInbox(grown, "coordinator", []), PartyEntry("CReceivePrepare", r), "coordinator"));
    }

    method Commits(r: string)
      requires Valid() && events != []
      modifies this, Footprint()
      ensures Valid() && events != [] && GrowsFootprint()
      ensures Rec() == RecordCommits(old(Rec()), r)
    {
      hide Valid, Footprint, Grown, GrownTrace;
      var msg := FromCoordinator("Commit", r);
      var decided := ViewNow().(tmDecision := "commit");
      Capture(CSendCommit(r),
        Acting(WithOutbox(decided, "coordinator", [msg]), PartyEntry("CSendCommit", r), "coordinator"));
      Taken(msg);
    }

    method Committed(r: string)
      requires Valid() && events != []
      modifies this, Footprint()
      ensures Valid() && events != [] && GrowsFootprint()
      ensures Rec() == RecordCommitted(old(Rec()), r)
    {
      hide Valid, Footprint, Grown, GrownTrace, RecordDelivered;
      Delivered(ToCoordinator("Committed", r));
      var grown := ViewNow().(tmCommitted := ViewNow().tmCommitted + [r]);
      Capture(CReceiveCommit(r),
        Acting(WithInbox(grown, "coordinator", []), PartyEntry("CReceiveCommit", r), "coordinator"));
    }

    /** One of the recording points of `Put`. */
    method RecordMark(mark: Mark)
      requires Valid() && (mark == Mark.Start || events != [])
      modifies this, Footprint()
      ensures Valid() && events != [] && GrowsFootprint()
      ensures Rec() == Record(old(Rec()), mark)
    {
      hide Valid, Footprint, Grown, GrownTrace;
      hide RecordStart, RecordProposes, RecordPrepared, RecordCommits, RecordCommitted;
      match mark
      case Start => Start();
      case SendsPropose(pid) => Proposes(Party(pid));
      case GotPropose(pid) => Prepared(Party(pid));
      case SendsCommit(pid) => Commits(Party(pid));
      case GotCommit(pid) => Committed(Party(pid));
    }

    method RecordMarks(marks: seq<Mark>)
      requires Valid() && events != []
      modifies this, Footprint()
      ensures Valid() && events != [] && GrowsFootprint()
      ensures Rec() == RecordAll(old(Rec()), marks)
    {
      hide Valid, Footprint, Grown, GrownTrace, Record;
      ghost var before := Rec();
      for i := 0 to |marks|
        invariant Valid() && events != [] && GrowsFootprint()
        invariant Rec() == RecordAll(before, marks[..i])
      {
        assert marks[..i + 1][..i] == marks[..i];
        RecordMark(marks[i]);
      }
      assert marks[..|marks|] == marks;
    }

    /** The check at the end of a `Put`. It leaves the recorded states as they were. */
    method Check() returns (ok: bool)
      requires Valid() && events != []
      modifies ArraysOf(events)
      ensures Valid() && Rec() == old(Rec()) && events == old(events) && gs == old(gs)
      ensures ok <==> Accepted(old(Rec()).log)
    {
      hide CheckEvent, Accepted, GrownTrace, Grown, Trace, ArraysOf;
      NoArray(events);
      ok := CheckTraceInHeap(events);
      SameLastView();
    }

    /** The same trace shows the same current state. */
    twostate lemma SameLastView()
      requires old(Valid()) && Valid() && events != [] && events == old(events) && gs == old(gs)
      requires Trace(events) == old(Trace(events))
      ensures gs.View() == old(gs.View())
    {
      hide GrownTrace, Grown, ArraysOf;
      assert Trace(events)[|events| - 1] == old(Trace(events)[|events| - 1]);
    }

    method Reset()
      requires Valid()
      modifies this
      ensures Valid() && events == [] && gs == old(gs) && Footprint() <= old(Footprint())
      ensures Rec() == old(Rec()).(log := [])
    {
      events := [];
    }

    /** The recording that goes with one step of `Put`, and the verdict if that completes it. */
    method Follow(c: Cluster, ch: Choice) returns (failed: bool)
      requires Wf(c) && Valid() && (c.phase != Idle ==> events != [])
      modifies this, Footprint()
      ensures Valid() && (Advance(c, ch).phase != Idle ==> events != []) && GrowsFootprint()
      ensures var w' := Step(World(c, old(Rec()), false), ch); Rec() == w'.rec && failed == w'.crashed
    {
      hide Valid, Footprint, MarksOf, RecordAll, Advance, Step, JustCompleted, Accepted;
      StepUnfolds(c, Rec(), ch);
      if c.phase != Idle {
        RecordMarks(MarksOf(c, ch));
      }
      failed := false;
      if JustCompleted(c, Advance(c, ch)) {
        failed := Judge();
      }
    }

    /** A passing check is followed by a reset; a failing one panics. */
    method Judge() returns (failed: bool)
      requires Valid() && events != []
      modifies this, Footprint()
      ensures Valid() && failed == !Accepted(old(Rec()).log) && Footprint() <= old(Footprint())
      ensures Rec() == if failed then old(Rec()) else old(Rec()).(log := [])
    {
      hide Valid, Accepted;
      var ok := Check();
      failed := !ok;
      if ok {
        Reset();
      }
    }

    function ViewNow(): State
      requires Valid()
      reads this, Footprint()
    {
      gs.View()
    }
  }

  lemma StepUnfolds(c: Cluster, rec: Recorder, ch: Choice)
    requires Wf(c)
    ensures
      var w', rec', c' := Step(World(c, rec, false), ch), RecordAll(rec, MarksOf(c, ch)), Advance(c, ch);
      if !JustCompleted(c, c') then w'.rec == rec' && !w'.crashed
      else if Accepted(rec'.log) then w'.rec == rec'.(log := []) && !w'.crashed
      else w'.rec == rec' && w'.crashed
    ensures c.phase == Idle ==> RecordAll(rec, MarksOf(c, ch)) == rec && Advance(c, ch).phase == Idle
    ensures JustCompleted(c, Advance(c, ch)) ==> c.phase != Idle && Advance(c, ch).phase == Idle
  {
    hide Accepted;
  }

  lemma ArraysExtend(before: seq<HEvent>, e: HEvent)
    ensures ArraysOf(before + [e]) == ArraysOf(before) + e.state.Arrays()
  {
    var all := before + [e];
    assert all[|before|] == e;
    forall i | 0 <= i < |before| ensures all[i] == before[i] {
    }
    forall o | o in ArraysOf(before) ensures o in ArraysOf(all) {
      var i :| 0 <= i < |before| && o in before[i].state.Arrays();
      assert o in all[i].state.Arrays();
    }
    forall o | o in ArraysOf(all) ensures o in ArraysOf(before) + e.state.Arrays() {
      var i :| 0 <= i < |all| && o in all[i].state.Arrays();
    }
  }

  lemma Acts(h: HState, who: string)
    requires h.Ok()
    ensures var acting := h.(rest := h.rest.(who := who)); acting.Ok() && acting.View() == h.View().(who := who)
  {
  }

  lemma StartRecorded(rec: Recorder)
    ensures Record(rec, Mark.Start) ==
      Recorder(StartState.(who := "coordinator"), rec.log + [Event(Initial, StartState)])
  {
  }

  lemma StartExtends(before: seq<HEvent>, h: HState)
    requires AllOk(before) && GrownTrace(before) && h.Ok() && h.View() == StartState
    ensures AllOk(before + [HEvent(Initial, h)]) && GrownTrace(before + [HEvent(Initial, h)])
    ensures Trace(before + [HEvent(Initial, h)]) == Trace(before) + [Event(Initial, StartState)]
  {
    var all := before + [HEvent(Initial, h)];
    forall i | 0 < i < |all| ensures GrownAt(all, i) {
      if i < |before| {
        assert GrownAt(before, i);
      }
    }
  }

  lemma GrownTraceExtends(before: seq<HEvent>, e: HEvent, gs: HState)
    requires AllOk(before) && GrownTrace(before) && before != [] && gs.Ok() && e.state.Ok()
    requires SameSlices(before[|before| - 1].state, gs) && Grown(gs, e.kind, e.state)
    ensures AllOk(before + [e]) && GrownTrace(before + [e])
    ensures Trace(before + [e]) == Trace(before) + [Event(e.kind, e.state.View())]
  {
    hide Grown;
    var all := before + [e];
    assert Grown(before[|before| - 1].state, e.kind, e.state) by { GrownBySlices(before[|before| - 1].state, gs, e); }
    forall i | 0 < i < |all| ensures GrownAt(all, i) {
      if i < |before| {
        assert GrownAt(before, i);
      }
    }
  }

  lemma GrownBySlices(h: HState, gs: HState, e: HEvent)
    requires h.Ok() && gs.Ok() && e.state.Ok() && SameSlices(h, gs) && Grown(gs, e.kind, e.state)
    ensures Grown(h, e.kind, e.state)
  {
  }

  lemma StepMoves(w: World, ch: Choice)
    requires Wf(w.cluster) && !w.crashed
    ensures Step(w, ch).cluster == Advance(w.cluster, ch)
    ensures Step(w, ch).crashed ==> Step(w, ch).cluster.phase == Idle
  {
    hide Accepted, Advance;
  }

  /** One action of a run. */
  method PerformInHeap(rec: HeapRecorder, cluster: Cluster, crashed: bool, action: Action)
      returns (cluster': Cluster, crashed': bool)
    requires rec.Valid() && Wf(cluster)
    requires cluster.phase != Idle ==> rec.events != [] && !crashed
    modifies rec, rec.Footprint()
    ensures rec.Valid() && Wf(cluster') && rec.GrowsFootprint()
    ensures cluster'.phase != Idle ==> rec.events != [] && !crashed'
    ensures World(cluster', rec.Rec(), crashed') == Act(World(cluster, old(rec.Rec()), crashed), action)
  {
    hide Accepted, Step, Begin, Advance, HeapRecorder.Valid, HeapRecorder.Footprint, Record;
    cluster', crashed' := cluster, crashed;
    match action
    case Call(entry) =>
      if cluster.phase == Idle && !crashed {
        rec.RecordMark(Mark.Start);
        cluster' := Begin(cluster, entry);
      }
    case Env(ch) =>
      if crashed {
        IdleStep(World(cluster, rec.Rec(), true), ch);
      } else {
        StepMoves(World(cluster, rec.Rec(), false), ch);
        crashed' := rec.Follow(cluster, ch);
        cluster' := Advance(cluster, ch);
      }
  }

  /** Checker purity over whole runs: whatever `Put`s are called, however the environment behaves,
      and however the arrays grow, recording in shared slices and checking with appends in place
      leaves the same trace and gives the same verdicts as recording and checking values do, be
      the checks those over typed states or those over TLA+ values and hash-keyed sets. */
  method PlayInHeap(cluster: Cluster, actions: seq<Action>)
      returns (rec: HeapRecorder, cluster': Cluster, crashed: bool)
    requires Wf(cluster) && cluster.phase == Idle
    ensures fresh(rec) && rec.Valid()
    ensures World(cluster', rec.Rec(), crashed) == Play(World(cluster, Recorder(StartState, []), false), actions)
    ensures World(cluster', rec.Rec(), crashed) ==
      Conformance.TPlay(World(cluster, Recorder(StartState, []), false), actions)
  {
    hide Act, HeapRecorder.Valid, HeapRecorder.Footprint;
    rec := new HeapRecorder();
    cluster', crashed := cluster, false;
    ghost var w := World(cluster, Recorder(StartState, []), false);
    assert actions[..0] == [];
    for i := 0 to |actions|
      invariant fresh(rec) && fresh(rec.Footprint()) && rec.Valid() && Wf(cluster')
      invariant cluster'.phase != Idle ==> rec.events != [] && !crashed
      invariant World(cluster', rec.Rec(), crashed) == Play(w, actions[..i])
    {
      assert actions[..i + 1][..i] == actions[..i] && actions[..i + 1][i] == actions[i];
      cluster', crashed := PerformInHeap(rec, cluster', crashed, actions[i]);
    }
    assert actions[..|actions|] == actions;
    Conformance.NewRecOk();
    Conformance.TPlayIsPlay(w, actions);
  }
}
