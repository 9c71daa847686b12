/** The protocol's other outcome, which no trace of `Put` shows: the monitor accepts a run in which a
    participant refuses and everybody aborts. */
module Aborting {
  import opened Monitors
  import opened Protocol
  import opened Recorders
  import opened Completions

  /** Nothing is on its way. */
  predicate Quiet(s: State) {
    s.outbox == StartBoxes && s.inbox == StartBoxes && s.inflight == []
  }

  /** What the recorder shows besides the log, the actor and the mailboxes. */
  predicate Shows(rec: Recorder, rm: map<string, string>, aborted: seq<string>, decision: string) {
    && Quiet(rec.gs) && rec.gs.rmState == rm && rec.gs.tmAborted == aborted && rec.gs.tmDecision == decision
    && rec.gs.tmPrepared == [] && rec.gs.tmCommitted == []
  }

  function Refuses(rec: Recorder, r: string): Recorder {
    Handle(rec, PHandlePrepare(r), VoteEntry("PHandlePrepare", r, "aborted"), r, "aborted", ToCoordinator("Aborted", r))
  }

  function Obeys(rec: Recorder, r: string): Recorder {
    Handle(rec, PHandleAbort(r), PartyEntry("PHandleAbort", r), r, "aborted", ToCoordinator("Aborted", r))
  }

  function HearsAborted(rec: Recorder, r: string): Recorder {
    var gs := rec.gs.(tmAborted := rec.gs.tmAborted + [r]);
    Capture(rec, Acting(WithInbox(gs, "coordinator", []), PartyEntry("CReceiveAbort", r), "coordinator"),
      CReceiveAbort(r))
  }

  function OrdersAbort(rec: Recorder, r: string): Recorder {
    var gs := rec.gs.(tmDecision := "abort");
    Capture(rec, Acting(WithOutbox(gs, "coordinator", [FromCoordinator("Abort", r)]), PartyEntry("CSendAbort", r),
      "coordinator"), CSendAbort(r))
  }

  lemma {:induction false} TakeStep(rec: Recorder, msg: Message)
    requires FullRun(rec) && msg.msource in StartBoxes && rec.gs.outbox == StartBoxes[msg.msource := [msg]]
    ensures FullRun(RecordTaken(rec, msg)) && TookEarlier(RecordTaken(rec, msg).log, msg)
    ensures RecordTaken(rec, msg).gs ==
      rec.gs.(outbox := StartBoxes, who := "Network", actions := RecordTaken(rec, msg).gs.actions)
  {
    hide Accepted, HonestRun, TookEarlier;
    TakenAccepted(rec, msg);
    CaptureHonest(rec, RecordTaken(rec, msg).gs, NetworkTakeMessage(msg));
  }

  lemma {:induction false} DeliverStep(rec: Recorder, msg: Message)
    requires FullRun(rec) && msg.mdest in StartBoxes && rec.gs.inbox == StartBoxes && TookEarlier(rec.log, msg)
    ensures FullRun(RecordDelivered(rec, msg))
    ensures RecordDelivered(rec, msg).gs ==
      rec.gs.(inbox := StartBoxes[msg.mdest := [msg]], who := "Network",
              actions := RecordDelivered(rec, msg).gs.actions)
  {
    hide Accepted, HonestRun, TookEarlier;
    DeliveredAccepted(rec, msg);
    CaptureHonest(rec, RecordDelivered(rec, msg).gs, NetworkDeliverMessage(msg));
  }

  lemma {:induction false} ActStep(rec: Recorder, gs: State, kind: Kind)
    requires FullRun(rec) && kind != Initial && !kind.NetworkTakeMessage? && !kind.NetworkDeliverMessage?
    requires CheckEvent(rec.log[|rec.log| - 1].state, Event(kind, gs))
    ensures FullRun(Capture(rec, gs, kind))
  {
    hide Accepted, HonestRun, CheckEvent;
    CaptureAccepted(rec, gs, kind);
    CaptureHonest(rec, gs, kind);
  }

  lemma {:induction false} RefuseStep(rec: Recorder, r: string)
    requires FullRun(rec) && r in RM && RmIs(rec.gs, r, "working") && rec.gs.outbox == StartBoxes
    requires rec.gs.inbox == StartBoxes[r := [FromCoordinator("Prepare", r)]]
    ensures FullRun(Refuses(rec, r))
    ensures Refuses(rec, r).gs.outbox == StartBoxes[r := [ToCoordinator("Aborted", r)]]
    ensures Refuses(rec, r).gs.inbox == StartBoxes
  {
    hide Accepted, HonestRun;
    var msg, answer := FromCoordinator("Prepare", r), ToCoordinator("Aborted", r);
    var prev, gs := rec.log[|rec.log| - 1].state, Refuses(rec, r).gs;
    assert Remove([msg], msg) == Remove([], msg) == [];
    assert prev.outbox[r] + [answer] == [answer];
    assert StartBoxes[r := [msg]][r := []] == StartBoxes;
    assert Reply(prev, gs, answer, msg);
    assert CheckPHandlePrepare(r, prev, gs);
    ActStep(rec, gs, PHandlePrepare(r));
  }

  lemma {:induction false} ObeyStep(rec: Recorder, r: string)
    requires FullRun(rec) && r in RM && RmIs(rec.gs, r, "working") && rec.gs.outbox == StartBoxes
    requires rec.gs.inbox == StartBoxes[r := [FromCoordinator("Abort", r)]]
    ensures FullRun(Obeys(rec, r))
    ensures Obeys(rec, r).gs.outbox == StartBoxes[r := [ToCoordinator("Aborted", r)]]
    ensures Obeys(rec, r).gs.inbox == StartBoxes
  {
    hide Accepted, HonestRun;
    var msg, answer := FromCoordinator("Abort", r), ToCoordinator("Aborted", r);
    var prev, gs := rec.log[|rec.log| - 1].state, Obeys(rec, r).gs;
    assert Remove([msg], msg) == Remove([], msg) == [];
    assert prev.outbox[r] + [answer] == [answer];
    assert StartBoxes[r := [msg]][r := []] == StartBoxes;
    assert Reply(prev, gs, answer, msg);
    assert CheckPHandleAbort(r, prev, gs);
    ActStep(rec, gs, PHandleAbort(r));
  }

  lemma {:induction false} HearStep(rec: Recorder, r: string)
    requires FullRun(rec) && r !in rec.gs.tmAborted
    requires rec.gs.inbox == StartBoxes["coordinator" := [ToCoordinator("Aborted", r)]]
    ensures FullRun(HearsAborted(rec, r)) && HearsAborted(rec, r).gs.inbox == StartBoxes
  {
    hide Accepted, HonestRun;
    var msg := ToCoordinator("Aborted", r);
    var prev, gs := rec.log[|rec.log| - 1].state, HearsAborted(rec, r).gs;
    assert Remove([msg], msg) == Remove([], msg) == [];
    assert StartBoxes["coordinator" := [msg]]["coordinator" := []] == StartBoxes;
    assert CheckCReceiveAbort(r, prev, gs);
    ActStep(rec, gs, CReceiveAbort(r));
  }

  lemma {:induction false} OrderStep(rec: Recorder, r: string)
    requires FullRun(rec) && rec.gs.outbox == StartBoxes
    requires rec.gs.tmAborted != [] && r !in rec.gs.tmAborted && rec.gs.tmDecision != "commit"
    ensures FullRun(OrdersAbort(rec, r))
    ensures OrdersAbort(rec, r).gs.outbox == StartBoxes["coordinator" := [FromCoordinator("Abort", r)]]
  {
    hide Accepted, HonestRun;
    var msg := FromCoordinator("Abort", r);
    var prev, gs := rec.log[|rec.log| - 1].state, OrdersAbort(rec, r).gs;
    assert prev.outbox["coordinator"] + [msg] == [msg];
    assert CheckCSendAbort(r, prev, gs);
    ActStep(rec, gs, CSendAbort(r));
  }

  /** `no` is asked, refuses, and the coordinator hears of it. */
  lemma {:induction false} Refusal(rec: Recorder, no: string) returns (rec': Recorder)
    requires FullRun(rec) && no in RM && Shows(rec, StartState.rmState, [], "none") && GsAt(rec.gs, 0, 0, "none")
    ensures FullRun(rec') && Shows(rec', StartState.rmState[no := "aborted"], [no], "none")
  {
    hide Accepted, HonestRun, TookEarlier, FullRun, RecordTaken, RecordDelivered;
    var prepare, answer := FromCoordinator("Prepare", no), ToCoordinator("Aborted", no);
    AskToPrepare(rec, no);
    var asked := RecordProposes(rec, no);
    DeliverStep(asked, prepare);
    var waits := RecordDelivered(asked, prepare);
    RefuseStep(waits, no);
    var refused := Refuses(waits, no);
    TakeStep(refused, answer);
    var taken := RecordTaken(refused, answer);
    DeliverStep(taken, answer);
    HearStep(RecordDelivered(taken, answer), no);
    rec' := HearsAborted(RecordDelivered(taken, answer), no);
  }

  lemma {:induction false} AskToPrepare(rec: Recorder, r: string)
    requires FullRun(rec) && GsAt(rec.gs, 0, 0, "none")
    ensures
      var asked := RecordProposes(rec, r);
      && FullRun(asked) && TookEarlier(asked.log, FromCoordinator("Prepare", r))
      && GsAt(asked.gs, 0, 0, "none") && asked.gs.rmState == rec.gs.rmState
  {
    hide Accepted, HonestRun, TookEarlier;
    PartiesOfTwo();
    ProposesAccepted(rec, 0, r);
    SendHonest(rec, r);
  }

  /** The coordinator orders `r` to abort, and hears that it has. */
  lemma {:induction false} Order(rec: Recorder, no: string, r: string, rm: map<string, string>) returns (rec': Recorder)
    requires FullRun(rec) && r in RM && r != no && Shows(rec, rm, [no], "none") && RmIs(rec.gs, r, "working")
    ensures FullRun(rec') && Shows(rec', rm[r := "aborted"], [no, r], "abort")
  {
    hide Accepted, HonestRun, TookEarlier, FullRun, RecordTaken, RecordDelivered;
    var abort, answer := FromCoordinator("Abort", r), ToCoordinator("Aborted", r);
    OrderStep(rec, r);
    var ordered := OrdersAbort(rec, r);
    TakeStep(ordered, abort);
    var taken := RecordTaken(ordered, abort);
    DeliverStep(taken, abort);
    var waits := RecordDelivered(taken, abort);
    ObeyStep(waits, r);
    var obeyed := Obeys(waits, r);
    TakeStep(obeyed, answer);
    var left := RecordTaken(obeyed, answer);
    DeliverStep(left, answer);
    HearStep(RecordDelivered(left, answer), r);
    rec' := HearsAborted(RecordDelivered(left, answer), r);
    assert [no] + [r] == [no, r];
  }

  /** Whoever refuses: there is an accepted honest run in which it does, the decision is to abort, the
      other participant obeys, and the coordinator knows that both have aborted. */
  lemma {:induction false} AbortRun(no: string, other: string) returns (run: seq<Event>)
    requires RM == {no, other} && no != other
    ensures run != [] && Accepted(run) && Honest(run)
    ensures
      var s := run[|run| - 1].state;
      && RmIs(s, no, "aborted") && RmIs(s, other, "aborted")
      && s.tmDecision == "abort" && s.tmAborted == [no, other]
  {
    hide Accepted, HonestRun, TookEarlier;
    var start := Starts();
    var refused := Refusal(start, no);
    var rec := Order(refused, no, other, StartState.rmState[no := "aborted"]);
    Ends(rec);
    run := rec.log;
  }

  lemma Starts() returns (start: Recorder)
    ensures FullRun(start) && Shows(start, StartState.rmState, [], "none") && GsAt(start.gs, 0, 0, "none")
  {
    hide Accepted, HonestRun;
    FullStart();
    PartiesOfTwo();
    start := Record(Recorder(StartState, []), Mark.Start);
  }

  lemma Ends(rec: Recorder)
    requires FullRun(rec)
    ensures rec.log != [] && Accepted(rec.log) && Honest(rec.log)
    ensures rec.log[|rec.log| - 1].state == rec.gs.(who := rec.log[|rec.log| - 1].state.who)
  {
    hide Accepted, Honest;
  }
}
