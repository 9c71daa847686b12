/** Decimal numerals, as the `%d` verb prints them. */
module Numerals {
  function Digit(n: nat): char
    requires n < 10
  {
    "0123456789"[n]
  }

  function Decimal(n: nat): string {
    if n < 10 then [Digit(n)] else Decimal(n / 10) + [Digit(n % 10)]
  }
}

/** The events that `Put` hands to the monitor. */
module Recorders {
  import opened Monitors
  import opened Numerals

  /** The name of follower `pid` in the trace. */
  function Party(pid: nat): string {
    "r" + Decimal(pid + 1)
  }

  /** The points of `Put` that record: it starts; it is about to send a proposal to a follower
      and then has an ACK; it is about to send a commit and then has an ACK. */
  datatype Mark = Start | SendsPropose(pid: nat) | GotPropose(pid: nat) | SendsCommit(pid: nat) | GotCommit(pid: nat)

  /** The auxiliary state `gs` of `Put` and the monitor's events. */
  datatype Recorder = Recorder(gs: State, log: seq<Event>)

  function Capture(rec: Recorder, gs: State, kind: Kind): Recorder {
    Recorder(gs, rec.log + [Event(kind, gs)])
  }

  function Acting(gs: State, entry: Entry, who: string): State {
    gs.(actions := gs.actions + [entry], who := who)
  }

  function WithOutbox(gs: State, x: string, msgs: seq<Message>): State {
    gs.(outbox := gs.outbox[x := msgs])
  }

  function WithInbox(gs: State, x: string, msgs: seq<Message>): State {
    gs.(inbox := gs.inbox[x := msgs])
  }

  /** The network picks up the only message in its source's outbox. */
  function RecordTaken(rec: Recorder, msg: Message): Recorder {
    Capture(rec, Acting(WithOutbox(rec.gs, msg.msource, []), MessageEntry("NetworkTakeMessage", msg), "Network"),
      NetworkTakeMessage(msg))
  }

  /** The network brings a message to an empty inbox. */
  function RecordDelivered(rec: Recorder, msg: Message): Recorder {
    Capture(rec, Acting(WithInbox(rec.gs, msg.mdest, [msg]), MessageEntry("NetworkDeliverMessage", msg), "Network"),
      NetworkDeliverMessage(msg))
  }

  function RecordProposes(rec: Recorder, r: string): Recorder {
    var msg := FromCoordinator("Prepare", r);
    var sent := Capture(rec,
      Acting(WithOutbox(rec.gs, "coordinator", [msg]), PartyEntry("CSendPrepare", r), "coordinator"), CSendPrepare(r));
    RecordTaken(sent, msg)
  }

  function RecordPrepared(rec: Recorder, r: string): Recorder {
    var arrived := RecordDelivered(rec, ToCoordinator("Prepared", r));
    var gs := arrived.gs.(tmPrepared := arrived.gs.tmPrepared + [r]);
    Capture(arrived, Acting(WithInbox(gs, "coordinator", []), PartyEntry("CReceivePrepare", r), "coordinator"),
      CReceivePrepare(r))
  }

  function RecordCommits(rec: Recorder, r: string): Recorder {
    var msg := FromCoordinator("Commit", r);
    var gs := rec.gs.(tmDecision := "commit");
    var sent := Capture(rec,
      Acting(WithOutbox(gs, "coordinator", [msg]), PartyEntry("CSendCommit", r), "coordinator"), CSendCommit(r));
    RecordTaken(sent, msg)
  }

  function RecordCommitted(rec: Recorder, r: string): Recorder {
    var arrived := RecordDelivered(rec, ToCoordinator("Committed", r));
    var gs := arrived.gs.(tmCommitted := arrived.gs.tmCommitted + [r]);
    Capture(arrived, Acting(WithInbox(gs, "coordinator", []), PartyEntry("CReceiveCommit", r), "coordinator"),
      CReceiveCommit(r))
  }

  function RecordStart(rec: Recorder): Recorder {
    var started := Capture(rec, StartState, Initial);
    started.(gs := started.gs.(who := "coordinator"))
  }

  function Record(rec: Recorder, mark: Mark): Recorder {
    match mark
    case Start => RecordStart(rec)
    case SendsPropose(pid) => RecordProposes(rec, Party(pid))
    case GotPropose(pid) => RecordPrepared(rec, Party(pid))
    case SendsCommit(pid) => RecordCommits(rec, Party(pid))
    case GotCommit(pid) => RecordCommitted(rec, Party(pid))
  }

  function RecordAll(rec: Recorder, marks: seq<Mark>): Recorder {
    if marks == [] then rec
    else Record(RecordAll(rec, marks[..|marks| - 1]), marks[|marks| - 1])
  }

  lemma RecordTwo(rec: Recorder, a: Mark, b: Mark)
    ensures RecordAll(rec, [a]) == Record(rec, a)
    ensures RecordAll(rec, [a, b]) == Record(Record(rec, a), b)
  {
    assert [a][..0] == [] && [a, b][..1] == [a];
  }

  // ---- what the recorded events look like to the monitor ----

  function Parties(k: nat): seq<string> {
    if k == 0 then [] else Parties(k - 1) + [Party(k - 1)]
  }

  lemma PartiesGrow(k: nat)
    ensures Parties(k + 1) == Parties(k) + [Party(k)]
  {
  }

  lemma PartiesOfTwo()
    ensures Party(0) == "r1" && Party(1) == "r2"
    ensures Parties(0) == [] && Parties(1) == ["r1"] && Parties(2) == ["r1", "r2"]
    ensures ToSet(Parties(0)) != RM && ToSet(Parties(1)) != RM && ToSet(Parties(2)) == RM
  {
    assert Decimal(1) == [Digit(1)] == "1" && Decimal(2) == [Digit(2)] == "2";
    assert Party(0) == "r" + "1" == "r1" && Party(1) == "r" + "2" == "r2";
    assert Parties(1) == Parties(0) + ["r1"] == ["r1"];
    assert Parties(2) == Parties(1) + ["r2"] == ["r1", "r2"];
    assert "r2" in RM && "r2" !in ToSet(Parties(1)) && "r2" !in ToSet(Parties(0));
  }

  /** `gs` has `p` followers prepared, `q` committed, and empty mailboxes; participants may be in
      any state. */
  predicate GsAt(gs: State, p: nat, q: nat, decision: string) {
    gs == StartState.(who := gs.who, actions := gs.actions, rmState := gs.rmState,
                      tmPrepared := Parties(p), tmCommitted := Parties(q), tmDecision := decision)
  }

  /** The latest event recorded `gs`, up to the actor, which no check reads. */
  predicate Current(rec: Recorder) {
    rec.log != [] && rec.log[|rec.log| - 1].state == rec.gs.(who := rec.log[|rec.log| - 1].state.who)
  }

  /** One more event: the log stays accepted if and only if the event passes its check. */
  lemma {:induction false} CaptureAccepted(rec: Recorder, gs: State, kind: Kind)
    requires Current(rec)
    ensures Current(Capture(rec, gs, kind))
    ensures Accepted(Capture(rec, gs, kind).log) <==>
      Accepted(rec.log) && CheckEvent(rec.log[|rec.log| - 1].state, Event(kind, gs))
  {
    hide CheckEvent, Accepted;
    AcceptedExtends(rec.log, Event(kind, gs));
  }

  lemma {:induction false} TakenAccepted(rec: Recorder, msg: Message)
    requires Current(rec) && msg.msource in StartBoxes && rec.gs.outbox == StartBoxes[msg.msource := [msg]]
    ensures Current(RecordTaken(rec, msg))
    ensures Accepted(RecordTaken(rec, msg).log) <==> Accepted(rec.log)
    ensures RecordTaken(rec, msg).gs ==
      rec.gs.(outbox := StartBoxes, who := "Network", actions := RecordTaken(rec, msg).gs.actions)
  {
    hide Accepted;
    var prev, gs := rec.log[|rec.log| - 1].state, RecordTaken(rec, msg).gs;
    CaptureAccepted(rec, gs, NetworkTakeMessage(msg));
    assert Remove([msg], msg) == Remove([], msg) == [];
    assert prev.outbox[msg.msource := []] == StartBoxes;
    assert CheckNetworkTakeMessage(msg, prev, gs);
  }

  lemma {:induction false} DeliveredAccepted(rec: Recorder, msg: Message)
    requires Current(rec) && msg.mdest in StartBoxes && rec.gs.inbox == StartBoxes
    ensures Current(RecordDelivered(rec, msg))
    ensures Accepted(RecordDelivered(rec, msg).log) <==> Accepted(rec.log)
    ensures RecordDelivered(rec, msg).gs ==
      rec.gs.(inbox := StartBoxes[msg.mdest := [msg]], who := "Network",
              actions := RecordDelivered(rec, msg).gs.actions)
  {
    hide Accepted;
    var prev, gs := rec.log[|rec.log| - 1].state, RecordDelivered(rec, msg).gs;
    CaptureAccepted(rec, gs, NetworkDeliverMessage(msg));
    assert prev.inbox[msg.mdest] + [msg] == [msg];
    assert CheckNetworkDeliverMessage(msg, prev, gs);
  }

  lemma {:induction false} ProposesAccepted(rec: Recorder, p: nat, r: string)
    requires Current(rec) && GsAt(rec.gs, p, 0, "none")
    ensures Current(RecordProposes(rec, r)) && GsAt(RecordProposes(rec, r).gs, p, 0, "none")
    ensures RecordProposes(rec, r).gs.rmState == rec.gs.rmState
    ensures Accepted(RecordProposes(rec, r).log) <==> Accepted(rec.log) && ToSet(Parties(p)) != RM
  {
    hide Accepted, RecordDelivered, RecordTaken, Parties, Party, ToSet;
    var msg := FromCoordinator("Prepare", r);
    var prev := rec.log[|rec.log| - 1].state;
    var gs := Acting(WithOutbox(rec.gs, "coordinator", [msg]), PartyEntry("CSendPrepare", r), "coordinator");
    var sent := Capture(rec, gs, CSendPrepare(r));
    CaptureAccepted(rec, gs, CSendPrepare(r));
    assert prev.outbox["coordinator"] + [msg] == [msg];
    assert CheckCSendPrepare(r, prev, gs) <==> ToSet(Parties(p)) != RM;
    TakenAccepted(sent, msg);
  }

  lemma {:induction false} PreparedAccepted(rec: Recorder, p: nat)
    requires Current(rec) && GsAt(rec.gs, p, 0, "none")
    ensures
      var rec' := RecordPrepared(rec, Party(p));
      && Current(rec') && GsAt(rec'.gs, p + 1, 0, "none") && rec'.gs.rmState == rec.gs.rmState
      && (Accepted(rec'.log) <==> Accepted(rec.log) && Party(p) !in Parties(p))
  {
    hide Accepted, RecordDelivered, RecordTaken, Parties, Party, ToSet;
    var r := Party(p);
    PartiesGrow(p);
    var msg := ToCoordinator("Prepared", r);
    var arrived := RecordDelivered(rec, msg);
    DeliveredAccepted(rec, msg);
    var prev := arrived.log[|arrived.log| - 1].state;
    var gs := RecordPrepared(rec, r).gs;
    CaptureAccepted(arrived, gs, CReceivePrepare(r));
    assert Remove([msg], msg) == Remove([], msg) == [];
    assert prev.inbox["coordinator" := []] == StartBoxes;
    assert CheckCReceivePrepare(r, prev, gs) <==> r !in Parties(p);
  }

  lemma {:induction false} CommitsAccepted(rec: Recorder, p: nat, q: nat, decision: string, r: string)
    requires Current(rec) && GsAt(rec.gs, p, q, decision) && decision != "abort"
    ensures Current(RecordCommits(rec, r)) && GsAt(RecordCommits(rec, r).gs, p, q, "commit")
    ensures RecordCommits(rec, r).gs.rmState == rec.gs.rmState
    ensures Accepted(RecordCommits(rec, r).log) <==> Accepted(rec.log) && ToSet(Parties(p)) == RM
  {
    hide Accepted, RecordDelivered, RecordTaken, Parties, Party, ToSet;
    var msg := FromCoordinator("Commit", r);
    var prev := rec.log[|rec.log| - 1].state;
    var gs := Acting(WithOutbox(rec.gs.(tmDecision := "commit"), "coordinator", [msg]),
      PartyEntry("CSendCommit", r), "coordinator");
    var sent := Capture(rec, gs, CSendCommit(r));
    CaptureAccepted(rec, gs, CSendCommit(r));
    assert prev.outbox["coordinator"] + [msg] == [msg];
    assert CheckCSendCommit(r, prev, gs) <==> ToSet(Parties(p)) == RM;
    TakenAccepted(sent, msg);
  }

  lemma {:induction false} CommittedAccepted(rec: Recorder, p: nat, q: nat)
    requires Current(rec) && GsAt(rec.gs, p, q, "commit")
    ensures
      var rec' := RecordCommitted(rec, Party(q));
      && Current(rec') && GsAt(rec'.gs, p, q + 1, "commit") && rec'.gs.rmState == rec.gs.rmState
      && (Accepted(rec'.log) <==> Accepted(rec.log) && Party(q) !in Parties(q))
  {
    hide Accepted, RecordDelivered, RecordTaken, Parties, Party, ToSet;
    var r := Party(q);
    PartiesGrow(q);
    var msg := ToCoordinator("Committed", r);
    var arrived := RecordDelivered(rec, msg);
    DeliveredAccepted(rec, msg);
    var prev := arrived.log[|arrived.log| - 1].state;
    var gs := RecordCommitted(rec, r).gs;
    CaptureAccepted(arrived, gs, CReceiveCommit(r));
    assert Remove([msg], msg) == Remove([], msg) == [];
    assert prev.inbox["coordinator" := []] == StartBoxes;
    assert CheckCReceiveCommit(r, prev, gs) <==> r !in Parties(q);
  }

  lemma {:induction false} StartAccepted(rec: Recorder)
    ensures Current(RecordStart(rec)) && GsAt(RecordStart(rec).gs, 0, 0, "none")
    ensures RecordStart(rec).gs.rmState == StartState.rmState
    ensures Accepted(RecordStart(rec).log) <==> Accepted(rec.log)
  {
    hide Accepted;
    AcceptedExtends(rec.log, Event(Initial, StartState));
  }
}
