/** `Put` records only what the coordinator does. The trace of every successful `Put` can be
    completed, by steps of the participants and the network, to a run of the whole protocol. */
module Completions {
  import opened Replicas
  import opened Clusters
  import opened Monitors
  import opened Protocol
  import opened Recorders
  import opened Worlds

  // ---- what the coordinator sees of a trace ----

  predicate AtCoordinator(kind: Kind) {
    match kind
    case PHandlePrepare(_) => false
    case PHandleCommit(_) => false
    case PHandleAbort(_) => false
    case NetworkTakeMessage(msg) => msg.msource == "coordinator"
    case NetworkDeliverMessage(msg) => msg.mdest == "coordinator"
    case _ => true
  }

  /** An event with the coordinator's mailboxes and variables after it. */
  datatype View = View(
    kind: Kind, outbox: seq<Message>, inbox: seq<Message>,
    tmPrepared: seq<string>, tmCommitted: seq<string>, tmAborted: seq<string>, tmDecision: string)

  function BoxOf(boxes: Boxes, x: string): seq<Message> {
    if x in boxes then boxes[x] else []
  }

  function ViewOf(e: Event): View {
    var s := e.state;
    View(e.kind, BoxOf(s.outbox, "coordinator"), BoxOf(s.inbox, "coordinator"),
         s.tmPrepared, s.tmCommitted, s.tmAborted, s.tmDecision)
  }

  /** The coordinator's events of a trace, in order. */
  function Views(log: seq<Event>): seq<View> {
    if log == [] then []
    else
      var e := log[|log| - 1];
      Views(log[..|log| - 1]) + if AtCoordinator(e.kind) then [ViewOf(e)] else []
  }

  lemma ViewsAppend(log: seq<Event>, e: Event)
    ensures Views(log + [e]) == Views(log) + if AtCoordinator(e.kind) then [ViewOf(e)] else []
  {
    assert (log + [e])[..|log|] == log;
  }

  // ---- the completed run ----

  /** Participant `r` reads its only message, moves to `v` and answers. */
  function Handle(rec: Recorder, kind: Kind, entry: Entry, r: string, v: string, answer: Message): Recorder {
    var moved := rec.gs.(rmState := rec.gs.rmState[r := v]);
    Capture(rec, Acting(WithOutbox(WithInbox(moved, r, []), r, [answer]), entry, r), kind)
  }

  /** The participant's side of a prepare: the message arrives, is handled, the answer leaves. */
  function Prepares(rec: Recorder, r: string): Recorder {
    var answer := ToCoordinator("Prepared", r);
    RecordTaken(
      Handle(RecordDelivered(rec, FromCoordinator("Prepare", r)),
        PHandlePrepare(r), VoteEntry("PHandlePrepare", r, "prepared"), r, "prepared", answer),
      answer)
  }

  function CommitsAt(rec: Recorder, r: string): Recorder {
    var answer := ToCoordinator("Committed", r);
    RecordTaken(
      Handle(RecordDelivered(rec, FromCoordinator("Commit", r)),
        PHandleCommit(r), PartyEntry("PHandleCommit", r), r, "committed", answer),
      answer)
  }

  function RecordFull(rec: Recorder, mark: Mark): Recorder {
    match mark
    case GotPropose(pid) => RecordPrepared(Prepares(rec, Party(pid)), Party(pid))
    case GotCommit(pid) => RecordCommitted(CommitsAt(rec, Party(pid)), Party(pid))
    case _ => Record(rec, mark)
  }

  function RecordAllFull(rec: Recorder, marks: seq<Mark>): Recorder {
    if marks == [] then rec
    else RecordFull(RecordAllFull(rec, marks[..|marks| - 1]), marks[|marks| - 1])
  }

  lemma RecordTwoFull(rec: Recorder, a: Mark, b: Mark)
    ensures RecordAllFull(rec, []) == rec
    ensures RecordAllFull(rec, [a]) == RecordFull(rec, a)
    ensures RecordAllFull(rec, [a, b]) == RecordFull(RecordFull(rec, a), b)
  {
    assert [a][..0] == [] && [a, b][..1] == [a];
  }

  /** The trace of one `Put`, and its completion. */
  function TraceOfPut(c: Cluster, entry: Proposal, choices: seq<Choice>): Recorder {
    if choices == [] then Record(Recorder(StartState, []), Mark.Start)
    else
      var k := |choices| - 1;
      RecordAll(TraceOfPut(c, entry, choices[..k]), MarksOf(AdvanceAll(Begin(c, entry), choices[..k]), choices[k]))
  }

  function FullOfPut(c: Cluster, entry: Proposal, choices: seq<Choice>): Recorder {
    if choices == [] then Record(Recorder(StartState, []), Mark.Start)
    else
      var k := |choices| - 1;
      RecordAllFull(FullOfPut(c, entry, choices[..k]), MarksOf(AdvanceAll(Begin(c, entry), choices[..k]), choices[k]))
  }

  // ---- the invariant of the completed run ----

  /** One run, with `Initial` at its start only. */
  predicate SingleRun(log: seq<Event>) {
    log != [] && log[0].kind == Initial && forall k :: 0 < k < |log| ==> log[k].kind != Initial
  }

  predicate TookEarlier(log: seq<Event>, msg: Message) {
    exists k :: 0 < k < |log| && log[k].kind == NetworkTakeMessage(msg)
  }

  ghost predicate HonestRun(log: seq<Event>) {
    SingleRun(log) && Honest(log)
  }

  lemma {:induction false} LastInitialOfSingleRun(log: seq<Event>, i: nat)
    requires SingleRun(log) && i < |log|
    ensures LastInitial(log, i) == 0
  {
    if i > 0 {
      LastInitialOfSingleRun(log, i - 1);
    }
  }

  /** An honest step extends an honest run. */
  lemma {:induction false} HonestExtends(log: seq<Event>, e: Event)
    requires HonestRun(log) && e.kind != Initial
    requires e.kind.NetworkTakeMessage? || e.kind.NetworkDeliverMessage? ==> SameNodes(log[|log| - 1].state, e.state)
    requires e.kind.NetworkDeliverMessage? ==> TookEarlier(log, e.kind.msg)
    ensures HonestRun(log + [e])
    ensures e.kind.NetworkTakeMessage? ==> TookEarlier(log + [e], e.kind.msg)
  {
    var all := log + [e];
    assert all[|log| - 1] == log[|log| - 1] && all[|log|] == e;
    if e.kind.NetworkDeliverMessage? {
      var k :| 0 < k < |log| && log[k].kind == NetworkTakeMessage(e.kind.msg);
      LastInitialOfSingleRun(all, |log|);
      assert all[k] == log[k];
    }
    assert HonestAt(all, |log|);
    forall i | 0 < i < |log| ensures HonestAt(all, i) {
      assert HonestAt(log, i);
      LastInitialOfSingleRun(log, i);
      LastInitialOfSingleRun(all, i);
      assert all[i] == log[i] && all[i - 1] == log[i - 1];
      if log[i].kind.NetworkDeliverMessage? {
        var k :| 0 < k < i && log[k].kind == NetworkTakeMessage(log[i].kind.msg);
        assert all[k] == log[k];
      }
    }
  }

  lemma {:induction false} CaptureHonest(rec: Recorder, gs: State, kind: Kind)
    requires Current(rec) && HonestRun(rec.log) && kind != Initial
    requires kind.NetworkTakeMessage? || kind.NetworkDeliverMessage? ==> SameNodes(rec.gs, gs)
    requires kind.NetworkDeliverMessage? ==> TookEarlier(rec.log, kind.msg)
    ensures Current(Capture(rec, gs, kind)) && HonestRun(Capture(rec, gs, kind).log)
    ensures kind.NetworkTakeMessage? ==> TookEarlier(Capture(rec, gs, kind).log, kind.msg)
  {
    hide HonestRun;
    HonestExtends(rec.log, Event(kind, gs));
  }

  /** The coordinator's rounds are honest, given that the answer was taken. */
  lemma {:induction false} SendHonest(rec: Recorder, r: string)
    requires Current(rec) && HonestRun(rec.log)
    ensures
      var rec' := RecordProposes(rec, r);
      Current(rec') && HonestRun(rec'.log) && TookEarlier(rec'.log, FromCoordinator("Prepare", r))
    ensures
      var rec' := RecordCommits(rec, r);
      Current(rec') && HonestRun(rec'.log) && TookEarlier(rec'.log, FromCoordinator("Commit", r))
  {
    hide HonestRun, TookEarlier;
    var prepare, commit := FromCoordinator("Prepare", r), FromCoordinator("Commit", r);
    var gs := Acting(WithOutbox(rec.gs, "coordinator", [prepare]), PartyEntry("CSendPrepare", r), "coordinator");
    CaptureHonest(rec, gs, CSendPrepare(r));
    var sent := Capture(rec, gs, CSendPrepare(r));
    CaptureHonest(sent, RecordTaken(sent, prepare).gs, NetworkTakeMessage(prepare));
    gs := Acting(WithOutbox(rec.gs.(tmDecision := "commit"), "coordinator", [commit]),
      PartyEntry("CSendCommit", r), "coordinator");
    CaptureHonest(rec, gs, CSendCommit(r));
    sent := Capture(rec, gs, CSendCommit(r));
    CaptureHonest(sent, RecordTaken(sent, commit).gs, NetworkTakeMessage(commit));
  }

  lemma {:induction false} ReceiveHonest(rec: Recorder, r: string)
    requires Current(rec) && HonestRun(rec.log)
    ensures TookEarlier(rec.log, ToCoordinator("Prepared", r)) ==>
      Current(RecordPrepared(rec, r)) && HonestRun(RecordPrepared(rec, r).log)
    ensures TookEarlier(rec.log, ToCoordinator("Committed", r)) ==>
      Current(RecordCommitted(rec, r)) && HonestRun(RecordCommitted(rec, r).log)
  {
    hide HonestRun, TookEarlier;
    var prepared, committed := ToCoordinator("Prepared", r), ToCoordinator("Committed", r);
    if TookEarlier(rec.log, prepared) {
      var arrived := RecordDelivered(rec, prepared);
      CaptureHonest(rec, arrived.gs, NetworkDeliverMessage(prepared));
      CaptureHonest(arrived, RecordPrepared(rec, r).gs, CReceivePrepare(r));
    }
    if TookEarlier(rec.log, committed) {
      var arrived := RecordDelivered(rec, committed);
      CaptureHonest(rec, arrived.gs, NetworkDeliverMessage(committed));
      CaptureHonest(arrived, RecordCommitted(rec, r).gs, CReceiveCommit(r));
    }
  }

  /** The participant's rounds: accepted, honest, and ending with the answer taken. */
  lemma {:induction false} HandleRound(
      rec: Recorder, p: nat, q: nat, decision: string, r: string, query: string, v: string,
      kind: Kind, entry: Entry, answer: Message)
    requires Current(rec) && HonestRun(rec.log) && GsAt(rec.gs, p, q, decision)
    requires r in RM && TookEarlier(rec.log, FromCoordinator(query, r))
    requires
      || (kind == PHandlePrepare(r) && entry == VoteEntry("PHandlePrepare", r, "prepared") && query == "Prepare" &&
          v == "prepared" && answer == ToCoordinator("Prepared", r) && RmIs(rec.gs, r, "working"))
      || (kind == PHandleCommit(r) && entry == PartyEntry("PHandleCommit", r) && query == "Commit" &&
          v == "committed" && answer == ToCoordinator("Committed", r) && RmIs(rec.gs, r, "prepared"))
    ensures
      var arrived := RecordDelivered(rec, FromCoordinator(query, r));
      var rec' := RecordTaken(Handle(arrived, kind, entry, r, v, answer), answer);
      && Current(rec') && HonestRun(rec'.log) && TookEarlier(rec'.log, answer)
      && (Accepted(rec'.log) <==> Accepted(rec.log))
      && GsAt(rec'.gs, p, q, decision) && rec'.gs.rmState == rec.gs.rmState[r := v]
  {
    hide HonestRun, TookEarlier, Accepted;
    var msg := FromCoordinator(query, r);
    var arrived := RecordDelivered(rec, msg);
    DeliveredAccepted(rec, msg);
    CaptureHonest(rec, arrived.gs, NetworkDeliverMessage(msg));
    var handled := Handle(arrived, kind, entry, r, v, answer);
    var prev := arrived.log[|arrived.log| - 1].state;
    CaptureAccepted(arrived, handled.gs, kind);
    CaptureHonest(arrived, handled.gs, kind);
    assert Remove([msg], msg) == Remove([], msg) == [];
    assert TakeFromInbox(prev, handled.gs, msg);
    assert prev.outbox[r] + [answer] == [answer];
    assert Reply(prev, handled.gs, answer, msg);
    assert CheckEvent(prev, Event(kind, handled.gs));
    TakenAccepted(handled, answer);
    CaptureHonest(handled, RecordTaken(handled, answer).gs, NetworkTakeMessage(answer));
  }

  // ---- agreement with the recorded trace ----

  /** The same coordinator variables, and the same coordinator events so far. */
  predicate Agree(a: Recorder, b: Recorder) {
    && ViewOf(Event(Initial, a.gs)) == ViewOf(Event(Initial, b.gs))
    && Views(a.log) == Views(b.log)
  }

  lemma {:induction false} CaptureAgrees(a: Recorder, b: Recorder, s: State, t: State, kind: Kind)
    requires Agree(a, b) && ViewOf(Event(kind, s)) == ViewOf(Event(kind, t))
    ensures Agree(Capture(a, s, kind), Capture(b, t, kind))
  {
    hide Views;
    ViewsAppend(a.log, Event(kind, s));
    ViewsAppend(b.log, Event(kind, t));
  }

  lemma {:induction false} TakenAgrees(a: Recorder, b: Recorder, msg: Message)
    requires Agree(a, b) && msg.msource == "coordinator"
    ensures Agree(RecordTaken(a, msg), RecordTaken(b, msg))
  {
    hide Views;
    CaptureAgrees(a, b, RecordTaken(a, msg).gs, RecordTaken(b, msg).gs, NetworkTakeMessage(msg));
  }

  lemma {:induction false} DeliveredAgrees(a: Recorder, b: Recorder, msg: Message)
    requires Agree(a, b) && msg.mdest == "coordinator"
    ensures Agree(RecordDelivered(a, msg), RecordDelivered(b, msg))
  {
    hide Views;
    CaptureAgrees(a, b, RecordDelivered(a, msg).gs, RecordDelivered(b, msg).gs, NetworkDeliverMessage(msg));
  }

  lemma {:induction false} SendAgrees(a: Recorder, b: Recorder, r: string)
    requires Agree(a, b)
    ensures Agree(RecordProposes(a, r), RecordProposes(b, r))
    ensures Agree(RecordCommits(a, r), RecordCommits(b, r))
  {
    hide Views;
    var prepare, commit := FromCoordinator("Prepare", r), FromCoordinator("Commit", r);
    var entry := PartyEntry("CSendPrepare", r);
    var s := Acting(WithOutbox(a.gs, "coordinator", [prepare]), entry, "coordinator");
    var t := Acting(WithOutbox(b.gs, "coordinator", [prepare]), entry, "coordinator");
    CaptureAgrees(a, b, s, t, CSendPrepare(r));
    TakenAgrees(Capture(a, s, CSendPrepare(r)), Capture(b, t, CSendPrepare(r)), prepare);
    entry := PartyEntry("CSendCommit", r);
    s := Acting(WithOutbox(a.gs.(tmDecision := "commit"), "coordinator", [commit]), entry, "coordinator");
    t := Acting(WithOutbox(b.gs.(tmDecision := "commit"), "coordinator", [commit]), entry, "coordinator");
    CaptureAgrees(a, b, s, t, CSendCommit(r));
    TakenAgrees(Capture(a, s, CSendCommit(r)), Capture(b, t, CSendCommit(r)), commit);
  }

  lemma {:induction false} ReceiveAgrees(a: Recorder, b: Recorder, r: string)
    requires Agree(a, b)
    ensures Agree(RecordPrepared(a, r), RecordPrepared(b, r))
    ensures Agree(RecordCommitted(a, r), RecordCommitted(b, r))
  {
    hide Views;
    var prepared, committed := ToCoordinator("Prepared", r), ToCoordinator("Committed", r);
    DeliveredAgrees(a, b, prepared);
    CaptureAgrees(RecordDelivered(a, prepared), RecordDelivered(b, prepared),
      RecordPrepared(a, r).gs, RecordPrepared(b, r).gs, CReceivePrepare(r));
    DeliveredAgrees(a, b, committed);
    CaptureAgrees(RecordDelivered(a, committed), RecordDelivered(b, committed),
      RecordCommitted(a, r).gs, RecordCommitted(b, r).gs, CReceiveCommit(r));
  }

  /** What goes on at a participant is invisible at the coordinator. */
  lemma {:induction false} HiddenAgrees(a: Recorder, b: Recorder, t: State, kind: Kind)
    requires Agree(a, b) && !AtCoordinator(kind) && ViewOf(Event(Initial, t)) == ViewOf(Event(Initial, b.gs))
    ensures Agree(a, Capture(b, t, kind))
  {
    hide Views;
    ViewsAppend(b.log, Event(kind, t));
  }

  lemma {:induction false} HandleAgrees(a: Recorder, b: Recorder, r: string)
    requires Agree(a, b) && r != "coordinator"
    ensures Agree(a, Prepares(b, r)) && Agree(a, CommitsAt(b, r))
  {
    hide Views;
    var b1 := RecordDelivered(b, FromCoordinator("Prepare", r));
    HiddenAgrees(a, b, b1.gs, NetworkDeliverMessage(FromCoordinator("Prepare", r)));
    var b2 := Handle(b1, PHandlePrepare(r), VoteEntry("PHandlePrepare", r, "prepared"), r, "prepared",
      ToCoordinator("Prepared", r));
    HiddenAgrees(a, b1, b2.gs, PHandlePrepare(r));
    HiddenAgrees(a, b2, Prepares(b, r).gs, NetworkTakeMessage(ToCoordinator("Prepared", r)));
    b1 := RecordDelivered(b, FromCoordinator("Commit", r));
    HiddenAgrees(a, b, b1.gs, NetworkDeliverMessage(FromCoordinator("Commit", r)));
    b2 := Handle(b1, PHandleCommit(r), PartyEntry("PHandleCommit", r), r, "committed", ToCoordinator("Committed", r));
    HiddenAgrees(a, b1, b2.gs, PHandleCommit(r));
    HiddenAgrees(a, b2, CommitsAt(b, r).gs, NetworkTakeMessage(ToCoordinator("Committed", r)));
  }

  // ---- the theorem ----

  function RmValue(i: nat, p: nat, q: nat): string {
    if i < q then "committed" else if i < p then "prepared" else "working"
  }

  function RmStates(p: nat, q: nat): map<string, string> {
    map["r1" := RmValue(0, p, q), "r2" := RmValue(1, p, q)]
  }

  /** A run of the whole protocol that the monitor accepts and whose network is honest. */
  ghost predicate FullRun(rec: Recorder) {
    Current(rec) && HonestRun(rec.log) && Accepted(rec.log)
  }

  /** The completed run with `p` participants prepared, of which `q` committed. */
  ghost predicate FullAt(rec: Recorder, p: nat, q: nat) {
    && FullRun(rec)
    && GsAt(rec.gs, p, q, if q == 0 then "none" else "commit")
    && rec.gs.rmState == RmStates(p, q)
  }

  lemma {:induction false} FullStart()
    ensures FullAt(Record(Recorder(StartState, []), Mark.Start), 0, 0)
  {
    hide Accepted;
    StartAccepted(Recorder(StartState, []));
    EmptyAccepted();
  }

  lemma {:induction false} PreparesRound(rec: Recorder, p: nat, r: string)
    requires Current(rec) && HonestRun(rec.log) && GsAt(rec.gs, p, 0, "none")
    requires r in RM && RmIs(rec.gs, r, "working") && TookEarlier(rec.log, FromCoordinator("Prepare", r))
    ensures
      var rec' := Prepares(rec, r);
      && Current(rec') && HonestRun(rec'.log) && TookEarlier(rec'.log, ToCoordinator("Prepared", r))
      && (Accepted(rec'.log) <==> Accepted(rec.log))
      && GsAt(rec'.gs, p, 0, "none") && rec'.gs.rmState == rec.gs.rmState[r := "prepared"]
  {
    hide HonestRun, TookEarlier, Accepted, GsAt, Current;
    HandleRound(rec, p, 0, "none", r, "Prepare", "prepared",
      PHandlePrepare(r), VoteEntry("PHandlePrepare", r, "prepared"), ToCoordinator("Prepared", r));
  }

  lemma {:induction false} CommitsRound(rec: Recorder, q: nat, r: string)
    requires Current(rec) && HonestRun(rec.log) && GsAt(rec.gs, 2, q, "commit")
    requires r in RM && RmIs(rec.gs, r, "prepared") && TookEarlier(rec.log, FromCoordinator("Commit", r))
    ensures
      var rec' := CommitsAt(rec, r);
      && Current(rec') && HonestRun(rec'.log) && TookEarlier(rec'.log, ToCoordinator("Committed", r))
      && (Accepted(rec'.log) <==> Accepted(rec.log))
      && GsAt(rec'.gs, 2, q, "commit") && rec'.gs.rmState == rec.gs.rmState[r := "committed"]
  {
    hide HonestRun, TookEarlier, Accepted, GsAt, Current;
    HandleRound(rec, 2, q, "commit", r, "Commit", "committed",
      PHandleCommit(r), PartyEntry("PHandleCommit", r), ToCoordinator("Committed", r));
  }

  /** The participants' states as the completed run goes from one phase to the next. */
  lemma RmValues(pid: nat)
    requires pid < 2
    ensures
      var r := Party(pid);
      && RmStates(pid, 0)[r := "prepared"] == RmStates(pid + 1, 0)
      && RmStates(2, pid)[r := "committed"] == RmStates(2, pid + 1)
      && r in RM && r in RmStates(pid, 0) && r in RmStates(2, pid)
      && RmStates(pid, 0)[r] == "working" && RmStates(2, pid)[r] == "prepared"
  {
    PartiesOfTwo();
  }

  lemma {:induction false} FullProposes(full: Recorder, pid: nat)
    requires FullAt(full, pid, 0) && pid < 2
    ensures FullAt(RecordFull(full, SendsPropose(pid)), pid, 0)
    ensures FullAt(RecordFull(RecordFull(full, SendsPropose(pid)), GotPropose(pid)), pid + 1, 0)
  {
    hide Accepted, HonestRun, TookEarlier, Parties, Party, GsAt, Current;
    hide RecordProposes, RecordPrepared, Prepares, RmStates;
    var r := Party(pid);
    PartiesOfTwo();
    RmValues(pid);
    var sent := RecordProposes(full, r);
    ProposesAccepted(full, pid, r);
    SendHonest(full, r);
    PreparesRound(sent, pid, r);
    PreparedAccepted(Prepares(sent, r), pid);
    ReceiveHonest(Prepares(sent, r), r);
  }

  lemma {:induction false} FullCommits(full: Recorder, pid: nat)
    requires FullAt(full, 2, pid) && pid < 2
    ensures FullRun(RecordFull(full, SendsCommit(pid)))
    ensures FullAt(RecordFull(RecordFull(full, SendsCommit(pid)), GotCommit(pid)), 2, pid + 1)
  {
    hide Accepted, HonestRun, TookEarlier, Parties, Party, GsAt, Current;
    hide RecordCommits, RecordCommitted, CommitsAt, RmStates;
    var r := Party(pid);
    PartiesOfTwo();
    RmValues(pid);
    var sent := RecordCommits(full, r);
    CommitsAccepted(full, 2, pid, if pid == 0 then "none" else "commit", r);
    SendHonest(full, r);
    CommitsRound(sent, pid, r);
    CommittedAccepted(CommitsAt(sent, r), 2, pid);
    ReceiveHonest(CommitsAt(sent, r), r);
  }

  lemma {:induction false} RoundsAgree(a: Recorder, b: Recorder, pid: nat)
    requires Agree(a, b)
    ensures
      var a1, b1 := Record(a, SendsPropose(pid)), RecordFull(b, SendsPropose(pid));
      Agree(a1, b1) && Agree(Record(a1, GotPropose(pid)), RecordFull(b1, GotPropose(pid)))
    ensures
      var a1, b1 := Record(a, SendsCommit(pid)), RecordFull(b, SendsCommit(pid));
      Agree(a1, b1) && Agree(Record(a1, GotCommit(pid)), RecordFull(b1, GotCommit(pid)))
  {
    hide Agree, Prepares, CommitsAt, RecordProposes, RecordCommits, RecordPrepared, RecordCommitted;
    var r := Party(pid);
    assert r[0] == 'r';
    SendAgrees(a, b, r);
    HandleAgrees(RecordProposes(a, r), RecordProposes(b, r), r);
    ReceiveAgrees(RecordProposes(a, r), Prepares(RecordProposes(b, r), r), r);
    HandleAgrees(RecordCommits(a, r), RecordCommits(b, r), r);
    ReceiveAgrees(RecordCommits(a, r), CommitsAt(RecordCommits(b, r), r), r);
  }

  /** How far the completed run has got, by the phase of `Put`. However that ends, the run is one
      of the whole protocol. */
  ghost predicate FullOk(c: Cluster, full: Recorder)
    requires Wf(c)
  {
    match c.phase
    case Idle => FullRun(full) && (c.reply == Completed ==> FullAt(full, 2, 2))
    case Proposing(pid) => FullAt(full, pid, 0)
    case Committing(pid) => FullAt(full, 2, pid)
    case _ => FullAt(full, 2, 0)
  }

  lemma {:induction false} FullStep(c: Cluster, full: Recorder, trace: Recorder, ch: Choice)
    requires Wf(c) && |c.followers| == 2 && FullOk(c, full) && Agree(trace, full)
    ensures FullOk(Advance(c, ch), RecordAllFull(full, MarksOf(c, ch)))
    ensures Agree(RecordAll(trace, MarksOf(c, ch)), RecordAllFull(full, MarksOf(c, ch)))
  {
    hide FullAt, FullRun, Agree, Record, RecordFull, RecordAll, RecordAllFull;
    match c.phase
    case Proposing(pid) =>
      FullProposes(full, pid);
      RoundsAgree(trace, full, pid);
      RecordTwo(trace, SendsPropose(pid), GotPropose(pid));
      RecordTwoFull(full, SendsPropose(pid), GotPropose(pid));
      assert [SendsPropose(pid)] + [GotPropose(pid)] == [SendsPropose(pid), GotPropose(pid)];
      assert [SendsPropose(pid)] + [] == [SendsPropose(pid)];
    case Committing(pid) =>
      FullCommits(full, pid);
      FullAtRun(RecordFull(RecordFull(full, SendsCommit(pid)), GotCommit(pid)), 2, pid + 1);
      RoundsAgree(trace, full, pid);
      CommitPhases(c, ch);
      RecordTwo(trace, SendsCommit(pid), GotCommit(pid));
      RecordTwoFull(full, SendsCommit(pid), GotCommit(pid));
      assert [SendsCommit(pid)] + [GotCommit(pid)] == [SendsCommit(pid), GotCommit(pid)];
      assert [SendsCommit(pid)] + [] == [SendsCommit(pid)];
    case _ =>
      FullAtRun(full, 2, 0);
      RecordTwoFull(full, Mark.Start, Mark.Start);
      RecordNone(trace);
  }

  lemma FullAtRun(full: Recorder, p: nat, q: nat)
    ensures FullAt(full, p, q) ==> FullRun(full)
  {
  }

  lemma RecordNone(rec: Recorder)
    ensures RecordAll(rec, []) == rec
  {
  }

  /** At every point of a `Put`, and at its end, however it ends, its trace has a completion. */
  lemma {:induction false} PutHasCompletion(c: Cluster, entry: Proposal, choices: seq<Choice>)
    requires |c.followers| == 2
    ensures FullOk(AdvanceAll(Begin(c, entry), choices), FullOfPut(c, entry, choices))
    ensures Agree(TraceOfPut(c, entry, choices), FullOfPut(c, entry, choices))
  {
    hide FullAt, FullRun, Agree, Record, RecordAll, RecordAllFull, MarksOf, Advance;
    if choices == [] {
      FullStart();
      AgreeReflexive(TraceOfPut(c, entry, choices));
    } else {
      var k := |choices| - 1;
      PutHasCompletion(c, entry, choices[..k]);
      FullStep(AdvanceAll(Begin(c, entry), choices[..k]),
        FullOfPut(c, entry, choices[..k]), TraceOfPut(c, entry, choices[..k]), choices[k]);
    }
  }

  lemma AgreeReflexive(a: Recorder)
    ensures Agree(a, a)
  {
  }

  /** Completion: the trace of every successful `Put` with two followers, with any number of
      retries, extends to a run of the whole protocol that the monitor accepts and in which the
      network is honest. The run shows the same events at the coordinator, with the same mailboxes
      and variables, and both participants end committed. */
  lemma Completion(c: Cluster, entry: Proposal, choices: seq<Choice>) returns (run: seq<Event>)
    requires |c.followers| == 2
    requires
      var done := AdvanceAll(Begin(c, entry), choices);
      done.phase == Idle && done.reply == Completed
    ensures run != [] && Accepted(run) && Honest(run)
    ensures Views(run) == Views(TraceOfPut(c, entry, choices).log)
    ensures RmIs(run[|run| - 1].state, "r1", "committed") && RmIs(run[|run| - 1].state, "r2", "committed")
  {
    hide Accepted, Views, RecordAll, RecordAllFull, MarksOf;
    PutHasCompletion(c, entry, choices);
    run := FullOfPut(c, entry, choices).log;
  }

  // ---- the trace of a Put is what the monitor holds ----

  lemma {:induction false} RecordShifts(before: seq<Event>, rec: Recorder, mark: Mark)
    ensures
      var shifted := Record(Recorder(rec.gs, before + rec.log), mark);
      shifted == Recorder(Record(rec, mark).gs, before + Record(rec, mark).log)
  {
    forall e: Event, log: seq<Event> ensures before + log + [e] == before + (log + [e]) {
    }
  }

  lemma {:induction false} RecordAllShifts(before: seq<Event>, rec: Recorder, marks: seq<Mark>)
    ensures
      RecordAll(Recorder(rec.gs, before + rec.log), marks) ==
      Recorder(RecordAll(rec, marks).gs, before + RecordAll(rec, marks).log)
  {
    hide Record;
    if marks != [] {
      var k := |marks| - 1;
      RecordAllShifts(before, rec, marks[..k]);
      RecordShifts(before, RecordAll(rec, marks[..k]), marks[k]);
    }
  }

  /** Until a `Put` completes, the monitor holds the events of earlier failed `Put`s followed by
      the trace of this one. */
  lemma {:induction false} MonitorHoldsTrace(w: World, entry: Proposal, choices: seq<Choice>)
    requires Wf(w.cluster) && w.cluster.phase == Idle
    requires
      var now := AdvanceAll(Begin(w.cluster, entry), choices);
      !(now.phase == Idle && now.reply == Completed)
    ensures
      var trace := TraceOfPut(w.cluster, entry, choices);
      StepAll(Launch(w, entry), choices) ==
        World(AdvanceAll(Begin(w.cluster, entry), choices), Recorder(trace.gs, w.rec.log + trace.log), w.crashed)
  {
    hide Accepted, Record, RecordAll, MarksOf;
    if choices == [] {
      StartShifts(w.rec);
    } else {
      var k := |choices| - 1;
      var before := AdvanceAll(Begin(w.cluster, entry), choices[..k]);
      MonitorHoldsTrace(w, entry, choices[..k]);
      RecordAllShifts(w.rec.log, TraceOfPut(w.cluster, entry, choices[..k]), MarksOf(before, choices[k]));
    }
  }

  /** The log that the check at the end of a `Put` decides about is what earlier calls left, followed
      by the whole trace of this one, which is the trace that `Completion` extends. */
  lemma CheckExaminesTrace(w: World, entry: Proposal, choices: seq<Choice>, ch: Choice)
    requires Wf(w.cluster) && w.cluster.phase == Idle && !w.crashed
    requires
      var began := Begin(w.cluster, entry);
      JustCompleted(AdvanceAll(began, choices), AdvanceAll(began, choices + [ch]))
    ensures
      var trace := TraceOfPut(w.cluster, entry, choices + [ch]);
      var examined := w.rec.log + trace.log;
      StepAll(Launch(w, entry), choices + [ch]) ==
        World(AdvanceAll(Begin(w.cluster, entry), choices + [ch]),
          Recorder(trace.gs, if Accepted(examined) then [] else examined), !Accepted(examined))
  {
    hide Accepted, Record, RecordAll, MarksOf, Advance;
    var last, trace := AdvanceAll(Begin(w.cluster, entry), choices), TraceOfPut(w.cluster, entry, choices);
    assert (choices + [ch])[..|choices|] == choices;
    MonitorHoldsTrace(w, entry, choices);
    RecordAllShifts(w.rec.log, trace, MarksOf(last, ch));
  }

  lemma StartShifts(rec: Recorder)
    ensures
      var start := Record(Recorder(StartState, []), Mark.Start);
      Record(rec, Mark.Start) == Recorder(start.gs, rec.log + start.log)
  {
    assert rec.log + ([] + [Event(Initial, StartState)]) == rec.log + [Event(Initial, StartState)];
  }

  predicate AllVisible(log: seq<Event>) {
    forall i :: 0 <= i < |log| ==> AtCoordinator(log[i].kind)
  }

  lemma {:induction false} VisibleViews(log: seq<Event>)
    requires AllVisible(log)
    ensures |Views(log)| == |log|
  {
    if log != [] {
      VisibleViews(log[..|log| - 1]);
    }
  }

  lemma RecordVisible(rec: Recorder, mark: Mark)
    requires AllVisible(rec.log)
    ensures AllVisible(Record(rec, mark).log)
  {
  }

  lemma {:induction false} RecordAllVisible(rec: Recorder, marks: seq<Mark>)
    requires AllVisible(rec.log)
    ensures AllVisible(RecordAll(rec, marks).log)
  {
    hide Record, AllVisible;
    if marks != [] {
      RecordAllVisible(rec, marks[..|marks| - 1]);
      RecordVisible(RecordAll(rec, marks[..|marks| - 1]), marks[|marks| - 1]);
    }
  }

  /** Every event that `Put` records is the coordinator's, so that the views of its trace leave
      nothing out. */
  lemma {:induction false} TraceIsVisible(c: Cluster, entry: Proposal, choices: seq<Choice>)
    ensures AllVisible(TraceOfPut(c, entry, choices).log)
    ensures |Views(TraceOfPut(c, entry, choices).log)| == |TraceOfPut(c, entry, choices).log|
  {
    if choices != [] {
      var k := |choices| - 1;
      TraceIsVisible(c, entry, choices[..k]);
      var before := AdvanceAll(Begin(c, entry), choices[..k]);
      RecordAllVisible(TraceOfPut(c, entry, choices[..k]), MarksOf(before, choices[k]));
    }
    VisibleViews(TraceOfPut(c, entry, choices).log);
  }
}
