/** The traces that `Put` records, checked as TLA+ values. */
module Conformance {
  import opened Numerals
  import opened Clusters
  import opened Monitors
  import opened Recorders
  import opened Worlds
  import opened TlaChecks
  import T = Tla

  predicate EventOk(e: Event) {
    StateOk(e.state) && KindOk(e.kind)
  }

  predicate LogOk(log: seq<Event>) {
    forall i :: 0 <= i < |log| ==> EventOk(log[i])
  }

  ghost predicate TPasses(log: seq<Event>, i: nat)
    requires i < |log|
  {
    TCheckEvent(OfState(Before(log, i)), log[i].kind, OfState(log[i].state))
  }

  /** The monitor over TLA+ values accepts the trace. */
  ghost predicate TAccepted(log: seq<Event>) {
    forall i :: 0 <= i < |log| ==> TPasses(log, i)
  }

  lemma {:induction false} TracesAgree(log: seq<Event>)
    requires LogOk(log)
    ensures TAccepted(log) <==> Accepted(log)
  {
    hide TCheckEvent, CheckEvent, StateOk, KindOk;
    forall i | 0 <= i < |log| ensures TPasses(log, i) <==> Passes(log, i) {
      assert EventOk(log[i]) && EventOk(log[if i == 0 then 0 else i - 1]);
      assert StateOk(Before(log, i)) && KindOk(log[i].kind);
      ChecksAgree(Before(log, i), log[i]);
    }
  }

  // ---- what `Put` records consists of identifiers ----

  lemma {:induction false} DecimalTokens(n: nat)
    ensures Decimal(n) != "" && forall i :: 0 <= i < |Decimal(n)| ==> T.IsDigit(Decimal(n)[i])
  {
    if n >= 10 {
      DecimalTokens(n / 10);
    }
  }

  lemma PartyIdentifier(pid: nat)
    ensures T.Identifier(Party(pid))
  {
    var digits := Decimal(pid + 1);
    DecimalTokens(pid + 1);
    assert Party(pid)[0] == 'r' && Party(pid)[1] == digits[0];
    forall i | 0 <= i < |Party(pid)| ensures T.TokenChar(Party(pid)[i]) {
      assert i > 0 ==> Party(pid)[i] == digits[i - 1];
    }
  }

  /** Different followers have different names. */
  lemma PartiesDiffer(i: nat, j: nat)
    requires Party(i) == Party(j)
    ensures i == j
  {
    T.DecimalRoundTrip(i + 1);
    T.DecimalRoundTrip(j + 1);
    assert Party(i)[1..] == Decimal(i + 1) && Party(j)[1..] == Decimal(j + 1);
  }

  predicate RecOk(rec: Recorder) {
    StateOk(rec.gs) && LogOk(rec.log)
  }

  lemma CaptureOk(rec: Recorder, gs: State, kind: Kind)
    requires RecOk(rec) && StateOk(gs) && KindOk(kind)
    ensures RecOk(Capture(rec, gs, kind))
  {
    hide StateOk, KindOk;
  }

  lemma BoxesOk(gs: State, x: string, msgs: seq<Message>, entry: Entry, who: string)
    requires StateOk(gs) && MessagesOk(msgs)
    ensures StateOk(Acting(WithOutbox(gs, x, msgs), entry, who))
    ensures StateOk(Acting(WithInbox(gs, x, msgs), entry, who))
  {
    hide T.Identifier, MessageOk;
  }

  lemma ListsOk(gs: State, r: string)
    requires StateOk(gs) && T.Identifier(r)
    ensures StateOk(gs.(tmPrepared := gs.tmPrepared + [r])) && StateOk(gs.(tmCommitted := gs.tmCommitted + [r]))
    ensures StateOk(gs.(tmDecision := "commit"))
  {
    hide T.Identifier;
  }

  lemma TakenOk(rec: Recorder, msg: Message)
    requires RecOk(rec) && MessageOk(msg)
    ensures RecOk(RecordTaken(rec, msg))
  {
    hide StateOk, MessageOk;
    BoxesOk(rec.gs, msg.msource, [], MessageEntry("NetworkTakeMessage", msg), "Network");
    CaptureOk(rec, RecordTaken(rec, msg).gs, NetworkTakeMessage(msg));
  }

  lemma DeliveredOk(rec: Recorder, msg: Message)
    requires RecOk(rec) && MessageOk(msg)
    ensures RecOk(RecordDelivered(rec, msg))
  {
    hide StateOk, MessageOk;
    BoxesOk(rec.gs, msg.mdest, [msg], MessageEntry("NetworkDeliverMessage", msg), "Network");
    CaptureOk(rec, RecordDelivered(rec, msg).gs, NetworkDeliverMessage(msg));
  }

  /** The coordinator sends a message, and the network takes it. */
  lemma SentOk(rec: Recorder, gs: State, msg: Message, entry: Entry, kind: Kind)
    requires RecOk(rec) && StateOk(gs) && MessageOk(msg) && KindOk(kind)
    ensures
      var sent := Acting(WithOutbox(gs, "coordinator", [msg]), entry, "coordinator");
      RecOk(RecordTaken(Capture(rec, sent, kind), msg))
  {
    hide StateOk, MessageOk, KindOk, RecordTaken;
    BoxesOk(gs, "coordinator", [msg], entry, "coordinator");
    CaptureOk(rec, Acting(WithOutbox(gs, "coordinator", [msg]), entry, "coordinator"), kind);
    TakenOk(Capture(rec, Acting(WithOutbox(gs, "coordinator", [msg]), entry, "coordinator"), kind), msg);
  }

  /** The coordinator empties its inbox. */
  lemma ReceivedOk(arrived: Recorder, gs: State, entry: Entry, kind: Kind)
    requires RecOk(arrived) && StateOk(gs) && KindOk(kind)
    ensures RecOk(Capture(arrived, Acting(WithInbox(gs, "coordinator", []), entry, "coordinator"), kind))
  {
    hide StateOk, KindOk;
    BoxesOk(gs, "coordinator", [], entry, "coordinator");
    CaptureOk(arrived, Acting(WithInbox(gs, "coordinator", []), entry, "coordinator"), kind);
  }

  lemma StartStateOk()
    ensures StateOk(StartState)
  {
    hide T.Identifier;
    RmNames();
    var s := StartState;
    assert StringsOk([]) && MessagesOk([]);
    assert forall x :: x in s.outbox ==> s.outbox[x] == [];
    assert forall x :: x in s.inbox ==> s.inbox[x] == [];
    assert forall r :: r in s.rmState ==> s.rmState[r] == "working";
  }

  lemma StartOk(rec: Recorder)
    requires RecOk(rec)
    ensures RecOk(RecordStart(rec))
  {
    hide StringsOk, MessagesOk, EventOk;
    StartStateOk();
    CaptureOk(rec, StartState, Initial);
  }

  lemma PartyRecordsOk(rec: Recorder, r: string)
    requires RecOk(rec) && T.Identifier(r)
    ensures RecOk(RecordProposes(rec, r)) && RecOk(RecordPrepared(rec, r))
    ensures RecOk(RecordCommits(rec, r)) && RecOk(RecordCommitted(rec, r))
  {
    hide T.Identifier, StateOk, RecordTaken, RecordDelivered, RecOk;
    assert StateOk(rec.gs) by { Unfold(rec); }
    FieldNames();
    TypeNames();
    ListsOk(rec.gs, r);
    SentOk(rec, rec.gs, FromCoordinator("Prepare", r), PartyEntry("CSendPrepare", r), CSendPrepare(r));
    SentOk(rec, rec.gs.(tmDecision := "commit"), FromCoordinator("Commit", r),
      PartyEntry("CSendCommit", r), CSendCommit(r));
    var prepared := RecordDelivered(rec, ToCoordinator("Prepared", r));
    DeliveredOk(rec, ToCoordinator("Prepared", r));
    Unfold(prepared);
    ListsOk(prepared.gs, r);
    ReceivedOk(prepared, prepared.gs.(tmPrepared := prepared.gs.tmPrepared + [r]),
      PartyEntry("CReceivePrepare", r), CReceivePrepare(r));
    var committed := RecordDelivered(rec, ToCoordinator("Committed", r));
    DeliveredOk(rec, ToCoordinator("Committed", r));
    Unfold(committed);
    ListsOk(committed.gs, r);
    ReceivedOk(committed, committed.gs.(tmCommitted := committed.gs.tmCommitted + [r]),
      PartyEntry("CReceiveCommit", r), CReceiveCommit(r));
  }

  lemma Unfold(rec: Recorder)
    requires RecOk(rec)
    ensures StateOk(rec.gs) && LogOk(rec.log)
  {
  }

  lemma {:induction false} RecordKeepsOk(rec: Recorder, mark: Mark)
    requires RecOk(rec)
    ensures RecOk(Record(rec, mark))
  {
    hide RecOk, RecordStart, RecordProposes, RecordPrepared, RecordCommits, RecordCommitted, T.Identifier;
    if mark == Mark.Start {
      StartOk(rec);
    } else {
      PartyIdentifier(mark.pid);
      PartyRecordsOk(rec, Party(mark.pid));
    }
  }

  lemma {:induction false} RecordAllKeepsOk(rec: Recorder, marks: seq<Mark>)
    requires RecOk(rec)
    ensures RecOk(RecordAll(rec, marks))
  {
    hide RecOk, Record;
    if marks != [] {
      RecordAllKeepsOk(rec, marks[..|marks| - 1]);
      RecordKeepsOk(RecordAll(rec, marks[..|marks| - 1]), marks[|marks| - 1]);
    }
  }

  lemma {:induction false} PlayKeepsOk(w: World, actions: seq<Action>)
    requires Wf(w.cluster) && RecOk(w.rec)
    ensures RecOk(Play(w, actions).rec)
  {
    hide Accepted, Record, StateOk, EventOk, Advance, MarksOf;
    if actions != [] {
      var before := Play(w, actions[..|actions| - 1]);
      PlayKeepsOk(w, actions[..|actions| - 1]);
      match actions[|actions| - 1]
      case Call(_) => RecordKeepsOk(before.rec, Mark.Start);
      case Env(ch) => RecordAllKeepsOk(before.rec, MarksOf(before.cluster, ch));
    }
  }

  /** Conformance of the real checks: at every point of every run, the monitor that compares TLA+
      values and hashes them accepts the buffered trace if and only if the typed monitor does; with
      two followers it always does. */
  lemma PutTracesAgree(w: World, actions: seq<Action>)
    requires FreshWorld(w) && RecOk(w.rec)
    ensures TAccepted(Play(w, actions).rec.log) <==> Accepted(Play(w, actions).rec.log)
    ensures |w.cluster.followers| == 2 ==> TAccepted(Play(w, actions).rec.log)
  {
    hide Accepted, TAccepted;
    PlayKeepsOk(w, actions);
    TracesAgree(Play(w, actions).rec.log);
    if |w.cluster.followers| == 2 {
      NoFalseAlarm(w, actions);
    }
  }

  // ---- runs in which that monitor gives the verdicts ----

  ghost function TStep(w: World, ch: Choice): (w': World)
    requires Wf(w.cluster)
    ensures Wf(w'.cluster)
  {
    var next := w.(cluster := Advance(w.cluster, ch), rec := RecordAll(w.rec, MarksOf(w.cluster, ch)));
    if !JustCompleted(w.cluster, next.cluster) then next
    else if TAccepted(next.rec.log) then next.(rec := next.rec.(log := []))
    else next.(crashed := true)
  }

  ghost function TAct(w: World, action: Action): (w': World)
    requires Wf(w.cluster)
    ensures Wf(w'.cluster)
  {
    match action
    case Call(_) => Act(w, action)
    case Env(ch) => TStep(w, ch)
  }

  ghost function TPlay(w: World, actions: seq<Action>): (w': World)
    requires Wf(w.cluster)
    ensures Wf(w'.cluster)
  {
    if actions == [] then w else TAct(TPlay(w, actions[..|actions| - 1]), actions[|actions| - 1])
  }

  lemma {:induction false} TStepIsStep(w: World, ch: Choice)
    requires Wf(w.cluster) && RecOk(w.rec)
    ensures TStep(w, ch) == Step(w, ch)
  {
    hide Accepted, TAccepted, RecordAll, MarksOf, Advance, RecOk;
    var rec := RecordAll(w.rec, MarksOf(w.cluster, ch));
    RecordAllKeepsOk(w.rec, MarksOf(w.cluster, ch));
    Unfold(rec);
    TracesAgree(rec.log);
  }

  /** A run whose verdicts the monitor over TLA+ values gives is the run with the typed monitor. */
  lemma {:induction false} TPlayIsPlay(w: World, actions: seq<Action>)
    requires Wf(w.cluster) && RecOk(w.rec)
    ensures TPlay(w, actions) == Play(w, actions)
  {
    hide TStep, Step, RecOk;
    if actions != [] {
      var before := actions[..|actions| - 1];
      TPlayIsPlay(w, before);
      PlayKeepsOk(w, before);
      match actions[|actions| - 1]
      case Call(_) =>
      case Env(ch) => TStepIsStep(Play(w, before), ch);
    }
  }

  lemma NewRecOk()
    ensures RecOk(Recorder(StartState, []))
  {
    hide StateOk;
    StartStateOk();
  }
}
