/** In an accepted trace whose network is honest, the events since the last `Initial` determine the
    state of every party, and every event has the causes that the protocol asks for. */
module Causality {
  import opened Monitors
  import opened Protocol

  predicate Logged(s: State, name: string, r: string) {
    PartyEntry(name, r) in s.actions
  }

  predicate Voted(s: State, r: string, vote: string) {
    VoteEntry("PHandlePrepare", r, vote) in s.actions
  }

  predicate Delivered(s: State, m: Message) {
    MessageEntry("NetworkDeliverMessage", m) in s.actions
  }

  // ---- the log tells the state ----

  ghost predicate ListsTold(s: State) {
    forall r ::
      && (r in s.tmPrepared <==> Logged(s, "CReceivePrepare", r))
      && (r in s.tmCommitted <==> Logged(s, "CReceiveCommit", r))
      && (r in s.tmAborted <==> Logged(s, "CReceiveAbort", r))
  }

  ghost predicate DecisionTold(s: State) {
    && s.tmDecision in {"none", "commit", "abort"}
    && (s.tmDecision == "commit" <==> exists r :: Logged(s, "CSendCommit", r))
    && (s.tmDecision == "abort" <==> exists r :: Logged(s, "CSendAbort", r))
  }

  predicate RmTold(s: State, r: string) {
    && (RmIs(s, r, "working") <==>
          r in RM && !Voted(s, r, "prepared") && !Voted(s, r, "aborted") && !Logged(s, "PHandleAbort", r))
    && (RmIs(s, r, "prepared") <==>
          Voted(s, r, "prepared") && !Logged(s, "PHandleCommit", r) && !Logged(s, "PHandleAbort", r))
    && (RmIs(s, r, "committed") <==> Logged(s, "PHandleCommit", r))
    && (RmIs(s, r, "aborted") <==> Voted(s, r, "aborted") || Logged(s, "PHandleAbort", r))
  }

  /** The event that sends `m` has happened. */
  predicate SendLogged(s: State, m: Message) {
    || (m == FromCoordinator("Prepare", m.mdest) && Logged(s, "CSendPrepare", m.mdest))
    || (m == FromCoordinator("Commit", m.mdest) && Logged(s, "CSendCommit", m.mdest))
    || (m == FromCoordinator("Abort", m.mdest) && Logged(s, "CSendAbort", m.mdest))
    || (m == ToCoordinator("Prepared", m.msource) && Voted(s, m.msource, "prepared"))
    || (m == ToCoordinator("Committed", m.msource) && Logged(s, "PHandleCommit", m.msource))
    || (m == ToCoordinator("Aborted", m.msource) &&
        (Voted(s, m.msource, "aborted") || Logged(s, "PHandleAbort", m.msource)))
  }

  ghost predicate BoxesTold(s: State) {
    && (forall x, m :: x in s.inbox && m in s.inbox[x] ==> Delivered(s, m))
    && (forall x, m :: x in s.outbox && m in s.outbox[x] ==> SendLogged(s, m))
  }

  ghost predicate Told(s: State) {
    ListsTold(s) && DecisionTold(s) && BoxesTold(s) && forall r :: RmTold(s, r)
  }

  // ---- one step ----

  lemma InLog(prev: State, e: Event, entry: Entry)
    requires CheckEvent(prev, e) && e.kind != Initial
    ensures entry in e.state.actions <==> entry in prev.actions || entry == EntryOf(e)
  {
    StepLogs(prev, e);
    hide CheckEvent, EntryOf;
  }

  lemma {:induction false} StepTellsLists(prev: State, e: Event)
    requires CheckEvent(prev, e) && e.kind != Initial && HonestStep(prev, e) && ListsTold(prev)
    ensures ListsTold(e.state)
  {
    CoordinatorMoves(prev, e);
    hide CheckEvent, HonestStep;
    forall r
      ensures r in e.state.tmPrepared <==> Logged(e.state, "CReceivePrepare", r)
      ensures r in e.state.tmCommitted <==> Logged(e.state, "CReceiveCommit", r)
      ensures r in e.state.tmAborted <==> Logged(e.state, "CReceiveAbort", r)
    {
      InLog(prev, e, PartyEntry("CReceivePrepare", r));
      InLog(prev, e, PartyEntry("CReceiveCommit", r));
      InLog(prev, e, PartyEntry("CReceiveAbort", r));
      assert Logged(prev, "CReceivePrepare", r) <==> r in prev.tmPrepared;
    }
  }

  lemma {:induction false} StepTellsDecision(prev: State, e: Event)
    requires CheckEvent(prev, e) && e.kind != Initial && HonestStep(prev, e) && DecisionTold(prev)
    ensures DecisionTold(e.state)
  {
    CoordinatorMoves(prev, e);
    hide CheckEvent, HonestStep;
    forall r
      ensures Logged(e.state, "CSendCommit", r) <==> Logged(prev, "CSendCommit", r) || e.kind == CSendCommit(r)
      ensures Logged(e.state, "CSendAbort", r) <==> Logged(prev, "CSendAbort", r) || e.kind == CSendAbort(r)
    {
      InLog(prev, e, PartyEntry("CSendCommit", r));
      InLog(prev, e, PartyEntry("CSendAbort", r));
    }
  }

  /** How the participants move, exactly. */
  lemma RmMoves(prev: State, e: Event)
    requires CheckEvent(prev, e) && e.kind != Initial && HonestStep(prev, e)
    ensures e.kind.PHandlePrepare? ==>
      && RmIs(prev, e.kind.r, "working")
      && (|| (e.state.rmState == prev.rmState[e.kind.r := "prepared"] &&
              EntryOf(e) == VoteEntry("PHandlePrepare", e.kind.r, "prepared"))
          || (e.state.rmState == prev.rmState[e.kind.r := "aborted"] &&
              EntryOf(e) == VoteEntry("PHandlePrepare", e.kind.r, "aborted")))
    ensures e.kind.PHandleCommit? ==>
      RmIs(prev, e.kind.r, "prepared") && e.state.rmState == prev.rmState[e.kind.r := "committed"]
    ensures e.kind.PHandleAbort? ==>
      && (RmIs(prev, e.kind.r, "working") || RmIs(prev, e.kind.r, "prepared"))
      && e.state.rmState == prev.rmState[e.kind.r := "aborted"]
    ensures !e.kind.PHandlePrepare? && !e.kind.PHandleCommit? && !e.kind.PHandleAbort? ==>
      e.state.rmState == prev.rmState
  {
    hide Send, Receive, Reply, Logs, ToSet;
  }

  lemma {:induction false} StepTellsRm(prev: State, e: Event, r: string)
    requires CheckEvent(prev, e) && e.kind != Initial && HonestStep(prev, e) && RmTold(prev, r)
    ensures RmTold(e.state, r)
  {
    RmMoves(prev, e);
    InLog(prev, e, VoteEntry("PHandlePrepare", r, "prepared"));
    InLog(prev, e, VoteEntry("PHandlePrepare", r, "aborted"));
    InLog(prev, e, PartyEntry("PHandleCommit", r));
    InLog(prev, e, PartyEntry("PHandleAbort", r));
    RmEntries(e, r);
    hide CheckEvent, HonestStep, EntryOf;
  }

  /** Which events log that `r` has moved. */
  lemma RmEntries(e: Event, r: string)
    ensures EntryOf(e) == PartyEntry("PHandleCommit", r) <==> e.kind == PHandleCommit(r)
    ensures EntryOf(e) == PartyEntry("PHandleAbort", r) <==> e.kind == PHandleAbort(r)
    ensures EntryOf(e).VoteEntry? ==> e.kind == PHandlePrepare(EntryOf(e).party)
    ensures e.kind.PHandlePrepare? ==> EntryOf(e).VoteEntry?
  {
  }

  lemma {:induction false} StepTellsBoxes(prev: State, e: Event)
    requires CheckEvent(prev, e) && e.kind != Initial && HonestStep(prev, e) && BoxesTold(prev)
    ensures BoxesTold(e.state)
  {
    forall x, m | x in e.state.inbox && m in e.state.inbox[x] ensures Delivered(e.state, m) {
      InboxGrowsBy(prev, e, x, m);
      InLog(prev, e, MessageEntry("NetworkDeliverMessage", m));
      if x in prev.inbox && m in prev.inbox[x] {
        assert Delivered(prev, m);
      } else {
        assert EntryOf(e) == MessageEntry("NetworkDeliverMessage", m);
      }
    }
    forall x, m | x in e.state.outbox && m in e.state.outbox[x] ensures SendLogged(e.state, m) {
      OutboxGrowsBy(prev, e, x, m);
      if x in prev.outbox && m in prev.outbox[x] {
        SendStaysLogged(prev, e, m);
      } else {
        SendIsLogged(prev, e, m);
      }
    }
  }

  lemma SendStaysLogged(prev: State, e: Event, m: Message)
    requires CheckEvent(prev, e) && e.kind != Initial && SendLogged(prev, m)
    ensures SendLogged(e.state, m)
  {
    StepLogs(prev, e);
    hide CheckEvent, EntryOf;
  }

  lemma SendIsLogged(prev: State, e: Event, m: Message)
    requires CheckEvent(prev, e) && e.kind != Initial && HonestStep(prev, e) && Sends(prev, e, m)
    ensures SendLogged(e.state, m)
  {
    StepLogs(prev, e);
    RmMoves(prev, e);
    if e.kind.PHandlePrepare? {
      var r := e.kind.r;
      assert prev.rmState[r := "prepared"][r] == "prepared" && prev.rmState[r := "aborted"][r] == "aborted";
    }
    hide CheckEvent, HonestStep;
  }

  lemma StartTold()
    ensures Told(StartState)
  {
  }

  /** The events since the last `Initial` tell the coordinator's lists and decision and every
      participant's state, and account for every message that lies in a mailbox. */
  lemma {:induction false} HistoryTells(events: seq<Event>, i: nat)
    requires Accepted(events) && Honest(events) && i < |events|
    ensures Told(events[i].state)
  {
    hide CheckEvent, ListsTold, DecisionTold, BoxesTold, RmTold;
    StartsWithInitial(events);
    assert Passes(events, i);
    if events[i].kind == Initial {
      InitialLogs(Before(events, i), events[i]);
      StartTold();
    } else {
      HistoryTells(events, i - 1);
      HonestSteps(events, i);
      var prev := events[i - 1].state;
      StepTellsLists(prev, events[i]);
      StepTellsDecision(prev, events[i]);
      StepTellsBoxes(prev, events[i]);
      forall r ensures RmTold(events[i].state, r) {
        StepTellsRm(prev, events[i], r);
      }
    }
  }

  // ---- no message is lost ----

  /** A message stays in its mailbox until it is taken or read, and is then gone; what is sent or
      delivered arrives. */
  lemma {:induction false} NothingIsLost(events: seq<Event>, i: nat, x: string, m: Message)
    requires Accepted(events) && 0 < i < |events| && events[i].kind != Initial
    ensures
      var prev, e := events[i - 1].state, events[i];
      && (x in e.state.outbox <==> x in prev.outbox) && (x in e.state.inbox <==> x in prev.inbox)
      && (x in prev.outbox ==>
            (m in e.state.outbox[x] <==>
              (m in prev.outbox[x] && e.kind != NetworkTakeMessage(m)) || (Sends(prev, e, m) && m.msource == x)))
      && (x in prev.inbox ==>
            (m in e.state.inbox[x] <==>
              (m in prev.inbox[x] && !(m in Receives(e) && m.mdest == x)) ||
              (e.kind == NetworkDeliverMessage(m) && m.mdest == x)))
  {
    hide Passes, Accepted;
    assert CheckEvent(events[i - 1].state, events[i]) by { PassesAt(events, i); }
    MailboxRouting(events, i - 1);
    StepLosesNothing(events[i - 1].state, events[i], x, m);
  }

  lemma PassesAt(events: seq<Event>, i: nat)
    requires Accepted(events) && 0 < i < |events|
    ensures CheckEvent(events[i - 1].state, events[i])
  {
    hide CheckEvent;
    assert Passes(events, i);
  }

  lemma {:induction false} StepLosesNothing(prev: State, e: Event, x: string, m: Message)
    requires CheckEvent(prev, e) && e.kind != Initial && Routed(prev)
    ensures (x in e.state.outbox <==> x in prev.outbox) && (x in e.state.inbox <==> x in prev.inbox)
    ensures x in prev.outbox ==>
      (m in e.state.outbox[x] <==>
        (m in prev.outbox[x] && e.kind != NetworkTakeMessage(m)) || (Sends(prev, e, m) && m.msource == x))
    ensures x in prev.inbox ==>
      (m in e.state.inbox[x] <==>
        (m in prev.inbox[x] && !(m in Receives(e) && m.mdest == x)) ||
        (e.kind == NetworkDeliverMessage(m) && m.mdest == x))
  {
    StepKeepsOutbox(prev, e, x, m);
    StepKeepsInbox(prev, e, x, m);
    hide CheckEvent;
  }

  lemma {:induction false} StepKeepsOutbox(prev: State, e: Event, x: string, m: Message)
    requires CheckEvent(prev, e) && e.kind != Initial && Routed(prev)
    ensures x in e.state.outbox <==> x in prev.outbox
    ensures x in prev.outbox ==>
      (m in e.state.outbox[x] <==>
        (m in prev.outbox[x] && e.kind != NetworkTakeMessage(m)) || (Sends(prev, e, m) && m.msource == x))
  {
    hide TakeFromInbox, ToSet, SameTm, Logs;
    if e.kind.NetworkTakeMessage? {
      RemoveIn(prev.outbox[e.kind.msg.msource], e.kind.msg, m);
    } else if e.kind.PHandlePrepare? {
      var r := e.kind.r;
      assert prev.rmState[r := "prepared"][r] == "prepared" && prev.rmState[r := "aborted"][r] == "aborted";
    }
  }

  lemma {:induction false} StepKeepsInbox(prev: State, e: Event, x: string, m: Message)
    requires CheckEvent(prev, e) && e.kind != Initial && Routed(prev)
    ensures x in e.state.inbox <==> x in prev.inbox
    ensures x in prev.inbox ==>
      (m in e.state.inbox[x] <==>
        (m in prev.inbox[x] && !(m in Receives(e) && m.mdest == x)) ||
        (e.kind == NetworkDeliverMessage(m) && m.mdest == x))
  {
    hide ToSet, SameTm, Logs, Remove;
    var received := Receives(e);
    if received != [] {
      assert TakeFromInbox(prev, e.state, received[0]);
      RemoveIn(prev.inbox[received[0].mdest], received[0], m);
    }
  }

  // ---- every event has its causes ----

  /** What must, and what must not, have happened before an event of this kind. */
  ghost predicate Caused(prev: State, kind: Kind) {
    match kind
    case Initial => true
    case CSendPrepare(_) =>
      && (forall q :: !Logged(prev, "CSendCommit", q) && !Logged(prev, "CSendAbort", q))
      && exists q :: q in RM && !Logged(prev, "CReceivePrepare", q)
    case PHandlePrepare(r) =>
      && r in RM && Delivered(prev, FromCoordinator("Prepare", r))
      && !Voted(prev, r, "prepared") && !Voted(prev, r, "aborted") && !Logged(prev, "PHandleAbort", r)
    case CReceivePrepare(r) =>
      Delivered(prev, ToCoordinator("Prepared", r)) && !Logged(prev, "CReceivePrepare", r)
    case CReceiveAbort(r) =>
      Delivered(prev, ToCoordinator("Aborted", r)) && !Logged(prev, "CReceiveAbort", r)
    case CSendCommit(_) =>
      && (forall q :: q in RM ==> Logged(prev, "CReceivePrepare", q))
      && (forall q :: !Logged(prev, "CSendAbort", q))
    case CSendAbort(r) =>
      && (exists q :: Logged(prev, "CReceiveAbort", q)) && !Logged(prev, "CReceiveAbort", r)
      && (forall q :: !Logged(prev, "CSendCommit", q))
    case PHandleCommit(r) =>
      && Delivered(prev, FromCoordinator("Commit", r)) && Voted(prev, r, "prepared")
      && !Logged(prev, "PHandleCommit", r) && !Logged(prev, "PHandleAbort", r)
    case CReceiveCommit(r) =>
      Delivered(prev, ToCoordinator("Committed", r)) && !Logged(prev, "CReceiveCommit", r)
    case PHandleAbort(r) =>
      && r in RM && Delivered(prev, FromCoordinator("Abort", r))
      && !Logged(prev, "PHandleCommit", r) && !Logged(prev, "PHandleAbort", r) && !Voted(prev, r, "aborted")
    case NetworkTakeMessage(m) => SendLogged(prev, m)
    case NetworkDeliverMessage(m) => MessageEntry("NetworkTakeMessage", m) in prev.actions
  }

  function Actor(kind: Kind): string {
    match kind
    case Initial => "none"
    case PHandlePrepare(r) => r
    case PHandleCommit(r) => r
    case PHandleAbort(r) => r
    case NetworkTakeMessage(_) => "Network"
    case NetworkDeliverMessage(_) => "Network"
    case _ => "coordinator"
  }

  predicate AtParticipant(kind: Kind) {
    kind.PHandlePrepare? || kind.PHandleCommit? || kind.PHandleAbort?
  }

  /** Every accepted event names its actor, and changes nothing but what belongs to that actor: a
      participant the coordinator's variables never, the coordinator the participants never. */
  lemma {:induction false} ActorsKeepApart(events: seq<Event>, i: nat)
    requires Accepted(events) && i < |events|
    ensures events[i].state.who == Actor(events[i].kind)
    ensures AtParticipant(events[i].kind) ==> SameTm(Before(events, i), events[i].state)
    ensures !AtParticipant(events[i].kind) && Actor(events[i].kind) == "coordinator" ==>
      events[i].state.rmState == Before(events, i).rmState
  {
    assert Passes(events, i);
    hide Send, Receive, Reply, ToSet;
  }

  predicate Waits(s: State, m: Message) {
    m.mdest in s.inbox && m in s.inbox[m.mdest]
  }

  lemma CoordinatorGuards(prev: State, e: Event)
    requires CheckEvent(prev, e)
    ensures e.kind.CSendPrepare? ==> prev.tmDecision == "none" && ToSet(prev.tmPrepared) != RM
    ensures e.kind.CReceivePrepare? ==>
      e.kind.r !in prev.tmPrepared && Waits(prev, ToCoordinator("Prepared", e.kind.r))
    ensures e.kind.CReceiveAbort? ==> e.kind.r !in prev.tmAborted && Waits(prev, ToCoordinator("Aborted", e.kind.r))
    ensures e.kind.CReceiveCommit? ==>
      e.kind.r !in prev.tmCommitted && Waits(prev, ToCoordinator("Committed", e.kind.r))
    ensures e.kind.CSendCommit? ==> ToSet(prev.tmPrepared) == RM && prev.tmDecision != "abort"
    ensures e.kind.CSendAbort? ==>
      prev.tmAborted != [] && e.kind.r !in prev.tmAborted && prev.tmDecision != "commit"
  {
    hide ToSet, Logs, Send, Remove;
  }

  lemma ParticipantGuards(prev: State, e: Event)
    requires CheckEvent(prev, e)
    ensures e.kind.PHandlePrepare? ==> Waits(prev, FromCoordinator("Prepare", e.kind.r))
    ensures e.kind.PHandleCommit? ==> Waits(prev, FromCoordinator("Commit", e.kind.r))
    ensures e.kind.PHandleAbort? ==> Waits(prev, FromCoordinator("Abort", e.kind.r))
    ensures e.kind.NetworkTakeMessage? ==>
      e.kind.msg.msource in prev.outbox && e.kind.msg in prev.outbox[e.kind.msg.msource]
  {
    hide ToSet, Logs, Send, Remove;
  }

  /** Whoever is listed as prepared is one of the participants. */
  lemma SomeoneIsMissing(s: State) returns (q: string)
    requires Safe(s) && ToSet(s.tmPrepared) != RM
    ensures q in RM && q !in s.tmPrepared
  {
    if forall q :: q in RM ==> q in s.tmPrepared {
      forall r ensures r in ToSet(s.tmPrepared) <==> r in RM {
        if r in s.tmPrepared {
          assert StandsByYes(s, r) && r in s.rmState;
        }
      }
      assert false;
    }
    q :| q in RM && q !in s.tmPrepared;
  }

  lemma AllListed(s: State)
    requires ToSet(s.tmPrepared) == RM
    ensures forall q :: q in RM ==> q in s.tmPrepared
  {
    assert forall q :: q in ToSet(s.tmPrepared) ==> q in s.tmPrepared;
  }

  lemma {:induction false} CoordinatorCaused(prev: State, e: Event)
    requires Safe(prev) && ListsTold(prev) && DecisionTold(prev) && BoxesTold(prev) && CheckEvent(prev, e)
    requires !AtParticipant(e.kind) && Actor(e.kind) == "coordinator"
    ensures Caused(prev, e.kind)
  {
    CoordinatorGuards(prev, e);
    hide CheckEvent, Delivered, SendLogged, Logged, Safe, ToSet;
    match e.kind
    case CSendPrepare(_) =>
      var q := SomeoneIsMissing(prev);
    case CSendCommit(_) =>
      AllListed(prev);
    case CSendAbort(r) =>
      assert prev.tmAborted[0] in prev.tmAborted;
    case _ =>
  }

  lemma {:induction false} ParticipantCaused(prev: State, e: Event)
    requires BoxesTold(prev) && CheckEvent(prev, e) && e.kind != Initial && HonestStep(prev, e)
    requires AtParticipant(e.kind) && RmTold(prev, e.kind.r)
    requires prev.rmState.Keys == RM
    ensures Caused(prev, e.kind)
  {
    ParticipantGuards(prev, e);
    RmMoves(prev, e);
    hide CheckEvent, HonestStep, Delivered, SendLogged;
  }

  lemma {:induction false} StepCaused(prev: State, e: Event)
    requires Safe(prev) && Told(prev) && CheckEvent(prev, e) && e.kind != Initial && HonestStep(prev, e)
    ensures Caused(prev, e.kind)
  {
    if AtParticipant(e.kind) {
      assert RmTold(prev, e.kind.r);
      ParticipantCaused(prev, e);
    } else if Actor(e.kind) == "coordinator" {
      CoordinatorCaused(prev, e);
    } else {
      ParticipantGuards(prev, e);
      hide CheckEvent, ListsTold, DecisionTold, RmTold;
    }
  }

  /** Every event of an accepted honest trace has its causes among the events since the last
      `Initial`, and nothing that rules it out: votes once and on request only, decisions once and on
      the right votes, no prepare after a decision, no receipt twice, nothing taken that was not sent,
      nothing delivered that was not taken. */
  lemma {:induction false} EventsAreCaused(events: seq<Event>, i: nat)
    requires Accepted(events) && Honest(events) && 0 < i < |events| && events[i].kind != Initial
    ensures Caused(events[i - 1].state, events[i].kind)
    ensures
      var k := LastInitial(events, i - 1);
      events[i - 1].state.actions == LogOf(events[k + 1..i])
  {
    hide CheckEvent, Told, Caused, Safe;
    HistoryTells(events, i - 1);
    RunKeepsSafe(events, i - 1);
    HonestSteps(events, i);
    assert Passes(events, i);
    StepCaused(events[i - 1].state, events[i]);
    HistoryIsLogged(events, i - 1);
  }
}
