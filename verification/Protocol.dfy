/** What every trace that the monitor accepts keeps. */
module Protocol {
  import opened Monitors

  // ---- unconditional: the history, and the routing of messages ----

  /** The log entry that an event must append. */
  function EntryOf(e: Event): Entry {
    match e.kind
    case Initial => PartyEntry("Initial", "")
    case CSendPrepare(r) => PartyEntry("CSendPrepare", r)
    case PHandlePrepare(r) => VoteEntry("PHandlePrepare", r, if r in e.state.rmState then e.state.rmState[r] else "")
    case CReceivePrepare(r) => PartyEntry("CReceivePrepare", r)
    case CReceiveAbort(r) => PartyEntry("CReceiveAbort", r)
    case CSendCommit(r) => PartyEntry("CSendCommit", r)
    case CSendAbort(r) => PartyEntry("CSendAbort", r)
    case PHandleCommit(r) => PartyEntry("PHandleCommit", r)
    case CReceiveCommit(r) => PartyEntry("CReceiveCommit", r)
    case PHandleAbort(r) => PartyEntry("PHandleAbort", r)
    case NetworkTakeMessage(msg) => MessageEntry("NetworkTakeMessage", msg)
    case NetworkDeliverMessage(msg) => MessageEntry("NetworkDeliverMessage", msg)
  }

  function LogOf(events: seq<Event>): seq<Entry> {
    if events == [] then []
    else LogOf(events[..|events| - 1]) + [EntryOf(events[|events| - 1])]
  }

  lemma StepLogs(prev: State, e: Event)
    requires CheckEvent(prev, e) && e.kind != Initial
    ensures e.state.actions == prev.actions + [EntryOf(e)]
  {
  }

  lemma InitialLogs(prev: State, e: Event)
    requires CheckEvent(prev, e) && e.kind == Initial
    ensures e.state == StartState
  {
  }

  /** The latest `Initial` at or before `i`, or 0. */
  function LastInitial(events: seq<Event>, i: nat): (k: nat)
    requires i < |events|
    ensures k <= i
    ensures events[k].kind == Initial || k == 0
    ensures forall j :: k < j <= i ==> events[j].kind != Initial
  {
    if i == 0 || events[i].kind == Initial then i else LastInitial(events, i - 1)
  }

  /** The first event is checked against itself, and no log equals itself with an entry appended. */
  lemma {:induction false} StartsWithInitial(events: seq<Event>)
    requires Accepted(events) && events != []
    ensures events[0].kind == Initial
  {
    hide CheckEvent;
    assert Passes(events, 0);
    if events[0].kind != Initial {
      StepLogs(events[0].state, events[0]);
      assert false;
    }
  }

  lemma LogOfGrows(events: seq<Event>, k: nat, i: nat)
    requires k < i < |events|
    ensures LogOf(events[k + 1..i + 1]) == LogOf(events[k + 1..i]) + [EntryOf(events[i])]
  {
    hide EntryOf;
    assert events[k + 1..i + 1][..i - k - 1] == events[k + 1..i];
  }

  /** An accepted trace starts with `Initial`, and from then on the log names exactly the events
      since the last `Initial`. */
  lemma {:induction false} HistoryIsLogged(events: seq<Event>, i: nat)
    requires Accepted(events) && i < |events|
    ensures events[0].kind == Initial
    ensures
      var k := LastInitial(events, i);
      events[k].kind == Initial && events[i].state.actions == LogOf(events[k + 1..i + 1])
  {
    hide CheckEvent, LogOf, EntryOf;
    StartsWithInitial(events);
    assert Passes(events, i);
    if events[i].kind == Initial {
      InitialLogs(Before(events, i), events[i]);
      EmptyLog();
      assert events[i + 1..i + 1] == [];
    } else {
      HistoryIsLogged(events, i - 1);
      StepLogs(events[i - 1].state, events[i]);
      LogOfGrows(events, LastInitial(events, i), i);
    }
  }

  lemma EmptyLog()
    ensures LogOf([]) == []
  {
  }

  lemma {:induction false} RemoveIn<T>(s: seq<T>, e: T, x: T)
    ensures x in Remove(s, e) <==> x in s && x != e
  {
    if s != [] {
      RemoveIn(s[..|s| - 1], e, x);
      assert s == s[..|s| - 1] + [s[|s| - 1]];
    }
  }

  /** The message that an event sends, if any. */
  predicate Sends(prev: State, e: Event, m: Message) {
    match e.kind
    case CSendPrepare(r) => m == FromCoordinator("Prepare", r)
    case CSendCommit(r) => m == FromCoordinator("Commit", r)
    case CSendAbort(r) => m == FromCoordinator("Abort", r)
    case PHandlePrepare(r) =>
      m == ToCoordinator(if e.state.rmState == prev.rmState[r := "prepared"] then "Prepared" else "Aborted", r)
    case PHandleCommit(r) => m == ToCoordinator("Committed", r)
    case PHandleAbort(r) => m == ToCoordinator("Aborted", r)
    case _ => false
  }

  /** A message in an outbox was there before, or has just been sent by its source. */
  lemma {:induction false} OutboxGrowsBy(prev: State, e: Event, x: string, m: Message)
    requires CheckEvent(prev, e) && e.kind != Initial
    requires x in e.state.outbox && m in e.state.outbox[x]
    ensures x in prev.outbox
    ensures m in prev.outbox[x] || (Sends(prev, e, m) && m.msource == x)
  {
    if e.kind.NetworkTakeMessage? {
      RemoveIn(prev.outbox[e.kind.msg.msource], e.kind.msg, m);
    } else if e.kind.PHandlePrepare? {
      var r := e.kind.r;
      assert prev.rmState[r := "prepared"][r] == "prepared" && prev.rmState[r := "aborted"][r] == "aborted";
    }
  }

  /** The message that an event takes out of an inbox. */
  function Receives(e: Event): seq<Message> {
    match e.kind
    case PHandlePrepare(r) => [FromCoordinator("Prepare", r)]
    case PHandleCommit(r) => [FromCoordinator("Commit", r)]
    case PHandleAbort(r) => [FromCoordinator("Abort", r)]
    case CReceivePrepare(r) => [ToCoordinator("Prepared", r)]
    case CReceiveAbort(r) => [ToCoordinator("Aborted", r)]
    case CReceiveCommit(r) => [ToCoordinator("Committed", r)]
    case _ => []
  }

  /** A message in an inbox was there before, or has just been delivered to its destination. */
  lemma {:induction false} InboxGrowsBy(prev: State, e: Event, x: string, m: Message)
    requires CheckEvent(prev, e) && e.kind != Initial
    requires x in e.state.inbox && m in e.state.inbox[x]
    ensures x in prev.inbox
    ensures m in prev.inbox[x] || (e.kind == NetworkDeliverMessage(m) && m.mdest == x)
  {
    var received := Receives(e);
    if received != [] {
      assert TakeFromInbox(prev, e.state, received[0]);
      RemoveIn(prev.inbox[received[0].mdest], received[0], m);
    }
  }

  /** Messages lie where their source and destination say, and nothing is in flight. */
  ghost predicate Routed(s: State) {
    && s.inflight == []
    && (forall x, m :: x in s.outbox && m in s.outbox[x] ==> m.msource == x)
    && (forall x, m :: x in s.inbox && m in s.inbox[x] ==> m.mdest == x)
  }

  lemma {:induction false} StepKeepsRouted(prev: State, e: Event)
    requires CheckEvent(prev, e) && (e.kind == Initial || Routed(prev))
    ensures Routed(e.state)
  {
    if e.kind != Initial {
      forall x, m | x in e.state.outbox && m in e.state.outbox[x] ensures m.msource == x {
        OutboxGrowsBy(prev, e, x, m);
      }
      forall x, m | x in e.state.inbox && m in e.state.inbox[x] ensures m.mdest == x {
        InboxGrowsBy(prev, e, x, m);
      }
    }
  }

  lemma {:induction false} MailboxRouting(events: seq<Event>, i: nat)
    requires Accepted(events) && i < |events|
    ensures Routed(events[i].state)
  {
    HistoryIsLogged(events, 0);
    if i > 0 {
      MailboxRouting(events, i - 1);
    }
    assert Passes(events, i);
    StepKeepsRouted(Before(events, i), events[i]);
  }

  // ---- with an honest network: the safety of two-phase commit ----

  /** Network steps change only mailboxes, and deliver only messages that were taken from an
      outbox since the last `Initial`. */
  ghost predicate Honest(events: seq<Event>) {
    forall i :: 0 < i < |events| ==> HonestAt(events, i)
  }

  ghost predicate HonestAt(events: seq<Event>, i: nat)
    requires 0 < i < |events|
  {
    match events[i].kind
    case NetworkTakeMessage(_) => SameNodes(events[i - 1].state, events[i].state)
    case NetworkDeliverMessage(msg) =>
      && SameNodes(events[i - 1].state, events[i].state)
      && exists k :: LastInitial(events, i) < k < i && events[k].kind == NetworkTakeMessage(msg)
    case _ => true
  }

  predicate SameNodes(prev: State, next: State) {
    SameTm(prev, next) && next.rmState == prev.rmState
  }

  predicate Taken(s: State, m: Message) {
    MessageEntry("NetworkTakeMessage", m) in s.actions
  }

  /** A message that has left its sender: it waits in the outbox or was taken from it. */
  predicate Sent(s: State, m: Message) {
    (m.msource in s.outbox && m in s.outbox[m.msource]) || Taken(s, m)
  }

  predicate NoDuplicates(s: seq<string>) {
    forall i, j :: 0 <= i < j < |s| ==> s[i] != s[j]
  }

  /** `r` voted yes, and has not gone back on it unless the decision was to abort. */
  predicate StandsByYes(s: State, r: string) {
    || RmIs(s, r, "prepared") || RmIs(s, r, "committed")
    || (RmIs(s, r, "aborted") && s.tmDecision == "abort")
  }

  ghost predicate MessagesTrue(s: State) {
    && (forall r :: Sent(s, FromCoordinator("Commit", r)) ==> s.tmDecision == "commit")
    && (forall r :: Sent(s, FromCoordinator("Abort", r)) ==> s.tmDecision == "abort")
    && (forall r :: Sent(s, ToCoordinator("Prepared", r)) ==> StandsByYes(s, r))
    && (forall r :: Sent(s, ToCoordinator("Committed", r)) ==> RmIs(s, r, "committed"))
    && (forall r :: Sent(s, ToCoordinator("Aborted", r)) ==> RmIs(s, r, "aborted"))
  }

  predicate CoordinatorTrue(s: State) {
    && (forall r :: r in s.tmPrepared ==> StandsByYes(s, r))
    && (forall r :: r in s.tmCommitted ==> RmIs(s, r, "committed"))
    && (forall r :: r in s.tmAborted ==> RmIs(s, r, "aborted"))
    && NoDuplicates(s.tmPrepared) && NoDuplicates(s.tmCommitted) && NoDuplicates(s.tmAborted)
  }

  ghost predicate DecisionsAgree(s: State) {
    && s.rmState.Keys == RM
    && s.tmDecision in {"none", "commit", "abort"}
    && (s.tmDecision == "commit" ==> forall r :: r in RM ==> r in s.tmPrepared)
    && (forall r :: RmIs(s, r, "committed") ==> s.tmDecision == "commit")
    && (forall r :: RmIs(s, r, "aborted") ==> s.tmDecision != "commit")
  }

  ghost predicate InboxTaken(s: State) {
    forall x, m :: x in s.inbox && m in s.inbox[x] ==> Taken(s, m)
  }

  /** The inductive invariant. */
  ghost predicate Safe(s: State) {
    InboxTaken(s) && MessagesTrue(s) && CoordinatorTrue(s) && DecisionsAgree(s)
  }

  /** What `Honest` says of one step, given that logs tell the history. */
  predicate HonestStep(prev: State, e: Event) {
    && (e.kind.NetworkTakeMessage? ==> SameNodes(prev, e.state))
    && (e.kind.NetworkDeliverMessage? ==> SameNodes(prev, e.state) && Taken(prev, e.kind.msg))
  }

  lemma {:induction false} SentGrowsBy(prev: State, e: Event, m: Message)
    requires CheckEvent(prev, e) && e.kind != Initial && Sent(e.state, m)
    ensures Sent(prev, m) || Sends(prev, e, m)
  {
    StepLogs(prev, e);
    if m.msource in e.state.outbox && m in e.state.outbox[m.msource] {
      OutboxGrowsBy(prev, e, m.msource, m);
    }
  }

  /** Whatever a step takes from an inbox was sent before. */
  lemma {:induction false} ReceivedWasSent(prev: State, e: Event)
    requires Safe(prev) && CheckEvent(prev, e)
    ensures Receives(e) != [] ==> Sent(prev, Receives(e)[0])
  {
    if Receives(e) != [] {
      assert TakeFromInbox(prev, e.state, Receives(e)[0]);
    }
  }

  lemma {:induction false} StepKeepsInboxTaken(prev: State, e: Event)
    requires InboxTaken(prev) && CheckEvent(prev, e) && e.kind != Initial && HonestStep(prev, e)
    ensures InboxTaken(e.state)
  {
    forall x, m | x in e.state.inbox && m in e.state.inbox[x] ensures Taken(e.state, m) {
      InboxGrowsBy(prev, e, x, m);
      StepLogs(prev, e);
      assert Taken(prev, m);
    }
  }

  /** A participant handles a decision only once it is made, and votes only before a commit. */
  lemma {:induction false} HandlersFollowDecision(prev: State, e: Event)
    requires Safe(prev) && CheckEvent(prev, e)
    ensures e.kind.PHandleCommit? ==> prev.tmDecision == "commit"
    ensures e.kind.PHandleAbort? ==> prev.tmDecision == "abort"
    ensures e.kind.PHandlePrepare? ==> prev.tmDecision != "commit" && !StandsByYes(prev, e.kind.r)
  {
    ReceivedWasSent(prev, e);
    match e.kind
    case PHandleCommit(r) => assert Sent(prev, FromCoordinator("Commit", r));
    case PHandleAbort(r) => assert Sent(prev, FromCoordinator("Abort", r));
    case PHandlePrepare(r) => assert RmIs(prev, r, "working") && r in RM;
    case _ =>
  }

  /** A participant that stands by its yes keeps doing so, and the final states are final. */
  lemma {:induction false} StepKeepsPromises(prev: State, e: Event, r: string)
    requires Safe(prev) && CheckEvent(prev, e) && e.kind != Initial && HonestStep(prev, e)
    ensures StandsByYes(prev, r) ==> StandsByYes(e.state, r)
    ensures RmIs(prev, r, "committed") ==> RmIs(e.state, r, "committed")
    ensures RmIs(prev, r, "aborted") ==> RmIs(e.state, r, "aborted")
    ensures prev.tmDecision != "none" ==> e.state.tmDecision == prev.tmDecision
  {
    hide InboxTaken, MessagesTrue, Logs;
    HandlersFollowDecision(prev, e);
  }

  /** How the coordinator's variables can move in one step. */
  lemma CoordinatorMoves(prev: State, e: Event)
    requires CheckEvent(prev, e) && e.kind != Initial && HonestStep(prev, e)
    ensures e.state.tmDecision ==
      if e.kind.CSendCommit? then "commit" else if e.kind.CSendAbort? then "abort" else prev.tmDecision
    ensures e.kind.CSendCommit? ==> prev.tmDecision != "abort" && ToSet(prev.tmPrepared) == RM
    ensures e.kind.CSendAbort? ==> prev.tmDecision != "commit"
    ensures e.state.tmPrepared == prev.tmPrepared + if e.kind.CReceivePrepare? then [e.kind.r] else []
    ensures e.state.tmCommitted == prev.tmCommitted + if e.kind.CReceiveCommit? then [e.kind.r] else []
    ensures e.state.tmAborted == prev.tmAborted + if e.kind.CReceiveAbort? then [e.kind.r] else []
    ensures e.kind.CReceivePrepare? ==> e.kind.r !in prev.tmPrepared
    ensures e.kind.CReceiveCommit? ==> e.kind.r !in prev.tmCommitted
    ensures e.kind.CReceiveAbort? ==> e.kind.r !in prev.tmAborted
  {
    hide ToSet, Logs, Send, Receive, Reply, RmIs;
  }

  /** How a participant can move in one step. */
  lemma ParticipantMoves(prev: State, e: Event, r: string)
    requires CheckEvent(prev, e) && e.kind != Initial && HonestStep(prev, e)
    ensures r in e.state.rmState <==> r in prev.rmState
    ensures RmIs(e.state, r, "committed") ==> RmIs(prev, r, "committed") || e.kind == PHandleCommit(r)
    ensures RmIs(e.state, r, "aborted") ==>
      RmIs(prev, r, "aborted") || e.kind == PHandleAbort(r) || e.kind == PHandlePrepare(r)
  {
    hide ToSet, Logs, Send, Receive, Reply;
  }

  lemma {:induction false} StepKeepsDecisions(prev: State, e: Event)
    requires Safe(prev) && CheckEvent(prev, e) && e.kind != Initial && HonestStep(prev, e)
    ensures DecisionsAgree(e.state)
  {
    hide CheckEvent, HonestStep, InboxTaken, MessagesTrue, ToSet, NoDuplicates;
    HandlersFollowDecision(prev, e);
    CoordinatorMoves(prev, e);
    forall r
      ensures r in e.state.rmState <==> r in prev.rmState
      ensures RmIs(e.state, r, "committed") ==> RmIs(prev, r, "committed") || e.kind == PHandleCommit(r)
      ensures RmIs(e.state, r, "aborted") ==>
        RmIs(prev, r, "aborted") || e.kind == PHandleAbort(r) || e.kind == PHandlePrepare(r)
    {
      ParticipantMoves(prev, e, r);
    }
    assert e.state.rmState.Keys == RM;
    if e.kind.CSendCommit? {
      AllStandBy(prev);
    }
  }

  lemma AllStandBy(s: State)
    requires CoordinatorTrue(s) && ToSet(s.tmPrepared) == RM
    ensures forall r :: r in RM ==> r in s.tmPrepared && StandsByYes(s, r)
  {
    assert forall r :: r in RM ==> r in ToSet(s.tmPrepared);
  }

  /** What the coordinator hears is true. */
  lemma HearsTruth(prev: State, e: Event)
    requires Safe(prev) && CheckEvent(prev, e)
    ensures e.kind.CReceivePrepare? ==> StandsByYes(prev, e.kind.r)
    ensures e.kind.CReceiveCommit? ==> RmIs(prev, e.kind.r, "committed")
    ensures e.kind.CReceiveAbort? ==> RmIs(prev, e.kind.r, "aborted")
  {
    ReceivedWasSent(prev, e);
    hide CheckEvent, InboxTaken;
  }

  lemma {:induction false} StepKeepsCoordinatorTrue(prev: State, e: Event)
    requires Safe(prev) && CheckEvent(prev, e) && e.kind != Initial && HonestStep(prev, e)
    ensures CoordinatorTrue(e.state)
  {
    hide CheckEvent, HonestStep, InboxTaken, MessagesTrue, StandsByYes, RmIs;
    HearsTruth(prev, e);
    CoordinatorMoves(prev, e);
    forall r
      ensures StandsByYes(prev, r) ==> StandsByYes(e.state, r)
      ensures RmIs(prev, r, "committed") ==> RmIs(e.state, r, "committed")
      ensures RmIs(prev, r, "aborted") ==> RmIs(e.state, r, "aborted")
    {
      StepKeepsPromises(prev, e, r);
    }
  }

  /** What an event sends is true when it is sent. */
  lemma {:induction false} SendsTrue(prev: State, e: Event, m: Message)
    requires Safe(prev) && CheckEvent(prev, e) && e.kind != Initial && Sends(prev, e, m)
    ensures m.typ == "Commit" ==> e.state.tmDecision == "commit"
    ensures m.typ == "Abort" ==> e.state.tmDecision == "abort"
    ensures m.typ == "Prepared" ==> StandsByYes(e.state, m.msource)
    ensures m.typ == "Committed" ==> RmIs(e.state, m.msource, "committed")
    ensures m.typ == "Aborted" ==> RmIs(e.state, m.msource, "aborted")
  {
  }

  lemma {:induction false} StepKeepsMessagesTrue(prev: State, e: Event)
    requires Safe(prev) && CheckEvent(prev, e) && e.kind != Initial && HonestStep(prev, e)
    ensures MessagesTrue(e.state)
  {
    hide CheckEvent;
    forall r
      ensures Sent(e.state, FromCoordinator("Commit", r)) ==> e.state.tmDecision == "commit"
      ensures Sent(e.state, FromCoordinator("Abort", r)) ==> e.state.tmDecision == "abort"
      ensures Sent(e.state, ToCoordinator("Prepared", r)) ==> StandsByYes(e.state, r)
      ensures Sent(e.state, ToCoordinator("Committed", r)) ==> RmIs(e.state, r, "committed")
      ensures Sent(e.state, ToCoordinator("Aborted", r)) ==> RmIs(e.state, r, "aborted")
    {
      StepKeepsPromises(prev, e, r);
      forall m | Sent(e.state, m) ensures Sent(prev, m) || Sends(prev, e, m) {
        SentGrowsBy(prev, e, m);
      }
      forall m | Sends(prev, e, m)
        ensures m.typ == "Commit" ==> e.state.tmDecision == "commit"
        ensures m.typ == "Abort" ==> e.state.tmDecision == "abort"
        ensures m.typ == "Prepared" ==> StandsByYes(e.state, m.msource)
        ensures m.typ == "Committed" ==> RmIs(e.state, m.msource, "committed")
        ensures m.typ == "Aborted" ==> RmIs(e.state, m.msource, "aborted")
      {
        SendsTrue(prev, e, m);
      }
    }
  }

  /** Every step of an honest run keeps the invariant. */
  lemma {:induction false} StepKeepsSafe(prev: State, e: Event)
    requires Safe(prev) && CheckEvent(prev, e) && e.kind != Initial && HonestStep(prev, e)
    ensures Safe(e.state)
  {
    hide CheckEvent;
    StepKeepsInboxTaken(prev, e);
    StepKeepsMessagesTrue(prev, e);
    StepKeepsCoordinatorTrue(prev, e);
    StepKeepsDecisions(prev, e);
  }

  // ---- whole runs ----

  lemma {:induction false} LogOfContains(events: seq<Event>, k: nat)
    requires k < |events|
    ensures EntryOf(events[k]) in LogOf(events)
  {
    if k < |events| - 1 {
      LogOfContains(events[..|events| - 1], k);
    }
  }

  lemma {:induction false} TakenSinceInitial(events: seq<Event>, k: nat, i: nat, msg: Message)
    requires Accepted(events) && k <= i < |events| && LastInitial(events, i) < k
    requires events[k].kind == NetworkTakeMessage(msg)
    ensures Taken(events[i].state, msg)
  {
    hide CheckEvent, LogOf, Accepted;
    HistoryIsLogged(events, i);
    var since := events[LastInitial(events, i) + 1..i + 1];
    LogOfContains(since, k - LastInitial(events, i) - 1);
  }

  lemma {:induction false} HonestSteps(events: seq<Event>, i: nat)
    requires Accepted(events) && Honest(events) && 0 < i < |events|
    ensures HonestStep(events[i - 1].state, events[i])
  {
    hide CheckEvent, Accepted;
    assert HonestAt(events, i);
    if events[i].kind.NetworkDeliverMessage? {
      var msg := events[i].kind.msg;
      var k :| LastInitial(events, i) < k < i && events[k].kind == NetworkTakeMessage(msg);
      TakenSinceInitial(events, k, i - 1, msg);
    }
  }

  lemma StartIsSafe()
    ensures Safe(StartState)
  {
  }

  lemma {:induction false} RunKeepsSafe(events: seq<Event>, i: nat)
    requires Accepted(events) && Honest(events) && i < |events|
    ensures Safe(events[i].state)
  {
    hide CheckEvent;
    HistoryIsLogged(events, 0);
    assert Passes(events, i);
    if events[i].kind == Initial {
      InitialLogs(Before(events, i), events[i]);
      StartIsSafe();
    } else {
      RunKeepsSafe(events, i - 1);
      HonestSteps(events, i);
      StepKeepsSafe(events[i - 1].state, events[i]);
    }
  }

  /** Atomicity: with an honest network, no state of an accepted trace has one participant
      committed and another aborted. */
  lemma Atomicity(events: seq<Event>, i: nat, r: string, q: string)
    requires Accepted(events) && Honest(events) && i < |events|
    ensures !(RmIs(events[i].state, r, "committed") && RmIs(events[i].state, q, "aborted"))
  {
    hide CheckEvent;
    RunKeepsSafe(events, i);
  }

  /** A message leaves its outbox, and meanwhile the participants come to be in any states `rm`. */
  function Taking(s: State, m: Message, rm: map<string, string>): State
    requires m.msource in s.outbox
  {
    s.(who := "Network", outbox := s.outbox[m.msource := []], rmState := rm,
       actions := s.actions + [MessageEntry("NetworkTakeMessage", m)])
  }

  lemma TakingPasses(s: State, m: Message, rm: map<string, string>)
    requires m.msource in s.outbox && s.outbox[m.msource] == [m]
    ensures CheckEvent(s, Event(NetworkTakeMessage(m), Taking(s, m, rm)))
  {
    assert Remove([m], m) == Remove([], m) == [];
  }

  lemma FirstSendPasses(sent: State)
    requires
      var m := FromCoordinator("Prepare", "r1");
      sent == StartState.(who := "coordinator", actions := [PartyEntry("CSendPrepare", "r1")],
                          outbox := StartBoxes["coordinator" := [m]])
    ensures CheckEvent(StartState, Event(CSendPrepare("r1"), sent))
  {
    var m := FromCoordinator("Prepare", "r1");
    assert StartState.outbox["coordinator"] + [m] == [m];
    assert "r1" in RM && "r1" !in ToSet(StartState.tmPrepared);
  }

  /** The hypothesis is needed: the checks of network steps do not look at the participants, so that
      the monitor accepts that one commits and the other aborts while a message leaves an outbox.
      Nothing is delivered here, let alone forged. */
  lemma AtomicityNeedsHonesty() returns (events: seq<Event>)
    ensures Accepted(events) && |events| == 3
    ensures forall i :: 0 <= i < |events| ==> !events[i].kind.NetworkDeliverMessage?
    ensures RmIs(events[2].state, "r1", "committed") && RmIs(events[2].state, "r2", "aborted")
  {
    hide CheckEvent;
    var m := FromCoordinator("Prepare", "r1");
    var sent := StartState.(
      who := "coordinator", actions := [PartyEntry("CSendPrepare", "r1")],
      outbox := StartBoxes["coordinator" := [m]]);
    var taken := Taking(sent, m, map["r1" := "committed", "r2" := "aborted"]);
    events := [Event(Initial, StartState), Event(CSendPrepare("r1"), sent), Event(NetworkTakeMessage(m), taken)];
    InitialPasses(StartState);
    FirstSendPasses(sent);
    TakingPasses(sent, m, taken.rmState);
    assert Passes(events, 0) && Passes(events, 1) && Passes(events, 2);
  }

  /** The network delivers `m`, which nobody need have sent, to an empty inbox. */
  function Forged(s: State, m: Message): State
    requires m.mdest in s.inbox
  {
    s.(who := "Network", inbox := s.inbox[m.mdest := [m]],
       actions := s.actions + [MessageEntry("NetworkDeliverMessage", m)])
  }

  /** Participant `r` empties its inbox, moves to `v` and sends `answer`. */
  function Moved(s: State, r: string, v: string, answer: Message, entry: Entry): State
    requires r in s.outbox
  {
    s.(who := r, inbox := s.inbox[r := []], outbox := s.outbox[r := s.outbox[r] + [answer]],
       rmState := s.rmState[r := v], actions := s.actions + [entry])
  }

  lemma ForgedPasses(s: State, m: Message)
    requires m.mdest in s.inbox && s.inbox[m.mdest] == []
    ensures CheckEvent(s, Event(NetworkDeliverMessage(m), Forged(s, m))) && SameNodes(s, Forged(s, m))
  {
    assert s.inbox[m.mdest] + [m] == [m];
    assert CheckNetworkDeliverMessage(m, s, Forged(s, m));
  }

  /** A participant that holds a message only, in the state that its type asks for, may handle it. */
  lemma MovedPasses(s: State, r: string)
    requires r in s.inbox && r in s.outbox
    ensures s.inbox[r] == [FromCoordinator("Prepare", r)] && RmIs(s, r, "working") ==>
      CheckEvent(s, Event(PHandlePrepare(r),
        Moved(s, r, "prepared", ToCoordinator("Prepared", r), VoteEntry("PHandlePrepare", r, "prepared"))))
    ensures s.inbox[r] == [FromCoordinator("Commit", r)] && RmIs(s, r, "prepared") ==>
      CheckEvent(s, Event(PHandleCommit(r),
        Moved(s, r, "committed", ToCoordinator("Committed", r), PartyEntry("PHandleCommit", r))))
    ensures s.inbox[r] == [FromCoordinator("Abort", r)] && RmIs(s, r, "working") ==>
      CheckEvent(s, Event(PHandleAbort(r),
        Moved(s, r, "aborted", ToCoordinator("Aborted", r), PartyEntry("PHandleAbort", r))))
  {
    forall typ ensures Remove([FromCoordinator(typ, r)], FromCoordinator(typ, r)) == [] {
      assert Remove([FromCoordinator(typ, r)], FromCoordinator(typ, r)) == Remove([], FromCoordinator(typ, r));
    }
  }

  /** Two forged messages make `r1` commit. */
  lemma ForgedCommit() returns (events: seq<Event>)
    ensures Accepted(events) && |events| == 5 && OnlyForges(events)
    ensures
      var s := events[4].state;
      && RmIs(s, "r1", "committed") && RmIs(s, "r2", "working")
      && "r2" in s.inbox && s.inbox["r2"] == [] && "r2" in s.outbox
  {
    hide CheckEvent, SameNodes;
    var prepare, commit := FromCoordinator("Prepare", "r1"), FromCoordinator("Commit", "r1");
    var s1 := Forged(StartState, prepare);
    ForgedPasses(StartState, prepare);
    var s2 := Moved(s1, "r1", "prepared", ToCoordinator("Prepared", "r1"),
      VoteEntry("PHandlePrepare", "r1", "prepared"));
    MovedPasses(s1, "r1");
    var s3 := Forged(s2, commit);
    ForgedPasses(s2, commit);
    var s4 := Moved(s3, "r1", "committed", ToCoordinator("Committed", "r1"), PartyEntry("PHandleCommit", "r1"));
    MovedPasses(s3, "r1");
    events := [
      Event(Initial, StartState), Event(NetworkDeliverMessage(prepare), s1), Event(PHandlePrepare("r1"), s2),
      Event(NetworkDeliverMessage(commit), s3), Event(PHandleCommit("r1"), s4)];
    assert Passes(events, 0) by { InitialPasses(StartState); }
    assert Passes(events, 1) && Passes(events, 2) && Passes(events, 3) && Passes(events, 4);
  }

  /** Network steps only deliver, and leave the participants and the coordinator's variables alone. */
  ghost predicate OnlyForges(events: seq<Event>) {
    forall i :: 0 < i < |events| ==>
      && !events[i].kind.NetworkTakeMessage?
      && (events[i].kind.NetworkDeliverMessage? ==> SameNodes(Before(events, i), events[i].state))
  }

  /** Nor is it enough that network steps leave the participants alone: the checks let messages be
      delivered that nobody sent. */
  lemma AtomicityNeedsSenders() returns (events: seq<Event>)
    ensures Accepted(events) && |events| == 7 && OnlyForges(events)
    ensures RmIs(events[6].state, "r1", "committed") && RmIs(events[6].state, "r2", "aborted")
  {
    hide CheckEvent, SameNodes, Accepted;
    var before := ForgedCommit();
    var abort := FromCoordinator("Abort", "r2");
    var s4 := before[4].state;
    var s5 := Forged(s4, abort);
    ForgedPasses(s4, abort);
    var s6 := Moved(s5, "r2", "aborted", ToCoordinator("Aborted", "r2"), PartyEntry("PHandleAbort", "r2"));
    MovedPasses(s5, "r2");
    AcceptedExtends(before, Event(NetworkDeliverMessage(abort), s5));
    var more := before + [Event(NetworkDeliverMessage(abort), s5)];
    AcceptedExtends(more, Event(PHandleAbort("r2"), s6));
    events := more + [Event(PHandleAbort("r2"), s6)];
    assert forall i :: 0 < i < 5 ==> events[i] == before[i] && Before(events, i) == Before(before, i);
    assert Before(events, 5) == s4 && Before(events, 6) == s5;
  }

  lemma InitialPasses(prev: State)
    ensures CheckEvent(prev, Event(Initial, StartState))
  {
  }

  /** The coordinator's lists have no duplicates and tell the truth at every point. */
  lemma CoordinatorIsTruthful(events: seq<Event>, i: nat, r: string)
    requires Accepted(events) && Honest(events) && i < |events|
    ensures
      var s := events[i].state;
      && NoDuplicates(s.tmPrepared) && NoDuplicates(s.tmCommitted) && NoDuplicates(s.tmAborted)
      && (r in s.tmCommitted ==> RmIs(s, r, "committed"))
      && (r in s.tmAborted ==> RmIs(s, r, "aborted"))
      && (s.tmDecision == "commit" ==> ToSet(s.tmPrepared) >= RM)
  {
    hide CheckEvent;
    RunKeepsSafe(events, i);
  }

  /** Between two `Initial`s nothing that is settled changes: not the decision, and not a
      participant that has committed or aborted. */
  lemma {:induction false} SettledIsIrrevocable(events: seq<Event>, i: nat, j: nat, r: string)
    requires Accepted(events) && Honest(events) && i <= j < |events|
    requires forall k :: i < k <= j ==> events[k].kind != Initial
    ensures
      var s, t := events[i].state, events[j].state;
      && (s.tmDecision != "none" ==> t.tmDecision == s.tmDecision)
      && (RmIs(s, r, "committed") ==> RmIs(t, r, "committed"))
      && (RmIs(s, r, "aborted") ==> RmIs(t, r, "aborted"))
    decreases j
  {
    hide CheckEvent;
    if i < j {
      SettledIsIrrevocable(events, i, j - 1, r);
      RunKeepsSafe(events, j - 1);
      HonestSteps(events, j);
      assert Passes(events, j);
      StepKeepsPromises(events[j - 1].state, events[j], r);
    }
  }
}
