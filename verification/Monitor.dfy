/** The trace monitor: recorded states, events, and the check of each kind of event against the
    event before it. Parties, votes and decisions are strings, as in the recorded values. */
module Monitors {

  datatype Message = Message(typ: string, msource: string, mdest: string)

  type Boxes = map<string, seq<Message>>

  /** One entry of the action log. */
  datatype Entry =
    | PartyEntry(name: string, party: string)
    | VoteEntry(name: string, party: string, vote: string)
    | MessageEntry(name: string, msg: Message)

  datatype State = State(
    who: string,
    actions: seq<Entry>,
    tmCommitted: seq<string>,
    outbox: Boxes,
    inflight: seq<Message>,
    tmPrepared: seq<string>,
    tmDecision: string,
    tmAborted: seq<string>,
    rmState: map<string, string>,
    inbox: Boxes)

  datatype Kind =
    | Initial
    | CSendPrepare(r: string)
    | PHandlePrepare(r: string)
    | CReceivePrepare(r: string)
    | CReceiveAbort(r: string)
    | CSendCommit(r: string)
    | CSendAbort(r: string)
    | PHandleCommit(r: string)
    | CReceiveCommit(r: string)
    | PHandleAbort(r: string)
    | NetworkTakeMessage(msg: Message)
    | NetworkDeliverMessage(msg: Message)

  datatype Event = Event(kind: Kind, state: State)

  const RM: set<string> := {"r1", "r2"}

  function ToCoordinator(typ: string, r: string): Message { Message(typ, r, "coordinator") }

  function FromCoordinator(typ: string, r: string): Message { Message(typ, "coordinator", r) }

  function ToSet<T>(s: seq<T>): set<T> { set x | x in s }

  /** `s` without any occurrence of `e`. */
  function Remove<T(==)>(s: seq<T>, e: T): seq<T> {
    if s == [] then []
    else Remove(s[..|s| - 1], e) + if s[|s| - 1] == e then [] else [s[|s| - 1]]
  }

  /** `Remove` filters: it treats each part of a sequence alone, and keeps all but `e`. */
  lemma {:induction false} RemoveFilters<T>(a: seq<T>, b: seq<T>, e: T, x: T)
    ensures Remove(a + b, e) == Remove(a, e) + Remove(b, e)
    ensures Remove([x], e) == (if x == e then [] else [x]) && Remove<T>([], e) == []
  {
    assert [x][..0] == [];
    if b == [] {
      assert a + b == a && Remove(a, e) + [] == Remove(a, e);
    } else {
      var k := |b| - 1;
      RemoveFilters(a, b[..k], e, x);
      assert (a + b)[..|a| + k] == a + b[..k];
    }
  }

  const StartBoxes: Boxes := map["coordinator" := [], "r1" := [], "r2" := []]

  const StartState: State := State(
    "none", [], [], StartBoxes, [], [], "none", [], map["r1" := "working", "r2" := "working"], StartBoxes)

  // ---- the clauses that the checks share ----

  predicate Send(prev: State, next: State, m: Message) {
    && m.msource in prev.outbox
    && next.outbox == prev.outbox[m.msource := prev.outbox[m.msource] + [m]]
    && next.inflight == prev.inflight && next.inbox == prev.inbox
  }

  predicate TakeFromInbox(prev: State, next: State, m: Message) {
    && m.mdest in prev.inbox && m in prev.inbox[m.mdest]
    && next.inbox == prev.inbox[m.mdest := Remove(prev.inbox[m.mdest], m)]
  }

  predicate Receive(prev: State, next: State, m: Message) {
    TakeFromInbox(prev, next, m) && next.outbox == prev.outbox && next.inflight == prev.inflight
  }

  predicate Reply(prev: State, next: State, answer: Message, m: Message) {
    && TakeFromInbox(prev, next, m)
    && answer.msource in prev.outbox
    && next.outbox == prev.outbox[answer.msource := prev.outbox[answer.msource] + [answer]]
    && next.inflight == prev.inflight
  }

  predicate RmIs(s: State, r: string, v: string) {
    r in s.rmState && s.rmState[r] == v
  }

  predicate SameTm(prev: State, next: State) {
    && next.tmPrepared == prev.tmPrepared && next.tmCommitted == prev.tmCommitted
    && next.tmAborted == prev.tmAborted && next.tmDecision == prev.tmDecision
  }

  predicate Logs(prev: State, next: State, entry: Entry, who: string) {
    next.actions == prev.actions + [entry] && next.who == who
  }

  // ---- the twelve checks ----

  predicate CheckInitial(next: State) {
    next == StartState
  }

  predicate CheckCSendPrepare(r: string, prev: State, next: State) {
    && prev.tmDecision == "none"
    && ToSet(prev.tmPrepared) != RM
    && Send(prev, next, FromCoordinator("Prepare", r))
    && next.rmState == prev.rmState && SameTm(prev, next)
    && Logs(prev, next, PartyEntry("CSendPrepare", r), "coordinator")
  }

  predicate CheckPHandlePrepare(r: string, prev: State, next: State) {
    && RmIs(prev, r, "working")
    && (|| (next.rmState == prev.rmState[r := "prepared"] &&
            Reply(prev, next, ToCoordinator("Prepared", r), FromCoordinator("Prepare", r)))
        || (next.rmState == prev.rmState[r := "aborted"] &&
            Reply(prev, next, ToCoordinator("Aborted", r), FromCoordinator("Prepare", r))))
    && SameTm(prev, next)
    && Logs(prev, next, VoteEntry("PHandlePrepare", r, next.rmState[r]), r)
  }

  predicate CheckCReceivePrepare(r: string, prev: State, next: State) {
    && r !in prev.tmPrepared
    && Receive(prev, next, ToCoordinator("Prepared", r))
    && next.tmPrepared == prev.tmPrepared + [r]
    && next.rmState == prev.rmState
    && next.tmCommitted == prev.tmCommitted && next.tmAborted == prev.tmAborted && next.tmDecision == prev.tmDecision
    && Logs(prev, next, PartyEntry("CReceivePrepare", r), "coordinator")
  }

  predicate CheckCReceiveAbort(r: string, prev: State, next: State) {
    && Receive(prev, next, ToCoordinator("Aborted", r))
    && r !in prev.tmAborted
    && next.tmAborted == prev.tmAborted + [r]
    && next.rmState == prev.rmState
    && next.tmPrepared == prev.tmPrepared && next.tmCommitted == prev.tmCommitted && next.tmDecision == prev.tmDecision
    && Logs(prev, next, PartyEntry("CReceiveAbort", r), "coordinator")
  }

  predicate CheckCSendCommit(r: string, prev: State, next: State) {
    && ToSet(prev.tmPrepared) == RM
    && prev.tmDecision != "abort"
    && next.tmDecision == "commit"
    && Send(prev, next, FromCoordinator("Commit", r))
    && next.rmState == prev.rmState
    && next.tmPrepared == prev.tmPrepared && next.tmCommitted == prev.tmCommitted && next.tmAborted == prev.tmAborted
    && Logs(prev, next, PartyEntry("CSendCommit", r), "coordinator")
  }

  predicate CheckCSendAbort(r: string, prev: State, next: State) {
    && |prev.tmAborted| > 0
    && prev.tmDecision != "commit"
    && next.tmDecision == "abort"
    && r !in prev.tmAborted
    && Send(prev, next, FromCoordinator("Abort", r))
    && next.rmState == prev.rmState
    && next.tmPrepared == prev.tmPrepared && next.tmCommitted == prev.tmCommitted && next.tmAborted == prev.tmAborted
    && Logs(prev, next, PartyEntry("CSendAbort", r), "coordinator")
  }

  predicate CheckPHandleCommit(r: string, prev: State, next: State) {
    && RmIs(prev, r, "prepared")
    && next.rmState == prev.rmState[r := "committed"]
    && Reply(prev, next, ToCoordinator("Committed", r), FromCoordinator("Commit", r))
    && SameTm(prev, next)
    && Logs(prev, next, PartyEntry("PHandleCommit", r), r)
  }

  predicate CheckCReceiveCommit(r: string, prev: State, next: State) {
    && Receive(prev, next, ToCoordinator("Committed", r))
    && r !in prev.tmCommitted
    && next.tmCommitted == prev.tmCommitted + [r]
    && next.rmState == prev.rmState
    && next.tmPrepared == prev.tmPrepared && next.tmAborted == prev.tmAborted && next.tmDecision == prev.tmDecision
    && Logs(prev, next, PartyEntry("CReceiveCommit", r), "coordinator")
  }

  predicate CheckPHandleAbort(r: string, prev: State, next: State) {
    && (RmIs(prev, r, "working") || RmIs(prev, r, "prepared"))
    && next.rmState == prev.rmState[r := "aborted"]
    && Reply(prev, next, ToCoordinator("Aborted", r), FromCoordinator("Abort", r))
    && SameTm(prev, next)
    && Logs(prev, next, PartyEntry("PHandleAbort", r), r)
  }

  /** Says nothing of `rmState` and the `tm` fields. */
  predicate CheckNetworkTakeMessage(msg: Message, prev: State, next: State) {
    && msg.msource in prev.outbox && msg in prev.outbox[msg.msource]
    && next.inflight == prev.inflight
    && next.outbox == prev.outbox[msg.msource := Remove(prev.outbox[msg.msource], msg)]
    && Logs(prev, next, MessageEntry("NetworkTakeMessage", msg), "Network")
    && next.inbox == prev.inbox
  }

  /** Says nothing of `rmState` and the `tm` fields, nor whether `msg` was ever sent. */
  predicate CheckNetworkDeliverMessage(msg: Message, prev: State, next: State) {
    && next.inflight == prev.inflight
    && msg.mdest in prev.inbox
    && next.inbox == prev.inbox[msg.mdest := prev.inbox[msg.mdest] + [msg]]
    && Logs(prev, next, MessageEntry("NetworkDeliverMessage", msg), "Network")
    && next.outbox == prev.outbox
  }

  predicate CheckEvent(prev: State, e: Event) {
    match e.kind
    case Initial => CheckInitial(e.state)
    case CSendPrepare(r) => CheckCSendPrepare(r, prev, e.state)
    case PHandlePrepare(r) => CheckPHandlePrepare(r, prev, e.state)
    case CReceivePrepare(r) => CheckCReceivePrepare(r, prev, e.state)
    case CReceiveAbort(r) => CheckCReceiveAbort(r, prev, e.state)
    case CSendCommit(r) => CheckCSendCommit(r, prev, e.state)
    case CSendAbort(r) => CheckCSendAbort(r, prev, e.state)
    case PHandleCommit(r) => CheckPHandleCommit(r, prev, e.state)
    case CReceiveCommit(r) => CheckCReceiveCommit(r, prev, e.state)
    case PHandleAbort(r) => CheckPHandleAbort(r, prev, e.state)
    case NetworkTakeMessage(msg) => CheckNetworkTakeMessage(msg, prev, e.state)
    case NetworkDeliverMessage(msg) => CheckNetworkDeliverMessage(msg, prev, e.state)
  }

  /** The state that event `i` is checked against; the first event is its own predecessor. */
  function Before(events: seq<Event>, i: nat): State
    requires i < |events|
  {
    if i == 0 then events[0].state else events[i - 1].state
  }

  /** Event `i` passes the check of its kind. */
  predicate Passes(events: seq<Event>, i: nat)
    requires i < |events|
  {
    CheckEvent(Before(events, i), events[i])
  }

  predicate Accepted(events: seq<Event>) {
    forall i :: 0 <= i < |events| ==> Passes(events, i)
  }

  lemma AcceptedExtends(events: seq<Event>, e: Event)
    requires events != [] || e.kind == Initial
    ensures Accepted(events + [e]) <==>
      Accepted(events) && CheckEvent(if events == [] then e.state else events[|events| - 1].state, e)
  {
    hide CheckEvent;
    var all := events + [e];
    assert forall i :: 0 <= i < |events| ==> Passes(all, i) == Passes(events, i);
    assert Passes(all, |events|) <==> CheckEvent(if events == [] then e.state else events[|events| - 1].state, e);
  }

  /** The monitor: the events recorded since it was last reset. */
  class Monitor {
    var events: seq<Event>

    constructor ()
      ensures events == []
    {
      events := [];
    }

    method CaptureState(state: State, kind: Kind)
      modifies this
      ensures events == old(events) + [Event(kind, state)]
    {
      events := events + [Event(kind, state)];
    }

    method Reset()
      modifies this
      ensures events == []
    {
      events := [];
    }

    /** Walks the recorded events with the previous one at hand; `false` is where the check fails. */
    method CheckTrace() returns (ok: bool)
      ensures ok <==> Accepted(events)
    {
      hide CheckEvent;
      if events == [] {
        return true;
      }
      var prev := events[0];
      for i := 0 to |events|
        invariant prev.state == (if i == 0 then events[0] else events[i - 1]).state
        invariant forall j :: 0 <= j < i ==> Passes(events, j)
      {
        var event := events[i];
        if !CheckEvent(prev.state, event) {
          assert Before(events, i) == prev.state && !Passes(events, i);
          return false;
        }
        prev := event;
      }
      return true;
    }
  }
}
