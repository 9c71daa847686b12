/** The monitor over slices in the heap: the action log and the coordinator's lists, which grow by
    appending and whose recorded versions therefore share arrays. */
module HeapMonitor {
  import opened Slices
  import opened Monitors
  import opened Protocol
  import opened Recorders

  /** A recorded state. `rest` holds the other fields; its own lists are not used. */
  datatype HState = HState(
    rest: State, actions: Slice<Entry>,
    tmPrepared: Slice<string>, tmCommitted: Slice<string>, tmAborted: Slice<string>) {
    predicate Ok() {
      actions.Ok() && tmPrepared.Ok() && tmCommitted.Ok() && tmAborted.Ok()
    }

    /** The state that a reader sees now. */
    function View(): State
      requires Ok()
      reads actions.arr, tmPrepared.arr, tmCommitted.arr, tmAborted.arr
    {
      rest.(actions := actions.Content(), tmPrepared := tmPrepared.Content(),
            tmCommitted := tmCommitted.Content(), tmAborted := tmAborted.Content())
    }

    ghost function Arrays(): set<object> {
      {actions.arr as object, tmPrepared.arr as object, tmCommitted.arr as object, tmAborted.arr as object}
    }
  }

  datatype HEvent = HEvent(kind: Kind, state: HState)

  /** The entry that an event must log; a participant's vote is in `rest`. */
  function ActionOf(kind: Kind, rest: State): Entry {
    EntryOf(Event(kind, rest))
  }

  /** Where the checks append in place, the element they write is there already. */
  predicate WritesNothingNew(prev: HState, kind: Kind, rest: State)
    requires prev.Ok()
    reads prev.actions.arr, prev.tmPrepared.arr, prev.tmCommitted.arr, prev.tmAborted.arr
  {
    && (kind != Initial && prev.actions.Spare() ==> prev.actions.arr[prev.actions.len] == ActionOf(kind, rest))
    && (kind.CReceivePrepare? && prev.tmPrepared.Spare() ==> prev.tmPrepared.arr[prev.tmPrepared.len] == kind.r)
    && (kind.CReceiveCommit? && prev.tmCommitted.Spare() ==> prev.tmCommitted.arr[prev.tmCommitted.len] == kind.r)
    && (kind.CReceiveAbort? && prev.tmAborted.Spare() ==> prev.tmAborted.arr[prev.tmAborted.len] == kind.r)
  }

  /** The clauses of a check that do not append to a slice in the heap. */
  predicate OtherClauses(prev: State, kind: Kind, next: State) {
    match kind
    case Initial => next == StartState
    case CSendPrepare(r) =>
      && prev.tmDecision == "none" && ToSet(prev.tmPrepared) != RM
      && Send(prev, next, FromCoordinator("Prepare", r))
      && next.rmState == prev.rmState && SameTm(prev, next) && next.who == "coordinator"
    case PHandlePrepare(r) =>
      && RmIs(prev, r, "working")
      && (|| (next.rmState == prev.rmState[r := "prepared"] &&
              Reply(prev, next, ToCoordinator("Prepared", r), FromCoordinator("Prepare", r)))
          || (next.rmState == prev.rmState[r := "aborted"] &&
              Reply(prev, next, ToCoordinator("Aborted", r), FromCoordinator("Prepare", r))))
      && SameTm(prev, next) && next.who == r
    case CReceivePrepare(r) =>
      && r !in prev.tmPrepared && Receive(prev, next, ToCoordinator("Prepared", r))
      && next.rmState == prev.rmState && next.tmCommitted == prev.tmCommitted
      && next.tmAborted == prev.tmAborted && next.tmDecision == prev.tmDecision && next.who == "coordinator"
    case CReceiveAbort(r) =>
      && Receive(prev, next, ToCoordinator("Aborted", r)) && r !in prev.tmAborted
      && next.rmState == prev.rmState && next.tmPrepared == prev.tmPrepared
      && next.tmCommitted == prev.tmCommitted && next.tmDecision == prev.tmDecision && next.who == "coordinator"
    case CSendCommit(r) =>
      && ToSet(prev.tmPrepared) == RM && prev.tmDecision != "abort" && next.tmDecision == "commit"
      && Send(prev, next, FromCoordinator("Commit", r))
      && next.rmState == prev.rmState && next.tmPrepared == prev.tmPrepared
      && next.tmCommitted == prev.tmCommitted && next.tmAborted == prev.tmAborted && next.who == "coordinator"
    case CSendAbort(r) =>
      && |prev.tmAborted| > 0 && prev.tmDecision != "commit" && next.tmDecision == "abort" && r !in prev.tmAborted
      && Send(prev, next, FromCoordinator("Abort", r))
      && next.rmState == prev.rmState && next.tmPrepared == prev.tmPrepared
      && next.tmCommitted == prev.tmCommitted && next.tmAborted == prev.tmAborted && next.who == "coordinator"
    case PHandleCommit(r) =>
      && RmIs(prev, r, "prepared") && next.rmState == prev.rmState[r := "committed"]
      && Reply(prev, next, ToCoordinator("Committed", r), FromCoordinator("Commit", r))
      && SameTm(prev, next) && next.who == r
    case CReceiveCommit(r) =>
      && Receive(prev, next, ToCoordinator("Committed", r)) && r !in prev.tmCommitted
      && next.rmState == prev.rmState && next.tmPrepared == prev.tmPrepared
      && next.tmAborted == prev.tmAborted && next.tmDecision == prev.tmDecision && next.who == "coordinator"
    case PHandleAbort(r) =>
      && (RmIs(prev, r, "working") || RmIs(prev, r, "prepared")) && next.rmState == prev.rmState[r := "aborted"]
      && Reply(prev, next, ToCoordinator("Aborted", r), FromCoordinator("Abort", r))
      && SameTm(prev, next) && next.who == r
    case NetworkTakeMessage(msg) =>
      && msg.msource in prev.outbox && msg in prev.outbox[msg.msource] && next.inflight == prev.inflight
      && next.outbox == prev.outbox[msg.msource := Remove(prev.outbox[msg.msource], msg)]
      && next.who == "Network" && next.inbox == prev.inbox
    case NetworkDeliverMessage(msg) =>
      && next.inflight == prev.inflight && msg.mdest in prev.inbox
      && next.inbox == prev.inbox[msg.mdest := prev.inbox[msg.mdest] + [msg]]
      && next.who == "Network" && next.outbox == prev.outbox
  }

  /** The clauses with an append, on what the lists hold. */
  predicate AppendClauses(prev: State, kind: Kind, next: State) {
    && (kind != Initial ==> next.actions == prev.actions + [ActionOf(kind, next)])
    && (kind.CReceivePrepare? ==> next.tmPrepared == prev.tmPrepared + [kind.r])
    && (kind.CReceiveCommit? ==> next.tmCommitted == prev.tmCommitted + [kind.r])
    && (kind.CReceiveAbort? ==> next.tmAborted == prev.tmAborted + [kind.r])
  }

  lemma ClausesAreCheck(prev: State, kind: Kind, next: State)
    ensures OtherClauses(prev, kind, next) && AppendClauses(prev, kind, next) <==> CheckEvent(prev, Event(kind, next))
  {
  }

  /** The comparison of the list that an event of this kind appends to, if any. */
  method CompareLists(prev: HState, kind: Kind, next: HState) returns (ok: bool)
    requires prev.Ok() && next.Ok() && WritesNothingNew(prev, kind, next.rest)
    modifies prev.tmPrepared.arr, prev.tmCommitted.arr, prev.tmAborted.arr
    ensures ok <==>
      var p, n := old(prev.View()), old(next.View());
      && (kind.CReceivePrepare? ==> n.tmPrepared == p.tmPrepared + [kind.r])
      && (kind.CReceiveCommit? ==> n.tmCommitted == p.tmCommitted + [kind.r])
      && (kind.CReceiveAbort? ==> n.tmAborted == p.tmAborted + [kind.r])
    ensures prev.tmPrepared.arr[..] == old(prev.tmPrepared.arr[..])
    ensures prev.tmCommitted.arr[..] == old(prev.tmCommitted.arr[..])
    ensures prev.tmAborted.arr[..] == old(prev.tmAborted.arr[..])
  {
    ok := true;
    if kind.CReceivePrepare? {
      ok := CompareWithAppend(prev.tmPrepared, next.tmPrepared, kind.r);
    } else if kind.CReceiveCommit? {
      ok := CompareWithAppend(prev.tmCommitted, next.tmCommitted, kind.r);
    } else if kind.CReceiveAbort? {
      ok := CompareWithAppend(prev.tmAborted, next.tmAborted, kind.r);
    }
  }

  /** The check of one event, appending to the recorded slices as it goes. */
  method CheckEventInHeap(prev: HState, kind: Kind, next: HState) returns (ok: bool)
    requires prev.Ok() && next.Ok() && WritesNothingNew(prev, kind, next.rest)
    modifies prev.Arrays()
    ensures ok == CheckEvent(old(prev.View()), Event(kind, old(next.View())))
    ensures prev.actions.arr[..] == old(prev.actions.arr[..])
    ensures prev.tmPrepared.arr[..] == old(prev.tmPrepared.arr[..])
    ensures prev.tmCommitted.arr[..] == old(prev.tmCommitted.arr[..])
    ensures prev.tmAborted.arr[..] == old(prev.tmAborted.arr[..])
  {
    ClausesAreCheck(prev.View(), kind, next.View());
    hide OtherClauses, CheckEvent;
    if !OtherClauses(prev.View(), kind, next.View()) {
      return false;
    }
    if kind == Initial {
      return true;
    }
    ok := CompareLists(prev, kind, next);
    if ok {
      ok := CompareWithAppend(prev.actions, next.actions, ActionOf(kind, next.rest));
    }
  }

  ghost function ArraysOf(events: seq<HEvent>): set<object> {
    (set i | 0 <= i < |events| :: events[i].state.actions.arr as object) +
    (set i | 0 <= i < |events| :: events[i].state.tmPrepared.arr as object) +
    (set i | 0 <= i < |events| :: events[i].state.tmCommitted.arr as object) +
    (set i | 0 <= i < |events| :: events[i].state.tmAborted.arr as object)
  }

  ghost predicate AllOk(events: seq<HEvent>) {
    forall i :: 0 <= i < |events| ==> events[i].state.Ok()
  }

  /** The trace as a value: what a reader sees now. */
  ghost function Trace(events: seq<HEvent>): (log: seq<Event>)
    requires AllOk(events)
    reads ArraysOf(events)
    ensures |log| == |events|
    ensures forall i :: 0 <= i < |events| ==> log[i] == Event(events[i].kind, events[i].state.View())
  {
    seq(|events|, i requires 0 <= i < |events| && AllOk(events) reads ArraysOf(events) =>
      Event(events[i].kind, events[i].state.View()))
  }

  /** `next` is `prev` grown by one: the same array if that had room. */
  predicate GrownBy<T(==)>(prev: Slice<T>, next: Slice<T>, x: T)
    requires prev.Ok() && next.Ok()
    reads prev.arr, next.arr
  {
    next.Content() == prev.Content() + [x] && (prev.Spare() ==> next.arr == prev.arr)
  }

  /** How the slices are to change before an event of this kind is recorded: as those of `Put` do. */
  predicate Grown(prev: HState, kind: Kind, next: HState)
    requires prev.Ok() && next.Ok()
    reads prev.actions.arr, prev.tmPrepared.arr, prev.tmCommitted.arr, prev.tmAborted.arr
    reads next.actions.arr, next.tmPrepared.arr, next.tmCommitted.arr, next.tmAborted.arr
  {
    && (kind != Initial ==> GrownBy(prev.actions, next.actions, ActionOf(kind, next.rest)))
    && (kind.CReceivePrepare? ==> GrownBy(prev.tmPrepared, next.tmPrepared, kind.r))
    && (kind.CReceiveCommit? ==> GrownBy(prev.tmCommitted, next.tmCommitted, kind.r))
    && (kind.CReceiveAbort? ==> GrownBy(prev.tmAborted, next.tmAborted, kind.r))
  }

  ghost predicate GrownAt(events: seq<HEvent>, i: nat)
    requires AllOk(events) && 0 < i < |events|
    reads ArraysOf(events)
  {
    Grown(events[i - 1].state, events[i].kind, events[i].state)
  }

  ghost predicate GrownTrace(events: seq<HEvent>)
    requires AllOk(events)
    reads ArraysOf(events)
  {
    && (events != [] ==> events[0].kind == Initial)
    && forall i :: 0 < i < |events| ==> GrownAt(events, i)
  }

  lemma GrownByOne<T>(prev: Slice<T>, next: Slice<T>, x: T)
    requires prev.Ok() && next.Ok() && GrownBy(prev, next, x) && prev.Spare()
    ensures prev.arr[prev.len] == x
  {
    assert next.Content()[prev.len] == x;
  }

  lemma GrownWritesNothingNew(prev: HState, kind: Kind, next: HState)
    requires prev.Ok() && next.Ok() && Grown(prev, kind, next)
    ensures WritesNothingNew(prev, kind, next.rest)
  {
    hide GrownBy, ActionOf;
    if kind != Initial && prev.actions.Spare() {
      GrownByOne(prev.actions, next.actions, ActionOf(kind, next.rest));
    }
    if kind.CReceivePrepare? && prev.tmPrepared.Spare() {
      GrownByOne(prev.tmPrepared, next.tmPrepared, kind.r);
    }
    if kind.CReceiveCommit? && prev.tmCommitted.Spare() {
      GrownByOne(prev.tmCommitted, next.tmCommitted, kind.r);
    }
    if kind.CReceiveAbort? && prev.tmAborted.Spare() {
      GrownByOne(prev.tmAborted, next.tmAborted, kind.r);
    }
  }

  lemma InitialWritesNothing(prev: HState, rest: State)
    requires prev.Ok()
    ensures WritesNothingNew(prev, Initial, rest)
  {
  }

  /** The arrays as they were. */
  twostate predicate SameArrays(h: HState)
    reads h.actions.arr, h.tmPrepared.arr, h.tmCommitted.arr, h.tmAborted.arr
  {
    && h.actions.arr[..] == old(h.actions.arr[..])
    && h.tmPrepared.arr[..] == old(h.tmPrepared.arr[..])
    && h.tmCommitted.arr[..] == old(h.tmCommitted.arr[..])
    && h.tmAborted.arr[..] == old(h.tmAborted.arr[..])
  }

  lemma ArraysAt(events: seq<HEvent>, i: nat)
    requires i < |events|
    ensures events[i].state.Arrays() <= ArraysOf(events)
  {
  }

  /** The check of event `i`, which leaves every recorded array as it was. */
  method CheckAt(events: seq<HEvent>, i: nat) returns (ok: bool)
    requires AllOk(events) && GrownTrace(events) && i < |events|
    modifies ArraysOf(events)
    ensures
      var prev := if i == 0 then events[0].state else events[i - 1].state;
      ok <==> CheckEvent(old(prev.View()), Event(events[i].kind, old(events[i].state.View())))
    ensures forall k :: 0 <= k < |events| ==> SameArrays(events[k].state)
  {
    hide CheckEvent, WritesNothingNew, Grown, ArraysOf, ActionOf, HState.View;
    var prev := if i == 0 then events[0] else events[i - 1];
    var next := events[i];
    if i == 0 {
      InitialWritesNothing(prev.state, next.state.rest);
      ArraysAt(events, 0);
    } else {
      assert GrownAt(events, i);
      GrownWritesNothingNew(prev.state, next.kind, next.state);
      ArraysAt(events, i - 1);
    }
    ok := CheckEventInHeap(prev.state, next.kind, next.state);
  }

  method CheckNext(events: seq<HEvent>, i: nat, ghost log: seq<Event>) returns (ok: bool)
    requires AllOk(events) && GrownTrace(events) && i < |events| && log == Trace(events)
    modifies ArraysOf(events)
    ensures ok <==> Passes(log, i)
    ensures Trace(events) == log && GrownTrace(events)
  {
    hide CheckEvent, GrownTrace, SameArrays, ArraysOf;
    ok := CheckAt(events, i);
    SameArraysSameTrace(events);
  }

  /** Checker purity: on a trace whose slices grew as those of `Put` do, the checks over the heap
      decide what the checks over values decide, and leave every recorded state as it was, whatever
      the growth policy. */
  method CheckTraceInHeap(events: seq<HEvent>) returns (ok: bool)
    requires AllOk(events) && GrownTrace(events)
    modifies ArraysOf(events)
    ensures ok <==> Accepted(old(Trace(events)))
    ensures Trace(events) == old(Trace(events)) && GrownTrace(events)
  {
    hide CheckEvent, GrownTrace, ArraysOf, AllOk, Trace;
    ghost var log := Trace(events);
    for i := 0 to |events|
      invariant Trace(events) == log && GrownTrace(events)
      invariant forall k :: 0 <= k < i ==> Passes(log, k)
    {
      ok := CheckNext(events, i, log);
      if !ok {
        return false;
      }
    }
    ok := true;
  }

  twostate lemma SameArraysSameTrace(events: seq<HEvent>)
    requires AllOk(events)
    requires forall k :: 0 <= k < |events| ==> SameArrays(events[k].state)
    ensures Trace(events) == old(Trace(events))
    ensures old(GrownTrace(events)) ==> GrownTrace(events)
  {
    forall k | 0 <= k < |events| ensures SameContents(events[k].state) {
      assert SameArrays(events[k].state);
      SliceSame(events[k].state.actions, old(events[k].state.actions.arr[..]));
      SliceSame(events[k].state.tmPrepared, old(events[k].state.tmPrepared.arr[..]));
      SliceSame(events[k].state.tmCommitted, old(events[k].state.tmCommitted.arr[..]));
      SliceSame(events[k].state.tmAborted, old(events[k].state.tmAborted.arr[..]));
    }
    SameContentsSameTrace(events);
  }

  /** A reader of `h` sees what was seen before. */
  twostate predicate SameContents(h: HState)
    requires h.Ok()
    reads h.actions.arr, h.tmPrepared.arr, h.tmCommitted.arr, h.tmAborted.arr
  {
    && h.actions.Content() == old(h.actions.Content())
    && h.tmPrepared.Content() == old(h.tmPrepared.Content())
    && h.tmCommitted.Content() == old(h.tmCommitted.Content())
    && h.tmAborted.Content() == old(h.tmAborted.Content())
  }

  twostate lemma SameContentsSameTrace(events: seq<HEvent>)
    requires AllOk(events)
    requires forall k :: 0 <= k < |events| ==> SameContents(events[k].state)
    ensures Trace(events) == old(Trace(events))
    ensures old(GrownTrace(events)) ==> GrownTrace(events)
  {
    if old(GrownTrace(events)) {
      forall i | 0 < i < |events| ensures GrownAt(events, i) {
        assert old(GrownAt(events, i));
        assert SameContents(events[i - 1].state) && SameContents(events[i].state);
      }
    }
  }

  lemma SliceSame<T>(s: Slice<T>, whole: seq<T>)
    requires s.Ok() && s.arr[..] == whole
    ensures s.len <= |whole| && s.Content() == whole[..s.len]
  {
  }
}
