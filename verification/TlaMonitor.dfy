/** The library operations that the checks use, on TLA+ values. Sets are keyed by how their members
    print; on well-formed values that is as good as structural equality. */
module TlaLibrary {
  import opened Tla
  import Monitors
  import Numerals
  import TlaPrinter

  ghost function ToSet(s: TLA): TLA
    requires s.Seq?
  {
    Set(ByHash(s.elements))
  }

  ghost predicate SetIn(a: TLA, b: TLA)
    requires b.Set?
  {
    Print(a) in b.members
  }

  function SetUnion(a: TLA, b: TLA): TLA
    requires a.Set? && b.Set?
  {
    Set(a.members + b.members)
  }

  function Cardinality(a: TLA): nat
    requires a.Set?
  {
    |a.members|
  }

  function Append(a: TLA, b: TLA): TLA
    requires a.Seq?
  {
    Seq(a.elements + [b])
  }

  function Remove(a: TLA, e: TLA): TLA
    requires a.Seq?
  {
    Seq(Monitors.Remove(a.elements, e))
  }

  function Except(r: TLA, k: string, v: TLA): TLA
    requires r.Record?
  {
    Record(r.fields[k := v])
  }

  // ---- the loops ----

  /** The loop of `ToSet`, keying each value by how it prints. */
  method ToSetLoop(s: seq<TLA>) returns (res: map<string, TLA>)
    ensures Set(res) == ToSet(Seq(s))
  {
    hide Print;
    res := map[];
    for i := 0 to |s|
      invariant res == ByHash(s[..i])
    {
      var hash := TlaPrinter.String(s[i]);
      res := res[hash := s[i]];
      assert s[..i + 1][..i] == s[..i];
    }
    assert s[..|s|] == s;
  }

  method RemoveLoop(s: seq<TLA>, e: TLA) returns (res: seq<TLA>)
    ensures Seq(res) == Remove(Seq(s), e)
  {
    res := [];
    for i := 0 to |s|
      invariant res == Monitors.Remove(s[..i], e)
    {
      if s[i] != e {
        res := res + [s[i]];
      }
      assert s[..i + 1][..i] == s[..i];
    }
    assert s[..|s|] == s;
  }

  // ---- hash-keyed sets agree with sets ----

  ghost predicate AllWellFormed(vs: seq<TLA>) {
    forall i :: 0 <= i < |vs| ==> WellFormed(vs[i])
  }

  lemma {:induction false} ByHashMembers(vs: seq<TLA>)
    requires AllWellFormed(vs)
    ensures forall k :: k in ByHash(vs) ==> k == Print(ByHash(vs)[k]) && ByHash(vs)[k] in vs
    ensures forall v :: v in vs ==> Print(v) in ByHash(vs) && ByHash(vs)[Print(v)] == v
  {
    hide Print, WellFormed;
    if vs != [] {
      var n := |vs| - 1;
      ByHashMembers(vs[..n]);
      assert vs == vs[..n] + [vs[n]];
      forall v | v in vs ensures Print(v) == Print(vs[n]) ==> v == vs[n] {
        PrintInjective(v, vs[n]);
      }
    }
  }

  /** Membership through the hash is membership. */
  lemma {:induction false} SetInAgrees(a: TLA, vs: seq<TLA>)
    requires WellFormed(a) && AllWellFormed(vs)
    ensures SetIn(a, ToSet(Seq(vs))) <==> a in vs
  {
    hide Print, WellFormed;
    ByHashMembers(vs);
    if Print(a) in ByHash(vs) {
      PrintInjective(a, ByHash(vs)[Print(a)]);
    }
  }

  /** Two hash-keyed sets are deeply equal if and only if they have the same members. */
  lemma {:induction false} EqAgrees(xs: seq<TLA>, ys: seq<TLA>)
    requires AllWellFormed(xs) && AllWellFormed(ys)
    ensures ToSet(Seq(xs)) == ToSet(Seq(ys)) <==> Monitors.ToSet(xs) == Monitors.ToSet(ys)
  {
    hide Print, WellFormed, ByHash;
    ByHashMembers(xs);
    ByHashMembers(ys);
    if Monitors.ToSet(xs) == Monitors.ToSet(ys) {
      assert forall v :: v in xs <==> v in Monitors.ToSet(xs);
      assert forall v :: v in ys <==> v in Monitors.ToSet(ys);
      assert ByHash(xs) == ByHash(ys);
    }
    if ByHash(xs) == ByHash(ys) {
      assert forall v :: v in xs ==> ByHash(ys)[Print(v)] == v && v in ys;
      assert forall v :: v in ys ==> ByHash(xs)[Print(v)] == v && v in xs;
    }
  }

  lemma ByHashAppend(vs: seq<TLA>, v: TLA)
    ensures ByHash(vs + [v]) == ByHash(vs)[Print(v) := v] && ByHash([]) == map[]
  {
    hide Print;
    assert (vs + [v])[..|vs|] == vs;
  }

  lemma MergeUpdate(a: map<string, TLA>, b: map<string, TLA>, k: string, v: TLA)
    ensures a + b[k := v] == (a + b)[k := v] && a + map[] == a
  {
  }

  /** The union of two hash-keyed sets is the set of both lists. */
  lemma {:induction false} UnionAgrees(xs: seq<TLA>, ys: seq<TLA>)
    ensures SetUnion(ToSet(Seq(xs)), ToSet(Seq(ys))) == ToSet(Seq(xs + ys))
  {
    hide Print, ByHash;
    if ys == [] {
      ByHashAppend([], Int(0));
      MergeUpdate(ByHash(xs), map[], "", Int(0));
      assert xs + ys == xs;
    } else {
      var before, last := ys[..|ys| - 1], ys[|ys| - 1];
      UnionAgrees(xs, before);
      ByHashAppend(before, last);
      ByHashAppend(xs + before, last);
      MergeUpdate(ByHash(xs), ByHash(before), Print(last), last);
      assert before + [last] == ys && xs + before + [last] == xs + ys;
    }
  }

  lemma {:induction false} CardinalityAgrees(vs: seq<TLA>)
    requires AllWellFormed(vs)
    ensures Cardinality(ToSet(Seq(vs))) == |Monitors.ToSet(vs)|
  {
    hide Print, WellFormed;
    if vs != [] {
      var n := |vs| - 1;
      CardinalityAgrees(vs[..n]);
      SetInAgrees(vs[n], vs[..n]);
      ByHashMembers(vs[..n]);
      assert vs == vs[..n] + [vs[n]];
      assert Monitors.ToSet(vs) == Monitors.ToSet(vs[..n]) + {vs[n]};
      assert ByHash(vs).Keys == ByHash(vs[..n]).Keys + {Print(vs[n])};
      assert vs[n] in Monitors.ToSet(vs[..n]) <==> Print(vs[n]) in ByHash(vs[..n]).Keys;
    } else {
      assert Monitors.ToSet(vs) == {};
    }
  }

  /** Without well-formedness it is not: a string of digits prints as a number. */
  lemma HashesCollide()
    ensures SetIn(Str("5"), ToSet(Seq([Int(5)]))) && Str("5") !in [Int(5)]
  {
    assert Numerals.Decimal(5) == [Numerals.Digit(5)] == "5";
    assert ByHash([Int(5)]) == ByHash([Int(5)][..0])["5" := Int(5)];
  }
}

/** The checks as they are written: on TLA+ values, with hash-keyed sets. On states whose strings
    are identifiers they decide exactly what the checks over typed states decide. */
module TlaChecks {
  import opened Tla
  import L = TlaLibrary
  import opened Monitors

  /** A recorded state, all fields TLA+ values. */
  datatype TlaState = TlaState(
    who: TLA, actions: TLA, tmCommitted: TLA, outbox: TLA, inflight: TLA,
    tmPrepared: TLA, tmDecision: TLA, tmAborted: TLA, rmState: TLA, inbox: TLA)

  // A failed type assertion and a missing key panic, as a failed check does: all are `false` here.

  function MakeMessage(typ: string, msource: TLA, mdest: TLA): TLA {
    Record(map["type" := Str(typ), "mdest" := mdest, "msource" := msource])
  }

  function To(typ: string, r: TLA): TLA { MakeMessage(typ, Str("coordinator"), r) }

  function From(typ: string, r: TLA): TLA { MakeMessage(typ, r, Str("coordinator")) }

  /** `boxes[m.field]`, when `boxes` is a record that maps the string `m.field` to a sequence. */
  predicate HasBox(boxes: TLA, m: TLA, field: string) {
    && boxes.Record? && m.Record? && field in m.fields && m.fields[field].Str?
    && m.fields[field].s in boxes.fields && boxes.fields[m.fields[field].s].Seq?
  }

  function BoxOf(boxes: TLA, m: TLA, field: string): TLA
    requires HasBox(boxes, m, field)
  {
    boxes.fields[m.fields[field].s]
  }

  function WithBox(boxes: TLA, m: TLA, field: string, box: TLA): TLA
    requires HasBox(boxes, m, field)
  {
    L.Except(boxes, m.fields[field].s, box)
  }

  predicate TAppended(prev: TLA, next: TLA, m: TLA, field: string) {
    HasBox(prev, m, field) && next == WithBox(prev, m, field, L.Append(BoxOf(prev, m, field), m))
  }

  ghost predicate TTaken(prev: TLA, next: TLA, m: TLA, field: string) {
    && HasBox(prev, m, field)
    && L.SetIn(m, L.ToSet(BoxOf(prev, m, field)))
    && next == WithBox(prev, m, field, L.Remove(BoxOf(prev, m, field), m))
  }

  predicate TSend(prev: TlaState, next: TlaState, m: TLA) {
    TAppended(prev.outbox, next.outbox, m, "msource") && next.inflight == prev.inflight && next.inbox == prev.inbox
  }

  ghost predicate TReceive(prev: TlaState, next: TlaState, m: TLA) {
    TTaken(prev.inbox, next.inbox, m, "mdest") && next.outbox == prev.outbox && next.inflight == prev.inflight
  }

  ghost predicate TReply(prev: TlaState, next: TlaState, answer: TLA, m: TLA) {
    && TTaken(prev.inbox, next.inbox, m, "mdest")
    && TAppended(prev.outbox, next.outbox, answer, "msource")
    && next.inflight == prev.inflight
  }

  predicate TRmIs(s: TlaState, r: TLA, v: string) {
    s.rmState.Record? && r.Str? && r.s in s.rmState.fields && s.rmState.fields[r.s] == Str(v)
  }

  predicate TMoves(prev: TlaState, next: TlaState, r: TLA, v: string) {
    prev.rmState.Record? && r.Str? && next.rmState == L.Except(prev.rmState, r.s, Str(v))
  }

  predicate TSameTm(prev: TlaState, next: TlaState) {
    && next.tmPrepared == prev.tmPrepared && next.tmCommitted == prev.tmCommitted
    && next.tmAborted == prev.tmAborted && next.tmDecision == prev.tmDecision
  }

  predicate TLogs(prev: TlaState, next: TlaState, entry: seq<TLA>, who: TLA) {
    prev.actions.Seq? && next.actions == L.Append(prev.actions, Seq(entry)) && next.who == who
  }

  ghost predicate TNew(list: TLA, next: TLA, r: TLA) {
    list.Seq? && !L.SetIn(r, L.ToSet(list)) && next == L.Append(list, r)
  }

  /** `ToSet(tmPrepared) = RM`. */
  ghost predicate TAllPrepared(s: TlaState)
    requires s.tmPrepared.Seq?
  {
    L.ToSet(s.tmPrepared) == L.ToSet(Seq([Str("r1"), Str("r2")]))
  }

  ghost predicate TCheckCSendPrepare(r: TLA, prev: TlaState, next: TlaState) {
    && prev.tmDecision == Str("none")
    && prev.tmPrepared.Seq? && !TAllPrepared(prev)
    && TSend(prev, next, To("Prepare", r))
    && next.rmState == prev.rmState && TSameTm(prev, next)
    && TLogs(prev, next, [Str("CSendPrepare"), r], Str("coordinator"))
  }

  ghost predicate TCheckPHandlePrepare(r: TLA, prev: TlaState, next: TlaState) {
    && TRmIs(prev, r, "working")
    && (|| (TMoves(prev, next, r, "prepared") && TReply(prev, next, From("Prepared", r), To("Prepare", r)))
        || (TMoves(prev, next, r, "aborted") && TReply(prev, next, From("Aborted", r), To("Prepare", r))))
    && TSameTm(prev, next)
    && TLogs(prev, next, [Str("PHandlePrepare"), r, next.rmState.fields[r.s]], r)
  }

  ghost predicate TCheckCReceivePrepare(r: TLA, prev: TlaState, next: TlaState) {
    && TNew(prev.tmPrepared, next.tmPrepared, r)
    && TReceive(prev, next, From("Prepared", r))
    && next.rmState == prev.rmState
    && next.tmCommitted == prev.tmCommitted && next.tmAborted == prev.tmAborted && next.tmDecision == prev.tmDecision
    && TLogs(prev, next, [Str("CReceivePrepare"), r], Str("coordinator"))
  }

  ghost predicate TCheckCReceiveAbort(r: TLA, prev: TlaState, next: TlaState) {
    && TReceive(prev, next, From("Aborted", r))
    && TNew(prev.tmAborted, next.tmAborted, r)
    && next.rmState == prev.rmState
    && next.tmPrepared == prev.tmPrepared && next.tmCommitted == prev.tmCommitted && next.tmDecision == prev.tmDecision
    && TLogs(prev, next, [Str("CReceiveAbort"), r], Str("coordinator"))
  }

  ghost predicate TCheckCSendCommit(r: TLA, prev: TlaState, next: TlaState) {
    && prev.tmPrepared.Seq? && TAllPrepared(prev)
    && prev.tmDecision != Str("abort") && next.tmDecision == Str("commit")
    && TSend(prev, next, To("Commit", r))
    && next.rmState == prev.rmState
    && next.tmPrepared == prev.tmPrepared && next.tmCommitted == prev.tmCommitted && next.tmAborted == prev.tmAborted
    && TLogs(prev, next, [Str("CSendCommit"), r], Str("coordinator"))
  }

  ghost predicate TCheckCSendAbort(r: TLA, prev: TlaState, next: TlaState) {
    && prev.tmAborted.Seq? && |prev.tmAborted.elements| > 0
    && prev.tmDecision != Str("commit") && next.tmDecision == Str("abort")
    && !L.SetIn(r, L.ToSet(prev.tmAborted))
    && TSend(prev, next, To("Abort", r))
    && next.rmState == prev.rmState
    && next.tmPrepared == prev.tmPrepared && next.tmCommitted == prev.tmCommitted && next.tmAborted == prev.tmAborted
    && TLogs(prev, next, [Str("CSendAbort"), r], Str("coordinator"))
  }

  ghost predicate TCheckPHandleCommit(r: TLA, prev: TlaState, next: TlaState) {
    && TRmIs(prev, r, "prepared")
    && TMoves(prev, next, r, "committed")
    && TReply(prev, next, From("Committed", r), To("Commit", r))
    && TSameTm(prev, next)
    && TLogs(prev, next, [Str("PHandleCommit"), r], r)
  }

  ghost predicate TCheckCReceiveCommit(r: TLA, prev: TlaState, next: TlaState) {
    && TReceive(prev, next, From("Committed", r))
    && TNew(prev.tmCommitted, next.tmCommitted, r)
    && next.rmState == prev.rmState
    && next.tmPrepared == prev.tmPrepared && next.tmAborted == prev.tmAborted && next.tmDecision == prev.tmDecision
    && TLogs(prev, next, [Str("CReceiveCommit"), r], Str("coordinator"))
  }

  ghost predicate TCheckPHandleAbort(r: TLA, prev: TlaState, next: TlaState) {
    && prev.rmState.Record? && r.Str? && r.s in prev.rmState.fields
    && L.SetIn(prev.rmState.fields[r.s], L.ToSet(Seq([Str("working"), Str("prepared")])))
    && TMoves(prev, next, r, "aborted")
    && TReply(prev, next, From("Aborted", r), To("Abort", r))
    && TSameTm(prev, next)
    && TLogs(prev, next, [Str("PHandleAbort"), r], r)
  }

  ghost predicate TCheckNetworkTakeMessage(msg: TLA, prev: TlaState, next: TlaState) {
    && TTaken(prev.outbox, next.outbox, msg, "msource")
    && next.inflight == prev.inflight
    && TLogs(prev, next, [Str("NetworkTakeMessage"), msg], Str("Network"))
    && next.inbox == prev.inbox
  }

  predicate TCheckNetworkDeliverMessage(msg: TLA, prev: TlaState, next: TlaState) {
    && next.inflight == prev.inflight
    && TAppended(prev.inbox, next.inbox, msg, "mdest")
    && TLogs(prev, next, [Str("NetworkDeliverMessage"), msg], Str("Network"))
    && next.outbox == prev.outbox
  }

  // ---- typed states as TLA+ values ----

  function OfStrings(s: seq<string>): TLA {
    Seq(seq(|s|, i requires 0 <= i < |s| => Str(s[i])))
  }

  function OfMessage(m: Message): TLA {
    MakeMessage(m.typ, Str(m.msource), Str(m.mdest))
  }

  function OfMessages(ms: seq<Message>): TLA {
    Seq(seq(|ms|, i requires 0 <= i < |ms| => OfMessage(ms[i])))
  }

  function OfBoxes(boxes: Boxes): TLA {
    Record(map x | x in boxes :: OfMessages(boxes[x]))
  }

  function OfRmState(rm: map<string, string>): TLA {
    Record(map r | r in rm :: Str(rm[r]))
  }

  function OfEntry(e: Entry): TLA {
    match e
    case PartyEntry(name, party) => Seq([Str(name), Str(party)])
    case VoteEntry(name, party, vote) => Seq([Str(name), Str(party), Str(vote)])
    case MessageEntry(name, msg) => Seq([Str(name), OfMessage(msg)])
  }

  function OfEntries(es: seq<Entry>): TLA {
    Seq(seq(|es|, i requires 0 <= i < |es| => OfEntry(es[i])))
  }

  function OfState(s: State): TlaState {
    TlaState(Str(s.who), OfEntries(s.actions), OfStrings(s.tmCommitted), OfBoxes(s.outbox), OfMessages(s.inflight),
      OfStrings(s.tmPrepared), Str(s.tmDecision), OfStrings(s.tmAborted), OfRmState(s.rmState), OfBoxes(s.inbox))
  }

  /** The state that the check of `Initial` asks for. */
  function Starting(): TlaState {
    var boxes := Record(map["r1" := Seq([]), "r2" := Seq([]), "coordinator" := Seq([])]);
    var working := Record(map["r1" := Str("working"), "r2" := Str("working")]);
    TlaState(Str("none"), Seq([]), Seq([]), boxes, Seq([]), Seq([]), Str("none"), Seq([]), working, boxes)
  }

  ghost predicate TCheckEvent(prev: TlaState, kind: Kind, next: TlaState) {
    match kind
    case Initial => next == Starting()
    case CSendPrepare(r) => TCheckCSendPrepare(Str(r), prev, next)
    case PHandlePrepare(r) => TCheckPHandlePrepare(Str(r), prev, next)
    case CReceivePrepare(r) => TCheckCReceivePrepare(Str(r), prev, next)
    case CReceiveAbort(r) => TCheckCReceiveAbort(Str(r), prev, next)
    case CSendCommit(r) => TCheckCSendCommit(Str(r), prev, next)
    case CSendAbort(r) => TCheckCSendAbort(Str(r), prev, next)
    case PHandleCommit(r) => TCheckPHandleCommit(Str(r), prev, next)
    case CReceiveCommit(r) => TCheckCReceiveCommit(Str(r), prev, next)
    case PHandleAbort(r) => TCheckPHandleAbort(Str(r), prev, next)
    case NetworkTakeMessage(msg) => TCheckNetworkTakeMessage(OfMessage(msg), prev, next)
    case NetworkDeliverMessage(msg) => TCheckNetworkDeliverMessage(OfMessage(msg), prev, next)
  }

  // ---- the encoding is faithful ----

  lemma {:induction false} StringsFaithful(a: seq<string>, b: seq<string>)
    ensures OfStrings(a) == OfStrings(b) <==> a == b
  {
    if OfStrings(a) == OfStrings(b) {
      var x, y := OfStrings(a).elements, OfStrings(b).elements;
      forall i | 0 <= i < |a| ensures |a| == |b| && a[i] == b[i] {
        assert x[i] == Str(a[i]) && y[i] == Str(b[i]);
      }
      assert |x| == |a| && |y| == |b|;
    }
  }

  lemma MessageFaithful(m: Message, n: Message)
    ensures OfMessage(m) == OfMessage(n) <==> m == n
  {
    var f, g := OfMessage(m).fields, OfMessage(n).fields;
    assert f["type"] == Str(m.typ) && f["msource"] == Str(m.msource) && f["mdest"] == Str(m.mdest);
    assert g["type"] == Str(n.typ) && g["msource"] == Str(n.msource) && g["mdest"] == Str(n.mdest);
  }

  lemma {:induction false} MessagesFaithful(a: seq<Message>, b: seq<Message>)
    ensures OfMessages(a) == OfMessages(b) <==> a == b
  {
    if OfMessages(a) == OfMessages(b) {
      var x, y := OfMessages(a).elements, OfMessages(b).elements;
      assert |x| == |a| && |y| == |b|;
      forall i | 0 <= i < |a| ensures a[i] == b[i] {
        assert x[i] == OfMessage(a[i]) && y[i] == OfMessage(b[i]);
        MessageFaithful(a[i], b[i]);
      }
    }
  }

  lemma {:induction false} BoxesFaithful(a: Boxes, b: Boxes)
    ensures OfBoxes(a) == OfBoxes(b) <==> a == b
  {
    if OfBoxes(a) == OfBoxes(b) {
      var f, g := OfBoxes(a).fields, OfBoxes(b).fields;
      assert f.Keys == a.Keys && g.Keys == b.Keys;
      forall x | x in a ensures x in b && a[x] == b[x] {
        assert x in f && x in g && f[x] == OfMessages(a[x]) && g[x] == OfMessages(b[x]);
        MessagesFaithful(a[x], b[x]);
      }
      assert a == b;
    }
  }

  lemma {:induction false} RmStateFaithful(a: map<string, string>, b: map<string, string>)
    ensures OfRmState(a) == OfRmState(b) <==> a == b
  {
    if OfRmState(a) == OfRmState(b) {
      var f, g := OfRmState(a).fields, OfRmState(b).fields;
      assert f.Keys == a.Keys && g.Keys == b.Keys;
      forall x | x in a ensures x in b && a[x] == b[x] {
        assert x in f && x in g && f[x] == Str(a[x]) && g[x] == Str(b[x]);
      }
      assert a == b;
    }
  }

  lemma EntryFaithful(a: Entry, b: Entry)
    ensures OfEntry(a) == OfEntry(b) <==> a == b
  {
    if OfEntry(a) == OfEntry(b) {
      var x, y := OfEntry(a).elements, OfEntry(b).elements;
      assert |x| == |y| && x[0] == y[0] && x[1] == y[1];
      assert |x| == 3 ==> x[2] == y[2];
      if a.MessageEntry? && b.MessageEntry? {
        MessageFaithful(a.msg, b.msg);
      }
    }
  }

  lemma {:induction false} EntriesFaithful(a: seq<Entry>, b: seq<Entry>)
    ensures OfEntries(a) == OfEntries(b) <==> a == b
  {
    if OfEntries(a) == OfEntries(b) {
      var x, y := OfEntries(a).elements, OfEntries(b).elements;
      assert |x| == |a| && |y| == |b|;
      forall i | 0 <= i < |a| ensures a[i] == b[i] {
        assert x[i] == OfEntry(a[i]) && y[i] == OfEntry(b[i]);
        EntryFaithful(a[i], b[i]);
      }
    }
  }

  lemma EncodedStart()
    ensures OfState(StartState) == Starting()
  {
    assert OfEntries([]) == OfStrings([]) == OfMessages([]) == Seq([]);
    var boxes := map["r1" := Seq([]), "r2" := Seq([]), "coordinator" := Seq([])];
    assert OfBoxes(StartBoxes).fields == boxes;
    assert OfRmState(StartState.rmState).fields == map["r1" := Str("working"), "r2" := Str("working")];
  }

  /** Messages and log entries as the recording functions build them. */
  lemma EncodedEntries(typ: string, name: string, r: string, vote: string)
    ensures OfMessage(FromCoordinator(typ, r)) ==
      Record(map["type" := Str(typ), "msource" := Str("coordinator"), "mdest" := Str(r)])
    ensures OfMessage(ToCoordinator(typ, r)) ==
      Record(map["type" := Str(typ), "msource" := Str(r), "mdest" := Str("coordinator")])
    ensures OfEntry(PartyEntry(name, r)) == Seq([Str(name), Str(r)])
    ensures OfEntry(VoteEntry(name, r, vote)) == Seq([Str(name), Str(r), Str(vote)])
    ensures OfEntry(MessageEntry(name, FromCoordinator(typ, r))) == Seq([Str(name), OfMessage(FromCoordinator(typ, r))])
  {
  }

  // ---- each clause means the same on both sides ----

  predicate MessageOk(m: Message) {
    Identifier(m.typ) && Identifier(m.msource) && Identifier(m.mdest)
  }

  predicate MessagesOk(ms: seq<Message>) {
    forall i :: 0 <= i < |ms| ==> MessageOk(ms[i])
  }

  predicate StringsOk(s: seq<string>) {
    forall i :: 0 <= i < |s| ==> Identifier(s[i])
  }

  /** The strings of a state that the checks hash are identifiers. */
  predicate StateOk(s: State) {
    && (forall x :: x in s.outbox ==> MessagesOk(s.outbox[x]))
    && (forall x :: x in s.inbox ==> MessagesOk(s.inbox[x]))
    && StringsOk(s.tmPrepared) && StringsOk(s.tmCommitted) && StringsOk(s.tmAborted)
    && (forall r :: r in s.rmState ==> Identifier(s.rmState[r]))
  }

  predicate KindOk(kind: Kind) {
    match kind
    case Initial => true
    case NetworkTakeMessage(msg) => MessageOk(msg)
    case NetworkDeliverMessage(msg) => MessageOk(msg)
    case _ => Identifier(kind.r)
  }

  function Owner(m: Message, field: string): string {
    if field == "msource" then m.msource else m.mdest
  }

  lemma BoxBridge(boxes: Boxes, m: Message, field: string)
    requires field == "msource" || field == "mdest"
    ensures HasBox(OfBoxes(boxes), OfMessage(m), field) <==> Owner(m, field) in boxes
    ensures Owner(m, field) in boxes ==>
      BoxOf(OfBoxes(boxes), OfMessage(m), field) == OfMessages(boxes[Owner(m, field)])
    ensures Owner(m, field) in boxes ==> forall box ::
      WithBox(OfBoxes(boxes), OfMessage(m), field, OfMessages(box)) == OfBoxes(boxes[Owner(m, field) := box])
  {
    var f := OfMessage(m).fields;
    assert f["msource"] == Str(m.msource) && f["mdest"] == Str(m.mdest);
    forall box: seq<Message>
      ensures Owner(m, field) in boxes ==>
        WithBox(OfBoxes(boxes), OfMessage(m), field, OfMessages(box)) == OfBoxes(boxes[Owner(m, field) := box])
    {
      assert OfBoxes(boxes).fields[Owner(m, field) := OfMessages(box)] == OfBoxes(boxes[Owner(m, field) := box]).fields;
    }
  }

  lemma {:induction false} AppendBridge(prev: Boxes, next: Boxes, m: Message, field: string)
    requires field == "msource" || field == "mdest"
    ensures TAppended(OfBoxes(prev), OfBoxes(next), OfMessage(m), field) <==>
      Owner(m, field) in prev && next == prev[Owner(m, field) := prev[Owner(m, field)] + [m]]
  {
    hide OfBoxes, OfMessage, HasBox, BoxOf, WithBox;
    BoxBridge(prev, m, field);
    if Owner(m, field) in prev {
      var box := prev[Owner(m, field)];
      assert L.Append(OfMessages(box), OfMessage(m)) == OfMessages(box + [m]);
      BoxesFaithful(next, prev[Owner(m, field) := box + [m]]);
    }
  }

  lemma {:induction false} RemoveBridge(ms: seq<Message>, m: Message)
    ensures L.Remove(OfMessages(ms), OfMessage(m)) == OfMessages(Remove(ms, m))
  {
    hide OfMessage;
    if ms != [] {
      var n := |ms| - 1;
      RemoveBridge(ms[..n], m);
      MessageFaithful(ms[n], m);
      assert OfMessages(ms).elements[..n] == OfMessages(ms[..n]).elements;
      assert OfMessages(ms).elements[n] == OfMessage(ms[n]);
    }
  }

  lemma MessageWellFormed(m: Message)
    requires MessageOk(m)
    ensures WellFormed(OfMessage(m))
  {
    hide Identifier;
    assert Identifier("type") && Identifier("msource") && Identifier("mdest") by { FieldNames(); }
    assert WellFormed(Str(m.typ)) && WellFormed(Str(m.msource)) && WellFormed(Str(m.mdest));
  }

  lemma FieldNames()
    ensures Identifier("type") && Identifier("msource") && Identifier("mdest") && Identifier("coordinator")
  {
  }

  lemma TypeNames()
    ensures Identifier("Prepare") && Identifier("Prepared") && Identifier("Commit")
    ensures Identifier("Committed") && Identifier("Abort") && Identifier("Aborted")
  {
  }

  lemma RmNames()
    ensures Identifier("r1") && Identifier("r2") && Identifier("working") && Identifier("prepared")
  {
  }

  lemma {:induction false} InMessages(ms: seq<Message>, m: Message)
    requires MessagesOk(ms) && MessageOk(m)
    ensures L.SetIn(OfMessage(m), L.ToSet(OfMessages(ms))) <==> m in ms
  {
    hide OfMessage, WellFormed, MessageOk;
    var vs := OfMessages(ms).elements;
    MessageWellFormed(m);
    forall i | 0 <= i < |ms| ensures WellFormed(vs[i]) && (vs[i] == OfMessage(m) <==> ms[i] == m) {
      MessageWellFormed(ms[i]);
      MessageFaithful(ms[i], m);
      assert vs[i] == OfMessage(ms[i]);
    }
    L.SetInAgrees(OfMessage(m), vs);
  }

  lemma {:induction false} TakenBridge(prev: Boxes, next: Boxes, m: Message, field: string)
    requires field == "msource" || field == "mdest"
    requires MessageOk(m) && forall x :: x in prev ==> MessagesOk(prev[x])
    ensures TTaken(OfBoxes(prev), OfBoxes(next), OfMessage(m), field) <==>
      var x := Owner(m, field);
      x in prev && m in prev[x] && next == prev[x := Remove(prev[x], m)]
  {
    hide OfBoxes, OfMessage, HasBox, BoxOf, WithBox, MessagesOk, MessageOk;
    BoxBridge(prev, m, field);
    if Owner(m, field) in prev {
      var box := prev[Owner(m, field)];
      InMessages(box, m);
      RemoveBridge(box, m);
      BoxesFaithful(next, prev[Owner(m, field) := Remove(box, m)]);
    }
  }

  lemma {:induction false} InStrings(s: seq<string>, r: string)
    requires StringsOk(s) && Identifier(r)
    ensures L.SetIn(Str(r), L.ToSet(OfStrings(s))) <==> r in s
  {
    hide Identifier;
    var vs := OfStrings(s).elements;
    forall i | 0 <= i < |s| ensures WellFormed(vs[i]) && (vs[i] == Str(r) <==> s[i] == r) {
      assert vs[i] == Str(s[i]);
    }
    L.SetInAgrees(Str(r), vs);
  }

  lemma {:induction false} NewBridge(list: seq<string>, next: seq<string>, r: string)
    requires StringsOk(list) && Identifier(r)
    ensures TNew(OfStrings(list), OfStrings(next), Str(r)) <==> r !in list && next == list + [r]
  {
    InStrings(list, r);
    assert L.Append(OfStrings(list), Str(r)) == OfStrings(list + [r]);
    StringsFaithful(next, list + [r]);
  }

  lemma {:induction false} AllPreparedBridge(s: State)
    requires StringsOk(s.tmPrepared)
    ensures TAllPrepared(OfState(s)) <==> ToSet(s.tmPrepared) == RM
  {
    hide Identifier;
    RmNames();
    var xs, ys := OfStrings(s.tmPrepared).elements, [Str("r1"), Str("r2")];
    L.EqAgrees(xs, ys);
    forall r ensures r in ToSet(s.tmPrepared) <==> Str(r) in ToSet(xs) {
      if r in s.tmPrepared {
        var i :| 0 <= i < |s.tmPrepared| && s.tmPrepared[i] == r;
        assert xs[i] == Str(r);
      }
    }
    forall v | v in xs ensures v.Str? {
    }
    if ToSet(xs) == ToSet(ys) {
      assert forall r :: r in ToSet(s.tmPrepared) <==> Str(r) in ToSet(ys);
      assert forall r :: Str(r) in ToSet(ys) <==> r in RM;
    }
    if ToSet(s.tmPrepared) == RM {
      assert forall v :: v in ToSet(xs) ==> v.Str? && v.s in RM;
      assert forall v :: v in ToSet(ys) <==> v.Str? && v.s in RM;
      assert ToSet(xs) == ToSet(ys);
    }
  }

  lemma {:induction false} LogsBridge(prev: State, next: State, entry: Entry, who: string)
    ensures TLogs(OfState(prev), OfState(next), OfEntry(entry).elements, Str(who)) <==> Logs(prev, next, entry, who)
  {
    assert L.Append(OfEntries(prev.actions), OfEntry(entry)) == OfEntries(prev.actions + [entry]);
    EntriesFaithful(next.actions, prev.actions + [entry]);
  }

  lemma RmBridge(prev: State, next: State, r: string, v: string)
    ensures TRmIs(OfState(prev), Str(r), v) <==> RmIs(prev, r, v)
    ensures TMoves(OfState(prev), OfState(next), Str(r), v) <==> next.rmState == prev.rmState[r := v]
  {
    assert L.Except(OfRmState(prev.rmState), r, Str(v)) == OfRmState(prev.rmState[r := v]);
    RmStateFaithful(next.rmState, prev.rmState[r := v]);
  }

  lemma FieldsFaithful(prev: State, next: State)
    ensures OfRmState(next.rmState) == OfRmState(prev.rmState) <==> next.rmState == prev.rmState
    ensures TSameTm(OfState(prev), OfState(next)) <==> SameTm(prev, next)
    ensures OfStrings(next.tmPrepared) == OfStrings(prev.tmPrepared) <==> next.tmPrepared == prev.tmPrepared
    ensures OfStrings(next.tmCommitted) == OfStrings(prev.tmCommitted) <==> next.tmCommitted == prev.tmCommitted
    ensures OfStrings(next.tmAborted) == OfStrings(prev.tmAborted) <==> next.tmAborted == prev.tmAborted
    ensures OfMessages(next.inflight) == OfMessages(prev.inflight) <==> next.inflight == prev.inflight
    ensures OfBoxes(next.inbox) == OfBoxes(prev.inbox) <==> next.inbox == prev.inbox
    ensures OfBoxes(next.outbox) == OfBoxes(prev.outbox) <==> next.outbox == prev.outbox
  {
    hide OfStrings, OfMessages, OfBoxes, OfRmState;
    RmStateFaithful(next.rmState, prev.rmState);
    StringsFaithful(next.tmPrepared, prev.tmPrepared);
    StringsFaithful(next.tmCommitted, prev.tmCommitted);
    StringsFaithful(next.tmAborted, prev.tmAborted);
    MessagesFaithful(next.inflight, prev.inflight);
    BoxesFaithful(next.inbox, prev.inbox);
    BoxesFaithful(next.outbox, prev.outbox);
  }

  lemma StateFaithful(s: State, t: State)
    ensures OfState(s) == OfState(t) <==> s == t
  {
    hide OfStrings, OfMessages, OfBoxes, OfRmState, OfEntries;
    FieldsFaithful(s, t);
    EntriesFaithful(s.actions, t.actions);
  }

  lemma MessagesToAndFrom(typ: string, r: string)
    requires Identifier(typ) && Identifier(r)
    ensures To(typ, Str(r)) == OfMessage(FromCoordinator(typ, r)) && MessageOk(FromCoordinator(typ, r))
    ensures From(typ, Str(r)) == OfMessage(ToCoordinator(typ, r)) && MessageOk(ToCoordinator(typ, r))
  {
    hide Identifier;
    assert Identifier("coordinator") by { FieldNames(); }
  }

  lemma {:induction false} SendBridge(prev: State, next: State, typ: string, r: string)
    requires Identifier(typ) && Identifier(r)
    ensures TSend(OfState(prev), OfState(next), To(typ, Str(r))) <==> Send(prev, next, FromCoordinator(typ, r))
  {
    hide Identifier, OfBoxes, OfMessages, OfMessage, To, TAppended, TSameTm;
    MessagesToAndFrom(typ, r);
    FieldsFaithful(prev, next);
    AppendBridge(prev.outbox, next.outbox, FromCoordinator(typ, r), "msource");
  }

  lemma {:induction false} ReceiveBridge(prev: State, next: State, typ: string, r: string)
    requires StateOk(prev) && Identifier(typ) && Identifier(r)
    ensures TReceive(OfState(prev), OfState(next), From(typ, Str(r))) <==> Receive(prev, next, ToCoordinator(typ, r))
  {
    hide Identifier, OfBoxes, OfMessages, OfMessage, From, TTaken, TSameTm, MessagesOk, MessageOk;
    MessagesToAndFrom(typ, r);
    FieldsFaithful(prev, next);
    TakenBridge(prev.inbox, next.inbox, ToCoordinator(typ, r), "mdest");
  }

  lemma {:induction false} ReplyBridge(prev: State, next: State, typ: string, query: string, r: string)
    requires StateOk(prev) && Identifier(typ) && Identifier(query) && Identifier(r)
    ensures TReply(OfState(prev), OfState(next), From(typ, Str(r)), To(query, Str(r))) <==>
      Reply(prev, next, ToCoordinator(typ, r), FromCoordinator(query, r))
  {
    hide Identifier, OfBoxes, OfMessages, OfMessage, From, To, TTaken, TAppended, TSameTm, MessagesOk, MessageOk;
    MessagesToAndFrom(typ, r);
    MessagesToAndFrom(query, r);
    FieldsFaithful(prev, next);
    TakenBridge(prev.inbox, next.inbox, FromCoordinator(query, r), "mdest");
    AppendBridge(prev.outbox, next.outbox, ToCoordinator(typ, r), "msource");
  }

  lemma {:induction false} CoordinatorBridge(prev: State, e: Event)
    requires StateOk(prev) && KindOk(e.kind)
    requires e.kind.CSendPrepare? || e.kind.CSendCommit? || e.kind.CSendAbort?
    ensures TCheckEvent(OfState(prev), e.kind, OfState(e.state)) <==> CheckEvent(prev, e)
  {
    hide Identifier, OfStrings, OfBoxes, OfMessages, OfEntries, OfRmState;
    hide To, TSend, Send, TLogs, Logs, TSameTm, SameTm, TAllPrepared;
    var r := e.kind.r;
    TypeNames();
    FieldsFaithful(prev, e.state);
    AllPreparedBridge(prev);
    StringsLength(prev.tmPrepared);
    match e.kind
    case CSendPrepare(_) =>
      SendBridge(prev, e.state, "Prepare", r);
      LogsBridge(prev, e.state, PartyEntry("CSendPrepare", r), "coordinator");
    case CSendCommit(_) =>
      SendBridge(prev, e.state, "Commit", r);
      LogsBridge(prev, e.state, PartyEntry("CSendCommit", r), "coordinator");
    case CSendAbort(_) =>
      SendBridge(prev, e.state, "Abort", r);
      LogsBridge(prev, e.state, PartyEntry("CSendAbort", r), "coordinator");
      InStrings(prev.tmAborted, r);
      StringsLength(prev.tmAborted);
  }

  lemma StringsLength(s: seq<string>)
    ensures OfStrings(s).Seq? && |OfStrings(s).elements| == |s|
  {
  }

  lemma {:induction false} ReceiverBridge(prev: State, e: Event)
    requires StateOk(prev) && KindOk(e.kind)
    requires e.kind.CReceivePrepare? || e.kind.CReceiveAbort? || e.kind.CReceiveCommit?
    ensures TCheckEvent(OfState(prev), e.kind, OfState(e.state)) <==> CheckEvent(prev, e)
  {
    hide Identifier, OfStrings, OfBoxes, OfMessages, OfEntries, OfRmState;
    hide From, TReceive, Receive, TLogs, Logs, TSameTm, SameTm, TNew;
    var r := e.kind.r;
    TypeNames();
    FieldsFaithful(prev, e.state);
    match e.kind
    case CReceivePrepare(_) =>
      ReceiveBridge(prev, e.state, "Prepared", r);
      LogsBridge(prev, e.state, PartyEntry("CReceivePrepare", r), "coordinator");
      NewBridge(prev.tmPrepared, e.state.tmPrepared, r);
    case CReceiveAbort(_) =>
      ReceiveBridge(prev, e.state, "Aborted", r);
      LogsBridge(prev, e.state, PartyEntry("CReceiveAbort", r), "coordinator");
      NewBridge(prev.tmAborted, e.state.tmAborted, r);
    case CReceiveCommit(_) =>
      ReceiveBridge(prev, e.state, "Committed", r);
      LogsBridge(prev, e.state, PartyEntry("CReceiveCommit", r), "coordinator");
      NewBridge(prev.tmCommitted, e.state.tmCommitted, r);
  }

  lemma InWorkingOrPrepared(v: string)
    requires Identifier(v)
    ensures L.SetIn(Str(v), L.ToSet(Seq([Str("working"), Str("prepared")]))) <==> v == "working" || v == "prepared"
  {
    hide Identifier;
    RmNames();
    L.SetInAgrees(Str(v), [Str("working"), Str("prepared")]);
  }

  lemma {:induction false} ParticipantBridge(prev: State, e: Event)
    requires StateOk(prev) && KindOk(e.kind)
    requires e.kind.PHandlePrepare? || e.kind.PHandleCommit? || e.kind.PHandleAbort?
    ensures TCheckEvent(OfState(prev), e.kind, OfState(e.state)) <==> CheckEvent(prev, e)
  {
    hide Identifier, OfStrings, OfBoxes, OfMessages, OfEntries, From, To, TReply, Reply, TLogs, Logs, TSameTm, SameTm;
    var r, s := e.kind.r, e.state;
    TypeNames();
    FieldsFaithful(prev, s);
    match e.kind
    case PHandlePrepare(_) =>
      RmBridge(prev, s, r, "working");
      RmBridge(prev, s, r, "prepared");
      RmBridge(prev, s, r, "aborted");
      ReplyBridge(prev, s, "Prepared", "Prepare", r);
      ReplyBridge(prev, s, "Aborted", "Prepare", r);
      if r in s.rmState {
        LogsBridge(prev, s, VoteEntry("PHandlePrepare", r, s.rmState[r]), r);
      }
    case PHandleCommit(_) =>
      RmBridge(prev, s, r, "prepared");
      RmBridge(prev, s, r, "committed");
      ReplyBridge(prev, s, "Committed", "Commit", r);
      LogsBridge(prev, s, PartyEntry("PHandleCommit", r), r);
    case PHandleAbort(_) =>
      RmBridge(prev, s, r, "aborted");
      if r in prev.rmState {
        InWorkingOrPrepared(prev.rmState[r]);
      }
      ReplyBridge(prev, s, "Aborted", "Abort", r);
      LogsBridge(prev, s, PartyEntry("PHandleAbort", r), r);
  }

  lemma {:induction false} NetworkBridge(prev: State, e: Event)
    requires StateOk(prev) && KindOk(e.kind)
    requires e.kind.NetworkTakeMessage? || e.kind.NetworkDeliverMessage?
    ensures TCheckEvent(OfState(prev), e.kind, OfState(e.state)) <==> CheckEvent(prev, e)
  {
    hide Identifier, OfStrings, OfBoxes, OfMessages, OfMessage, OfEntries, OfRmState;
    hide TTaken, TAppended, TLogs, Logs, TSameTm, SameTm;
    var msg := e.kind.msg;
    FieldsFaithful(prev, e.state);
    match e.kind
    case NetworkTakeMessage(_) =>
      TakenBridge(prev.outbox, e.state.outbox, msg, "msource");
      LogsBridge(prev, e.state, MessageEntry("NetworkTakeMessage", msg), "Network");
    case NetworkDeliverMessage(_) =>
      AppendBridge(prev.inbox, e.state.inbox, msg, "mdest");
      LogsBridge(prev, e.state, MessageEntry("NetworkDeliverMessage", msg), "Network");
  }

  /** On states whose strings are identifiers, the check written over TLA+ values and hash-keyed
      sets accepts an event if and only if the check over typed states does. */
  lemma {:induction false} ChecksAgree(prev: State, e: Event)
    requires StateOk(prev) && KindOk(e.kind)
    ensures TCheckEvent(OfState(prev), e.kind, OfState(e.state)) <==> CheckEvent(prev, e)
  {
    if e.kind.Initial? {
      EncodedStart();
      StateFaithful(e.state, StartState);
    } else if e.kind.NetworkTakeMessage? || e.kind.NetworkDeliverMessage? {
      NetworkBridge(prev, e);
    } else if e.kind.PHandlePrepare? || e.kind.PHandleCommit? || e.kind.PHandleAbort? {
      ParticipantBridge(prev, e);
    } else if e.kind.CReceivePrepare? || e.kind.CReceiveAbort? || e.kind.CReceiveCommit? {
      ReceiverBridge(prev, e);
    } else {
      CoordinatorBridge(prev, e);
    }
  }
}
