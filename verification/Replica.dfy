/** The request handlers of one node, as functions on the node's state. */
module Replicas {

  newtype Byte = b: int | 0 <= b < 256

  type Key = string
  type Value = seq<Byte>
  type Store = map<Key, Value>

  datatype Option<+T> = None | Some(value: T)

  datatype Proposal = Proposal(key: Key, value: Value)

  datatype ReplyType = Ack | Nack

  datatype Response = Response(typ: ReplyType, index: nat)

  /** The pair `(*pb.Response, error)` that a handler returns. */
  datatype Outcome = Outcome(response: Option<Response>, err: bool)

  /** What a client of the RPC sees: an error always comes with a nil response. */
  function Wire(o: Outcome): Outcome {
    if o.err then Outcome(None, true) else o
  }

  /** One node. `writes` is a history variable: the store writes that succeeded, in order.
      It is written by the handlers and read by none of them. */
  datatype Replica = Replica(height: nat, cache: map<nat, Proposal>, store: Store, writes: seq<Proposal>)

  function Write(r: Replica, p: Proposal): Replica {
    r.(store := r.store[p.key := p.value], writes := r.writes + [p])
  }

  // ---- Propose ----

  function AfterPropose(r: Replica, index: nat, p: Proposal, hook: bool): Replica {
    if hook then r.(cache := r.cache[index := p]) else r
  }

  function ProposeReply(r: Replica, index: nat, hook: bool): Response {
    if r.height > index then Response(Nack, r.height)
    else if hook then Response(Ack, index)
    else Response(Nack, index)
  }

  // ---- Commit in two-phase mode ----

  predicate Commits(r: Replica, index: nat, hook: bool, dbOk: bool) {
    hook && index in r.cache && dbOk
  }

  function AfterCommit(r: Replica, index: nat, hook: bool, dbOk: bool): Replica {
    if Commits(r, index, hook, dbOk) then
      Write(r, r.cache[index]).(height := r.height + 1)
    else if hook && index in r.cache then r
    else r.(cache := r.cache - {index})
  }

  function CommitOutcome(r: Replica, index: nat, hook: bool, dbOk: bool): Outcome {
    if !hook then Outcome(Some(Response(Nack, 0)), false)
    else if index !in r.cache then Outcome(Some(Response(Nack, 0)), true)
    else if !dbOk then Outcome(None, true)
    else Outcome(Some(Response(Ack, 0)), false)
  }

  /** The store that a list of writes leaves behind. */
  function Replay(store: Store, writes: seq<Proposal>): Store {
    if writes == [] then store
    else
      var last := writes[|writes| - 1];
      Replay(store, writes[..|writes| - 1])[last.key := last.value]
  }

  lemma ReplayAppend(store: Store, writes: seq<Proposal>, p: Proposal)
    ensures Replay(store, writes + [p]) == Replay(store, writes)[p.key := p.value]
  {
    assert (writes + [p])[..|writes|] == writes;
  }

  /** A key holds what was written to it last. */
  lemma {:induction false} ReplayHoldsLast(store: Store, writes: seq<Proposal>, i: nat)
    requires i < |writes| && forall j :: i < j < |writes| ==> writes[j].key != writes[i].key
    ensures writes[i].key in Replay(store, writes) && Replay(store, writes)[writes[i].key] == writes[i].value
  {
    if i < |writes| - 1 {
      ReplayHoldsLast(store, writes[..|writes| - 1], i);
    }
  }

  /** A key that was not written holds what it held. */
  lemma {:induction false} ReplayKeepsOthers(store: Store, writes: seq<Proposal>, key: Key)
    requires forall i :: 0 <= i < |writes| ==> writes[i].key != key
    ensures key in Replay(store, writes) <==> key in store
    ensures key in store ==> Replay(store, writes)[key] == store[key]
  {
    if writes != [] {
      ReplayKeepsOthers(store, writes[..|writes| - 1], key);
    }
  }
}
