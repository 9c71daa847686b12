/** The coordinator's `Put` and the followers as one step system. A step of the
    environment completes one RPC or one write to the coordinator's store; the
    environment chooses how it goes. */
module Clusters {
  import opened Replicas

  /** How an RPC fares: lost before its effect, lost after its effect, or answered. */
  datatype Delivery = Dropped | ReplyLost | Delivered

  /** The environment's choice for one step: the fate of the RPC, the answer of the
      follower's hook, and whether the store write succeeds. */
  datatype Choice = Choice(delivery: Delivery, hook: bool, dbOk: bool)

  /** Where `Put` stands: which loop it is in and which follower comes next. */
  datatype Phase =
    | Idle
    | Proposing(pid: nat)
    | Precommitting(pid: nat)
    | Saving
    | Committing(pid: nat)

  /** How the latest `Put` ended. `Completed` is the point where every follower has
      acknowledged the commit. */
  datatype PutReply = NoReply | Completed | Nacked | NotAcknowledged | CacheMiss | SaveFailed

  datatype Cluster = Cluster(
    phase: Phase, entry: Proposal, reply: PutReply,
    coordinator: Replica, followers: seq<Replica>)

  predicate Wf(c: Cluster) {
    match c.phase
    case Idle => true
    case Saving => true
    case Proposing(pid) => pid < |c.followers|
    case Precommitting(pid) => pid < |c.followers|
    case Committing(pid) => pid < |c.followers|
  }

  /** Without followers nothing is ever proposed, hence nothing cached, and no `Put` completes. */
  predicate NothingCached(c: Cluster) {
    c.followers == [] ==> c.coordinator.cache == map[]
  }

  function Return(c: Cluster, reply: PutReply): Cluster {
    c.(phase := Idle, reply := reply)
  }

  /** `Put` is called. */
  function Begin(c: Cluster, entry: Proposal): (c': Cluster)
    ensures Wf(c')
  {
    c.(phase := if c.followers == [] then Saving else Proposing(0), entry := entry, reply := NoReply)
  }

  // ---- one attempt of the propose loop ----

  /** The attempt ends the retry loop: the follower answered and the answer was ACK. */
  predicate ProposeAcked(c: Cluster, ch: Choice)
    requires c.phase.Proposing? && Wf(c)
  {
    ch.delivery == Delivered &&
    ProposeReply(c.followers[c.phase.pid], c.coordinator.height, ch.hook).typ == Ack
  }

  function ProposeAttempt(c: Cluster, ch: Choice): (c': Cluster)
    requires c.phase.Proposing? && Wf(c)
    ensures Wf(c') && |c'.followers| == |c.followers|
  {
    var pid := c.phase.pid;
    var f := c.followers[pid];
    var index := c.coordinator.height;
    if ch.delivery == Dropped then c
    else
      var c1 := c.(followers := c.followers[pid := AfterPropose(f, index, c.entry, ch.hook)]);
      if ch.delivery == ReplyLost then c1
      else
        var response := ProposeReply(f, index, ch.hook);
        var height := if response.index > index then response.index else index;
        var c2 := c1.(coordinator := c1.coordinator.(height := height));
        if response.typ == Nack then c2
        else
          c2.(coordinator := c2.coordinator.(cache := c2.coordinator.cache[height := c.entry]),
              phase := if pid + 1 < |c.followers| then Proposing(pid + 1) else Precommitting(0))
  }

  // ---- the other phases ----

  function PrecommitAttempt(c: Cluster, ch: Choice): (c': Cluster)
    requires c.phase.Precommitting? && Wf(c)
    ensures Wf(c') && |c'.followers| == |c.followers|
  {
    if ch.delivery != Delivered then Return(c, Nacked)
    else if c.phase.pid + 1 < |c.followers| then c.(phase := Precommitting(c.phase.pid + 1))
    else c.(phase := Saving)
  }

  function Finish(c: Cluster): Cluster {
    Return(c.(coordinator := c.coordinator.(height := c.coordinator.height + 1)), Completed)
  }

  function SaveAttempt(c: Cluster, ch: Choice): (c': Cluster)
    ensures Wf(c') && |c'.followers| == |c.followers|
  {
    var index := c.coordinator.height;
    if index !in c.coordinator.cache then Return(c, CacheMiss)
    else if !ch.dbOk then Return(c, SaveFailed)
    else
      var c1 := c.(coordinator := Write(c.coordinator, c.coordinator.cache[index]));
      if c.followers == [] then Finish(c1) else c1.(phase := Committing(0))
  }

  predicate CommitAcked(c: Cluster, ch: Choice)
    requires c.phase.Committing? && Wf(c)
  {
    ch.delivery == Delivered && Commits(c.followers[c.phase.pid], c.coordinator.height, ch.hook, ch.dbOk)
  }

  function CommitAttempt(c: Cluster, ch: Choice): (c': Cluster)
    requires c.phase.Committing? && Wf(c)
    ensures Wf(c') && |c'.followers| == |c.followers|
  {
    var pid := c.phase.pid;
    var f := c.followers[pid];
    var index := c.coordinator.height;
    if ch.delivery == Dropped then Return(c, Nacked)
    else
      var c1 := c.(followers := c.followers[pid := AfterCommit(f, index, ch.hook, ch.dbOk)]);
      var seen := Wire(CommitOutcome(f, index, ch.hook, ch.dbOk));
      if ch.delivery == ReplyLost || seen.err then Return(c1, Nacked)
      else if seen.response != Some(Response(Ack, 0)) then Return(c1, NotAcknowledged)
      else if pid + 1 < |c.followers| then c1.(phase := Committing(pid + 1))
      else Finish(c1)
  }

  function Advance(c: Cluster, ch: Choice): (c': Cluster)
    requires Wf(c)
    ensures Wf(c') && |c'.followers| == |c.followers|
  {
    match c.phase
    case Idle => c
    case Proposing(_) => ProposeAttempt(c, ch)
    case Precommitting(_) => PrecommitAttempt(c, ch)
    case Saving => SaveAttempt(c, ch)
    case Committing(_) => CommitAttempt(c, ch)
  }

  function AdvanceAll(c: Cluster, choices: seq<Choice>): (c': Cluster)
    requires Wf(c)
    ensures Wf(c') && |c'.followers| == |c.followers|
  {
    if choices == [] then c
    else Advance(AdvanceAll(c, choices[..|choices| - 1]), choices[|choices| - 1])
  }

  /** A whole run: `Put` calls, one at a time, and the environment's choices. */
  datatype Action = Call(entry: Proposal) | Env(choice: Choice)

  function Perform(c: Cluster, a: Action): (c': Cluster)
    requires Wf(c)
    ensures Wf(c') && |c'.followers| == |c.followers|
  {
    match a
    case Call(entry) => if c.phase == Idle then Begin(c, entry) else c
    case Env(ch) => Advance(c, ch)
  }

  function Run(c: Cluster, actions: seq<Action>): (c': Cluster)
    requires Wf(c)
    ensures Wf(c') && |c'.followers| == |c.followers|
  {
    if actions == [] then c
    else Perform(Run(c, actions[..|actions| - 1]), actions[|actions| - 1])
  }

  /** Newly started nodes whose followers hold the same store. */
  predicate Fresh(c: Cluster, store: Store) {
    && c.phase == Idle && c.reply == NoReply
    && c.coordinator.height == 0 && c.coordinator.cache == map[] && c.coordinator.writes == []
    && forall i :: 0 <= i < |c.followers| ==> c.followers[i] == Replica(0, map[], store, [])
  }
}

/** What holds at every point of every run that starts fresh. */
module ClusterSafety {
  import opened Replicas
  import opened Clusters

  // ---- subsequences ----

  /** `at[i]` is the position in `b` of the `i`th element of `a`. */
  predicate Embeds<T(==)>(a: seq<T>, b: seq<T>, at: seq<nat>) {
    && |at| == |a|
    && (forall i :: 0 <= i < |a| ==> at[i] < |b| && a[i] == b[at[i]])
    && (forall i, j :: 0 <= i < j < |at| ==> at[i] < at[j])
  }

  /** `a` can be had from `b` by leaving out elements. */
  ghost predicate Subsequence<T>(a: seq<T>, b: seq<T>) {
    exists at: seq<nat> :: Embeds(a, b, at)
  }

  lemma {:induction false} EmbeddingBounds<T>(a: seq<T>, b: seq<T>, at: seq<nat>, i: nat)
    requires Embeds(a, b, at) && i < |a|
    ensures i <= at[i]
    ensures at[i] + (|a| - i) <= |b|
    decreases |a| - i
  {
    EmbeddingLowerBound(a, b, at, i);
    if i + 1 < |a| {
      EmbeddingBounds(a, b, at, i + 1);
    }
  }

  lemma {:induction false} EmbeddingLowerBound<T>(a: seq<T>, b: seq<T>, at: seq<nat>, i: nat)
    requires Embeds(a, b, at) && i < |a|
    ensures i <= at[i]
  {
    if i > 0 {
      EmbeddingLowerBound(a, b, at, i - 1);
    }
  }

  /** A subsequence of the same length is the whole sequence. */
  lemma SubsequenceLength<T>(a: seq<T>, b: seq<T>)
    requires Subsequence(a, b)
    ensures |a| <= |b|
    ensures |a| == |b| ==> a == b
  {
    var at: seq<nat> :| Embeds(a, b, at);
    if a != [] {
      EmbeddingBounds(a, b, at, 0);
    }
    if |a| == |b| {
      forall i | 0 <= i < |a| ensures a[i] == b[i] {
        EmbeddingBounds(a, b, at, i);
      }
    }
  }

  /** Appending `e` on the right, or on both sides, keeps the relation. */
  lemma SubsequenceGrows<T>(a: seq<T>, b: seq<T>, e: T, left: bool, right: bool)
    requires Subsequence(a, b) && (left ==> right)
    ensures Subsequence(a + (if left then [e] else []), b + (if right then [e] else []))
  {
    var at: seq<nat> :| Embeds(a, b, at);
    var at': seq<nat> := if left then at + [|b|] else at;
    assert Embeds(a + (if left then [e] else []), b + (if right then [e] else []), at');
  }

  // ---- the invariant ----

  predicate HasCommitted(c: Cluster, i: nat) {
    c.phase.Committing? && i < c.phase.pid
  }

  /** The writes of follower `i` before the current `Put`. */
  function Earlier(c: Cluster, i: nat): seq<Proposal>
    requires i < |c.followers|
  {
    var w := c.followers[i].writes;
    if HasCommitted(c, i) && w != [] then w[..|w| - 1] else w
  }

  function CoordinatorEarlier(c: Cluster): seq<Proposal> {
    var w := c.coordinator.writes;
    if c.phase.Committing? && w != [] then w[..|w| - 1] else w
  }

  /** `i` holds the current `Put`'s key and value in its cache at the index to be committed. */
  predicate Proposed(c: Cluster, r: Replica) {
    c.coordinator.height in r.cache && r.cache[c.coordinator.height] == c.entry
  }

  ghost predicate FollowerOk(c: Cluster, store: Store, i: nat)
    requires i < |c.followers|
  {
    var f := c.followers[i];
    && f.height == |f.writes|
    && f.store == Replay(store, f.writes)
    && (HasCommitted(c, i) ==> f.writes != [] && f.writes[|f.writes| - 1] == c.entry)
    && Subsequence(Earlier(c, i), if i == 0 then CoordinatorEarlier(c) else Earlier(c, i - 1))
  }

  /** No follower is ahead of the coordinator, as far as writes before this `Put` go. */
  predicate NoneAhead(c: Cluster) {
    forall i :: 0 <= i < |c.followers| ==> |Earlier(c, i)| <= c.coordinator.height
  }

  predicate ProposedBelow(c: Cluster, k: nat)
    requires k <= |c.followers|
  {
    forall i :: 0 <= i < k ==> Proposed(c, c.followers[i])
  }

  predicate PhaseOk(c: Cluster)
    requires Wf(c)
  {
    match c.phase
    case Idle =>
      && (forall i :: 0 <= i < |c.followers| ==> c.followers[i].height <= c.coordinator.height + 1)
      && (c.reply == Completed ==> NoneAhead(c))
    case Proposing(pid) =>
      && (forall i :: 0 <= i < |c.followers| ==> c.followers[i].height <= c.coordinator.height + 1)
      && (pid > 0 ==> NoneAhead(c) && Proposed(c, c.coordinator))
      && ProposedBelow(c, pid)
    case Precommitting(_) =>
      NoneAhead(c) && Proposed(c, c.coordinator) && ProposedBelow(c, |c.followers|)
    case Saving =>
      c.followers != [] ==> NoneAhead(c) && Proposed(c, c.coordinator) && ProposedBelow(c, |c.followers|)
    case Committing(_) =>
      && NoneAhead(c) && Proposed(c, c.coordinator) && ProposedBelow(c, |c.followers|)
      && c.coordinator.writes != [] && c.coordinator.writes[|c.coordinator.writes| - 1] == c.entry
  }

  ghost predicate Inv(c: Cluster, store: Store) {
    && Wf(c) && NothingCached(c)
    && (forall i :: 0 <= i < |c.followers| ==> FollowerOk(c, store, i))
    && PhaseOk(c)
  }

  // ---- consequences of the invariant ----

  lemma {:induction false} EarlierNested(c: Cluster, store: Store, i: nat)
    requires 0 < i < |c.followers| && FollowerOk(c, store, i)
    ensures |Earlier(c, i)| <= |Earlier(c, i - 1)|
    ensures |Earlier(c, i)| == |Earlier(c, i - 1)| ==> Earlier(c, i) == Earlier(c, i - 1)
  {
    SubsequenceLength(Earlier(c, i), Earlier(c, i - 1));
  }

  lemma {:induction false} EarlierOrdered(c: Cluster, store: Store, i: nat, j: nat)
    requires i <= j < |c.followers|
    requires forall k :: 0 <= k < |c.followers| ==> FollowerOk(c, store, k)
    ensures |Earlier(c, j)| <= |Earlier(c, i)|
    ensures |Earlier(c, j)| == |Earlier(c, i)| ==> Earlier(c, j) == Earlier(c, i)
    decreases j
  {
    if i < j {
      EarlierNested(c, store, j);
      EarlierOrdered(c, store, i, j - 1);
    }
  }

  lemma {:induction false} HeightsOrdered(c: Cluster, store: Store, i: nat, j: nat)
    requires Inv(c, store) && i <= j < |c.followers|
    ensures c.followers[j].height <= c.followers[i].height
  {
    EarlierOrdered(c, store, i, j);
    assert FollowerOk(c, store, i) && FollowerOk(c, store, j);
  }

  // ---- every step keeps the invariant ----

  predicate SameData(r: Replica, r': Replica) {
    r'.height == r.height && r'.store == r.store && r'.writes == r.writes
  }

  /** A step outside the commit loop that leaves heights, stores and writes alone. */
  predicate OnlyTalks(c: Cluster, c': Cluster) {
    && !c.phase.Committing? && !c'.phase.Committing?
    && |c'.followers| == |c.followers| && c'.coordinator.writes == c.coordinator.writes
    && forall i :: 0 <= i < |c.followers| ==> SameData(c.followers[i], c'.followers[i])
  }

  lemma {:induction false} TalkKeepsFollowers(c: Cluster, c': Cluster, store: Store)
    requires OnlyTalks(c, c')
    requires forall i :: 0 <= i < |c.followers| ==> FollowerOk(c, store, i)
    ensures forall i :: 0 <= i < |c.followers| ==>
      FollowerOk(c', store, i) && |Earlier(c', i)| == |Earlier(c, i)| == c.followers[i].height
  {
    forall i | 0 <= i < |c.followers|
      ensures FollowerOk(c', store, i) && |Earlier(c', i)| == |Earlier(c, i)| == c.followers[i].height
    {
      assert SameData(c.followers[i], c'.followers[i]) && FollowerOk(c, store, i);
      assert i > 0 ==> SameData(c.followers[i - 1], c'.followers[i - 1]);
    }
  }

  lemma {:induction false} BeginKeepsInv(c: Cluster, store: Store, entry: Proposal)
    requires Inv(c, store) && c.phase == Idle
    ensures Inv(Begin(c, entry), store)
  {
    TalkKeepsFollowers(c, Begin(c, entry), store);
  }

  /** What one propose attempt can do, in flat form. */
  predicate ProposeStep(c: Cluster, c': Cluster)
    requires c.phase.Proposing? && Wf(c)
  {
    var pid, f, h := c.phase.pid, c.followers[c.phase.pid], c.coordinator.height;
    && OnlyTalks(c, c') && c'.entry == c.entry
    && (forall i :: 0 <= i < |c.followers| && i != pid ==> c'.followers[i].cache == c.followers[i].cache)
    && ( // retry, at the same index or at the follower's height
      || (c'.phase == c.phase && c'.coordinator.cache == c.coordinator.cache &&
          c'.coordinator.height == (if f.height > h && c'.coordinator != c.coordinator then f.height else h))
         // acknowledged
      || (c'.phase == (if pid + 1 < |c.followers| then Proposing(pid + 1) else Precommitting(0)) &&
          f.height <= h == c'.coordinator.height && Proposed(c', c'.coordinator) && Proposed(c', c'.followers[pid])))
  }

  lemma {:induction false} ProposeAttemptStep(c: Cluster, ch: Choice)
    requires c.phase.Proposing? && Wf(c)
    ensures ProposeStep(c, ProposeAttempt(c, ch))
  {
  }

  lemma {:induction false} ProposeStepKeepsInv(c: Cluster, c': Cluster, store: Store)
    requires Inv(c, store) && c.phase.Proposing? && ProposeStep(c, c')
    ensures Inv(c', store)
    ensures c.phase.pid > 0 ==> c'.coordinator.height == c.coordinator.height
  {
    hide Subsequence, Replay;
    TalkKeepsFollowers(c, c', store);
    forall i | 0 <= i < |c.followers|
      ensures c.followers[i].height <= c.followers[0].height
      ensures c'.followers[i].height == c.followers[i].height
    {
      HeightsOrdered(c, store, 0, i);
      assert SameData(c.followers[i], c'.followers[i]);
    }
  }

  /** Only the first follower can make the coordinator's height jump, so later followers are
      asked for the index that the earlier ones acknowledged. */
  lemma {:induction false} ProposeKeepsInv(c: Cluster, store: Store, ch: Choice)
    requires Inv(c, store) && c.phase.Proposing?
    ensures Inv(ProposeAttempt(c, ch), store)
    ensures c.phase.pid > 0 ==> ProposeAttempt(c, ch).coordinator.height == c.coordinator.height
  {
    ProposeAttemptStep(c, ch);
    ProposeStepKeepsInv(c, ProposeAttempt(c, ch), store);
  }

  lemma {:induction false} PrecommitKeepsInv(c: Cluster, store: Store, ch: Choice)
    requires Inv(c, store) && c.phase.Precommitting?
    ensures Inv(PrecommitAttempt(c, ch), store)
  {
    TalkKeepsFollowers(c, PrecommitAttempt(c, ch), store);
  }

  lemma {:induction false} SaveKeepsInv(c: Cluster, store: Store, ch: Choice)
    requires Inv(c, store) && c.phase.Saving?
    ensures Inv(SaveAttempt(c, ch), store)
  {
    var c' := SaveAttempt(c, ch);
    var w := c.coordinator.writes;
    forall i | 0 <= i < |c'.followers|
      ensures FollowerOk(c', store, i) && |Earlier(c', i)| == c'.followers[i].height && Earlier(c', i) == Earlier(c, i)
    {
      assert FollowerOk(c, store, i);
      assert |Earlier(c, i)| <= c.coordinator.height;
      assert (w + [c.entry])[..|w|] == w;
    }
  }

  /** What one commit attempt can do, in flat form: at most the next follower writes, and it
      writes the current entry. */
  predicate CommitStep(c: Cluster, c': Cluster, wrote: bool)
    requires c.phase.Committing? && Wf(c)
  {
    var pid := c.phase.pid;
    var f, f' := c.followers[pid], if |c'.followers| == |c.followers| then c'.followers[pid] else c.followers[pid];
    && |c'.followers| == |c.followers| && c'.entry == c.entry
    && (forall i :: 0 <= i < |c.followers| && i != pid ==> c'.followers[i] == c.followers[i])
    && c'.coordinator.writes == c.coordinator.writes && c'.coordinator.cache == c.coordinator.cache
    && (if wrote then SameData(Write(f, c.entry).(height := f.height + 1), f') && f'.cache == f.cache
        else SameData(f, f'))
    && (|| (c'.phase == Committing(pid + 1) && pid + 1 < |c.followers| && wrote && c'.coordinator == c.coordinator)
        || (c'.phase == Idle && c'.reply == Completed && c'.coordinator.height == c.coordinator.height + 1)
        || (c'.phase == Idle && c'.reply != Completed && c'.coordinator == c.coordinator))
  }

  lemma {:induction false} CommitAttemptStep(c: Cluster, ch: Choice) returns (wrote: bool)
    requires c.phase.Committing? && Wf(c) && Proposed(c, c.followers[c.phase.pid])
    ensures CommitStep(c, CommitAttempt(c, ch), wrote)
    ensures wrote <==> ch.delivery != Dropped && ch.hook && ch.dbOk
  {
    wrote := ch.delivery != Dropped && Commits(c.followers[c.phase.pid], c.coordinator.height, ch.hook, ch.dbOk);
  }

  predicate WroteBy(c: Cluster, wrote: bool, i: nat)
    requires c.phase.Committing?
  {
    i < c.phase.pid || (i == c.phase.pid && wrote)
  }

  function WritesAfter(c: Cluster, wrote: bool, i: nat): seq<Proposal>
    requires c.phase.Committing? && i < |c.followers|
  {
    Earlier(c, i) + if WroteBy(c, wrote, i) then [c.entry] else []
  }

  lemma {:induction false} CommitWrites(c: Cluster, c': Cluster, store: Store, wrote: bool, i: nat)
    requires Inv(c, store) && c.phase.Committing? && CommitStep(c, c', wrote) && i < |c.followers|
    ensures
      var f' := c'.followers[i];
      f'.writes == WritesAfter(c, wrote, i) && f'.height == |f'.writes| && f'.store == Replay(store, f'.writes)
  {
    hide PhaseOk, Subsequence, Replay;
    var w, f' := c.followers[i].writes, c'.followers[i];
    assert FollowerOk(c, store, i);
    ReplayAppend(store, w, c.entry);
    if i < c.phase.pid {
      assert w == w[..|w| - 1] + [c.entry];
    } else {
      assert Earlier(c, i) == w;
      assert f'.writes == if i == c.phase.pid && wrote then w + [c.entry] else w;
    }
  }

  /** While the loop goes on, the earlier writes stay the earlier writes; once it ends, all
      writes are. */
  lemma {:induction false} EarlierAfterCommit(c: Cluster, c': Cluster, store: Store, wrote: bool, i: nat)
    requires Inv(c, store) && c.phase.Committing? && CommitStep(c, c', wrote) && i < |c.followers|
    ensures Earlier(c', i) == if c'.phase.Committing? then Earlier(c, i) else WritesAfter(c, wrote, i)
    ensures CoordinatorEarlier(c') == CoordinatorEarlier(c) + if c'.phase.Committing? then [] else [c.entry]
  {
    CommitWrites(c, c', store, wrote, i);
    var w := c.coordinator.writes;
    assert w == w[..|w| - 1] + [c.entry];
  }

  lemma {:induction false} CommitKeepsOrder(c: Cluster, c': Cluster, store: Store, wrote: bool, i: nat)
    requires Inv(c, store) && c.phase.Committing? && CommitStep(c, c', wrote) && i < |c.followers|
    ensures Subsequence(Earlier(c', i), if i == 0 then CoordinatorEarlier(c') else Earlier(c', i - 1))
  {
    hide Subsequence, Replay;
    assert FollowerOk(c, store, i);
    EarlierAfterCommit(c, c', store, wrote, i);
    if i > 0 {
      EarlierAfterCommit(c, c', store, wrote, i - 1);
      SubsequenceGrows(Earlier(c, i), Earlier(c, i - 1), c.entry, WroteBy(c, wrote, i), WroteBy(c, wrote, i - 1));
    } else {
      SubsequenceGrows(Earlier(c, i), CoordinatorEarlier(c), c.entry, WroteBy(c, wrote, i), true);
    }
  }

  lemma {:induction false} CommitKeepsFollowers(c: Cluster, c': Cluster, store: Store, wrote: bool, i: nat)
    requires Inv(c, store) && c.phase.Committing? && CommitStep(c, c', wrote) && i < |c.followers|
    ensures FollowerOk(c', store, i)
    ensures c'.followers[i].height <= c.coordinator.height + 1
    ensures c'.phase.Committing? ==> |Earlier(c', i)| <= c.coordinator.height
  {
    hide Subsequence, Replay;
    CommitKeepsOrder(c, c', store, wrote, i);
    CommitWrites(c, c', store, wrote, i);
    EarlierAfterCommit(c, c', store, wrote, i);
    assert |Earlier(c, i)| <= c.coordinator.height;
  }

  lemma {:induction false} CommitKeepsInv(c: Cluster, store: Store, ch: Choice)
    requires Inv(c, store) && c.phase.Committing?
    ensures Inv(CommitAttempt(c, ch), store)
  {
    var wrote := CommitAttemptStep(c, ch);
    CommitStepKeepsInv(c, CommitAttempt(c, ch), store, wrote);
  }

  lemma {:induction false} CommitStepKeepsInv(c: Cluster, c': Cluster, store: Store, wrote: bool)
    requires Inv(c, store) && c.phase.Committing? && CommitStep(c, c', wrote)
    ensures Inv(c', store)
  {
    forall i | 0 <= i < |c'.followers|
      ensures FollowerOk(c', store, i)
      ensures c'.followers[i].height <= c.coordinator.height + 1
      ensures c'.phase.Committing? ==> |Earlier(c', i)| <= c.coordinator.height
    {
      CommitKeepsFollowers(c, c', store, wrote, i);
    }
    assert c'.phase.Committing? ==>
      forall i :: 0 <= i < |c.followers| ==> c'.followers[i].cache == c.followers[i].cache;
  }

  lemma {:induction false} AdvanceKeepsInv(c: Cluster, store: Store, ch: Choice)
    requires Inv(c, store)
    ensures Inv(Advance(c, ch), store)
  {
    match c.phase
    case Idle =>
    case Proposing(_) => ProposeKeepsInv(c, store, ch);
    case Precommitting(_) => PrecommitKeepsInv(c, store, ch);
    case Saving => SaveKeepsInv(c, store, ch);
    case Committing(_) => CommitKeepsInv(c, store, ch);
  }

  lemma {:induction false} RunKeepsInv(c: Cluster, store: Store, actions: seq<Action>)
    requires Fresh(c, store)
    ensures Inv(Run(c, actions), store)
  {
    if actions == [] {
      forall i | 0 <= i < |c.followers| ensures FollowerOk(c, store, i) {
        assert c.followers[i] == Replica(0, map[], store, []);
        assert Embeds<Proposal>([], [], []);
        assert i > 0 ==> c.followers[i - 1] == Replica(0, map[], store, []);
      }
    } else {
      var before := Run(c, actions[..|actions| - 1]);
      RunKeepsInv(c, store, actions[..|actions| - 1]);
      match actions[|actions| - 1]
      case Call(entry) =>
        if before.phase == Idle { BeginKeepsInv(before, store, entry); }
      case Env(ch) => AdvanceKeepsInv(before, store, ch);
    }
  }

  // ---- what a user of the store may rely on ----

  /** At every point of every run: follower heights never increase along the follower list,
      and none is more than one ahead of the coordinator; after a completed `Put` none is ahead. */
  lemma {:induction false} HeightInvariant(c: Cluster, store: Store, actions: seq<Action>, i: nat, j: nat)
    requires Fresh(c, store) && i <= j < |c.followers|
    ensures
      var now := Run(c, actions);
      && now.followers[j].height <= now.followers[i].height <= now.coordinator.height + 1
      && (now.phase == Idle && now.reply == Completed ==> now.followers[i].height <= now.coordinator.height)
  {
    var now := Run(c, actions);
    RunKeepsInv(c, store, actions);
    HeightsOrdered(now, store, i, j);
    assert FollowerOk(now, store, i);
    assert now.phase.Precommitting? || now.phase.Committing? ==> |Earlier(now, i)| <= now.coordinator.height;
  }
}
