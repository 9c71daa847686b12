/** How a `Put` can end, and what exactly it leaves behind. */
module PutEndings {
  import opened Replicas
  import opened Clusters
  import opened ClusterSafety
  import opened Replication
  import opened ProposeTermination

  // ---- all or nothing ----

  /** A commit request with this fate is carried out. */
  predicate Effective(ch: Choice) {
    ch.delivery != Dropped && ch.hook && ch.dbOk
  }

  function Last(c: Cluster, entry: Proposal, choices: seq<Choice>): (last: Cluster)
    requires Wf(c)
    ensures Wf(last) && |last.followers| == |c.followers|
  {
    AdvanceAll(Begin(c, entry), choices)
  }

  /** The `Put` is still going on after `choices`, and `ch` ends it. */
  predicate EndsWith(c: Cluster, entry: Proposal, choices: seq<Choice>, ch: Choice)
    requires Wf(c)
  {
    Last(c, entry, choices).phase != Idle && Advance(Last(c, entry, choices), ch).phase == Idle
  }

  /** How many followers have written when the step `ch` from `last` ends a `Put`. */
  function Written(last: Cluster, ch: Choice): nat {
    if last.phase.Committing? then last.phase.pid + if Effective(ch) then 1 else 0 else 0
  }

  /** What a `Put` leaves behind, however it ends: nothing if it ends before the commit loop;
      otherwise the coordinator has written, and so have exactly the followers before the one that
      was asked last, and that one if it carried the request out. */
  lemma {:induction false} EndingWrites(c: Cluster, store: Store, entry: Proposal, choices: seq<Choice>, ch: Choice)
    requires Inv(c, store) && c.phase == Idle && EndsWith(c, entry, choices, ch)
    ensures
      var last := Last(c, entry, choices);
      WroteOnPrefix(c, Advance(last, ch), entry, Written(last, ch), last.phase.Committing?)
  {
    var last := Last(c, entry, choices);
    var m, saved := PutWritesPrefix(c, store, entry, choices);
    match last.phase
    case Proposing(_) => ProposeAttemptStep(last, ch);
    case Committing(_) =>
      var wrote := CommitAttemptStep(last, ch);
      assert CommitStep(last, CommitAttempt(last, ch), wrote);
    case _ =>
  }

  predicate AllWrote(c: Cluster, d: Cluster, entry: Proposal) {
    && |d.followers| == |c.followers| && d.coordinator.writes == c.coordinator.writes + [entry]
    && forall i :: 0 <= i < |c.followers| ==> d.followers[i].writes == c.followers[i].writes + [entry]
  }

  predicate NoneWrote(c: Cluster, d: Cluster) {
    && |d.followers| == |c.followers| && d.coordinator.writes == c.coordinator.writes
    && forall i :: 0 <= i < |c.followers| ==> d.followers[i].writes == c.followers[i].writes
  }

  predicate AllOrNothing(c: Cluster, d: Cluster, entry: Proposal) {
    AllWrote(c, d, entry) || NoneWrote(c, d)
  }

  /** A `Put` is all-or-nothing if and only if it ends before the commit loop, or at the last
      follower and with the last follower's write. */
  lemma {:induction false} AllOrNothingExactly(
      c: Cluster, store: Store, actions: seq<Action>, entry: Proposal, choices: seq<Choice>, ch: Choice)
    requires Fresh(c, store) && Run(c, actions).phase == Idle && EndsWith(Run(c, actions), entry, choices, ch)
    ensures
      var start := Run(c, actions);
      var last := Last(start, entry, choices);
      AllOrNothing(start, Advance(last, ch), entry) <==>
        !last.phase.Committing? || (last.phase.pid + 1 == |c.followers| && Effective(ch))
  {
    RunKeepsInv(c, store, actions);
    WritesDecide(Run(c, actions), store, entry, choices, ch);
  }

  lemma {:induction false} WritesDecide(c: Cluster, store: Store, entry: Proposal, choices: seq<Choice>, ch: Choice)
    requires Inv(c, store) && c.phase == Idle && EndsWith(c, entry, choices, ch)
    ensures
      var last := Last(c, entry, choices);
      AllOrNothing(c, Advance(last, ch), entry) <==>
        !last.phase.Committing? || (last.phase.pid + 1 == |c.followers| && Effective(ch))
  {
    hide Advance, Last, Inv;
    EndingWrites(c, store, entry, choices, ch);
    var last := Last(c, entry, choices);
    var end, m := Advance(last, ch), Written(last, ch);
    assert |c.coordinator.writes + [entry]| > |c.coordinator.writes|;
    if m < |c.followers| {
      assert |c.followers[m].writes + [entry]| > |c.followers[m].writes|;
      assert end.followers[m].writes == c.followers[m].writes;
    }
  }

  /** What the answer of `Put` tells its caller: an acknowledgement, that all wrote; a failure to
      save, that none did; a follower that did not acknowledge, that some did and some did not.
      A NACK decides nothing: precommits and commits end with it alike. */
  lemma {:induction false} ReplyTells(c: Cluster, store: Store, entry: Proposal, choices: seq<Choice>, ch: Choice)
    requires Inv(c, store) && c.phase == Idle && EndsWith(c, entry, choices, ch)
    ensures
      var end := Advance(Last(c, entry, choices), ch);
      && (end.reply == Completed ==> AllWrote(c, end, entry))
      && (end.reply == SaveFailed || end.reply == CacheMiss ==> NoneWrote(c, end))
      && (end.reply == NotAcknowledged ==> !AllOrNothing(c, end, entry))
      && end.reply != NoReply
  {
    hide Inv;
    var last := Last(c, entry, choices);
    EndingWrites(c, store, entry, choices, ch);
    WritesDecide(c, store, entry, choices, ch);
    hide AllWrote, NoneWrote;
    assert last.phase.Committing? && Advance(last, ch).reply == Completed ==>
      Effective(ch) && last.phase.pid + 1 == |c.followers|;
    assert last.phase.Committing? && Advance(last, ch).reply == NotAcknowledged ==> !Effective(ch);
  }

  /** Without followers a `Put` has nothing in the coordinator's cache to save. */
  lemma NoFollowers(c: Cluster, store: Store, actions: seq<Action>, entry: Proposal, ch: Choice)
    requires Fresh(c, store) && c.followers == [] && Run(c, actions).phase == Idle
    ensures
      var end := Advance(Begin(Run(c, actions), entry), ch);
      end.phase == Idle && end.reply == CacheMiss && end.coordinator == Run(c, actions).coordinator
  {
    RunKeepsInv(c, store, actions);
  }

  // ---- answers, heights and caches ----

  /** What each choice of the environment leads to: an answer of `Put`, or the next phase. */
  predicate Leads(phase: Phase, n: nat, ch: Choice, next: Phase, reply: PutReply) {
    match phase
    case Idle => next == Idle
    case Proposing(pid) =>
      next == phase || next == if pid + 1 < n then Proposing(pid + 1) else Precommitting(0)
    case Precommitting(pid) =>
      if ch.delivery == Delivered then next == if pid + 1 < n then Precommitting(pid + 1) else Saving
      else next == Idle && reply == Nacked
    case Saving =>
      if ch.dbOk then next == Committing(0) else next == Idle && reply == SaveFailed
    case Committing(pid) =>
      if ch == Choice(Delivered, true, true) then
        if pid + 1 < n then next == Committing(pid + 1) else next == Idle && reply == Completed
      else next == Idle && reply == if ch.delivery == Delivered && !ch.hook then NotAcknowledged else Nacked
  }

  /** At every point of every run: a precommit that is not answered ends a `Put` with NACK, a failing
      store with the failure to save, a commit that is answered by a rejecting hook with a follower
      that did not acknowledge, any other commit that fails with NACK, the last commit with ACK; and
      nothing else ends it. */
  lemma {:induction false} PutAnswersExactly(c: Cluster, store: Store, actions: seq<Action>, ch: Choice)
    requires Fresh(c, store) && c.followers != []
    ensures
      var now := Run(c, actions);
      Leads(now.phase, |c.followers|, ch, Advance(now, ch).phase, Advance(now, ch).reply)
  {
    RunKeepsInv(c, store, actions);
    StepLeads(Run(c, actions), store, ch);
  }

  lemma {:induction false} StepLeads(d: Cluster, store: Store, ch: Choice)
    requires Inv(d, store) && d.followers != []
    ensures Leads(d.phase, |d.followers|, ch, Advance(d, ch).phase, Advance(d, ch).reply)
  {
    hide FollowerOk;
  }

  /** The height that followers are asked for once the first has acknowledged. */
  function Index(c: Cluster): nat
    requires c.followers != []
  {
    if c.followers[0].height > c.coordinator.height then c.followers[0].height else c.coordinator.height
  }

  /** The coordinator within a `Put` that began at `c`. */
  predicate CoordinatorAt(c: Cluster, d: Cluster, entry: Proposal) {
    if c.followers == [] then d.coordinator == c.coordinator
    else if d.phase == Proposing(0) then
      && d.coordinator.cache == c.coordinator.cache
      && (d.coordinator.height == c.coordinator.height || d.coordinator.height == Index(c))
    else
      && d.coordinator.cache == c.coordinator.cache[Index(c) := entry]
      && d.coordinator.height == Index(c) + if d.phase == Idle && d.reply == Completed then 1 else 0
  }

  /** At every point of a `Put` and at its end the coordinator's height is the larger of its own and
      the first follower's, and one more if all acknowledged; its cache has gained the entry there,
      and has lost nothing. */
  lemma {:induction false} CoordinatorExactly(c: Cluster, store: Store, entry: Proposal, choices: seq<Choice>)
    requires Inv(c, store) && c.phase == Idle
    ensures CoordinatorAt(c, Last(c, entry, choices), entry) && Inv(Last(c, entry, choices), store)
    ensures SameFirst(c, Last(c, entry, choices))
    ensures Last(c, entry, choices).phase != Idle ==> Last(c, entry, choices).entry == entry
  {
    if choices == [] {
      BeginKeepsInv(c, store, entry);
    } else {
      var k := |choices| - 1;
      CoordinatorExactly(c, store, entry, choices[..k]);
      var d := Last(c, entry, choices[..k]);
      AdvanceKeepsInv(d, store, choices[k]);
      CoordinatorStep(c, d, store, entry, choices[k]);
    }
  }

  /** The first follower's height changes in the commit loop only. */
  predicate SameFirst(c: Cluster, d: Cluster) {
    && |d.followers| == |c.followers|
    && (d.phase.Proposing? && c.followers != [] ==> d.followers[0].height == c.followers[0].height)
  }

  lemma {:induction false} CoordinatorStep(c: Cluster, d: Cluster, store: Store, entry: Proposal, ch: Choice)
    requires Inv(d, store) && CoordinatorAt(c, d, entry) && SameFirst(c, d) && (d.phase != Idle ==> d.entry == entry)
    ensures CoordinatorAt(c, Advance(d, ch), entry) && SameFirst(c, Advance(d, ch))
    ensures Advance(d, ch).phase != Idle ==> Advance(d, ch).entry == entry
  {
    hide FollowerOk;
    if d.phase.Proposing? {
      ProposeKeepsInv(d, store, ch);
    }
  }

  // ---- the schedule ----

  /** The phase after `t` steps if nothing fails; the first follower is asked twice if it is ahead. */
  function Scheduled(n: nat, ahead: bool, t: nat): Phase {
    var x := if ahead then 1 else 0;
    if t < x then Proposing(0)
    else if t < x + n then Proposing(t - x)
    else if t < x + 2 * n then Precommitting(t - x - n)
    else if t == x + 2 * n then Saving
    else if t <= x + 3 * n then Committing(t - x - 2 * n - 1)
    else Idle
  }

  /** If nothing fails, a `Put` asks every follower in order, once in each of its three loops. */
  lemma {:induction false} ScheduleExactly(c: Cluster, store: Store, entry: Proposal, choices: seq<Choice>)
    requires Inv(c, store) && c.phase == Idle && c.followers != [] && GoesWell(choices)
    ensures
      var d := Last(c, entry, choices);
      && d.phase == Scheduled(|c.followers|, c.followers[0].height > c.coordinator.height, |choices|)
      && (d.phase == Idle ==> d.reply == Completed)
      && (d.phase == Proposing(0) ==>
            d.coordinator.height == if choices == [] then c.coordinator.height else Index(c))
  {
    CoordinatorExactly(c, store, entry, choices);
    if choices == [] {
    } else {
      var k := |choices| - 1;
      ScheduleExactly(c, store, entry, choices[..k]);
      CoordinatorExactly(c, store, entry, choices[..k]);
      var d := Last(c, entry, choices[..k]);
      StepLeads(d, store, choices[k]);
      GoodPropose(d, store);
      assert Last(c, entry, choices) == Advance(d, choices[k]);
      hide Last, Advance, Inv;
    }
  }

  /** An accepting hook acknowledges unless the follower is ahead; then the coordinator catches up. */
  lemma {:induction false} GoodPropose(d: Cluster, store: Store)
    requires Inv(d, store)
    ensures d.phase.Proposing? ==>
      var pid, d' := d.phase.pid, Advance(d, Choice(Delivered, true, true));
      if d.followers[pid].height > d.coordinator.height then
        pid == 0 && d'.phase == d.phase && d'.coordinator.height == d.followers[pid].height
      else d'.phase == if pid + 1 < |d.followers| then Proposing(pid + 1) else Precommitting(0)
  {
    if d.phase.Proposing? && d.phase.pid > 0 {
      assert FollowerOk(d, store, d.phase.pid) && |Earlier(d, d.phase.pid)| == d.followers[d.phase.pid].height;
    }
  }

  // ---- a Put that succeeds, and one that does not ----

  /** Nothing is lost, and hooks and stores accept. */
  predicate GoesWell(choices: seq<Choice>) {
    forall k :: 0 <= k < |choices| ==> choices[k] == Choice(Delivered, true, true)
  }

  /** Steps that a `Put` may still take if all goes well. */
  function Rank(c: Cluster): nat
    requires Wf(c)
  {
    var n := |c.followers|;
    match c.phase
    case Idle => 0
    case Proposing(_) => Measure(c) + 2 * n + 1
    case Precommitting(pid) => 2 * n - pid + 1
    case Saving => n + 1
    case Committing(pid) => n - pid
  }

  lemma {:induction false} RankFalls(c: Cluster, store: Store)
    requires Inv(c, store) && c.phase != Idle && c.followers != []
    ensures
      var c' := Advance(c, Choice(Delivered, true, true));
      Rank(c') < Rank(c) && (c'.phase == Idle ==> c'.reply == Completed)
  {
    hide FollowerOk;
  }

  /** If all goes well, a `Put` is acknowledged after at most four steps for each follower, and one. */
  lemma {:induction false} PutSucceeds(c: Cluster, store: Store, entry: Proposal, choices: seq<Choice>)
    requires Inv(c, store) && c.phase == Idle && c.followers != [] && GoesWell(choices)
    ensures
      var d := Last(c, entry, choices);
      && Inv(d, store)
      && (d.phase == Idle ==> d.reply == Completed)
      && (d.phase != Idle ==> Rank(d) + |choices| <= 4 * |c.followers| + 1)
    ensures |choices| > 4 * |c.followers| ==>
      Last(c, entry, choices).phase == Idle && Last(c, entry, choices).reply == Completed
  {
    if choices == [] {
      BeginKeepsInv(c, store, entry);
    } else {
      var k := |choices| - 1;
      PutSucceeds(c, store, entry, choices[..k]);
      var d := Last(c, entry, choices[..k]);
      AdvanceKeepsInv(d, store, choices[k]);
      if d.phase != Idle {
        RankFalls(d, store);
      }
    }
  }

  lemma OneMore(c: Cluster, entry: Proposal, choices: seq<Choice>, ch: Choice)
    requires Wf(c)
    ensures Last(c, entry, choices + [ch]) == Advance(Last(c, entry, choices), ch)
  {
    assert (choices + [ch])[..|choices|] == choices;
  }

  /** Two new followers, of which the second loses the commit request: the coordinator and the
      first follower keep the value, the second follower does not have it, and the answer is NACK. */
  lemma PartialPut(entry: Proposal) returns (c: Cluster, choices: seq<Choice>, ch: Choice)
    ensures Fresh(c, map[]) && |c.followers| == 2 && EndsWith(c, entry, choices, ch)
    ensures
      var end := Advance(Last(c, entry, choices), ch);
      && end.reply == Nacked && !AllOrNothing(c, end, entry)
      && Holds(end.coordinator, entry) && Holds(end.followers[0], entry) && end.followers[1].store == map[]
  {
    hide AdvanceAll, Last;
    var r := Replica(0, map[], map[], []);
    c := Cluster(Idle, entry, NoReply, r, [r, r]);
    var well := Choice(Delivered, true, true);
    choices, ch := [], Choice(Dropped, true, true);
    NoneYet(c, entry);
    choices := TwoMore(c, entry, choices, well);
    choices := TwoMore(c, entry, choices, well);
    choices := TwoMore(c, entry, choices, well);
    assert Last(c, entry, choices).phase == Committing(1);
  }

  lemma TwoMore(c: Cluster, entry: Proposal, choices: seq<Choice>, ch: Choice) returns (more: seq<Choice>)
    requires Wf(c)
    ensures more == choices + [ch] + [ch]
    ensures Last(c, entry, more) == Advance(Advance(Last(c, entry, choices), ch), ch)
  {
    more := choices + [ch] + [ch];
    OneMore(c, entry, choices, ch);
    OneMore(c, entry, choices + [ch], ch);
  }

  lemma NoneYet(c: Cluster, entry: Proposal)
    requires Wf(c)
    ensures Last(c, entry, []) == Begin(c, entry)
  {
  }
}
