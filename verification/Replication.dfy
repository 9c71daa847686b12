/** The guarantees of the replicated store over whole runs and over one whole `Put`. */
module Replication {
  import opened Replicas
  import opened Clusters
  import opened ClusterSafety

  // ---- every reachable state ----

  /** At every point of every run the write history of a follower is a subsequence of its
      predecessor's, and that of the first follower a subsequence of the coordinator's. */
  lemma {:induction false} HistoriesNested(c: Cluster, store: Store, actions: seq<Action>, i: nat)
    requires Fresh(c, store) && i < |c.followers|
    ensures
      var now := Run(c, actions);
      Subsequence(now.followers[i].writes, if i == 0 then now.coordinator.writes else now.followers[i - 1].writes)
  {
    var now := Run(c, actions);
    RunKeepsInv(c, store, actions);
    HistoriesNestedNow(now, store, i);
  }

  lemma {:induction false} HistoriesNestedNow(now: Cluster, store: Store, i: nat)
    requires Inv(now, store) && i < |now.followers|
    ensures Subsequence(now.followers[i].writes, if i == 0 then now.coordinator.writes else now.followers[i - 1].writes)
  {
    hide Subsequence, Replay;
    assert FollowerOk(now, store, i) && (i > 0 ==> FollowerOk(now, store, i - 1));
    WritesSplit(now, store, i);
    if i == 0 {
      var w := now.coordinator.writes;
      assert w == CoordinatorEarlier(now) + if now.phase.Committing? then [now.entry] else [];
      SubsequenceGrows(Earlier(now, i), CoordinatorEarlier(now), now.entry,
        HasCommitted(now, i), now.phase.Committing?);
    } else {
      WritesSplit(now, store, i - 1);
      SubsequenceGrows(Earlier(now, i), Earlier(now, i - 1), now.entry, HasCommitted(now, i), HasCommitted(now, i - 1));
    }
  }

  lemma WritesSplit(c: Cluster, store: Store, i: nat)
    requires i < |c.followers| && FollowerOk(c, store, i)
    ensures c.followers[i].writes == Earlier(c, i) + if HasCommitted(c, i) then [c.entry] else []
  {
    hide Subsequence, Replay;
    var w := c.followers[i].writes;
    assert w != [] ==> w == w[..|w| - 1] + [w[|w| - 1]];
  }

  /** Heights are versions: at every point of every run, two followers with the same height
      have performed the same writes in the same order and hold the same store. */
  lemma {:induction false} VersionFaithful(c: Cluster, store: Store, actions: seq<Action>, i: nat, j: nat)
    requires Fresh(c, store) && i < |c.followers| && j < |c.followers|
    requires Run(c, actions).followers[i].height == Run(c, actions).followers[j].height
    ensures Run(c, actions).followers[i].writes == Run(c, actions).followers[j].writes
    ensures Run(c, actions).followers[i].store == Run(c, actions).followers[j].store
  {
    var now := Run(c, actions);
    RunKeepsInv(c, store, actions);
    assert FollowerOk(now, store, i) && FollowerOk(now, store, j);
    WritesSplit(now, store, i);
    WritesSplit(now, store, j);
    if i <= j { EarlierOrdered(now, store, i, j); } else { EarlierOrdered(now, store, j, i); }
  }

  /** Within a `Put` the coordinator's height can only jump while the first follower is asked.
      From then on every follower is asked for the index that is committed later, and the caches
      of the coordinator and of each follower that acknowledged hold this `Put`'s key and value
      there. */
  lemma {:induction false} SameIndex(c: Cluster, store: Store, actions: seq<Action>, ch: Choice)
    requires Fresh(c, store)
    ensures
      var now := Run(c, actions);
      var next := Advance(now, ch);
      && (next.coordinator.height != now.coordinator.height ==>
            now.phase == Proposing(0) || (next.phase == Idle && next.reply == Completed))
      && (now.phase.Proposing? ==> ProposedBelow(now, now.phase.pid))
      && (now.phase.Proposing? && now.phase.pid > 0 ==> Proposed(now, now.coordinator))
      && (now.followers != [] && (now.phase.Precommitting? || now.phase.Saving? || now.phase.Committing?) ==>
            ProposedBelow(now, |now.followers|) && Proposed(now, now.coordinator))
  {
    var now := Run(c, actions);
    RunKeepsInv(c, store, actions);
    if now.phase.Proposing? {
      ProposeKeepsInv(now, store, ch);
    }
  }

  // ---- one whole Put ----

  /** `d` has stored the entry and nothing else since `c`. */
  predicate Stored(c: Replica, d: Replica, entry: Proposal) {
    d.writes == c.writes + [entry] && d.store == c.store[entry.key := entry.value]
  }

  predicate SameStore(c: Replica, d: Replica) {
    d.writes == c.writes && d.store == c.store
  }

  /** The first `m` followers performed the write, each rising by one, and the others did nothing;
      the coordinator wrote before any follower. */
  predicate WroteOnPrefix(c: Cluster, d: Cluster, entry: Proposal, m: nat, saved: bool) {
    && |d.followers| == |c.followers| && m <= |c.followers| && (m > 0 ==> saved)
    && (forall i :: 0 <= i < |c.followers| ==>
          if i < m then Stored(c.followers[i], d.followers[i], entry) else SameStore(c.followers[i], d.followers[i]))
    && (forall i :: 0 <= i < |c.followers| ==>
          d.followers[i].height == c.followers[i].height + if i < m then 1 else 0)
    && (if saved then Stored(c.coordinator, d.coordinator, entry) else SameStore(c.coordinator, d.coordinator))
  }

  predicate Holds(r: Replica, p: Proposal) {
    p.key in r.store && r.store[p.key] == p.value
  }

  /** How far a `Put` has got, by its phase. */
  predicate Progress(c: Cluster, d: Cluster, entry: Proposal, m: nat, saved: bool) {
    && WroteOnPrefix(c, d, entry, m, saved)
    && (d.phase != Idle ==> d.entry == entry && saved == d.phase.Committing?)
    && (d.phase != Idle ==> m == if d.phase.Committing? then d.phase.pid else 0)
    && (d.phase == Idle && d.reply == Completed ==> m == |c.followers|)
  }

  lemma {:induction false} ProgressStep(
      c: Cluster, d: Cluster, store: Store, entry: Proposal, m: nat, saved: bool, ch: Choice)
      returns (m': nat, saved': bool)
    requires Inv(d, store) && Progress(c, d, entry, m, saved)
    ensures Progress(c, Advance(d, ch), entry, m', saved')
  {
    m', saved' := m, saved;
    match d.phase
    case Idle =>
    case Proposing(_) =>
      ProposeAttemptStep(d, ch);
      assert forall i :: 0 <= i < |d.followers| ==> SameData(d.followers[i], Advance(d, ch).followers[i]);
    case Precommitting(_) =>
    case Saving =>
      saved' := d.followers != [] && ch.dbOk;
    case Committing(_) =>
      m' := CommitProgress(c, d, entry, m, saved, ch);
  }

  lemma {:induction false} CommitProgress(c: Cluster, d: Cluster, entry: Proposal, m: nat, saved: bool, ch: Choice)
      returns (m': nat)
    requires Wf(d) && d.phase.Committing? && Progress(c, d, entry, m, saved)
    requires Proposed(d, d.followers[d.phase.pid])
    ensures Progress(c, CommitAttempt(d, ch), entry, m', saved)
  {
    var wrote := CommitAttemptStep(d, ch);
    assert CommitStep(d, CommitAttempt(d, ch), wrote);
    m' := if wrote then d.phase.pid + 1 else d.phase.pid;
    assert CommitAttempt(d, ch).reply == Completed ==> wrote;
    hide CommitAttempt;
  }

  /** Whatever the network does, a `Put` writes on a prefix of the follower list, and on all of
      it, as well as on the coordinator, if it is acknowledged. */
  lemma {:induction false} PutWritesPrefix(c: Cluster, store: Store, entry: Proposal, choices: seq<Choice>)
      returns (m: nat, saved: bool)
    requires Inv(c, store) && c.phase == Idle
    ensures Inv(AdvanceAll(Begin(c, entry), choices), store)
    ensures Progress(c, AdvanceAll(Begin(c, entry), choices), entry, m, saved)
  {
    if choices == [] {
      BeginKeepsInv(c, store, entry);
      m, saved := 0, false;
    } else {
      var before := choices[..|choices| - 1];
      m, saved := PutWritesPrefix(c, store, entry, before);
      var d := AdvanceAll(Begin(c, entry), before);
      AdvanceKeepsInv(d, store, choices[|choices| - 1]);
      m, saved := ProgressStep(c, d, store, entry, m, saved, choices[|choices| - 1]);
    }
  }

  /** Acknowledged means replicated: when `Put` completes, the coordinator and every follower map
      the key to the value, have no other key changed, and every follower's height rose by exactly
      one, in every reachable state and for all network behaviour. */
  lemma {:induction false} AcknowledgedMeansReplicated(
      c: Cluster, store: Store, actions: seq<Action>, entry: Proposal, choices: seq<Choice>, i: nat)
    requires Fresh(c, store) && Run(c, actions).phase == Idle && i < |c.followers|
    requires
      var done := AdvanceAll(Begin(Run(c, actions), entry), choices);
      done.phase == Idle && done.reply == Completed
    ensures
      var start := Run(c, actions);
      var done := AdvanceAll(Begin(start, entry), choices);
      && Holds(done.coordinator, entry) && Holds(done.followers[i], entry)
      && Stored(start.coordinator, done.coordinator, entry) && Stored(start.followers[i], done.followers[i], entry)
      && done.followers[i].height == start.followers[i].height + 1
  {
    RunKeepsInv(c, store, actions);
    var m, saved := PutWritesPrefix(Run(c, actions), store, entry, choices);
    hide AdvanceAll, Inv;
  }

  /** A failed `Put` is not all-or-nothing: losing the commit RPC to follower `pid` leaves the
      write on the coordinator and on exactly the first `pid` followers. */
  lemma {:induction false} LostCommitLeavesPrefix(
      c: Cluster, store: Store, entry: Proposal, choices: seq<Choice>, hook: bool, dbOk: bool)
    requires Inv(c, store) && c.phase == Idle
    requires AdvanceAll(Begin(c, entry), choices).phase.Committing?
    ensures
      var d := AdvanceAll(Begin(c, entry), choices);
      var d' := AdvanceAll(Begin(c, entry), choices + [Choice(Dropped, hook, dbOk)]);
      d'.phase == Idle && d'.reply == Nacked && WroteOnPrefix(c, d', entry, d.phase.pid, true)
  {
    var m, saved := PutWritesPrefix(c, store, entry, choices);
    assert (choices + [Choice(Dropped, hook, dbOk)])[..|choices|] == choices;
  }
}

/** The propose loop terminates, and with the right height. */
module ProposeTermination {
  import opened Replicas
  import opened Clusters

  function Losses(choices: seq<Choice>): nat {
    if choices == [] then 0
    else Losses(choices[..|choices| - 1]) + if choices[|choices| - 1].delivery == Delivered then 0 else 1
  }

  predicate HooksAccept(choices: seq<Choice>) {
    forall k :: 0 <= k < |choices| ==> choices[k].hook
  }

  /** The coordinator's height and the heights of the first `k` followers. */
  function MaxHeight(c: Cluster, k: nat): nat
    requires k <= |c.followers|
  {
    if k == 0 then c.coordinator.height
    else
      var m := MaxHeight(c, k - 1);
      if c.followers[k - 1].height > m then c.followers[k - 1].height else m
  }

  /** Answered attempts still needed: one for each follower left, and one more for each that may
      be ahead of the coordinator. */
  function Measure(c: Cluster): nat
    requires Wf(c)
  {
    if !c.phase.Proposing? then 0
    else
      2 * (|c.followers| - c.phase.pid) -
      if c.followers[c.phase.pid].height <= c.coordinator.height then 1 else 0
  }

  predicate SameHeights(c: Cluster, d: Cluster) {
    && |d.followers| == |c.followers|
    && forall i :: 0 <= i < |c.followers| ==> d.followers[i].height == c.followers[i].height
  }

  /** `d` is reached from `c` while `c` still proposes, or is the end of that phase. */
  predicate StillProposing(c: Cluster, d: Cluster)
    requires Wf(d)
  {
    && SameHeights(c, d) && d.phase.Proposing?
    && (d.coordinator.height == MaxHeight(c, d.phase.pid) || d.coordinator.height == MaxHeight(c, d.phase.pid + 1))
  }

  predicate ProposeDone(c: Cluster, d: Cluster) {
    d.phase == Precommitting(0) && SameHeights(c, d) && d.coordinator.height == MaxHeight(c, |c.followers|)
  }

  lemma {:induction false} AttemptMakesProgress(c: Cluster, d: Cluster, ch: Choice)
    requires Wf(d) && StillProposing(c, d) && ch.hook
    ensures
      var d' := Advance(d, ch);
      && (StillProposing(c, d') || ProposeDone(c, d'))
      && Measure(d') <= Measure(d) - if ch.delivery == Delivered then 1 else 0
  {
    assert MaxHeight(c, d.phase.pid + 1) >= MaxHeight(c, d.phase.pid);
  }

  /** If the hooks accept and finitely many RPCs are lost, the propose phase ends; the
      coordinator then has the largest height there was. */
  lemma {:induction false} ProposePhaseTerminates(c: Cluster, choices: seq<Choice>) returns (t: nat)
    requires c.phase == Proposing(0) && Wf(c) && HooksAccept(choices)
    ensures t <= |choices|
    ensures
      var d := AdvanceAll(c, choices[..t]);
      || ProposeDone(c, d)
      || (t == |choices| && StillProposing(c, d) && 1 <= Measure(d) <= 2 * |c.followers| + Losses(choices) - |choices|)
    ensures |choices| >= Losses(choices) + 2 * |c.followers| ==> ProposeDone(c, AdvanceAll(c, choices[..t]))
  {
    if choices == [] {
      t := 0;
    } else {
      var k := |choices| - 1;
      t := ProposePhaseTerminates(c, choices[..k]);
      assert choices[..k][..t] == choices[..t];
      if !ProposeDone(c, AdvanceAll(c, choices[..t])) {
        AttemptMakesProgress(c, AdvanceAll(c, choices[..k]), choices[k]);
        t := k + 1;
        assert choices[..t] == choices;
      }
    }
  }

  // ---- exactly when the loop for one follower ends ----

  predicate SomeAnswered(choices: seq<Choice>) {
    exists j :: 0 <= j < |choices| && choices[j].delivery == Delivered
  }

  /** Attempt `k` ends the loop: it is answered, the hook accepts, and the follower is not ahead,
      be it because it never was, or because an earlier answer made the coordinator catch up. */
  predicate Leaves(c: Cluster, choices: seq<Choice>, k: nat)
    requires c.phase.Proposing? && Wf(c) && k < |choices|
  {
    && choices[k].delivery == Delivered && choices[k].hook
    && (c.followers[c.phase.pid].height <= c.coordinator.height || SomeAnswered(choices[..k]))
  }

  /** The loop for follower `pid` is over. */
  predicate Past(phase: Phase, pid: nat) {
    phase.Proposing? ==> phase.pid > pid
  }

  predicate NoneLeaves(c: Cluster, choices: seq<Choice>)
    requires c.phase.Proposing? && Wf(c)
  {
    forall k :: 0 <= k < |choices| ==> !Leaves(c, choices, k)
  }

  /** While no attempt has ended the loop, the follower's height is what it was, and the
      coordinator has it too if any attempt was answered. */
  predicate Asking(c: Cluster, d: Cluster, choices: seq<Choice>)
    requires c.phase.Proposing? && Wf(c)
  {
    var pid := c.phase.pid;
    var f, h := c.followers[pid].height, c.coordinator.height;
    && d.phase == c.phase && |d.followers| == |c.followers| && d.followers[pid].height == f
    && d.coordinator.height == if SomeAnswered(choices) && f > h then f else h
  }

  lemma {:induction false} AskingStep(c: Cluster, d: Cluster, choices: seq<Choice>, ch: Choice)
    requires c.phase.Proposing? && Wf(c) && Wf(d) && Asking(c, d, choices)
    ensures
      var pid := c.phase.pid;
      var f, h := c.followers[pid].height, c.coordinator.height;
      if ch.delivery == Delivered && ch.hook && (f <= h || SomeAnswered(choices)) then Past(Advance(d, ch).phase, pid)
      else Asking(c, Advance(d, ch), choices + [ch])
  {
    assert (choices + [ch])[|choices|] == ch;
    assert SomeAnswered(choices + [ch]) <==> SomeAnswered(choices) || ch.delivery == Delivered by {
      assert forall j :: 0 <= j < |choices| ==> (choices + [ch])[j] == choices[j];
    }
  }

  /** The retry loop for follower `pid`, with any hooks and any losses: it is still running if and
      only if no attempt so far had what it takes. */
  lemma {:induction false} RetryLoopExactly(c: Cluster, choices: seq<Choice>)
    requires c.phase.Proposing? && Wf(c)
    ensures
      var d := AdvanceAll(c, choices);
      if NoneLeaves(c, choices) then Asking(c, d, choices) else Past(d.phase, c.phase.pid)
  {
    hide Asking;
    if choices == [] {
      assert Asking(c, c, []) by { NothingAsked(c); }
    } else {
      var k := |choices| - 1;
      var before := choices[..k];
      RetryLoopExactly(c, before);
      var d := AdvanceAll(c, before);
      forall j | 0 <= j < k ensures Leaves(c, choices, j) == Leaves(c, before, j) {
        assert choices[..j] == before[..j];
      }
      assert choices == before + [choices[k]];
      if NoneLeaves(c, before) {
        AskingStep(c, d, before, choices[k]);
        assert Leaves(c, choices, k) ==> !NoneLeaves(c, choices);
      } else {
        var j :| 0 <= j < k && Leaves(c, before, j);
        assert Leaves(c, choices, j);
      }
    }
  }

  lemma NothingAsked(c: Cluster)
    requires c.phase.Proposing? && Wf(c)
    ensures Asking(c, c, [])
  {
  }

  /** The loop is left at attempt `k` if and only if that attempt is answered by an accepting hook,
      and either the follower's height was not above the coordinator's, or an earlier attempt was
      answered; and no earlier attempt had this. */
  lemma {:induction false} LeavesAtExactly(c: Cluster, choices: seq<Choice>, k: nat)
    requires c.phase.Proposing? && Wf(c) && k < |choices|
    ensures
      var before, after := AdvanceAll(c, choices[..k]), AdvanceAll(c, choices[..k + 1]);
      before.phase == c.phase && after.phase != c.phase <==>
        Leaves(c, choices, k) && NoneLeaves(c, choices[..k])
  {
    RetryLoopExactly(c, choices[..k]);
    RetryLoopExactly(c, choices[..k + 1]);
    hide AdvanceAll;
    assert choices[..k + 1][..k] == choices[..k];
    forall j | 0 <= j < k
      ensures Leaves(c, choices[..k + 1], j) == Leaves(c, choices[..k], j)
    {
      assert choices[..k + 1][..j] == choices[..k][..j];
    }
    assert Leaves(c, choices[..k + 1], k) == Leaves(c, choices, k);
    if NoneLeaves(c, choices[..k]) && !Leaves(c, choices, k) {
      assert NoneLeaves(c, choices[..k + 1]);
    }
    if !NoneLeaves(c, choices[..k]) {
      var j :| 0 <= j < k && Leaves(c, choices[..k], j);
      assert Leaves(c, choices[..k + 1], j);
    }
    if Leaves(c, choices, k) {
      assert !NoneLeaves(c, choices[..k + 1]);
    }
  }

  /** If the hook of the follower that is asked rejects every time, `Put` never returns. */
  lemma {:induction false} RejectingHookNeverReturns(c: Cluster, choices: seq<Choice>)
    requires c.phase.Proposing? && Wf(c)
    requires forall k :: 0 <= k < |choices| ==> !choices[k].hook
    ensures AdvanceAll(c, choices).phase == c.phase
  {
    if choices != [] {
      RejectingHookNeverReturns(c, choices[..|choices| - 1]);
    }
  }
}
