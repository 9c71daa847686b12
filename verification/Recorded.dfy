/** Which events `Put` records, stated without the recorder. */
module RecordedTrace {
  import opened Replicas
  import opened Clusters
  import opened ClusterSafety
  import opened Monitors
  import opened Recorders
  import opened Worlds
  import opened Completions
  import opened PutEndings

  function KindsOf(log: seq<Event>): (kinds: seq<Kind>)
    ensures |kinds| == |log|
  {
    seq(|log|, i requires 0 <= i < |log| => log[i].kind)
  }

  /** What each recording point adds to the log, whatever is in it. */
  lemma MarkRecords(rec: Recorder, pid: nat)
    ensures
      var r := Party(pid);
      && KindsOf(Record(rec, Mark.Start).log) == KindsOf(rec.log) + [Initial]
      && KindsOf(Record(rec, SendsPropose(pid)).log) ==
           KindsOf(rec.log) + [CSendPrepare(r), NetworkTakeMessage(FromCoordinator("Prepare", r))]
      && KindsOf(Record(rec, GotPropose(pid)).log) ==
           KindsOf(rec.log) + [NetworkDeliverMessage(ToCoordinator("Prepared", r)), CReceivePrepare(r)]
      && KindsOf(Record(rec, SendsCommit(pid)).log) ==
           KindsOf(rec.log) + [CSendCommit(r), NetworkTakeMessage(FromCoordinator("Commit", r))]
      && KindsOf(Record(rec, GotCommit(pid)).log) ==
           KindsOf(rec.log) + [NetworkDeliverMessage(ToCoordinator("Committed", r)), CReceiveCommit(r)]
  {
  }

  // ---- a whole Put ----

  function Asks(query: string, r: string): seq<Kind> {
    [if query == "Prepare" then CSendPrepare(r) else CSendCommit(r), NetworkTakeMessage(FromCoordinator(query, r))]
  }

  function Hears(answer: string, r: string): seq<Kind> {
    [NetworkDeliverMessage(ToCoordinator(answer, r)),
     if answer == "Prepared" then CReceivePrepare(r) else CReceiveCommit(r)]
  }

  /** What a step from `c` to `next` records: the request to the follower in turn, and its answer if
      `Put` moved on from that follower because of it. */
  function StepKinds(c: Cluster, next: Cluster): seq<Kind> {
    match c.phase
    case Proposing(pid) =>
      Asks("Prepare", Party(pid)) + if next.phase != c.phase then Hears("Prepared", Party(pid)) else []
    case Committing(pid) =>
      Asks("Commit", Party(pid)) +
      if next.phase == Committing(pid + 1) || next.reply == Completed then Hears("Committed", Party(pid)) else []
    case _ => []
  }

  function PutKinds(c: Cluster, entry: Proposal, choices: seq<Choice>): seq<Kind>
    requires Wf(c)
  {
    if choices == [] then [Initial]
    else
      var k := |choices| - 1;
      PutKinds(c, entry, choices[..k]) + StepKinds(Last(c, entry, choices[..k]), Last(c, entry, choices))
  }

  lemma {:induction false} StepRecords(c: Cluster, rec: Recorder, ch: Choice)
    requires Wf(c)
    ensures KindsOf(RecordAll(rec, MarksOf(c, ch)).log) == KindsOf(rec.log) + StepKinds(c, Advance(c, ch))
  {
    hide Record, RecordAll, Advance, ProposeAcked, CommitAcked, KindsOf;
    match c.phase
    case Proposing(pid) =>
      ProposePhases(c, ch);
      MarkRecords(rec, pid);
      MarkRecords(Record(rec, SendsPropose(pid)), pid);
      RecordTwo(rec, SendsPropose(pid), GotPropose(pid));
      assert [SendsPropose(pid)] + [GotPropose(pid)] == [SendsPropose(pid), GotPropose(pid)];
      assert [SendsPropose(pid)] + [] == [SendsPropose(pid)];
    case Committing(pid) =>
      CommitPhases(c, ch);
      MarkRecords(rec, pid);
      MarkRecords(Record(rec, SendsCommit(pid)), pid);
      RecordTwo(rec, SendsCommit(pid), GotCommit(pid));
      assert [SendsCommit(pid)] + [GotCommit(pid)] == [SendsCommit(pid), GotCommit(pid)];
      assert [SendsCommit(pid)] + [] == [SendsCommit(pid)];
    case _ =>
      RecordNone(rec);
      assert KindsOf(rec.log) + [] == KindsOf(rec.log);
  }

  /** The trace of a `Put` consists of exactly the events of its attempts, in order. */
  lemma {:induction false} PutRecordsExactly(c: Cluster, entry: Proposal, choices: seq<Choice>)
    requires Wf(c)
    ensures KindsOf(TraceOfPut(c, entry, choices).log) == PutKinds(c, entry, choices)
  {
    if choices == [] {
      MarkRecords(Recorder(StartState, []), 0);
      assert KindsOf([]) + [Initial] == [Initial];
    } else {
      var k := |choices| - 1;
      PutRecordsExactly(c, entry, choices[..k]);
      StepRecords(Last(c, entry, choices[..k]), TraceOfPut(c, entry, choices[..k]), choices[k]);
    }
  }

  /** How many events a step records. */
  lemma {:induction false} StepCount(c: Cluster, entry: Proposal, choices: seq<Choice>, ch: Choice)
    requires Wf(c)
    ensures
      var before := Last(c, entry, choices);
      |TraceOfPut(c, entry, choices + [ch]).log| ==
        |TraceOfPut(c, entry, choices).log| + |StepKinds(before, Last(c, entry, choices + [ch]))|
  {
    assert (choices + [ch])[..|choices|] == choices;
    hide RecordAll, MarksOf, Advance, StepKinds;
    StepRecords(Last(c, entry, choices), TraceOfPut(c, entry, choices), ch);
  }

  /** The events after `t` steps of a `Put` in which nothing fails. */
  function Count(n: nat, x: nat, t: nat): nat
    requires x <= 1
  {
    if t <= x then 1 + 2 * t
    else if t <= x + n then 1 + 2 * x + 4 * (t - x)
    else if t <= x + 2 * n + 1 then 1 + 2 * x + 4 * n
    else if t <= x + 3 * n + 1 then 1 + 2 * x + 4 * n + 4 * (t - x - 2 * n - 1)
    else 1 + 2 * x + 8 * n
  }

  lemma ScheduledCount(c: Cluster, next: Cluster, n: nat, ahead: bool, t: nat)
    requires n > 0 && c.phase == Scheduled(n, ahead, t) && next.phase == Scheduled(n, ahead, t + 1)
    requires next.phase == Idle ==> next.reply == Completed
    requires next.phase != Idle ==> next.reply != Completed
    ensures Count(n, if ahead then 1 else 0, t) + |StepKinds(c, next)| == Count(n, if ahead then 1 else 0, t + 1)
  {
  }

  /** If nothing fails, a `Put` records `Initial`, four events for each follower in each of two loops,
      and two more if the first follower is asked twice. */
  lemma {:induction false} GoodTraceLength(c: Cluster, store: Store, entry: Proposal, choices: seq<Choice>)
    requires Inv(c, store) && c.phase == Idle && c.followers != [] && GoesWell(choices)
    ensures
      var x := if c.followers[0].height > c.coordinator.height then 1 else 0;
      |TraceOfPut(c, entry, choices).log| == Count(|c.followers|, x, |choices|)
  {
    hide Last, Inv, StepKinds, Scheduled, RecordAll, MarksOf;
    if choices != [] {
      var k := |choices| - 1;
      var before := choices[..k];
      assert choices == before + [choices[k]];
      GoodTraceLength(c, store, entry, before);
      ScheduleExactly(c, store, entry, before);
      ScheduleExactly(c, store, entry, choices);
      NotYetCompleted(c, entry, choices);
      StepCount(c, entry, before, choices[k]);
      ScheduledCount(Last(c, entry, before), Last(c, entry, choices), |c.followers|,
        c.followers[0].height > c.coordinator.height, k);
    }
  }

  lemma {:induction false} NotYetCompleted(c: Cluster, entry: Proposal, choices: seq<Choice>)
    requires Wf(c)
    ensures Last(c, entry, choices).phase != Idle ==> Last(c, entry, choices).reply == NoReply
  {
    if choices != [] {
      NotYetCompleted(c, entry, choices[..|choices| - 1]);
    }
  }
}
