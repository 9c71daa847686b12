# A verified model of the committer key-value store and its trace monitor

The repository is a key-value store that replicates writes with two- or three-phase commit. One
server coordinates: its `Put` sends proposals to the followers, retrying until each acknowledges,
sends precommits, writes its own store, and sends commits. While it does so, it records a trace of
protocol events, and at the end of a successful `Put` it checks that trace against a TLA+
specification of two-phase commit that has been translated to Go.

The project has three layers, and proofs that tie them together.

**The replicated store.** `Replica.dfy`, `Cluster.dfy`, `Replication.dfy` and `Endings.dfy` model
`Put` and the follower handlers as a step system. A step is one RPC, or the write to the coordinator's store; the
environment chooses for each RPC whether it is lost before its effect, lost after it, or answered,
what the follower's hook says and whether its store accepts the write (`Choice`). The proofs are
about every run of any number of `Put`s with any number of followers. `Node.dfy` is one node in two-
or three-phase mode, and `Refinement.dfy` proves that the followers of the step system are such nodes.
`Server.dfy` is the server in its own form, with classes `Cache` and `Server`
whose fields the handlers and the loops of `Put` update; `Servers.Server.Put` is proved to take the
objects through exactly the steps of the step system, and `Service.dfy` turns the theorems about the
step system into guarantees about those objects.

**The monitor.** `Monitor.dfy` has the twelve checks over typed states, and `CheckTrace` as a loop.
`Protocol.dfy` proves what every accepted trace keeps: routing and history without hypotheses, and
the safety of two-phase commit for traces whose network is honest. `Tla.dfy` and `TlaMonitor.dfy`
have the checks as the code states them, over dynamic TLA+ values with sets keyed by printed hashes,
and prove that they decide the same. `History.dfy` derives from acceptance which events must and must
not have come before each event, and `Aborting.dfy` shows that the monitor accepts runs that abort.
`Printer.dfy` has `String` as a program and proves that it prints
canonically, whatever order a map is traversed in, and what the text looks like.

**The link.** `Recorder.dfy` and `World.dfy` run `Put` side by side with what it records and prove
when the check accepts; `Recorded.dfy` says which events these are. `Completion.dfy` extends recorded traces to full protocol runs.
`Conformance.dfy` connects recorded traces to the checks over TLA+ values. `Slices.dfy`,
`HeapMonitor.dfy` and `HeapRecorder.dfy` model the Go slices in the recorded states as arrays with
spare capacity that `append` may write into, and prove that sharing them changes no verdict.

## Hypotheses

One coordinator, one `Put` at a time, followers that are distinct servers, newly started nodes
whose followers hold equal stores, no restarts. The effect of an RPC happens before its caller sees
the result, or never; a client that sees an error sees a nil response
(`proto/schema_grpc.pb.go:37-44`). Heights are unbounded; the code's `uint64` would wrap only after
2^64 commits. The theorems about honest networks say so; the others need no such hypothesis.

## What the proofs show about the code

- Heights work as versions because commits go out in follower order, so that writes happen on a
  prefix of the follower list. The code states no such invariant; `ClusterSafety.Inv` does.
- A failed `Put` is not always all-or-nothing. It is if and only if it ends before the commit loop, or
  at the last follower with that follower's write (`PutEndings.AllOrNothingExactly`);
  `PutEndings.PartialPut` is a run from newly started nodes in which it is not.
- The error branch after the propose loop (`server/server.go:319-344`) is dead: an error comes with
  a nil response, and the loop goes on while the response is nil. `Servers.Server.ProposeTo` leaves
  the loop with an acknowledgement or not at all. The loop for a follower is left at an attempt if and
  only if that is the first that is answered by an accepting hook while the follower is not ahead,
  either from the start or because an earlier answer made the coordinator catch up
  (`ProposeTermination.LeavesAtExactly`).
- The comment at `server/server.go:371` calls the precommit loop three-phase only; the code runs it
  in both modes, and so does the model.
- The three-phase timer calls `Commit` with outgoing metadata while `Commit` reads incoming metadata
  (`server/server.go:126-129` and `148-151`). The call fails before it does anything, so the two
  modes are indistinguishable (`Nodes.ModeEquivalence`).
- The monitor knows exactly two participants. With any other positive number of followers, a `Put`
  whose commits were all acknowledged ends in a panic (`Worlds.ExactFit`,
  `Services.CompletedMeansTwo`); with two it never does (`Worlds.NoFalseAlarm`). Without followers a
  `Put` finds nothing in the coordinator's cache and fails (`PutEndings.NoFollowers`).
- The monitor's network checks do not constrain the participants or the coordinator's variables, and
  do not ask whether a delivered message was sent. Each gap alone lets an accepted trace violate
  atomicity (`Protocol.AtomicityNeedsHonesty`, `Protocol.AtomicityNeedsSenders`).
- Comparing a slice with the result of appending to a shared slice can mask a difference
  (`Slices.CompareWithAppend` says exactly when); traces of `Put` never run into it.

## Model

| member | source | states |
|---|---|---|
| ClusterSafety.RunKeepsInv | server/server.go:199-525 | every run from fresh nodes keeps the inductive invariant: each store is the replay of its writes, heights count writes, earlier write histories are nested along the follower list, and later phases find the entry cached at the index being committed |
| ClusterSafety.AdvanceKeepsInv | server/server.go:246-512 | one step of any phase of `Put`, with any outcome of its RPC, keeps that invariant |
| ClusterSafety.ProposeKeepsInv | server/server.go:257-310 | an attempt of the propose loop keeps the invariant, and only at the first follower can a NACK make the coordinator adopt a height |
| ClusterSafety.CommitKeepsInv | server/server.go:436-512 | an attempt of the commit loop keeps the invariant |
| ClusterSafety.CommitWrites | server/server.go:468-478 | whatever happens to a commit request, at most the next follower writes, and what it writes is the current entry |
| ClusterSafety.HeightInvariant | server/server.go:436-512 | at every point of every run, heights never increase along the follower list and none exceeds the coordinator's height plus one; after an acknowledged `Put` none exceeds the coordinator's height |
| ClusterSafety.SubsequenceLength | server/server.go:436-509 | a subsequence of full length is the whole sequence: with nested histories this makes equal heights mean equal histories |
| Replication.HistoriesNested | server/server.go:394-512 | at every point of every run, each follower's write history is a subsequence of its predecessor's, and the first follower's of the coordinator's |
| Replication.VersionFaithful | server/server.go:394-512 | at every point of every run, followers of equal height have performed the same writes in the same order and hold identical stores |
| Replication.SameIndex | server/server.go:257-310 | the height can only jump while the first follower is asked; every follower that acknowledged, and the coordinator, caches this `Put`'s entry at the index that is committed later |
| Replication.PutWritesPrefix | server/server.go:394-509 | while a `Put` goes on, exactly the followers before the one in turn have written, and the coordinator if the commit loop has begun; once it has ended the writes are some prefix, which PutEndings.EndingWrites determines |
| Replication.AcknowledgedMeansReplicated | server/server.go:394-524 | when a `Put` is acknowledged, the coordinator and every follower map the key to the value and every follower's height rose by exactly one |
| Replication.LostCommitLeavesPrefix | server/server.go:468-475 | one case of PutEndings.EndingWrites: a commit request to follower `pid` that is lost before its effect leaves the write on the coordinator and on exactly the first `pid` followers |
| PutEndings.EndingWrites | server/server.go:373-512 | for every way in which a `Put` can end, who has written: nobody before the commit loop; otherwise the coordinator, exactly the followers before the one asked last, and that one if it carried the request out |
| PutEndings.AllOrNothingExactly | server/server.go:373-512 | over every run from fresh nodes and every ending, a `Put` is all-or-nothing if and only if it ends before the commit loop, or at the last follower with that follower's write |
| PutEndings.ReplyTells | server/server.go:384-524 | an acknowledgement means that all wrote, a failure to save that none did, a follower that did not acknowledge that only some did |
| PutEndings.PutAnswersExactly | server/server.go:373-524 | at every point of every run, what each choice of the environment leads to: the next phase, or the end of `Put` with exactly which answer, for precommits, the store write and commits |
| PutEndings.CoordinatorExactly | server/server.go:246-512 | at every point of a `Put` and after it, the coordinator's height is the larger of its own and the first follower's, plus one if all acknowledged, and its cache has gained exactly the entry at that index |
| PutEndings.ScheduleExactly | server/server.go:246-512 | if nothing fails, the phase after each number of steps: every follower is asked in order, once in each of the three loops, the first one twice in the first loop if it is ahead |
| PutEndings.PartialPut | server/server.go:468-475 | a run from newly started nodes in which the coordinator and one of two followers keep the value and the answer is NACK |
| PutEndings.NoFollowers | server/server.go:394-397 | without followers, in every run from a fresh node, a `Put` finds nothing in the coordinator's cache, and changes nothing |
| PutEndings.PutSucceeds | server/server.go:246-524 | from every reachable state, if nothing is lost and hooks and stores accept, a `Put` with followers is acknowledged within four steps for each follower and one |
| ProposeTermination.AttemptMakesProgress | server/server.go:257-310 | an answered attempt with an accepting hook lowers the measure, a lost one does not raise it |
| ProposeTermination.ProposePhaseTerminates | server/server.go:246-345 | with accepting hooks and finitely many lost RPCs the propose phase ends within losses plus twice the number of followers attempts, and the coordinator's height is then the maximum of its own and all followers' heights |
| ProposeTermination.RetryLoopExactly | server/server.go:257-310 | for any hooks and losses, the retry loop for a follower is over if and only if some attempt was answered by an accepting hook while the follower was not ahead or after an earlier answer; until then the heights are as stated |
| ProposeTermination.LeavesAtExactly | server/server.go:257-310 | the loop is left at attempt `k` if and only if `k` is the first such attempt |
| ProposeTermination.RejectingHookNeverReturns | server/server.go:257-310 | one case: while the hook of the follower being asked rejects, the retry loop does not end |
| NodeRefinement.FollowersServe | server/server.go:301-468 | at every point of every run, each follower is what a node becomes that serves in order exactly the requests that reached it, lost answers included |
| NodeRefinement.FollowersServeThreePhase | server/server.go:103-183 | the same for followers in three-phase mode, whenever their timers go off |
| Replicas.ReplayHoldsLast | server/committer.go:57 | after any writes a key holds the value of the last write to it |
| Replicas.ReplayKeepsOthers | server/committer.go:57 | after any writes a key that none of them is to holds what it held, or still nothing |
| Nodes.ModeEquivalence | server/server.go:103-183 | over every sequence of Propose, Precommit and Commit requests and timer expiries, a three-phase node answers and stores as a two-phase node without timers does |
| Nodes.CommitSemantics | server/committer.go:13-73 | over every sequence of requests, the store is the replay of the acknowledged commits, each storing the latest accepted proposal for its index that was not deleted since, and the height counts them |
| Nodes.LatestMeans | server/committer.go:18-65 | that proposal is given by the last request that decides about the index: an accepted proposal, or a rejected commit, which deletes it |
| Nodes.CommitAnswer | server/committer.go:44-73 | over every sequence of requests, the exact answer to a commit: ACK if and only if hook and store accept and such a proposal exists, a plain NACK if the hook rejects, an error otherwise; without ACK store and height are unchanged |
| Nodes.ProposeAnswer | server/committer.go:13-38 | over every sequence of requests in either mode, the exact answer to a proposal: ACK if and only if the hook accepts and the node's height, the initial one plus the acknowledged commits, is not above the index; it carries the larger of the two |
| Nodes.PrecommitAnswer | server/committer.go:40-42 | whenever it comes, a precommit is acknowledged and changes nothing |
| Nodes.ProgressMeans | server/server.go:109-157 | over every sequence of requests, the flag that keeps the timer from committing is up for `i` if and only if the last request that touched it is a commit that came at height `i`, whatever its index |
| Nodes.RollbackForgets | server/server.go:153-182 | a three-phase commit with a mode answers neither response nor error and, as a rollback, removes exactly the cache entry at the height |
| Servers.Cache.Set | cache/cache.go:22-26 | stores the message under the index and touches no other index |
| Servers.Cache.Get | cache/cache.go:28-33 | finds exactly what is stored, and answers zero values with false otherwise |
| Servers.Cache.Delete | cache/cache.go:35-39 | removes the index and no other |
| Servers.Server.SetProgressForCommitPhase | server/server.go:646-650 | sets one progress flag |
| Servers.Server.HasProgressForCommitPhase | server/server.go:652-656 | reads one progress flag, false if never set |
| Servers.Server.ProposeHandler | server/committer.go:13-38 | caches an accepted proposal even if it then answers NACK with its own greater height |
| Servers.Server.Propose | server/server.go:103-111 | clears the progress flag for the index, then handles the proposal |
| Servers.Server.Precommit | server/server.go:113-138 | acknowledges and changes nothing |
| Servers.Server.TimerFires | server/server.go:121-135 | the expiry of a precommit timer: the commit without coordinator, if no progress was flagged |
| Servers.Server.CommitHandler | server/committer.go:44-73 | every branch: write, missing entry, failed write, rejected by the hook |
| Servers.Server.Rollback | server/server.go:642-644 | drops the cache entry at the current height |
| Servers.Server.Commit | server/server.go:140-183 | both modes with all their branches, including missing metadata, commits with a mode, and the height that rises with an acknowledgement only |
| Servers.Server.ProposeTo | server/server.go:257-310 | the retry loop over objects follows the step system, and ends only with an acknowledgement |
| Servers.Server.ProposeOnce | server/server.go:274-368 | one attempt over objects, with the events it records and the height it adopts, is one step |
| Servers.Server.PrecommitPhase | server/server.go:373-391 | the precommit loop over objects follows the step system and its error returns |
| Servers.Server.SavePhase | server/server.go:394-432 | reading the coordinator's cache and writing its store, with both failures |
| Servers.Server.CommitPhase | server/server.go:436-509 | the commit loop over objects follows the step system and its error returns |
| Servers.Server.FinishPut | server/server.go:512-524 | raises the height, checks the trace, and resets it or panics |
| Servers.Server.Put | server/server.go:199-525 | the whole call takes coordinator, followers and monitor through exactly the steps of the step system and returns what its final state says, for any number of followers |
| Services.Deploy | server/server.go:538-594 | a new coordinator with newly started followers, none or more, whose databases hold the same, is a starting point of the runs that the guarantees are about |
| Services.PutForClient | server/server.go:199-525 | after any earlier calls: if `Put` returns an acknowledgement, all databases hold the value and each follower's height rose by one; with two followers it never panics, with any other number it never acknowledges; if nothing is lost and all accept, two followers yield an acknowledgement and any other positive number a panic |
| Services.GoodEnding | server/server.go:246-524 | if nothing is lost and all accept, a `Put` with followers gets all commits acknowledged, after any earlier calls |
| Services.CompletedReplicates | server/server.go:394-524 | a completed `Put` in a run with its monitor has replicated |
| Services.CompletedMeansTwo | server/TwoPhaseCommitFull.go:665-676 | only with two followers does a `Put` complete without a panic |
| Monitors.Monitor.CaptureState | server/TwoPhaseCommitFull.go:1111-1176 | appends the event, without overrides in `extra` |
| Monitors.Monitor.Reset | server/TwoPhaseCommitFull.go:542-544 | forgets the events |
| Monitors.Monitor.CheckTrace | server/TwoPhaseCommitFull.go:546-605 | the loop succeeds if and only if every event passes the check of its kind against its predecessor, the first against itself |
| Protocol.StartsWithInitial | server/TwoPhaseCommitFull.go:546-605 | an accepted trace that is not empty starts with Initial, because no log equals itself with an entry appended |
| Protocol.HistoryIsLogged | server/TwoPhaseCommitFull.go:546-1075 | in every accepted trace the actions field of every state lists exactly the kinds and parameters of the events since the last Initial |
| Protocol.MailboxRouting | server/TwoPhaseCommitFull.go:620-1075 | in every accepted trace nothing is in flight, messages in an outbox come from its owner, messages in an inbox are for its owner |
| Protocol.OutboxGrowsBy | server/TwoPhaseCommitFull.go:665-1046 | whatever is in an outbox after an accepted event was there before or has just been sent by its source |
| Protocol.InboxGrowsBy | server/TwoPhaseCommitFull.go:704-1075 | whatever is in an inbox after an accepted event was there before or has just been delivered |
| Protocol.StepKeepsSafe | server/TwoPhaseCommitFull.go:665-1075 | every accepted event of an honest network keeps the invariant over mailboxes, taken messages, votes and the decision |
| Protocol.RunKeepsSafe | server/TwoPhaseCommitFull.go:546-1075 | so every state of every accepted honest trace satisfies it |
| Protocol.Atomicity | server/TwoPhaseCommitFull.go:704-1075 | in every accepted honest trace no state has one participant committed and another aborted |
| Protocol.AtomicityNeedsHonesty | server/TwoPhaseCommitFull.go:1014-1046 | an accepted trace without any delivery that violates atomicity while a message is taken from an outbox |
| Protocol.AtomicityNeedsSenders | server/TwoPhaseCommitFull.go:1048-1075 | an accepted trace that violates atomicity although its network steps leave participants and coordinator alone: it delivers messages that nobody sent |
| Protocol.CoordinatorIsTruthful | server/TwoPhaseCommitFull.go:736-1012 | in every accepted honest trace the coordinator's lists have no duplicates, whoever it lists as committed or aborted is, and it decides to commit only if all are prepared |
| Protocol.SettledIsIrrevocable | server/TwoPhaseCommitFull.go:736-1012 | between two Initials a decision never changes, and committed and aborted participants stay so |
| Causality.HistoryTells | server/TwoPhaseCommitFull.go:665-1075 | in every accepted honest trace the events since the last Initial tell the coordinator's lists and decision and every participant's state, and account for every message in a mailbox |
| Causality.EventsAreCaused | server/TwoPhaseCommitFull.go:665-1075 | every event has its causes among the events since the last Initial, and nothing there that rules it out: for each kind, which votes, decisions, receipts, sends and deliveries must and must not have come before |
| Causality.ActorsKeepApart | server/TwoPhaseCommitFull.go:665-1075 | every accepted event names its actor; participants never change the coordinator's variables, nor it theirs |
| Causality.NothingIsLost | server/TwoPhaseCommitFull.go:665-1075 | in every accepted trace a message is in a mailbox if and only if it was and was not taken or read, or has just been sent or delivered there |
| Aborting.AbortRun | server/TwoPhaseCommitFull.go:704-1012 | whichever participant refuses, there is an accepted honest run in which it does and both abort, and the coordinator hears of both |
| Monitors.RemoveFilters | server/TwoPhaseCommitFull.go:317-325 | removal keeps the order of what it keeps, and keeps all but the given element |
| RecordedTrace.MarkRecords | server/server.go:229-494 | the kinds and parameters of exactly the events that each recording point appends |
| RecordedTrace.PutRecordsExactly | server/server.go:227-494 | the trace of a `Put` at any point is `Initial` followed by exactly the events of its attempts in order, the answer's only where `Put` moved on because of it |
| RecordedTrace.GoodTraceLength | server/server.go:227-494 | if nothing fails, how many events there are after each number of steps; in all one, eight for each follower, and two if the first is asked twice |
| Recorders.ProposesAccepted | server/server.go:282-299 | the events around a sent proposal are accepted if and only if not all of RM is prepared yet |
| Recorders.PreparedAccepted | server/server.go:354-368 | the events around its acknowledgement are accepted if and only if the participant is new to the prepared list |
| Recorders.CommitsAccepted | server/server.go:452-466 | the events around a sent commit are accepted if and only if exactly RM is prepared |
| Recorders.CommittedAccepted | server/server.go:480-494 | the events around its acknowledgement are accepted if and only if the participant is new to the committed list |
| Recorders.StartAccepted | server/server.go:229-233 | a new `Put` extends an accepted log with an accepted Initial, whatever earlier calls left there |
| Recorders.PartiesOfTwo | server/refine.go:9-11 | the first two followers are named as RM names its participants, and only both together are RM |
| Worlds.NoFalseAlarm | server/server.go:227-519 | with two followers, over any sequence of `Put`s that fail or succeed anywhere, the buffered log is accepted at every point and no check panics |
| Worlds.ExactFit | server/TwoPhaseCommitFull.go:665-676 | whenever a `Put` with at least one follower completes, its check panics if and only if the number of followers is not two, for any retries and any earlier calls |
| Worlds.StepKeepsTrace | server/server.go:246-519 | every step keeps the correspondence between the phase of `Put` and the recorded state, for any number of followers |
| Worlds.PlayIsRun | server/server.go:199-525 | recording does not influence the store: until a panic, a run with its trace is a run of the store |
| Worlds.PutIsPlay | server/server.go:199-525 | one whole call of `Put` is a part of a run |
| Completions.Completion | server/server.go:246-494 | every successful two-follower trace, with any retries, extends to an accepted honest run of the whole protocol with the same coordinator events, mailboxes and variables, in which both participants end committed |
| Completions.PutHasCompletion | server/server.go:246-494 | at every point of a `Put`, and at its end however it ends, the trace has an accepted honest extension that agrees with it, with the participants as far as the phase says |
| Completions.MonitorHoldsTrace | server/server.go:227-519 | until a `Put` completes, the monitor holds what earlier calls left followed by the trace of this one |
| Completions.CheckExaminesTrace | server/server.go:514-519 | when it completes, the check decides about exactly that log, with the whole trace of this `Put`, and resets it or panics |
| Completions.TraceIsVisible | server/server.go:282-494 | every recorded event is the coordinator's, so that the comparison of views leaves none out |
| Tla.ParsePrint | server/TwoPhaseCommitFull.go:24-92 | a parser undoes `String` on well-formed values, whatever follows the printed text |
| Tla.PrintInjective | server/TwoPhaseCommitFull.go:24-92 | so well-formed values print alike if and only if they are equal |
| Tla.TokenRoundTrip | server/TwoPhaseCommitFull.go:74-92 | integers, booleans and identifiers are told apart by their text |
| TlaPrinter.KeysOf | server/TwoPhaseCommitFull.go:36-41 | collecting the keys of a map in any order and sorting them gives one list |
| TlaPrinter.SortedIsUnique | server/TwoPhaseCommitFull.go:41 | sorting leaves only one order of a collection of strings |
| TlaPrinter.KeysAscend | server/TwoPhaseCommitFull.go:36-61 | keys print in dictionary order, character by character, each once |
| TlaPrinter.PrintedSeq | server/TwoPhaseCommitFull.go:24-30 | the text of a sequence |
| TlaPrinter.PrintedRecord | server/TwoPhaseCommitFull.go:36-49 | the text of a record |
| TlaPrinter.PrintedSet | server/TwoPhaseCommitFull.go:55-68 | the text of a set |
| TlaPrinter.PrintedMessage | server/refine.go:13-52 | the text, hence the hash, of every message that `Put` records |
| TlaPrinter.PrintedNumbers | server/TwoPhaseCommitFull.go:74-76 | the texts of three numbers |
| TlaPrinter.String | server/TwoPhaseCommitFull.go:24-92 | the recursive printing loops give the canonical text of every value |
| TlaLibrary.SetInAgrees | server/TwoPhaseCommitFull.go:177-180 | membership by hash is membership |
| TlaLibrary.EqAgrees | server/TwoPhaseCommitFull.go:240-242 | hash-keyed sets are deeply equal if and only if they have the same members |
| TlaLibrary.UnionAgrees | server/TwoPhaseCommitFull.go:166-175 | the union of hash-keyed sets is the set of both lists |
| TlaLibrary.CardinalityAgrees | server/TwoPhaseCommitFull.go:162-164 | the cardinality counts distinct members |
| TlaLibrary.HashesCollide | server/TwoPhaseCommitFull.go:405-407 | without well-formedness a string of digits is found in a set of integers |
| TlaLibrary.ToSetLoop | server/TwoPhaseCommitFull.go:268-274 | the loop, printing each element, fills the hash-keyed set of the list |
| TlaLibrary.RemoveLoop | server/TwoPhaseCommitFull.go:317-325 | the loop keeps exactly the elements other than the given one |
| TlaChecks.ChecksAgree | server/TwoPhaseCommitFull.go:620-1075 | on states whose strings are identifiers, each of the twelve checks over TLA+ values and hash-keyed sets passes if and only if the typed check does |
| TlaChecks.EncodedStart | server/refine.go:54-75 | the initial state as a TLA+ value is the one that recording builds and the check of `Initial` compares with |
| TlaChecks.EncodedEntries | server/refine.go:13-52 | messages and log entries as TLA+ values are the ones that recording builds |
| Conformance.TracesAgree | server/TwoPhaseCommitFull.go:546-605 | so the monitors over TLA+ values and over typed states accept the same traces of identifiers |
| Conformance.PartyIdentifier | server/refine.go:9-11 | every participant's name is such an identifier |
| Conformance.PartiesDiffer | server/refine.go:9-11 | different followers have different names |
| Conformance.PlayKeepsOk | server/refine.go:9-75 | everything that any run records consists of identifiers |
| Conformance.PutTracesAgree | server/server.go:227-519 | at every point of every run the monitor over TLA+ values accepts the buffered trace if and only if the typed one does; with two followers it always does |
| Conformance.TPlayIsPlay | server/server.go:227-519 | whole runs in which the monitor over TLA+ values gives the verdicts are those with the typed monitor, panics included |
| Slices.Append | server/TwoPhaseCommitFull.go:150-152 | appending writes into the shared array if there is spare capacity, into a new array of any capacity otherwise |
| Slices.CompareWithAppend | server/TwoPhaseCommitFull.go:748-751 | comparing a list with the append of another succeeds if and only if the contents match or both share the cell that the append overwrites |
| HeapMonitor.CheckEventInHeap | server/TwoPhaseCommitFull.go:620-1075 | for each of the twelve kinds: if the cells that the check overwrites hold those values already, it decides as over values and leaves every array as it was |
| HeapMonitor.GrownWritesNothingNew | server/TwoPhaseCommitFull.go:150-152 | that is so for lists grown as `Put` grows them |
| HeapMonitor.CheckTraceInHeap | server/TwoPhaseCommitFull.go:546-605 | the loop over states in the heap succeeds if and only if the trace is accepted as a value, and changes no recorded state |
| HeapRecorders.HeapRecorder.RecordMark | server/server.go:229-494 | every recording point of `Put`, appending to shared slices, has the effect on the visible trace that recording values has |
| HeapRecorders.HeapRecorder.Check | server/server.go:516-517 | the check of the recorded trace gives the verdict over values and leaves what every recorded state shows |
| HeapRecorders.HeapRecorder.Follow | server/server.go:246-519 | one step of `Put` with shared slices gives the trace and the verdict of the step over values |
| HeapRecorders.PlayInHeap | server/server.go:227-519 | over every run, with any number of followers and any growth policy, recording and checking with shared slices gives the same trace and the same panics as with values, be the monitor the typed one or the one over TLA+ values |

## Left out

- gRPC, peers, the tracing spans, logging, configuration, whitelist, `main` and the bench scripts: plumbing. What an RPC, a hook or a database write answers is a parameter (`Choice`); when the choices run out, `Put` is still waiting.
- BadgerDB (`db/badger.go`): the store is a map whose write may fail.
- `Get` and `NodeInfo`: they read one field.
- Concurrent `Put`s, several coordinators, restarts and the data races on `Height`: the code does not guard against them.
- The timing of the three-phase timeouts and of RPC deadlines: a timer may go off at any time after its `Precommit`, and a deadline that passes is a lost RPC.
- Timing counters, `writeToJson`, `serverToJson`, `ShowTrace`, file and line capture, and the text of failure messages.
- `CaptureVariable` and the override loop over `extra`: `Put` does not use them, so `extra` stays empty.
- `CheckInc`, which is commented out, and the TLA+ library functions that no check uses (`Min`, `Max`, `FoldSeq`, `SelectSeq`, `RangeIncl`, `RemoveAt` and the like).
- Event types other than the twelve kinds: `CheckTrace` has no default case and would skip them; the type of kinds excludes them.
- Panics inside a check, from a failed type assertion or a missing record key, count as rejections, as failed checks do.
- The heap model keeps the action log and the coordinator's three lists as slices in the heap, with typed entries; encoding an entry as a TLA+ value is elementwise and moves no cell. Outboxes and inboxes stay values, because `Put` stores only full one-element or empty literals there, to which an append always allocates.
- HeapMonitor.CheckTraceInHeap: needs slices that grew as those of `Put` do; Slices.CompareWithAppend says what can happen otherwise.
- `sort.Strings` and `strings.Join` are library calls: an insertion sort and a recursive join stand for them.
- Protocol.Atomicity: needs the hypothesis of an honest network, which the checks do not enforce; Protocol.AtomicityNeedsHonesty and Protocol.AtomicityNeedsSenders show why.
- Servers.Server.ProposeOnce: includes the code after the retry loop for the attempt that ends it, because nothing happens in between.
- The history variable `writes` records successful store writes for the specifications; no handler reads it.
