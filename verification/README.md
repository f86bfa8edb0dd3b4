# VScale: a verified model

VScale is a sharding proxy for PostgreSQL. A gate accepts SQL, routes it to tablets (each in front of one
database), runs transactions that span several tablets, and merges the results of queries that were
scattered over all shards. This project models the four parts of it that are hard to get right and proves
what they guarantee.

**The commit protocol** (`Tablet.dfy`, `Protocol*.dfy`, `CallLog.dfy`, `Coordinator*.dfy`). `Protocol.dfy` is a step machine
over any number of sessions and tablets. A request is sent, delivered and answered in separate steps; the
gate may give up on a request at any time and the request may still arrive later; reapers fire on both
sides; clients vanish from the router. `ProtocolInvariant.dfy` and `ProtocolSteps.dfy` give an inductive
invariant, `ProtocolTheorems.dfy` what follows for all runs: prepare before commit, poisoned transactions
stay poisoned, a successful COMMIT is truthful, local transactions are isolated, a ROLLBACK before any
decided COMMIT attempt is final. `Coordinator.dfy` is the coordinator's own straight-line code on a session
object, with arbitrary steps of everybody else in between; every execution of it is a run of the machine, so
the theorems appear in the postconditions of `Commit`, `Rollback` and `Execute`. Which replies come back before
the gate gives up is a parameter: with the log of requests and replies (`CallLog.dfy`, `CoordinatorLog.dfy`) these
postconditions say which requests each operation sent and that it succeeds exactly if all were answered well in time.

Three things one might expect do not hold, and the project says exactly when they do. The repository's
README speaks of a two-phase commit, but the code's prepare only runs `SELECT 1`: a COMMIT about to start
can end mixed exactly if it has two or more participants and all of them are live (`ProtocolLimits.dfy`). A
ROLLBACK about to start can be answered and then be overtaken by a commit exactly if a commit request of the
transaction is still on its way to a live local transaction (`ProtocolRollback.dfy`). And a statement that is
scattered while no primary can be reached is answered as a success although it ran nowhere, so a successful
COMMIT vouches for a statement exactly if it had a target (`ProtocolLimits.dfy`, `ProtocolTheorems.dfy`).

**The tablet's transaction manager** (`TxManager.dfy`). Lookup, mutex, database call, removal and release
are separate steps of freely interleaving threads. Every run is safe (no double release, no release under a
running call) and refines the atomic tablet the protocol uses: each answered request took effect in exactly
one step, and nothing else changes what others see.

**Scatter queries** (`Text.dfy`, `Lists.dfy`, `Cells.dfy`, `QuickSort.dfy`, `Distinct.dfy`,
`Aggregates.dfy`, `Sql.dfy`, `Scatter.dfy`). What the shards are asked, and what the gate makes of their
answers: duplicate removal by text keys, an in-place quicksort, cutting, combining aggregates. For any
split of the rows the merged result is an answer one node holding all rows could have given.

**Routing** (`Parser.dfy`, `Shards.dfy`, `Router.dfy`, `Placement.dfy`, `Select.dfy`, `Topology.dfy`). Finding a shard key
in a statement, grouping tablets into shards, choosing targets, following the topology. One shard answers
like all shards, every row stays on the shard that owns its key, and with consistent tablet records the
groups do not depend on the order in which maps are iterated.

## Assumptions

- Tablets do not restart, since the numbering of local transactions lives in memory. Numbers of sessions,
  local transactions and the replica cursor do not run over 64 bits.
- A request carries one statement, and operations on one session do not overlap.
- A pgx handle is closed by any Commit or Rollback call, whatever that call returns. A commit may fail before
  or after it took effect.
- Tablet records carry an address. Text compares byte by byte, as under the C collation.
- Cells are what type inference yields for NULL, 64-bit integers and text. Statements are syntax trees of
  single-table statements, as the SQL parser library delivers them.
- Staleness, dial failures, routing results of other requests and database errors are arbitrary.

## Model

| member | source | states |
|---|---|---|
| Tablets.ServeKeeps | internal/tablet/server/handler.go:63-92 | whatever is asked and whatever the database decides, a local id is live exactly until it commits or aborts, never does both, commits at most once, keeps its owner and never comes back |
| Tablets.AffirmativeAnswers | internal/tablet/server/handler.go:63-92 | what a positive answer to BEGIN, a statement, Prepare, Commit and Rollback is worth: Committed only if this very request ended a live transaction |
| ProtocolSteps.StepKeeps | internal/gate/coordinator/coordinator.go:37-309 | every step of gate, network, tablets and reapers keeps the invariant and only extends the history |
| ProtocolSteps.RunInv | internal/gate/coordinator/coordinator.go:37-309 | the invariant holds in every state of every run |
| ProtocolSteps.RunExtends | internal/gate/coordinator/coordinator.go:37-309 | between any two states of a run tablets, requests, replies, attempts and answers only grow |
| ProtocolEffects.StepActs | internal/gate/gateway/gateway.go:60-115 | a step either answers nobody or is a step of one session in a transaction, which adds participants and successes only and reports a COMMIT only after every commit call came back good |
| ProtocolTheorems.PrepareBeforeCommit | internal/gate/coordinator/coordinator.go:69-76 | in every state of every run, a local commit belongs to an attempt of its owner; with two or more participants all of them had answered Prepared to that attempt and none refused |
| ProtocolTheorems.RefusalCommitsNowhere | internal/gate/coordinator/coordinator.go:194-231 | one refusal, timeout or missing client during the votes, and that attempt commits nowhere, then or ever |
| ProtocolTheorems.PoisonedStaysPoisoned | internal/gate/coordinator/coordinator.go:37-81 | once a participant's local transaction has ended other than by the commit of the attempt under way, at whatever point of an operation, no COMMIT of that gate transaction ever reports success |
| ProtocolTheorems.CommitIsTruthful | internal/gate/coordinator/coordinator.go:233-270 | after a reported success every participant is committed exactly once, by that attempt; every statement that succeeded since BEGIN ran inside them on each of its targets, and so ran at all exactly if it had a target |
| ProtocolTheorems.LocalsAreIsolated | internal/gate/coordinator/coordinator.go:106-129 | over two states of a run, a local transaction is named by at most one gate transaction; every data request names a nonzero id begun for its own gate transaction; nothing ever runs in autocommit |
| ProtocolTheorems.RollbackIsFinal | internal/gate/coordinator/coordinator.go:83-91 | after a ROLLBACK answered before any COMMIT attempt was decided (none was made, or all were refused at the votes) no local transaction begun for it is ever committed, even if the rollback was lost or the gate never learned the id |
| ProtocolTheorems.ReopeningForgetsNothing | internal/gate/gateway/gateway.go:60-73 | in every reachable state a session outside a transaction has no participants and no operation in progress, and the next session id is unused |
| ProtocolExec.ExecContinuesRun | internal/gate/coordinator/coordinator.go:37-309 | a sequence of enabled steps from the end of a run continues that run |
| ProtocolLimits.MixedOutcomeReachable | internal/gate/coordinator/coordinator.go:74-76 | from every state in which a COMMIT over two or more live participants can start there is a continuation in which this attempt commits one of them while another is aborted, whatever clients there are |
| ProtocolLimits.MixedIff | internal/gate/coordinator/coordinator.go:69-80 | a COMMIT about to start can end mixed exactly if it has at least two participants and the local transactions of all of them are live |
| ProtocolLimits.NeverMixed | internal/gate/coordinator/coordinator.go:194-231 | with fewer than two participants, or with one that has already ended, no continuation of any length is mixed; in the second case the attempt commits nothing at all |
| ProtocolLimits.ScatterToNobody | internal/gate/coordinator/coordinator.go:98-132 | from every state in which a session without participants can start: a scatter without targets is answered as a success, so is the COMMIT after it, and no tablet has seen anything |
| ProtocolRollback.RollbackOvertakenIff | internal/gate/coordinator/coordinator.go:83-91 | a ROLLBACK about to start can be answered and then be overtaken by a commit that had not taken effect exactly if a commit request of its gate transaction is still on its way to a live local transaction |
| ProtocolRollback.NothingMore | internal/gate/coordinator/coordinator.go:272-309 | while a ROLLBACK runs and ever after, if no such request is on its way none of its local transactions becomes committed, in any continuation |
| ProtocolRollback.PendingOvertakes | internal/gate/coordinator/coordinator.go:272-309 | if one is on its way, the rollback can be answered without reaching any tablet and the commit then takes effect |
| ProtocolRollback.LostCommitLingers | internal/gate/coordinator/coordinator.go:48-63 | from every state in which a COMMIT over one live participant can start, the client can be told of a failure while the commit is still on its way |
| CoordinatorSteps.OthersKeep | internal/gate/session/session.go:180-192 | a step that is not the coordinator's own step for a session leaves that session as it was, except that the manager may drop it |
| CallLog.StillComes | internal/gate/coordinator/coordinator.go:205-212 | in every reachable state a request that was sent and not answered can still be delivered |
| CallLog.RollbackEnds | internal/gate/coordinator/coordinator.go:272-309 | in every reachable state a local transaction whose rollback request has been answered is not live: it is aborted, or had been committed |
| Coordinator.Gate.Await | internal/gate/coordinator/coordinator.go:134-140 | if the reply to the request comes back before the caller gives up it is there afterwards; the session is as before |
| Coordinator.Gate.Rpc | internal/gate/coordinator/coordinator.go:134-140 | one RPC with anything happening meanwhile: exactly this request was sent, the caller hears the tablet's reply if it is back in time and a refusal otherwise, and the session changes by exactly that answer |
| Coordinator.Gate.FanOutAll | internal/gate/coordinator/coordinator.go:194-309 | one goroutine per participant in any interleaving: each participant is sent the request of the phase and waited for, or had no client; at the end every call is over, and there is no error exactly if every participant had a client and answered well in time |
| Coordinator.Gate.GoOn | internal/gate/coordinator/coordinator.go:194-231 | one goroutine goes on after whatever else happened: it sends its request and waits, or its call is over, with the outcome the log of requests and replies shows |
| Coordinator.Gate.RunPhase | internal/gate/coordinator/coordinator.go:69-80 | after the votes, commits go out exactly if all prepared; after the commits or rollbacks the client is told the outcome; the phase succeeded exactly if every participant answered its request well in time |
| Coordinator.Gate.CommitOnly | internal/gate/coordinator/coordinator.go:48-67 | the participant is sent its commit, if it has a client, and the COMMIT succeeds exactly if that was answered well in time; the client is told success, with the session cleared, or failure, with the participant kept and, if a commit was sent, a rollback sent after it |
| Coordinator.Gate.CommitMany | internal/gate/coordinator/coordinator.go:69-80 | succeeds exactly if every participant answered its Prepare and then its commit well in time; after a bad vote all are sent a rollback; the client is told success, with the session cleared, or failure, with the participants kept |
| Coordinator.Gate.RollbackAfterError | internal/gate/coordinator/coordinator.go:287-309 | every participant is sent a rollback, or had no client; where it was answered the local transaction is over; the client is told of a failure and the session keeps its participants |
| Coordinator.Gate.Commit | internal/gate/coordinator/coordinator.go:37-81 | success: every participant was committed exactly once by this attempt, every statement that succeeded since BEGIN ran in them on each of its targets (so nowhere if it had none), and the session is cleared; error: the session keeps its participants; outside a transaction nothing happens. It succeeds exactly if there are no participants, or the only one answered its CommitReq well in time, or each of several answered its PrepareReq and its CommitReq well in time; after a bad vote, or a bad commit of the only one, a RollbackReq goes to every participant that has a client |
| Coordinator.Gate.Rollback | internal/gate/coordinator/coordinator.go:83-91 | every participant is sent a RollbackReq for its local transaction, or had no client; where that was answered the local transaction is over, and aborted if no attempt to commit was decided; the client is answered whatever became of these requests, the session is cleared and the gate transaction ends for good; unless an attempt of it was decided none of its local transactions is committed; refused outside a transaction |
| Coordinator.Gate.OpenAll | internal/gate/coordinator/coordinator.go:106-119 | exactly the targets that answered their BEGIN well in time are added, with the ids they handed out, and earlier participants are kept; it succeeds exactly if every target that did not participate answered well, else all are sent a rollback and the client is told of a failure |
| Coordinator.Gate.RunSingle | internal/gate/coordinator/coordinator.go:121-129 | the statement is sent in the target's own local transaction and succeeds exactly if it was answered well in time; a success is told and recorded among the statements that ran; a failure is told and leaves the session as it was |
| Coordinator.Gate.RunScatter | internal/gate/coordinator/coordinator.go:142-192 | every target is sent the statement in its own local transaction; it succeeds exactly if all answered well in time and the results merge; a success is told and recorded among the statements that ran; a failure is told after every participant was sent a rollback and leaves the session as it was |
| Coordinator.Gate.Execute | internal/gate/coordinator/coordinator.go:93-132 | a statement that succeeds ran on each of its targets inside a local transaction of this very gate transaction, so it ran at all exactly if it had a target; participants are only added, with the ids their tablets handed out, and all belong to the gate transaction. It succeeds exactly if the session is in a transaction, there is a target or a scatter, every BEGIN and every statement was answered well in time, and a scatter could be merged; after a failure every participant is sent a rollback, except after that of a statement for one tablet |
| Coordinator.Gate.Begin | internal/gate/coordinator/coordinator.go:31-35 | the new session has an id no session had before |
| Coordinator.Gate.BeginAgain | internal/gate/gateway/gateway.go:60-73 | reopening a session loses no participant |
| TxManager.MoveKeeps | internal/tablet/executor/transaction.go:57-186 | every step of every thread keeps the table, mutex and release discipline |
| TxManager.ArriveKeeps | internal/tablet/executor/transaction.go:202-219 | so does the arrival of a request or of a rollback by the reaper |
| TxManager.MoveRefines | internal/tablet/executor/transaction.go:101-186 | each step of a thread either leaves the atomic tablet as it is or is the one in which its request is served by it, with the answer the thread will give |
| TxManager.RunRefines | internal/tablet/executor/transaction.go:57-186 | in every run an answered request took effect in exactly one step, after its arrival and before its answer: there the atomic tablet served it with exactly that answer |
| TxManager.AbsChangesOnlyThen | internal/tablet/executor/transaction.go:57-186 | what others see of the manager changes in no other step |
| TxManager.RunOk | internal/tablet/executor/transaction.go:57-219 | the discipline holds in every state of every interleaving |
| TxManager.SafeRelease | internal/tablet/executor/transaction.go:88-117 | a connection is released at most once, after its handle was closed and its entry removed, never under a running call; at most one finisher takes effect |
| TxManager.NoLeak | internal/tablet/executor/transaction.go:160-186 | when all requests are answered, every transaction that got a connection either is open and in the table or has ended and gave its connection back exactly once |
| Cells.CellOrder | internal/gate/aggregate/engine.go:565-611 | on a homogeneous column lessThan is a total order and equal is equality |
| Cells.CellTrans | internal/gate/aggregate/engine.go:565-587 | lessThan is transitive on a homogeneous column |
| Cells.RowAsym | internal/gate/aggregate/engine.go:672-685 | the multi-column comparison is asymmetric, and two rows tie exactly when they agree on all ORDER BY columns |
| Cells.RowTrans | internal/gate/aggregate/engine.go:672-685 | it is transitive and so is its complement: a strict weak order |
| Cells.NullPlacement | internal/gate/aggregate/engine.go:672-685 | in the first ORDER BY column that differs, NULLs come last for ASC and first for DESC |
| Cells.NumbersDecide | internal/gate/aggregate/engine.go:672-685 | if rows agree on the first ORDER BY columns and hold different numbers in the next one, the smaller comes first for ASC and the greater for DESC |
| Cells.TextDecides | internal/gate/aggregate/engine.go:672-685 | likewise for texts, decided at the first position where they differ, a proper prefix being smaller |
| Text.StrLessIff | internal/gate/aggregate/engine.go:578-587 | a text is smaller exactly if it ends or has the smaller character where the two first differ |
| Cells.MixedColumnCycles | internal/gate/aggregate/engine.go:572-577 | with numbers and text in one column the comparison can run in a circle, so homogeneity cannot simply be dropped |
| QuickSort.Swap | internal/gate/aggregate/engine.go:710-714 | exchanges two rows of the array and nothing else |
| QuickSort.Partition | internal/gate/aggregate/engine.go:706-716 | permutes only the given segment and splits it around the pivot, although rows are compared by index in the array being changed |
| QuickSort.QSort | internal/gate/aggregate/engine.go:698-704 | permutes the segment and sorts it if its sort columns are homogeneous |
| QuickSort.Sort | internal/gate/aggregate/engine.go:691-696 | terminates and leaves a permutation, sorted if the sort columns are homogeneous; then the numbers in the leading sort column never decrease for ASC and never increase for DESC |
| QuickSort.SortedInOrder | internal/gate/aggregate/engine.go:672-689 | in any sorted arrangement the numbers in the leading sort column are in order |
| Distinct.RowKeyInjective | internal/gate/aggregate/engine.go:332-342 | rows of one width with clean cells share a key only if they are equal |
| Distinct.KeysCollide | internal/gate/aggregate/engine.go:332-342 | two different rows with unclean cells can share a key, and so can NULL and a text |
| Distinct.ApplyDistinct | internal/gate/aggregate/engine.go:319-330 | keeps the first row of each key; these are exactly the first occurrences if and only if equal keys mean equal rows |
| Distinct.CleanIsFaithful | internal/gate/aggregate/engine.go:332-342 | for clean rows of one width equal keys do mean equal rows |
| Distinct.DedupElements | internal/gate/aggregate/engine.go:319-330 | the rows that occur, each exactly once |
| Distinct.DedupPositions | internal/gate/aggregate/engine.go:319-330 | rows are kept at the positions where they first occur, in that order |
| Distinct.DedupIdempotent | internal/gate/aggregate/engine.go:319-330 | removing duplicates twice is removing them once |
| Distinct.DedupConcat | internal/gate/aggregate/engine.go:319-330 | distinct of concatenated distincts is distinct of the concatenation |
| Distinct.DedupArrangement | internal/gate/aggregate/engine.go:319-330 | the kept rows do not depend on the order of the input |
| Aggregates.AggSumInt64 | internal/gate/aggregate/engine.go:388-408 | the column's total in 64-bit arithmetic |
| Aggregates.AggSum | internal/gate/aggregate/engine.go:410-427 | the column's sum, NULL if it has no value |
| Aggregates.SumInNumbers | internal/gate/aggregate/engine.go:410-427 | the sum of a column is the sum of its numbers, negative ones included, a NULL adding nothing |
| Aggregates.CountInNumbers | internal/gate/aggregate/engine.go:388-408 | the count of a column is the number of positions that are not NULL |
| Aggregates.AggExtreme | internal/gate/aggregate/engine.go:429-471 | the greatest or least value of a homogeneous column, NULL if it has none |
| Aggregates.ExtremeInNumbers | internal/gate/aggregate/engine.go:429-471 | the greatest (least) value of a column of numbers is one of them and none is greater (less); NULL exactly if there is none |
| Aggregates.ApplyAggregation | internal/gate/aggregate/engine.go:346-386 | combines each column by its own aggregate; columns the result lacks are NULL |
| Aggregates.AggregateDistributes | internal/gate/aggregate/engine.go:367-376 | for any partition of the rows, empty shards included, combining the shards' COUNT, SUM, MIN, MAX gives the aggregate over all rows; for a COUNT exactly if the total fits into 64 bits |
| Aggregates.MergeAggregates | internal/gate/aggregate/engine.go:234-240 | the same for a whole select list of aggregates, as a loop over the answers |
| Scatter.ResolveOrder | internal/gate/aggregate/engine.go:652-670 | succeeds exactly if every ORDER BY name is a result column up to case, and finds the last such column |
| Scatter.LowerIff | internal/gate/aggregate/engine.go:654-669 | two names match exactly if they are equally long and differ at most in the case of ASCII letters |
| Scatter.ApplyLimitOffset | internal/gate/aggregate/engine.go:720-734 | succeeds exactly as long as the sum of start and limit fits into 64 bits; row i of the result is the i-th row after the offset, and there are as many rows as remain, or limit of them if that is less |
| Scatter.SortRows | internal/gate/aggregate/engine.go:672-689 | a permutation, sorted if the sort columns are homogeneous, with the numbers in the leading one in order |
| Scatter.ArrangeRows | internal/gate/aggregate/engine.go:218-246 | the kept rows, sorted if there is something to sort; fails exactly if an ORDER BY name is no result column |
| Scatter.MergeRows | internal/gate/aggregate/engine.go:218-266 | the cut of an arrangement of the kept rows, with the exact conditions for each failure; row i of the result is the i-th row after the offset, and there are as many rows as remain, or limit of them if that is less |
| Scatter.Gather | internal/gate/gateway/gateway.go:142-149 | the targets' rows one after the other |
| Scatter.ScatterSelect | internal/gate/gateway/gateway.go:136-156 | for any split of the rows over shards and any order of their answers, what the gate returns is a correct answer of one node that holds all rows, if the sort columns are homogeneous, DISTINCT keys tell rows apart and LIMIT and OFFSET are literals (of any size): with exactly as many rows as OFFSET and LIMIT leave, all of them rows of the result, the numbers in the leading sort column in order; a computed LIMIT always yields no rows |
| Scatter.AnswerInNumbers | internal/gate/aggregate/engine.go:720-734 | a correct answer has exactly as many rows as OFFSET and LIMIT leave, each at most as often as the result has it, and the numbers in the leading ORDER BY column never decrease for ASC and never increase for DESC |
| Scatter.AnswerShows | internal/gate/gateway/gateway.go:136-156 | every row of a correct answer shows the selected columns of a stored record that satisfies the WHERE clause |
| Scatter.AnswerUnique | internal/gate/aggregate/engine.go:242-250 | if ORDER BY tells all rows apart there is only one correct answer, so scatter and single node agree row for row |
| Scatter.SortedUnique | internal/gate/aggregate/engine.go:672-689 | two sorted arrangements of the same rows without ties are the same |
| Scatter.OffsetAloneIsLost | internal/gate/aggregate/engine.go:59-61 | a query with only an OFFSET is answered correctly exactly if no row matches: the offset is stripped and never re-applied |
| Scatter.ComputedLimitIff | internal/gate/aggregate/engine.go:206-214 | the empty result the gate returns for a LIMIT that is an expression worth v is an answer exactly if v is 0 or the offset skips all rows |
| Scatter.ComputedOffsetMisses | internal/gate/aggregate/engine.go:206-214 | what the merge returns for an OFFSET that is an expression worth more than 0 can only be an answer if there are no rows or the LIMIT leaves enough of them; without rows or with LIMIT 0 it is one |
| Scatter.ComputedOffsetIff | internal/gate/aggregate/engine.go:206-214 | if ORDER BY tells all rows apart it is the answer exactly if there are no rows, or LIMIT is 0, or LIMIT is computed too and the offset skips everything |
| Scatter.ComputedOffsetAloneIff | internal/gate/gateway/gateway.go:136-158 | a computed OFFSET on its own is applied by every shard; the result is an answer exactly if it is worth 0, or skips everything, or at most one shard has matching rows |
| Scatter.HasAnswer | internal/gate/aggregate/engine.go:652-689 | if ORDER BY names homogeneous result columns, one node has an answer |
| Text.ParseFormat | internal/gate/aggregate/engine.go:293-295 | reading a printed 64-bit integer gives it back |
| Parser.NumericOperand | internal/parser/parser.go:87-92 | an operand whose stripped text reads as a number is that number, or a quoted text that reads so |
| Parser.EqualityValue | internal/parser/parser.go:117-163 | finds the shard key a statement names; for an INSERT through a loop over its columns |
| Parser.LeftmostFound | internal/parser/parser.go:94-115 | the scan finds a key exactly if some top-level conjunct is an equality on the column, and then the leftmost one |
| Parser.EqualityBindsKey | internal/parser/parser.go:94-115 | under three-valued logic, every row that satisfies the WHERE clause carries exactly the key that was found |
| Shards.BuildIs | internal/gate/router/router.go:77-95 | each group is determined by the tablets of its key in the order they were visited |
| Shards.OrderIndependentIffConsistent | internal/gate/router/router.go:77-110 | a shard's group is the same for every order of visiting its tablets exactly when they agree on names, have at most one PRIMARY, and carry its range or 0/0 (without a PRIMARY: all one range) |
| Shards.SyncIndependentOfOrder | internal/gate/router/router.go:77-110 | with consistent tablets the groups, ranges and primaries are the same for every iteration order |
| Shards.OneRole | internal/gate/router/router.go:90-94 | each tablet is primary or replica of exactly the group of its key |
| Shards.Roles | internal/gate/router/router.go:90-94 | a tablet of a group is a replica exactly if it is not declared PRIMARY, and the group has a primary, declared so, exactly if one of its tablets is |
| Shards.GroupKeyIff | internal/gate/router/router.go:79 | without a slash in keyspace names, tablets share a group exactly if they share keyspace and shard |
| Shards.GroupKeysCollide | internal/gate/router/router.go:79 | with one, different shards can end up in one group |
| Shards.NoOverlapIff | internal/gate/router/router.go:42-44 | no key has two owners exactly if of any two nonempty ranges one ends where the other begins or before |
| Shards.TilesApart | internal/gate/router/router.go:42-44 | ranges that follow each other without a gap do not overlap |
| Shards.TileOwner | internal/gate/router/router.go:42-44 | then exactly the keys from the first start up to but not including the last end have an owner |
| Router.WantedTablets | internal/gate/router/router.go:72-75 | one record for each address, as the fold of the list |
| Router.LastRecordCounts | internal/gate/router/router.go:72-75 | of several records with one address the last one counts |
| Router.NoTargetIff | internal/gate/router/router.go:215-233 | a scatter over primaries has no target exactly if no group's primary can be reached |
| Router.InsertKeyIs | internal/parser/parser.go:139-158 | the shard key of a one-row INSERT is the number in its shard column, quoted or not, wherever that column stands |
| Router.WhereKeyIs | internal/parser/parser.go:94-137 | the shard key of a SELECT, UPDATE or DELETE is the number in the leftmost equality on the shard column, quoted or not |
| Router.Router.constructor | internal/gate/router/router.go:62-68 | starts without clients and groups |
| Router.Router.GroupTablets | internal/gate/router/router.go:77-95 | builds the groups of all wanted tablets, in some order |
| Router.Router.FixRanges | internal/gate/router/router.go:97-110 | groups with range 0/0 take over their primary's or first replica's |
| Router.Router.Evict | internal/gate/router/router.go:115-121 | exactly the unwanted clients go, each closed once |
| Router.Router.Dial | internal/gate/router/router.go:123-134 | exactly the wanted addresses that can be dialled are added, old clients stay |
| Router.Enumerate | internal/gate/router/router.go:137-140 | the group keys without repeats |
| Router.Router.Sync | internal/gate/router/router.go:71-141 | groups as built, every client ever opened is cached and open or was closed exactly once, clients at wanted addresses are kept, cached addresses are wanted |
| Router.Router.PickOneForRead | internal/gate/router/router.go:191-197 | replicas in turn, else the primary |
| Router.Router.PickOneForWrite | internal/gate/router/router.go:199-201 | the primary's client |
| Router.Router.TabletForKey | internal/gate/router/router.go:203-213 | a tablet of a group whose start is at most the key and whose end is greater, for writes its primary; none only if no group's range holds the key or a primary is out of reach |
| Router.Router.ScatterResult | internal/gate/router/router.go:215-233 | only tablets of groups, one for every group whose tablets are in reach, for writes exactly the reachable primaries in key order |
| Router.Router.Route | internal/gate/router/router.go:143-189 | writes (INSERT, UPDATE, DELETE and never SELECT) and statements of a transaction go to the primary that owns their key, or to all reachable primaries exactly if there is no key, no owner or no reachable owner; such a scatter has no target exactly if no primary can be reached; for every request, a single target serves a group whose start is at most the key and whose end is greater, and scatter targets serve groups and cover each one whose tablets can be reached |
| Placement.OthersFindNothing | internal/gate/router/router.go:172-186 | if rows are placed by key, no row outside the owning shard satisfies the WHERE clause |
| Placement.RoutedSelectComplete | internal/gate/router/router.go:143-189 | a SELECT routed to one primary returns what all shards would return; so does the scatter fallback if every primary is in reach |
| Placement.RoutedWriteComplete | internal/gate/router/router.go:143-189 | an UPDATE or DELETE on its one shard leaves every shard as if it had run on all |
| Placement.ScatterConserves | internal/gate/router/router.go:215-233 | rows found at the reachable shards and at the missed ones together are the rows of the whole table |
| Placement.ScatterCompleteIff | internal/gate/router/router.go:226-230 | with shards out of reach a scattered SELECT is complete exactly if none of them has a matching row |
| Placement.StepKeepsPlacement | internal/parser/parser.go:139-158 | one admissible statement, even one that fails part way, keeps every row on the shard that owns its key |
| Placement.PlacementIsInvariant | internal/gate/router/router.go:172-186 | so does every run of single-row INSERTs with an owned key, DELETEs, and UPDATEs that do not set the shard column |
| Placement.ScatteredInsertMisplaces | internal/parser/parser.go:150-153 | an INSERT scattered over two or more shards always breaks placement |
| Placement.InsertKeepsPlacementIff | internal/gate/router/router.go:172-188 | an INSERT keeps placement exactly if a shard that owns its key is in reach, or every shard in reach owns the keys of all its rows; so over several shards, all in reach, exactly if it names a key that some shard owns |
| Placement.ScatteredInsertIff | internal/gate/router/router.go:177-188 | a scattered INSERT keeps placement exactly if every shard in reach owns the keys of all its rows |
| Placement.LookupIndependentOfOrder | internal/gate/router/router.go:203-213 | with disjoint ranges a key is owned by the same shard and primary whatever order the groups were built in |
| Select.OwnerAnswers | internal/gate/router/router.go:172-186 | on placed data the answers of the owning shard are exactly the answers over the whole table |
| Select.SelectInTransaction | internal/gate/coordinator/coordinator.go:121-191 | from end to end: a SELECT routed to its owner is answered as over the whole table; one scattered over all primaries too, in the domain of the merge |
| Topology.LastEventWins | internal/topology/etcd.go:72-87 | the tablet map holds for each key what the last valid event says |
| Topology.SyncedSame | internal/topology/etcd.go:37-45 | if records with one address agree and shards are consistent, the same tablet map leads to the same groups in every iteration order |
| Topology.KeptThroughout | internal/topology/etcd.go:66-92 | a client, whenever it was dialled, stays the same object as long as its address stays wanted |
| Topology.EtcdTopology.ListTablets | internal/topology/etcd.go:37-45 | exactly the tablets of the map, in some order |
| Topology.EtcdTopology.Load | internal/topology/etcd.go:53-62 | the stored records, unreadable ones skipped |
| Topology.EtcdTopology.Absorb | internal/topology/etcd.go:70-88 | the fold of the batch; the changed flag stays down only if nothing changed |
| Topology.EtcdTopology.Update | internal/topology/etcd.go:63 | the router's groups are those of the map, its clients are wanted, kept addresses keep their client |
| Topology.EtcdTopology.Watch | internal/topology/etcd.go:47-94 | after any batches, unreadable records, failed dials and errors: the map is the fold of all valid puts and deletes, the router agrees with it, every client ever opened is cached, open and wanted or was closed exactly once, and over each batch every client whose address stays wanted stays the same object |

## Left out

- The wire protocol, the admin interface, server wiring, health checks, connection pools, metadata and both commands: input, output and configuration.
- The SQL parser library and SQL text formatting; statements are syntax trees, joins and subqueries are not modelled.
- Reading tablet answers back as text: a tablet prints NULL in a form that type inference does not recognise, so all results about NULL are about typed cells.
- AVG, GROUP BY, COUNT(DISTINCT), DISTINCT with aggregates and mixed select lists: the merge does not preserve their meaning.
- AggSum: adds integers exactly, while the source adds 64-bit floating-point numbers, which agree as long as sums stay within 2^53.
- Booleans and floating-point numbers as cells, and number rendering.
- ComputedOffsetMisses: with ties in ORDER BY the two conditions do not meet; without ties ComputedOffsetIff is exact.
- ScatterSelect: ORDER BY names are compared in lower case for ASCII only.
- Route: for reads outside transactions the group of each target is stated but not which replica, since replicas may lag behind; the replica cursor does not run over.
- PlacementIsInvariant: multi-row INSERTs and UPDATEs of the shard column are outside, as are INSERTs whose owner is out of reach; InsertKeepsPlacementIff says exactly which INSERTs keep placement.
- The transaction manager and the session manager are modelled as interleaved steps on values, not as objects, since their threads interfere; the session manager's registry appears as a flag of each session that its reaper clears.
- Coordinator.Gate.FanOutAll: looking up a client and sending to it is one step.
- Locks and wall-clock time of the router and the topology: their methods run one at a time, staleness is arbitrary.
- Summaries and closing of the router and of the session manager, and the copying loops of the tablet's Execute handler: plain enumeration and copying.
