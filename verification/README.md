# A verified model of the verifier-gated commit loop

Verity keeps a store of artifacts that a worker proposes and an opaque verifier judges. Every status
change goes through one commit path; a control plane drives cycles, links revisions, bounds
refinement and feeds corrections back. This project models that loop in Dafny and proves what the
system promises about it over whole runs.

Layout, from the store outwards:

- `Contracts`, `Ordering`, `Text`, `Tables`: the value types, the order of query results, the rows
  as one value and the effect of every statement on them.
- `Store`: the connection as a pair of tables (committed, working) with the depth counter of the
  re-entrant transaction. Every statement and every COMMIT may raise; a script says which do.
- `Lifecycle`, `Commit`, `CommitPath`: the transition table, the commit path on values, and the
  commit path as it writes, proved to be the former and to be atomic.
- `Pipeline`, `Slices`: the verifier (cheap checks, hard checks, one bundle) and what it is shown.
- `Intake`, `Recorded`, `ControlPlane`, `KernelRuns`, `Connections`, `RefineCap`, `CapCounterexample`, `Audit`: the
  intake of a proposal as the list of states it passes through, what it records, the control plane that
  runs it, whole
  runs with arbitrary verdicts and a failure at any point, and the same for a connection whose COMMITs
  may raise.
- `Scoring`, `SubmissionGates`, `Incumbency`, `FeRuns`, `BestPrior`, `RestartRuns`: the
  model-building task, its two gates, the one best answer, the claim about best priors, and restarts
  of the verifier.
- `Leaderboard`, `KaggleLadder`, `LadderSpending`, `KaggleRuns`: the leaderboard task and when it
  spends a scarce submission.
- `Provenance`, `RunLoop`, `JobQueue`, `RunIdentity`, `RunRecords`: the backward closure, the run loop,
  background runs with their lock and shared run-id cell, and whose record they leave.
- `Wire`, `Remote`: the codecs and the verifier behind a transport.
- `Ranking`, `Provisioning`, `ContextAssembly`, `Served`, `Split`: stable ranking, provisioned objects,
  the bounded context and what it shows, and the stratified split.

Classes stand for what the source updates in place; their methods are proved against functions on
values, and the lemmas are about those functions and about the runs built from them. Whatever may
raise is a result value or a script of raises. The clock, the sources of ids, code runs, the
leaderboard, the sandbox and the contents of verdicts are parameters.

Where the code does not do what is promised of it, the model follows the code:

- A COMMIT that raises is not rolled back (src/verity/control_plane/store.py:350-360), so its writes land with the next unit
  of work although the caller saw a failure (`CommitPath.CommitOrRecordFailure`), or disappear again
  with the next rollback although the connection has read them (`Connections.PendingRowsVanish`; when
  exactly is `Connections.WorkingGrowsExactlyWhen`).
- Two of the four audit checks can never report anything (`Audit.CheckUniqueIds`,
  `Audit.CheckFailuresRetained`), an operation without a stored output among them
  (`Audit.StrayOutputIsUnseen`). The commit path alone does not keep the audit empty: a proposal may
  carry a pointer to a revision that does not exist (`Audit.DanglingPresetBreaksTheAudit`); the exact
  condition is `Audit.RunsAuditEmptyExactlyWhen`.
- "Best accepted and best prior coincide" (src/verity/domains/feature_engineering.py:91-95) needs margin and deflation
  of 0; the exact condition is `BestPrior.CoincidesAfterExactlyWhen`.
- The run cache is keyed by the code alone, so a restart is visible when only the package list of a
  script changed (`RestartRuns.RestartCanShow`; when exactly is
  `RestartRuns.RestartKeepsRunExactlyWhen`).
- The refine cap needs parents that exist before what revises them
  (`CapCounterexample.ForwardParentsBreakTheCap`); the exact conditions are
  `RefineCap.SendingBackKeepsCapExactlyWhen` and `RefineCap.RunsStayCappedExactlyWhen`.
- A sandbox failure with an empty message is recorded but not counted as a failure
  (`RunLoop.CountedExactlyWhen`), and a proposal that was committed is reported as a failed cycle
  when the workspace cannot be regenerated afterwards (`RunLoop.ReportAgreesExactlyWhen`), which the
  comment at src/verity/control_plane/api.py:404-408 sets out to prevent for the harvest.
- The run-id cell is shared by the runs of a task, so a run can end done without a record
  (`RunIdentity.SharedCellLosesARecord`; when exactly is `RunRecords.RecordLostExactlyWhen`).
- A misbehaving verifier service is meant to degrade (src/verity/transport/client.py:60-67); some replies escape as an
  `AttributeError` (`Remote.MisbehavingPeersExactlyWhen`).
- The assembled context does grow with the store, by the digits of the number of artifacts, and the
  character caps bound nothing when they are 0 (`ContextAssembly.ContextIsBounded`,
  `ContextAssembly.CutBoundsExactlyWhen`).
- The index of provided objects can overwrite a provided file
  (`Provisioning.IndexClobbersExactlyWhen`).

## Model

| member | source | states |
|---|---|---|
| `Store.SqliteStore.constructor` | src/verity/control_plane/store.py:329-339 | a new store is empty, committed and working tables alike, outside any transaction |
| `Store.SqliteStore.Enter` | src/verity/control_plane/store.py:350-351 | a nested block only counts one deeper; nothing is written |
| `Store.SqliteStore.Leave` | src/verity/control_plane/store.py:353-361 | only the outermost block commits or rolls back; an inner one passes its error on; the depth is always restored; a COMMIT that raises leaves the writes pending |
| `Store.SqliteStore.Update` | src/verity/control_plane/store.py:549-555 | one write in a block of its own is atomic: its effect is there (and durable when outermost), or nothing became durable |
| `Store.SqliteStore.Propose` | src/verity/control_plane/store.py:516-532 | the artifact and its operation land together or not at all; a non-proposed status, a used id and a used operation id are refused, in that order |
| `Store.SqliteStore.RecordDecision` | src/verity/control_plane/store.py:534-547 | appends one decision row, atomically |
| `Store.SqliteStore.SetStatus` | src/verity/control_plane/store.py:549-555 | changes the status of one existing row and nothing else, atomically, whatever the transition |
| `Store.SqliteStore.AcceptSuperseding` | src/verity/control_plane/store.py:557-570 | accepts the new row and supersedes the old one with a pointer to it, both or neither |
| `Store.SqliteStore.LinkRevision` | src/verity/control_plane/store.py:572-581 | the old row is revised and points at the new id, its other columns and every other row, operation, decision and failure unchanged, atomically |
| `Store.SqliteStore.RecordCycleFailure` | src/verity/control_plane/store.py:689-708 | appends one failure row, atomically |
| `Store.SqliteStore.PutObject` | src/verity/control_plane/store.py:627-639 | objects are filed under the hash of their bytes and never overwritten by other bytes |
| `Lifecycle.HistoryNeverReturns` | src/verity/control_plane/lifecycle.py:32-70 | a history along the transition table never leaves a terminal status and never comes back to one it left |
| `Commit.CommitsExactlyWhen` | src/verity/control_plane/commit.py:168-238 | a commit goes through exactly when the artifact is proposed, gated and not made by the verifier, the bundle is consistent, provenance exists where needed and the incumbent can be superseded |
| `Commit.CommittedSettles` | src/verity/control_plane/commit.py:193-238 | what a commit changes: its decision rows, the status of the artifact and of the incumbent, along legal edges, and no other column of any row |
| `Commit.SettleMoves` | src/verity/control_plane/commit.py:254-266 | the status write(s) of one bundle move exactly the artifact and, under an accept, the incumbent |
| `Commit.CommitSaysWhatWasRuled` | src/verity/control_plane/commit.py:195-206 | one decision row a ruling, with its gate, kind, rationale, defects and score; the result reports them and, when sent back, the defects of the first refine that has any |
| `Commit.CommitRefusesInOrder` | src/verity/control_plane/commit.py:168-238 | which refusal a commit meets: the first that applies, in the order of the source |
| `CommitPath.RecordDecisions` | src/verity/control_plane/commit.py:195-206 | one row per ruling, in order, inside the open transaction |
| `CommitPath.Settle` | src/verity/control_plane/commit.py:208-238 | the status write(s) a bundle asks for, with every refusal as its own error |
| `CommitPath.LandReply` | src/verity/control_plane/commit.py:186-238 | decision rows and status change(s) land together or nothing of them is durable, whatever raises |
| `CommitPath.RunCommit` | src/verity/control_plane/commit.py:148-238 | the whole commit path is atomic and computes the specified tables and result; on a healthy disk it fails exactly when the specification does |
| `CommitPath.CommitOrRecordFailure` | src/verity/control_plane/store.py:350-360 | a failed commit leaves no trace exactly when it was not the COMMIT itself that raised; otherwise the next unit of work makes its writes durable |
| `Pipeline.CreateVerifier` | src/verity/verifier/service.py:74-85 | a verifier is built exactly when every pipeline declares a hard check |
| `Pipeline.SdkVerifier.Stage` | src/verity/verifier/service.py:126-147 | one stage, check by check, is the specified fold over rulings |
| `Pipeline.SdkVerifier.Dispatch` | src/verity/verifier/service.py:92-111 | every request is logged and answered by its pipeline; a type without a pipeline raises |
| `Pipeline.PipelineDecides` | src/verity/verifier/service.py:113-149 | the reply is the first objection in call order; else tentative when a hard check deferred, a raise when two incumbents are named, else accepted with the one named incumbent |
| `Pipeline.RulingsSay` | src/verity/verifier/service.py:126-147 | every check that ruled leaves one row with what it ruled, in call order, and a check that deferred leaves none |
| `Pipeline.AcceptedExactlyWhen` | src/verity/verifier/service.py:113-149 | accepted exactly when every hard check ruled accept, no cheap check objected, and at most one incumbent was named |
| `Pipeline.BundlesAreCommittable` | src/verity/verifier/service.py:113-149 | every bundle passes the consistency check of the commit path, asks for a legal edge from proposed, and only an accept names an incumbent |
| `Pipeline.InterleavingIrrelevant` | src/verity/verifier/service.py:117-124 | how cheap and hard checks are interleaved in the declaration does not matter |
| `Slices.ResolveDeclaredSlice` | src/verity/control_plane/independence.py:65-95 | the loop over the declared inputs yields their union in either order, and the leak check never fires |
| `Slices.SliceIsExactlyDeclared` | src/verity/control_plane/independence.py:57-95 | nothing outside the declared inputs reaches the verifier and everything inside does |
| `Slices.RequestShowsExactly` | src/verity/control_plane/api.py:494-504 | the request carries proposal, declared rows and objects as they are, and exactly the scores on record for rows of the slice, the last of each gate |
| `Tables.GateScoresAre` | src/verity/control_plane/api.py:528-547 | an artifact has a score at a gate exactly when a decision row records one, and the last such row counts |
| `Tables.DecisionsForAre` | src/verity/control_plane/store.py:467-472 | the decisions of an artifact are its rows, all of them, in the order in which they were recorded |
| `Tables.QueryIsOrdered` | src/verity/control_plane/store.py:440-451 | a query returns its rows by timestamp, and those of one timestamp by id |
| `Tables.OperationsAreOrdered` | src/verity/control_plane/store.py:453-458 | the operations into an artifact come by timestamp, and those of one timestamp by operation id |
| `Ordering.TextLessExactlyWhen` | src/verity/control_plane/store.py:448-450 | text comes before text exactly when it is a proper prefix or smaller at the first difference |
| `Recorded.MalformedExactlyWhen` | src/verity/control_plane/api.py:305-327 | a proposal is malformed exactly when its payload is no object, lacks a required key, or the domain says so |
| `Recorded.ProposalIsRecorded` | src/verity/control_plane/api.py:342-389 | the first unit records exactly the proposed row and its operation: the declared payload keys and no others, no required key lost, the declared objects under their hashes, every other column as offered |
| `Recorded.RevisionIsLinked` | src/verity/control_plane/api.py:570-581 | in the next state the first parent points at the proposal exactly when the operation revises it and it was flagged (or it already pointed there), and no other row changes |
| `Recorded.SentBackExactlyWhen` | src/verity/control_plane/api.py:394-398 | a reply that sends a proposal back lands it revised exactly when its lineage has been refined fewer times than the cap, and rejected otherwise |
| `Recorded.HarvestMints` | src/verity/control_plane/api.py:449-476 | every child of an accepted parent is recorded proposed, with the creator and the objects of the parent and one operation from it, and then committed with its own reply |
| `ControlPlane.TaskPlane.CountLineageRefines` | src/verity/control_plane/api.py:549-568 | the loop counts what the walk over revised ancestors counts, and ends on every graph |
| `ControlPlane.TaskPlane.LinkRevisionIfAny` | src/verity/control_plane/api.py:570-581 | only a flagged artifact named by a revises operation is linked; a raise leaves the durable tables alone |
| `ControlPlane.TaskPlane.CommitThroughVerifier` | src/verity/control_plane/api.py:478-526 | the verifier is asked only about an admissible artifact, with exactly the declared slice, its recorded scores and the bound objects; the commit lands whole or not |
| `ControlPlane.TaskPlane.HarvestObjects` | src/verity/control_plane/api.py:371-374 | every declared object can be read back under its hash; none stored before is lost |
| `ControlPlane.TaskPlane.HarvestOne` | src/verity/control_plane/api.py:449-476 | a child is proposed, then committed through its own gate; a raise leaves one of the states in between |
| `ControlPlane.TaskPlane.HarvestChildren` | src/verity/control_plane/api.py:437-476 | the children are minted and gated one after the other until one fails; the tables are always in a state of that trace |
| `ControlPlane.TaskPlane.RecordProposal` | src/verity/control_plane/api.py:389-390 | proposal and revision link, each atomic; the tables end in a state of the intake trace |
| `ControlPlane.TaskPlane.CommitAndHarvest` | src/verity/control_plane/api.py:394-418 | the commit with its refine cap and, when accepted, the harvest whose failure never reaches the caller |
| `ControlPlane.TaskPlane.SubmitProposal` | src/verity/control_plane/api.py:329-418 | a malformed proposal records nothing; otherwise the tables end in a state of the submission trace wherever a raise occurs, the reported status is the stored one, and the rationale is kept aside |
| `KernelRuns.RunsOnlyAdd` | src/verity/control_plane/store.py:516-581 | over every run whose COMMITs go through, whatever is replied and wherever it is cut short, each step only adds, and every status history is a path of the table from proposed |
| `KernelRuns.NothingIsLost` | src/verity/control_plane/lifecycle.py:32-46 | no row is lost, fixed columns and terminal statuses never change, decisions only grow |
| `KernelRuns.HistoriesLegal` | src/verity/control_plane/lifecycle.py:32-65 | histories are legal wherever every step is |
| `KernelRuns.RunIsUnits` | src/verity/control_plane/api.py:329-476 | a run is a sequence of whole units of work: proposals, links, commits and failure rows |
| `Connections.DurableIsForEver` | src/verity/control_plane/store.py:344-361 | over every run of a connection, raised COMMITs and rollbacks included: what was durable stays durable with its fixed columns, its status has moved along a path of the table, a terminal status is for ever, the logs only grow, and the connection reads all of it |
| `Connections.WorkingGrowsExactlyWhen` | src/verity/control_plane/store.py:353-361 | what the connection reads grows in a step exactly unless the step rolls back to the durable tables while an earlier COMMIT left writes pending |
| `Connections.WorkingOnlyGrowsExactlyWhen` | src/verity/control_plane/store.py:353-361 | over a whole run the tables the connection reads only grow exactly when no rollback takes pending writes with it |
| `Connections.PendingRowsVanish` | src/verity/control_plane/store.py:353-361 | a proposal whose COMMIT raised is read as recorded and is gone after the next rollback |
| `Connections.UnitInvariantsSurvive` | src/verity/control_plane/store.py:344-361 | whatever every unit of work keeps holds of the durable tables and of those the connection reads, whatever raises |
| `Connections.ConnectionsAuditEmpty` | src/verity/control_plane/invariants.py:147-154 | with resolving preset pointers both tables audit empty in every state of a connection, raised COMMITs included |
| `Connections.LeadsExactlyWhen` | src/verity/control_plane/lifecycle.py:32-46 | one status leads to another exactly when some legal history does |
| `RefineCap.WalkVisits` | src/verity/control_plane/api.py:555-568 | the walk visits a duplicate-free chain of revised ancestors and counts it |
| `RefineCap.WalkIsLongest` | src/verity/control_plane/api.py:555-568 | no duplicate-free chain from the same start is longer than the walk |
| `RefineCap.WalkIsExact` | src/verity/control_plane/api.py:555-568 | on a chain that ends, the walk returns its length |
| `RefineCap.RevisedParentIs` | src/verity/control_plane/api.py:566-567 | an artifact revises the first input of the earliest revises operation into it, and nothing without one |
| `RefineCap.SendingBackKeepsCapExactlyWhen` | src/verity/control_plane/api.py:549-568 | in a capped store, sending an artifact back keeps every chain of revised artifacts free of cycles and within the cap exactly when the walk behind it is below the cap, it does not revise itself, and every chain that leads to it has at most cap - 1 - walk members, none of them on the walk |
| `RefineCap.SentBackBelowCap` | src/verity/control_plane/api.py:394-398 | in every run an artifact is sent back only while fewer than refine_cap refines lie behind it, and before any later operation is recorded |
| `RefineCap.RunsStayCappedExactlyWhen` | src/verity/control_plane/api.py:394-398 | every state of a run is within the cap exactly when every artifact the run sends back fits in front of its walk at that moment |
| `RefineCap.LineagesAreCapped` | src/verity/control_plane/api.py:394-398 | where nothing is revised before it is minted, in every state of every run a chain of revised artifacts has no cycle and at most refine_cap members, for a cap of at least 1 |
| `CapCounterexample.ForwardParentsBreakTheCap` | src/verity/control_plane/api.py:549-568 | a parent minted after what revises it does not fit and breaks a cap of 1 |
| `Audit.AllOperations` | src/verity/control_plane/invariants.py:59-70 | exactly the operations that output one of the given artifacts, each once |
| `Audit.AllOperationsOfStore` | src/verity/control_plane/invariants.py:59-70 | over the whole store this is the operation table exactly when every operation outputs a stored artifact |
| `Audit.Duplicates` | src/verity/control_plane/invariants.py:157-164 | exactly the values that occur twice, sorted |
| `Audit.CheckUniqueIds` | src/verity/control_plane/invariants.py:73-85 | can never report anything: rows are keyed |
| `Audit.CheckProvenance` | src/verity/control_plane/invariants.py:88-103 | empty exactly when every accepted or tentative non-root has an operation edge; reports only offenders |
| `Audit.CheckFailuresRetained` | src/verity/control_plane/invariants.py:106-119 | can never report anything: it reaches operations only through existing artifacts |
| `Audit.CheckTerminalPointers` | src/verity/control_plane/invariants.py:122-144 | empty exactly when every pointer that must resolve does; reports only offenders |
| `Audit.RunAudit` | src/verity/control_plane/invariants.py:147-154 | empty exactly when provenance and pointers are sound |
| `Audit.CommitKeepsEmptyExactlyWhen` | src/verity/control_plane/invariants.py:122-144 | under an empty audit a commit keeps it empty exactly unless it sends back an artifact whose preset revised_by is not stored |
| `Audit.UnitKeepsEmptyExactlyWhen` | src/verity/control_plane/invariants.py:147-154 | the same for any unit of work: no proposal, link or failure row can break an empty audit |
| `Audit.RunsAuditEmptyExactlyWhen` | src/verity/control_plane/invariants.py:147-154 | over every run, whatever is proposed: all its states audit empty exactly when no step sends back an artifact whose preset revised_by is not stored at that moment |
| `Audit.RunsAuditEmpty` | src/verity/control_plane/invariants.py:147-154 | every state of every run audits empty when no proposal carries a preset revised_by that is not stored |
| `Audit.DanglingPresetBreaksTheAudit` | src/verity/control_plane/invariants.py:139-143 | a proposal whose preset revised_by is not stored leaves the audit empty until it is sent back, and not empty afterwards |
| `Audit.RunsOutputStored` | src/verity/control_plane/invariants.py:59-64 | in every state of a run whose operations output the artifacts they come with, every operation has a stored output |
| `Audit.StrayOutputIsUnseen` | src/verity/control_plane/invariants.py:106-119 | an operation that outputs an artifact which does not exist is accepted, and the audit stays empty |
| `Scoring.BalancedAccuracy` | src/verity/domains/feature_engineering.py:507-517 | the counting loops compute the unweighted mean of per-class recall |
| `Scoring.EveryRowCounts` | src/verity/domains/feature_engineering.py:507-517 | one more row of a class right raises the score by exactly 1 over the number of classes times the rows of that class |
| `Scoring.NoneRightIsZero` | src/verity/domains/feature_engineering.py:507-517 | with no row right the score is 0, which with the former determines it |
| `Scoring.ScoreBounded` | src/verity/domains/feature_engineering.py:507-517 | the score lies in [0, 1] and is 1 exactly when there are rows and all are predicted right |
| `SubmissionGates.Gates.Run` | src/verity/domains/feature_engineering.py:302-324 | the script runs unless the last run was of the same code; only the last run is cached |
| `SubmissionGates.RowMapIs` | src/verity/domains/feature_engineering.py:482-485 | a prediction is the last row of its id, and rows without an id are dropped |
| `SubmissionGates.ParsedExactlyWhen` | src/verity/domains/feature_engineering.py:472-488 | output is a prediction exactly when some row carries an id |
| `SubmissionGates.Gates.RunnableGate` | src/verity/domains/feature_engineering.py:326-349 | accepts exactly a run that did not time out, exited with 0, left readable predictions and covers every reserved row, with every rejection in order |
| `SubmissionGates.Gates.FindBest` | src/verity/domains/feature_engineering.py:395-421 | the first top-scoring accepted row of the slice, the ledger before the durable record |
| `SubmissionGates.Gates.SelectionGate` | src/verity/domains/feature_engineering.py:351-371 | accepts exactly a covering run whose score exceeds every known score of an accepted row (0 without any) plus the margin plus the deflation for every rejected row of the slice; an accept names the first best of them |
| `SubmissionGates.SelectionExactlyWhen` | src/verity/domains/feature_engineering.py:351-371 | the same of the gate on values, with the score it records on the ledger and in its verdict |
| `SubmissionGates.Gates.ScoreAndAcceptGate` | src/verity/domains/feature_engineering.py:373-393 | records the score and accepts whatever it is |
| `SubmissionGates.BestPair` | src/verity/domains/feature_engineering.py:412-421 | the best of the scored pairs: an upper bound, taken by one of them |
| `Incumbency.ChainsEndAtIncumbent` | src/verity/domains/feature_engineering.py:351-371 | every chain of replacements is finite and ends at the one accepted artifact |
| `Incumbency.ReignsRise` | src/verity/domains/feature_engineering.py:351-371 | along a chain the score rises by more than the margin at every link |
| `Incumbency.CommitKeepsOneBest` | src/verity/control_plane/commit.py:254-266 | a commit whose accept improves on the incumbent and names it keeps one best answer |
| `FeRuns.DispatchIsPipeline` | src/verity/domains/feature_engineering.py:215-280 | the declared two-step pipeline replies as the gates, spelled out |
| `FeRuns.SecondGateRunsNothing` | src/verity/domains/feature_engineering.py:302-324 | after runs-clean the second gate finds the run cached: one execution a dispatch |
| `FeRuns.ReplyIsExpected` | src/verity/domains/feature_engineering.py:395-421 | whatever the process remembers, its reply is a function of the store and of the run alone |
| `FeRuns.AcceptedExactlyWhenBetter` | src/verity/domains/feature_engineering.py:351-371 | whatever the process remembers, a dispatch is accepted exactly when its run is clean and covers every reserved row and scores above the accepted submission plus the margin plus the deflation for every submission the store has rejected; an accept names the accepted submission |
| `FeRuns.OneBestAnswerSurvives` | src/verity/domains/feature_engineering.py:351-371 | after every run under the improving policy, restarts and failures included, at most one submission is accepted and every former best leads to it by ever better replacements |
| `FeRuns.NoPriorBeatsTheBar` | src/verity/domains/feature_engineering.py:351-371 | no recorded score exceeds the score of the incumbent by more than margin and deflation |
| `FeRuns.BestAcceptedIsBestPrior` | src/verity/domains/feature_engineering.py:91-102 | with neither margin nor deflation the incumbent has the maximum of all recorded scores |
| `BestPrior.CoincidesAfterExactlyWhen` | src/verity/domains/feature_engineering.py:91-102 | after a landed verdict best accepted and best prior are equal exactly when it was an accept, or they were equal before and its score is not above the incumbent yet within margin and deflation |
| `BestPrior.MarginSplitsTheBests` | src/verity/domains/feature_engineering.py:91-102 | a concrete submission for which the claim fails under a margin of one half |
| `BestPrior.TaskStepIsKernelStep` | src/verity/control_plane/api.py:329-418 | every step of the task is a step of the kernel, so what holds of kernel runs holds of its runs |
| `RestartRuns.RestartKeepsRunExactlyWhen` | src/verity/domains/feature_engineering.py:302-324 | after any dispatches a restart leaves the run the gates see unchanged, for every runner, exactly when the next dispatch does not bring the script run last with another package list |
| `RestartRuns.RestartCanShow` | src/verity/domains/feature_engineering.py:302-324 | one script with two package lists: the cache, keyed by code alone, makes a restart visible |
| `RestartRuns.RestartsAreInvisible` | src/verity/control_plane/api.py:528-547 | for every runner and however often the verifier restarts, every verdict and the tables are those of the run without restarts, whenever no script comes again right after its run with another package list |
| `RestartRuns.RestartsAreInvisibleForConsistentOffers` | src/verity/control_plane/api.py:528-547 | in particular when every offered script comes with one package list throughout |
| `RestartRuns.RestartsAreInvisibleForCodeRunners` | src/verity/control_plane/api.py:528-547 | the same for every runner that reads the code alone, with no condition on the run |
| `Leaderboard.ClearsBarExactlyWhen` | src/verity/verifier/kaggle.py:55-69 | the bar is a score of the board, and an estimate reaches it exactly when fewer entries than the bar has places are above it |
| `Leaderboard.PlacesAreCeiling` | src/verity/verifier/kaggle.py:66-69 | the places are the fraction of the board rounded up |
| `Leaderboard.AboveCounts` | src/verity/verifier/kaggle.py:55-69 | the entries above a score are counted place by place |
| `KaggleLadder.LadderGates.Run` | src/verity/domains/feature_engineering_kaggle.py:123-136 | a script runs once per role; both runs stay cached |
| `KaggleLadder.LadderGates.Best` | src/verity/domains/feature_engineering_kaggle.py:150-169 | the first best accepted row under one score of one gate, the ledger before the record |
| `KaggleLadder.BestByIs` | src/verity/domains/feature_engineering_kaggle.py:150-169 | the best incumbent under a gate is the first accepted row with the greatest score known of it, from the ledger or else from what that gate put on record; 0 and nobody without any |
| `KaggleLadder.LadderGates.RunsCleanGate` | src/verity/domains/feature_engineering_kaggle.py:171-192 | accepts exactly a clean hold-out run that predicts every reserved row |
| `KaggleLadder.LadderGates.ProxyGate` | src/verity/domains/feature_engineering_kaggle.py:194-212 | accepts exactly a proxy above the best accepted proxy plus the margin, and records it |
| `KaggleLadder.LadderGates.CalibratedEstimate` | src/verity/domains/feature_engineering_kaggle.py:249-262 | the mean offset over the measured pairs, or the pessimistic proxy, clamped; no pairs and none asked for is a division by zero |
| `KaggleLadder.EstimateIs` | src/verity/domains/feature_engineering_kaggle.py:249-262 | for any listing of the submissions measured on both sides: the proxy less the pessimism with too few of them, else plus their mean offset, clipped to a score; none at all is a division by zero |
| `KaggleLadder.OffsetsAre` | src/verity/domains/feature_engineering_kaggle.py:253-261 | the sum behind the mean is 0 of nothing, and one pair more adds what its public score exceeds its hold-out score by |
| `KaggleLadder.OffsetsAnyOrder` | src/verity/domains/feature_engineering_kaggle.py:253-261 | the order in which the ledgers list the pairs does not matter |
| `KaggleLadder.LadderGates.CompetitiveGate` | src/verity/domains/feature_engineering_kaggle.py:214-247 | refines below the bar, accepts at or above it or on an empty board, degrades when the board cannot be read |
| `KaggleLadder.LadderGates.Await` | src/verity/domains/feature_engineering_kaggle.py:296-308 | polls until the budget is positive or the deadline has passed |
| `KaggleLadder.LadderGates.KaggleGate` | src/verity/domains/feature_engineering_kaggle.py:264-294 | submits the output of the real run after the wait, and accepts exactly a public score above the best accepted one |
| `LadderSpending.LadderIsPipeline` | src/verity/domains/feature_engineering_kaggle.py:343-354 | the declared four-step pipeline is the ladder climbed rung by rung |
| `LadderSpending.RunsTheScript` | src/verity/domains/feature_engineering_kaggle.py:123-136 | what is not cached is run from the submitted script with its package list, in the role of the rung |
| `LadderSpending.AwaitExactly` | src/verity/domains/feature_engineering_kaggle.py:296-308 | the wait succeeds exactly when some poll within the deadline finds budget and every earlier one found none |
| `LadderSpending.WaitIsBounded` | src/verity/domains/feature_engineering_kaggle.py:296-308 | with a positive interval the number of polls is bounded by the deadline |
| `LadderSpending.SpendsExactlyWhenEarned` | src/verity/domains/feature_engineering_kaggle.py:194-294 | a submission is spent exactly when the attempt runs clean, beats the best accepted proxy by more than the margin, is among the top of the board, regenerates and finds budget; and in that order the port is asked |
| `LadderSpending.SpendsOneExactlyWhenEarned` | src/verity/domains/feature_engineering_kaggle.py:194-294 | a dispatch spends exactly one submission when it is earned and none otherwise |
| `LadderSpending.CutSpendsNothing` | src/verity/domains/feature_engineering_kaggle.py:343-354 | a dispatch cut before the hard rung spends none |
| `KaggleRuns.BestIsIncumbent` | src/verity/domains/feature_engineering_kaggle.py:150-169 | whatever the ledger remembers, the best accepted incumbent a rung finds is the one of the store |
| `KaggleRuns.BothScoresRise` | src/verity/domains/feature_engineering_kaggle.py:194-294 | after every run one chain of replacements leads from every former best to the one accepted submission, the proxy rising by more than the margin and the public score strictly |
| `KaggleRuns.EverySubmissionEarned` | src/verity/domains/feature_engineering_kaggle.py:194-294 | at any point of any run a handoff, cut short ones included, spends exactly one submission when it is earned against the incumbent on record and reaches the hard rung, and none otherwise, whatever the process has forgotten |
| `KaggleRuns.RestartKeepsEstimateExactlyWhen` | src/verity/domains/feature_engineering_kaggle.py:249-262 | a restart leaves the estimate of every proxy alone exactly when too few pairs had been measured to be used or their mean offset is the pessimism |
| `KaggleRuns.CalibrationIsForgotten` | src/verity/domains/feature_engineering_kaggle.py:249-262 | a concrete ledger whose estimate a restart changes |
| `Provenance.AddParents` | src/verity/control_plane/store.py:666-673 | the existing unseen inputs of an operation join the walk, each once |
| `Provenance.Expand` | src/verity/control_plane/store.py:661-673 | afterwards every operation into the artifact is seen and all inputs of seen operations are |
| `Provenance.GetProvenance` | src/verity/control_plane/store.py:653-681 | on any graph, cycles and missing inputs included, exactly the backward-reachable operations and the existing ancestors, each once |
| `Provenance.DecisionsOncePerRow` | src/verity/control_plane/store.py:674-681 | every decision on the artifact or an ancestor exactly as often as recorded, except that an artifact on a cycle has its own twice |
| `RunLoop.Orchestrator.RecordCycle` | src/verity/control_plane/api.py:669-712 | one entry in the history and, for a failed cycle, one durable row of its kind with its message; a raise while writing the row leaves no entry |
| `RunLoop.Orchestrator.Attempt` | src/verity/control_plane/api.py:601-654 | the result of a cycle for every behaviour of its collaborators, with the tables in a state of the submission trace |
| `RunLoop.Orchestrator.RunCycle` | src/verity/control_plane/api.py:585-667 | each cycle adds exactly one entry to the history whichever collaborator raises; a raise while recording is recorded as a crash once more unless the result already came from the catch-all; the tables are reached by units of work, raised COMMITs and rollbacks |
| `RunLoop.Orchestrator.Cycles` | src/verity/control_plane/api.py:730-767 | the cycles of a run and its record, without provisioning and teardown |
| `RunLoop.Orchestrator.Run` | src/verity/control_plane/api.py:714-775 | at most max_cycles cycles; under stop_on_accept nothing runs after an unfailed accept, and a run that completes short of its cycles ends in one; aborted exactly when the last cycles, as many as the cap says, failed; each told what became of the one before; one record and one teardown; what is durable before it or after any cycle is durable at its end |
| `RunLoop.FeedbackTellsWhatHappened` | src/verity/control_plane/api.py:887-920 | the next cycle is told what escaped, else what the sandbox, the shape check, the gate or the verdict said: defects, or the rationale of the first gate that rejected; after an accept nothing |
| `RunLoop.OverCapExactlyWhen` | src/verity/control_plane/api.py:740-755 | the cap is reached exactly when there is one and the last cycles, as many as it says, all failed |
| `RunLoop.StreakIsTrailing` | src/verity/control_plane/api.py:739-757 | the counter is the number of trailing failures |
| `RunLoop.CountedExactlyWhen` | src/verity/control_plane/api.py:739-740 | a failed cycle escapes the counter exactly when it was malformed or a sandbox failure with an empty message |
| `RunLoop.EmptyMessageIsNotCounted` | src/verity/control_plane/api.py:739-740 | a sandbox failure without a message is recorded as failed and not counted |
| `RunLoop.ReportAgreesExactlyWhen` | src/verity/control_plane/api.py:642-667 | a committed proposal is reported as such exactly when the workspace could be regenerated afterwards |
| `JobQueue.ClaimIsFirstQueued` | src/verity/contracts/jobqueue.py:85-92 | a claim takes the first queued job in line, and finds one exactly when there is one |
| `JobQueue.InProcessJobQueue.Enqueue` | src/verity/contracts/jobqueue.py:80-83 | a job joins the end of the line as queued |
| `JobQueue.InProcessJobQueue.Claim` | src/verity/contracts/jobqueue.py:85-92 | the popping loop is the specified claim |
| `JobQueue.InProcessJobQueue.Finish` | src/verity/contracts/jobqueue.py:94-109 | ends a known job and refuses an unknown one |
| `RunIdentity.ControlService.SubmitRun` | src/verity/service/control_service.py:186-212 | an unknown task leaves no trace; otherwise the run, its job and the cell are set in one step |
| `RunIdentity.ControlService.BeginBody` | src/verity/service/control_service.py:218-221 | the next body takes the free lock and reads the cell |
| `RunIdentity.ControlService.EndBody` | src/verity/service/control_service.py:221-237 | the body settles its job and fills in a missing record |
| `RunIdentity.ControlService.Status` | src/verity/service/control_service.py:257-262 | claimed exactly while the body is not over, done exactly when its run returned |
| `RunIdentity.BodiesNeverOverlap` | src/verity/service/control_service.py:214-237 | at most one body is running, and they start in the order of submission |
| `RunIdentity.ComesToRest` | src/verity/service/control_service.py:214-237 | from every reachable state, and however its bodies end, some sequence of starting and ending bodies leads to rest, each body ending the way chosen for it and every job then done or failed |
| `RunIdentity.RestIsInevitable` | src/verity/service/control_service.py:214-237 | without further submissions every start or end of a body that does anything brings rest one step closer, and rest is reached exactly when none is left |
| `RunIdentity.EveryJobEnds` | src/verity/service/control_service.py:214-237 | at rest every submitted job is done or failed: done exactly when its run returned |
| `RunIdentity.OwnIdExactlyWhen` | src/verity/service/control_service.py:197-198 | a run executes under its own id exactly when no other run of its task is submitted before its body starts |
| `RunIdentity.RecordExactlyWhen` | src/verity/service/control_service.py:222-236 | a finished run has a record under its own id exactly when it failed or some finished body ran under that id; under its own id the record is its own |
| `RunIdentity.SharedCellLosesARecord` | src/verity/service/control_service.py:197-198 | two runs of one task submitted before either starts: the first ends done without a record |
| `RunRecords.RunsUnderExactlyWhen` | src/verity/service/control_service.py:197-221 | a body runs under the id of a run exactly when it starts after that submission and before the next one of its task |
| `RunRecords.RecordLostExactlyWhen` | src/verity/service/control_service.py:214-237 | a finished run is without a record exactly when it returned and no body of its task that finished with a record started between its submission and the next one of the task |
| `RunRecords.UndisturbedRunsHaveTheirRecord` | src/verity/service/control_service.py:197-237 | a run with no second submission of its task before its body starts has its own record once it is over |
| `Wire.PayloadRoundTripExactlyWhen` | src/verity/contracts/wire.py:103-113 | a payload crosses unchanged exactly when it does not look like an object reference |
| `Wire.WireNames` | src/verity/contracts/model.py:37-61 | statuses and rulings cross under the names of the contract |
| `Wire.ArtifactRoundTripExactlyWhen` | src/verity/contracts/wire.py:119-148 | an artifact crosses unchanged exactly when its payload does |
| `Wire.BundleRoundTrip` | src/verity/contracts/wire.py:173-207 | a verdict crosses unchanged |
| `Wire.RequestRoundTripExactlyWhen` | src/verity/contracts/wire.py:283-304 | a request crosses unchanged exactly when all its artifacts do |
| `Remote.EnvelopeRoundTrip` | src/verity/transport/envelope.py:48-76 | results and the four mapped error kinds cross as themselves, any other exception as a transport error |
| `Remote.RefinesLocalExactlyWhen` | src/verity/transport/client.py:58-73 | the remote verifier is the local one, for every verifier, exactly when no payload in the request looks like an object reference |
| `Remote.MarkerIsMisread` | src/verity/contracts/wire.py:110-113 | a payload under the marker key arrives as a stored object |
| `Remote.MisbehavingPeersExactlyWhen` | src/verity/transport/client.py:68-73 | any reply degrades or is a verdict or boundary error, except that an AttributeError escapes exactly on three shapes of reply |
| `Remote.AListTripsTheClient` | src/verity/transport/envelope.py:66-73 | an envelope that is a list escapes as an AttributeError |
| `Remote.VerifierServer.Setup` | src/verity/transport/server.py:71-75 | a builder makes the verifier from the setup, a fixed one refuses it; a failed build changes nothing |
| `Remote.VerifierServer.Dispatch` | src/verity/transport/server.py:76-79 | any raise rides the envelope by class name; an unreadable request never reaches the verifier |
| `Remote.VerifierServer.Provision` | src/verity/transport/server.py:80-84 | tells the identity of the hosted verifier, or that there is none |
| `Remote.VerifierServer.Teardown` | src/verity/transport/server.py:85-90 | a verifier made by a builder is gone after its task, a fixed one stays |
| `Remote.RemoteVerifier.Dispatch` | src/verity/transport/client.py:58-73 | over loopback the hosted verifier is left as a direct call leaves it, and its answer arrives as itself |
| `Remote.RemoteVerifier.Provision` | src/verity/transport/client.py:75-85 | the identity is learned exactly when the verifier could be built and is otherwise unchanged |
| `Split.EveryPrefixIsFair` | tools/harness/dataset.py:75-79 | every prefix of the table has exactly the whole part of the fraction of each class reserved |
| `Split.CountIs` | tools/harness/dataset.py:68-79 | the rows of a class are those that carry its label in the target column |
| `Split.PartsWeaveBack` | tools/harness/dataset.py:68-79 | the two parts are a partition in order: weaving them gives the table back |
| `Split.KeyIsExactlyReserved` | tools/harness/dataset.py:82-86 | with unique ids the answer key covers exactly the reserved ids with their true labels, and no agent row has one |
| `Split.TargetIsGone` | tools/harness/dataset.py:81-84 | the reserved set carries every column but the target |
| `Split.Divide` | tools/harness/dataset.py:68-79 | the loop sends every row to the specified side, in order |
| `Split.StratifiedSplit` | tools/harness/dataset.py:45-88 | the three errors in order; otherwise the specified split, written tables and answer key |
| `Split.SubsampleCounts` | tools/harness/dataset.py:100-107 | a subsample keeps the smaller of the cap and the class size of every class |
| `Split.SubsampleIdempotent` | tools/harness/dataset.py:100-107 | a second subsample with the same cap changes nothing |
| `Split.SubsampleIsFirst` | tools/harness/dataset.py:100-107 | what a table keeps begins with what each of its beginnings keeps |
| `Split.Subsample` | tools/harness/dataset.py:91-108 | the loop keeps the first rows of every class; without a cap it keeps all |
| `Ranking.SortOrder` | src/verity/control_plane/registries.py:240-246 | what a stable sort is: exactly those that must precede another do, and ties stand as before |
| `Ranking.TwoPassesAreLexicographic` | src/verity/control_plane/context.py:129-143 | the two stable passes are one sort by status rank, then recency, then query order |
| `Ranking.TrustedFirst` | src/verity/control_plane/context.py:57-64 | accepted before tentative before proposed before revised before superseded before rejected, and the newer first within a status |
| `Provisioning.SelectsAsPromised` | src/verity/control_plane/registries.py:412-432 | all keeps every qualifying artifact, newest first; last the newest; best one that none outscores, and the newest of those |
| `Provisioning.PathsApart` | src/verity/control_plane/registries.py:457-463 | no two files share a path for any ranks, ids and names, and only a lone file of that name is called as the index |
| `Provisioning.ArtifactScoreIs` | src/verity/control_plane/registries.py:493-500 | an artifact scores the greatest score on record for it, and none without any |
| `Provisioning.PathIs` | src/verity/control_plane/registries.py:457-463 | a lone file goes by its name, any other into a directory of two-digit rank and id |
| `Provisioning.ProvidedExactly` | src/verity/control_plane/registries.py:434-482 | in the finished role the path of every provided object that is the last of its name holds exactly the bytes stored under its own hash, the index apart, and there is nothing else |
| `Provisioning.AdmittedExactlyWhen` | src/verity/control_plane/registries.py:451-476 | an artifact is provided exactly when the count limit leaves room, it has objects, and all its bytes fit with those before it |
| `Provisioning.ProvideErrExactlyWhen` | src/verity/control_plane/registries.py:463-466 | providing raises exactly when an artifact that is looked at has an object whose hash is not stored |
| `Provisioning.BareExactly` | src/verity/control_plane/registries.py:467-470 | the artifacts without objects are counted apart from those left out for a limit |
| `Provisioning.Materialize` | src/verity/control_plane/registries.py:434-482 | the loop over the selected artifacts computes the specified role, or the raise of a missing object |
| `Provisioning.ConsiderOne` | src/verity/control_plane/registries.py:451-476 | one artifact is admitted whole, omitted or has no objects |
| `Provisioning.WholeOrNotAtAll` | src/verity/control_plane/registries.py:434-482 | every artifact is provided whole or not at all, both limits hold, and admitted, omitted and objectless add up to the selected |
| `Provisioning.IndexClobbersExactlyWhen` | src/verity/control_plane/registries.py:477-482 | the index overwrites a provided file exactly when a lone artifact within both limits has an object of that name |
| `ContextAssembly.RejectionDigest` | src/verity/control_plane/context.py:189-228 | the two loops and the sort compute the specified digest |
| `ContextAssembly.Assemble` | src/verity/control_plane/context.py:145-186 | the sections are put together as specified |
| `ContextAssembly.ContextIsBounded` | src/verity/control_plane/context.py:101-103 | with positive caps the context is no longer than the caps allow plus prompt, goal, scratch, the printed length of the recorded scores and the digits of the number of artifacts |
| `ContextAssembly.CutBoundsExactlyWhen` | src/verity/control_plane/context.py:255-265 | the cut is a bound exactly for positive limits |
| `ContextAssembly.DigestShowsLatest` | src/verity/control_plane/context.py:226-228 | the digest shows as many failed attempts as its limit allows, and none left out is more recent than one shown |
| `ContextAssembly.AttemptsAre` | src/verity/control_plane/context.py:208-225 | the attempts are exactly the rejected artifacts and the failed cycles other than gate errors |
| `Served.ManifestListsBest` | src/verity/control_plane/context.py:129-143 | the manifest lists stored artifacts up to its limit, and none it leaves out is more trusted, or as trusted and newer, than one it lists |
| `Served.RetrievedAreBest` | src/verity/control_plane/registries.py:233-246 | what is retrieved is stored and not over, and nothing left out ranks before it |
| `Served.LinesSayWhich` | src/verity/control_plane/context.py:76-92 | every line says which artifact it is about, of what type and status, with its summary |
| `Served.SummarySays` | src/verity/control_plane/context.py:255-265 | a payload is summarised by its reference, its keys or its text, never by the values under its keys |
| `Served.RejectedLineSaysWhy` | src/verity/control_plane/context.py:211-217 | the line of a rejected artifact names the first gate that rejected it, the score there and the rationale, up to the cut |
| `Served.FailedLineSaysWhy` | src/verity/control_plane/context.py:218-225 | the line of a failed cycle says of what kind it was and what was said, up to the cut |
| `Served.CutKeeps` | src/verity/control_plane/context.py:230-231 | a text that fits is kept, another is cut one short of the limit |
| `Served.StripIs` | src/verity/control_plane/context.py:157-169 | goal and scratch lose the white space at their ends and nothing else |
| `Served.ChosenIsServed` | src/verity/control_plane/context.py:145-186 | the served context contains the line of every artifact in the manifest and among the retrieved, and of every attempt the digest shows |

## Left out

- Docker, subprocesses, workspaces and the filesystem: a code run is a function from the script and
  its package list (and, on the ladder, the role) to a result whose predictions are already rows.
- The agent loop and model clients: a sandbox step is any proposal or a failure.
- HTTP, the command line and the daemon; the remote sandbox, health checks, and the client side of
  teardown.
- SQL, JSON and CSV text: rows are maps, JSON is a datatype, tables are rows of columns. The order of
  keys in a JSON object is not kept.
- SHA-256 and base64 are injective stand-ins; only their injectivity and round trip are used.
- Scores and times are reals: no rounding, no NaN, no infinities. In the split and in the number of
  places of the bar this also leaves out the rounding of a product.
- The words of rationales, defects, feedback and degraded verdicts, where nothing depends on them.
- Schema and contract versions, `operations_out_of`, task configuration, telemetry, timings and
  transcripts.
- Objects kept on disk, and with them a raise while storing one.
- The preset names and the parsing of provisioning specs and limits; the text of the index.
- One reading of the clock serves a whole submission; decisions come back in insertion order, while
  the query sorts them by timestamp, which is the same for a clock that does not go back.
- A sidecar lists its objects by name, not in the order in which they were harvested.
- Exceptions that are not `Exception` in a transaction; cancellation of tasks is a raise at an await.
- In the runs of the two tasks no children are harvested, as their domains declare none; harvests are
  in `KernelRuns` and `ControlPlane`. A raise of the code runner is a handoff that was cut.
- The refine cap is not claimed for a cap of 0: a harvested child is committed without the cap and
  may rest `revised`. For runs it is claimed of event runs, whose COMMITs go through, and of operations
  that output the artifact they come with.
- KernelRuns.NothingIsLost: about the stored payload. The store reads an inline payload with a
  top-level `__object_ref__` back as a reference (src/verity/control_plane/store.py:377-389), so
  readers of such a row see another payload than was proposed.
- ControlPlane.TaskPlane.HarvestChildren: the bytes handed to the children are those just harvested,
  not read back from the store; that they can be read back is `HarvestObjects`.
- KaggleRuns.EverySubmissionEarned: the estimate it mentions is that of the running process; when
  restarts leave it alone is `RestartKeepsEstimateExactlyWhen`.
- RestartRuns.RestartsAreInvisible: for the model-building task only.
- RunIdentity.ControlService.SubmitRun: run and job ids are assumed not to repeat, and the task is
  configured before; a configuration error is a refused submission.
- RunIdentity.ControlService.EndBody: what a run does to its own store is not part of this model; a
  run ends by completing, by aborting with a record, or by escaping without one.
- Remote.VerifierServer.Dispatch: a request with an ill-typed field counts as unreadable; the source
  would hand it on. A score sent as a text counts as unreadable too.
- ContextAssembly.Assemble: only the default retrieval policy; white space is blank, tab, newline and
  carriage return.
- `random_sample` of the split module: a library's random choice.
