# Streamling, modelled and verified in Dafny

This project models the parts of Streamling whose correctness does not show in any one function
and proves what they promise, for every input, every run and every interleaving.

- **Query-plan rewrites.** `Plans` gives logical plans a meaning: a plan yields a sequence of rows
  over an environment that interprets tables, functions and opaque operators. `GsOp` is the rewrite
  that threads the change-kind column `_gs_op` through a plan, as a specification function and as
  the step-by-step code that computes it; `GsOpMeaning` proves what it keeps. `SourceNames` is the
  extraction of the source that a plan reads. `SinglePartition`, `EnforcedPlans`, `NeededMerges`,
  `MergedRows` and `OptimizerRules` are the physical optimizer; a physical plan means a relation to
  the partitioned streams it may yield.
- **Checkpoints.** `MarkerAlignment`, `AlignmentRuns` and `Notifications` are the point where
  concurrent streams merge their markers; `Coordinator` is the coordinator's bookkeeping;
  `AtLeastOnce` puts sources, FIFO streams, sinks, coordinator, crashes and restarts into one step
  system, and `EpochLife` says how its epochs begin, are replaced and end. `Network` puts into
  that system the merge points, which may feed one another, the exchanges that deal rows out to
  several readers, and the gates of the sinks, with one forwarding task for every input.
  `NetworkStreams`, `NetworkNodes` and `AlignedProtocol` derive from what the program does the
  durability rule of an ack, and when markers stay in order and finalizers behind them;
  `OvertakenMarkers` has the runs in which they do not.
- **Host and plugins.** `PluginSend` is one send as the loop it is, `SendProtocol` many of them
  against one dispatcher, a clock and a shutdown, and `SendRefinement` ties the two; `OutputDrain`
  is the other direction; `Termination` and `Registration` are the plugin registries; `StateKeys`
  is plugin state.
- **Topology.** `SqlTables` is the walk that finds the tables a query reads, and `CteInlining` its
  meaning as full inlining; `Orphans` is the consumer check, against reachability; `DynamicTable`
  is a dynamic table fed batch by batch, against the query on the whole stream, and `StackedFilters`
  the same for queries over derived tables.
- **Text.** `Surrogates` is the lone-surrogate repair of JSON text, against a token-level rewrite;
  `SinkKey` is the normalization of sink names, against split, filter and join.

`Wrappers` and `Sorting` are shared helpers. Code that changes state step by step is a method or a
class whose contract ties it to a specification function; the lemmas are about that function.

## Findings

Places where the code does not do what its comments or a caller would expect, with the lemmas that
give a concrete input and, where there is one, the exact condition.

- A union whose first branch reads but does not select the op, beside a branch that selects it,
  falls back to its original inputs and loses the op (`GsOpMeaning.UnionThatDropsTheOp`, exact
  condition in `UnionCarriesOp`).
- A plan over a union is taken for one of its first branch's source, whatever tables the other
  branches read, as the code's own comment admits (`SourceNames.UnionNamesFirstBranch`; the exact
  answer is in `NameExactly`).
- A literal projection in a dynamic table's SQL is repeated once per row of the unfiltered batch
  (`DynamicTable.LiteralIgnoresFilter`, exact condition in `ScalarProjectionIgnoresFilter`).
- A filter below the first one is dropped from a dynamic table's SQL, as in
  `SELECT c FROM (SELECT c FROM t WHERE f) WHERE g` (`StackedFilters.StackedFilterIsLost`, exact
  condition in `TableHoldsStackedQuery`).
- A WITH clause inside a derived table is not looked at, and a table name that it captures is
  reported (`CteInlining.NestedWithIsMissed`; the exact condition, on captured names alone, is in
  `CapturesDecide`, `QueryCapturesDecide` and `ExtractionExactly`).
- The sink key lowers ASCII letters only while environment variables are lowered as Unicode, so a
  name such as `É` cannot be looked up (`SinkKey.AccentedNameIsNotFound`, exact condition in
  `KeySurvivesLowering`).
- The library that is put first because it provides a preprocessor id is replaced in the module
  registry by a later provider of the id (`Registration.FirstProviderIsReplaced`, exact condition in
  `FirstProviderIsKept`).
- A topology with a cycle passes the orphan check although nothing gets out of the cycle
  (`Orphans.CyclesAreAccepted`, exact condition in `AcceptedExactly`). Nothing runs with one: the
  later sort of the transforms panics on it (`crates/streamling/src/topology_sort.rs:112-123`).
- When shutdown ends a plugin source, or the plugin completes, a marker that is inside the plugin is
  skipped while later ones still queued are passed on (`OutputDrain.MarkerInsideIsSkipped`, exact
  condition in `EndSkipsInside`). At a merge point the finalizer of the later epoch can then wipe the
  count of the skipped one, which other inputs delivered, and its marker never goes downstream
  (`OvertakenMarkers.FinalizerOvertakes` is such a run of the whole protocol, `AlignmentRuns.LostForGood`
  what becomes of it; the exact condition is that a finalizer overtakes a marker,
  `AlignmentRuns.CompleteExactlyWhenPrompt`).
- A forwarder of a merge point lets go of the aligner before it sends what the aligner released, so a
  marker released by the end of one input can be overtaken by a later one from another input
  (`OvertakenMarkers.MarkerOvertakes`, exact condition in `AlignedProtocol.SendKeepsOrder`). A
  forwarder can be overtaken only once it has shown the aligner more than it has sent: the end of its
  input, or the later marker in the same batch.
- Neither loses a row (`AlignedProtocol.AcksAreDurable` and `CommittedIsStored` hold in every run), and
  without both, markers and finalizers keep their order through all merge points
  (`AlignedProtocol.StreamsStayInOrder`, `FinalizersKeepBehind`).

## Model

| member | source | states |
|---|---|---|
| `GsOp.AppendGsOpToProjectionIfMissing` | crates/streamling-core/src/session.rs:421-538 | the imperative rewrite (pushing onto expressions, overwriting inputs, folding unions) yields the specified plan, with all fallbacks |
| `GsOp.AlignInPlace` | crates/streamling-core/src/session.rs:471-508 | overwriting inputs in place gives every input that has no op one where the projection builds, and touches no other input |
| `GsOp.FoldUnions` | crates/streamling-core/src/session.rs:511-523 | the builder loop nests the unions to the left, or fails as soon as two widths differ |
| `GsOpMeaning.MeaningPreserved` | crates/streamling-core/src/session.rs:421-538 | for every plan: old schema, or old schema with the op last; same number of rows; every row equal on the original columns; the op column is the op the row carried; an op the query computes is left alone |
| `GsOpMeaning.RewriteRows` | crates/streamling-core/src/session.rs:421-538 | the rewritten plan's rows are the original rows with the lineage ops attached exactly when the plan is extended |
| `GsOpMeaning.OpOfRewrittenRow` | crates/streamling-core/src/session.rs:440-453 | in each row of a plan that carries an op, looking the column up by name gives the row's op |
| `GsOpMeaning.FallbackOnlyForMixedUnions` | crates/streamling-core/src/session.rs:454-536 | on planned queries projections and filters never fall back, and a union does exactly when only some inputs would gain the column |
| `GsOpMeaning.UnionFallsBack` | crates/streamling-core/src/session.rs:510-523 | what a union is rewritten to, its schema, and the exact condition of its fallback |
| `GsOpMeaning.UnionCarriesOp` | crates/streamling-core/src/session.rs:471-523 | a union with an op in some branch keeps an op exactly when its first branch has one or every branch can gain one |
| `GsOpMeaning.UnionThatDropsTheOp` | crates/streamling-core/src/session.rs:510-523 | a concrete union in which both branches read an op and the result has none |
| `GsOpMeaning.FilledBranchInserts` | crates/streamling-core/src/session.rs:488-495 | in a rewritten union every row of a branch that had no op stands where it stood and ends with the op `i` |
| `GsOpMeaning.RewriteIdempotent` | crates/streamling-core/src/session.rs:421-538 | rewriting twice is rewriting once |
| `SourceNames.SourceNameKept` | crates/streamling-core/src/session.rs:356-411 | validation and the extracted source name agree before and after the rewrite, in both subquery modes and for every error |
| `SourceNames.PathDecides` | crates/streamling-core/src/session.rs:356-411 | the answer is read off the path of first inputs: at its first node that is not looked through stands the scan or alias that is named, or the extension or node that is refused |
| `SourceNames.NameExactly` | crates/streamling-core/src/session.rs:356-411 | for every answer, name or error, and both subquery modes: it is given exactly when the path ends in that node |
| `SourceNames.NamedTableDecidesRows` | crates/streamling-core/src/session.rs:364-375 | when the path is the whole plan, its rows depend on the named table alone |
| `SourceNames.UnionNamesFirstBranch` | crates/streamling-core/src/session.rs:382-389 | a union of two tables is named after the first, and its rows depend on the other |
| `EnforcedPlans.EnforceIsSound` | crates/streamling-core/src/optimizer.rs:176-219 | the enforced plan yields exactly the outputs the original is meant to: no operator misses a row of an input |
| `SinglePartition.EnforceNormalizes` | crates/streamling-core/src/optimizer.rs:190-217 | afterwards no input that must be single has more than one partition |
| `SinglePartition.EnforceIdempotent` | crates/streamling-core/src/optimizer.rs:176-219 | a second run changes nothing |
| `NeededMerges.EnforceIsUnique` | crates/streamling-core/src/optimizer.rs:190-217 | for every plan, with or without merges of its own, the result is the only normal plan that is the original plus merges on violating edges |
| `MergedRows.MergeKeepsRows` | crates/streamling-core/src/operators/coalesce.rs:91-130 | any interleaving of partitions has exactly their multiset of rows, each partition in order |
| `MergedRows.SingleInputSeesAll` | crates/streamling-core/src/optimizer.rs:146-161 | an operator that reads one partition of an enforced input sees all rows of all original partitions, in partition order |
| `MergedRows.FirstPartitionAlone` | crates/streamling-core/src/optimizer.rs:146-161 | without the rule rows are lost exactly when a partition other than the first has rows |
| `MergedRows.EnforcedPlanYields` | crates/streamling-core/src/optimizer.rs:176-219 | every enforced plan yields some output, and the original is meant to yield it |
| `OptimizerRules.RulesAreSound` | crates/streamling-core/src/optimizer.rs:232-241 | the four rules in their order keep the plan's meaning and leave a normal plan |
| `OptimizerRules.RulesLeaveNoStockOperator` | crates/streamling-core/src/optimizer.rs:33-144 | no stock filter, projection or unnest is left |
| `OptimizerRules.RetagKeepsBuffers` | crates/streamling-core/src/optimizer.rs:33-144 | exchanging operators keeps the buffer sizes of all merges |
| `MarkerAlignment.MarkerAligner.constructor` | crates/streamling-core/src/checkpoints/checkpoint_management.rs:169-177 | a fresh aligner has seen nothing |
| `MarkerAlignment.MarkerAligner.Observe` | crates/streamling-core/src/checkpoints/checkpoint_management.rs:181-224 | new state and released messages are the specified ones, message by message |
| `MarkerAlignment.MarkerAligner.InputDone` | crates/streamling-core/src/checkpoints/checkpoint_management.rs:228-251 | the end of an input releases the epochs it held back, in epoch order |
| `MarkerAlignment.ReleaseReady` | crates/streamling-core/src/checkpoints/checkpoint_management.rs:228-251 | visiting the epochs in order marks and lists exactly the ready ones |
| `AlignmentRuns.ReleasesAreSafe` | crates/streamling-core/src/checkpoints/checkpoint_management.rs:132-251 | in every run a marker goes downstream at most once and only after each input delivered it or ended |
| `AlignmentRuns.ReleasesAreComplete` | crates/streamling-core/src/checkpoints/checkpoint_management.rs:132-263 | while no finalizer overtakes a marker, an epoch is out exactly when nothing can arrive before it any more |
| `AlignmentRuns.CompleteExactlyWhenPrompt` | crates/streamling-core/src/checkpoints/checkpoint_management.rs:207-212 | in every legal run the aligner is complete all the way exactly when no finalizer overtakes a marker |
| `AlignmentRuns.LostForGood` | crates/streamling-core/src/checkpoints/checkpoint_management.rs:228-251 | a wiped epoch stays unreleased while inputs end, until every input is accounted for |
| `AlignmentRuns.CountsDecide` | crates/streamling-core/src/checkpoints/checkpoint_management.rs:253-263 | comparing copies with the required number is asking whether every input is accounted for |
| `AlignmentRuns.MergedStreamInOrder` | crates/streamling-core/src/operators/mod.rs:172-248 | the merged stream carries the issued epochs in order without a gap, so merge points nest |
| `AlignmentRuns.SkippedMarkerIsLost` | crates/streamling-core/src/checkpoints/checkpoint_management.rs:207-212 | a run of one aligner in which an input skips an epoch and the finalizer of the next one wipes it; `OvertakenMarkers.FinalizerOvertakes` has it in the whole protocol |
| `Notifications.NotificationsPassOnce` | crates/streamling-core/src/checkpoints/checkpoint_management.rs:204-224 | in every run of a merge point every ack goes on downstream, and so does the first copy of each finalizer and each source completion and no other, in their order among the released markers |
| `Notifications.MarkersCarryTheirTime` | crates/streamling-core/src/checkpoints/checkpoint_management.rs:181-251 | a released marker is the copy that completed the epoch, with its time; one that an ended input held back has the time of that end |
| `AlignedProtocol.GateReleaseMayBeAcked` | crates/streamling-core/src/checkpoints/checkpoint_management.rs:265-319 | what the gate of a sink releases may be acked: each write stream reported after it flushed the rows that it takes, whatever it holds behind the marker, and every row of a wired source comes to one of them through any merge points and exchanges |
| `AlignedProtocol.MergedMarkersStandBehind` | crates/streamling-core/src/operators/mod.rs:165-248 | in every run a marker that came out of a merge point, at any depth of merging, stands behind every row that comes by there and was sent before its source's own marker, or by a source that has ended |
| `AlignedProtocol.StepKeeps` | crates/streamling-core/src/checkpoints/checkpoint_management.rs:132-319 | what every step of sources, forwarders, aligners, sinks and coordinator keeps; the rule for acks in `AtLeastOnce` is derived |
| `AlignedProtocol.AcksAreDurable` | crates/streamling-plugin/src/api.rs:411-416 | in every run, whatever gate and flush let a sink ack satisfies the durability rule, and no step that the network allows is refused by it |
| `AlignedProtocol.ReleasedMarkersAreSentOnce` | crates/streamling-core/src/operators/mod.rs:204-243 | in every run each marker that an aligner released was sent once or waits with one forwarder |
| `AlignedProtocol.FinalizersKeepBehind` | crates/streamling-core/src/operators/mod.rs:165-248 | in every run in which no source skips a marker and no forwarder overtakes another one, finalizers overtake no marker at any merge point or gate, and each has let through exactly what nothing can arrive before |
| `AlignedProtocol.StreamsStayInOrder` | crates/streamling-core/src/operators/mod.rs:165-248 | in such a run every stream, at any depth of merging, carries the issued markers in order and skips none |
| `AlignedProtocol.SendKeepsOrder` | crates/streamling-core/src/operators/mod.rs:204-243 | in every run, while the inputs of a merge point are in order, a send keeps its markers in order exactly when no other forwarder has yet to send an earlier one; such a forwarder has shown the aligner the end of its input, or the later marker too |
| `OvertakenMarkers.FinalizerOvertakes` | crates/streamling-core/src/checkpoints/checkpoint_management.rs:207-212 | a run of the whole protocol with a skipped marker in which a finalizer overtakes another marker and wipes its count |
| `OvertakenMarkers.MarkerOvertakes` | crates/streamling-core/src/operators/mod.rs:204-243 | a run of the whole protocol without a skipped marker in which epoch 2 goes downstream before epoch 1 |
| `AlignedProtocol.CommittedIsStored` | crates/streamling-plugin/src/api.rs:14-44 | at-least-once with the aligners in place, in every run with crashes |
| `Coordinator.CheckpointControl.HandleAck` | crates/streamling-core/src/checkpoints/checkpoint_management.rs:785-890 | the ack arm: an ack of a sink that is not expected changes nothing, any other is recorded and finalizes its epoch exactly when it is the last one waited for |
| `Coordinator.CheckpointControl.Ack` | crates/streamling-core/src/checkpoints/checkpoint_management.rs:808-890 | the critical section records an ack for an open epoch, and the completing one, by the expected sinks of that moment, finalizes |
| `Coordinator.CheckpointControl.RemoveSink` | crates/streamling-core/src/checkpoints/checkpoint_management.rs:405-430 | the sink leaves the expected set and the remaining set is kept for the second half |
| `Coordinator.CheckpointControl.FinalizeReadyEpochs` | crates/streamling-core/src/checkpoints/checkpoint_management.rs:653-675 | exactly the open epochs that all remaining sinks have acked become final, no ack counting as the empty set |
| `Coordinator.CheckpointControl.BeginTerminalCheckpoint` | crates/streamling-core/src/checkpoints/checkpoint_management.rs:480-533 | the terminal epoch is minted once and open epochs are retained |
| `Coordinator.CheckpointControl.MintEpoch` | crates/streamling-core/src/checkpoints/checkpoint_management.rs:1066-1078 | no timer epoch after the terminal one began; otherwise the new epoch replaces what was left |
| `Coordinator.CheckpointControl.SweepTimedOut` | crates/streamling-core/src/checkpoints/checkpoint_management.rs:686-702 | a sweep drops exactly the stale open epochs other than the terminal one |
| `AtLeastOnce.CommittedIsDurable` | crates/streamling-plugin/src/api.rs:14-44 | in every run with crashes, every record below a committed offset is stored at every sink the source feeds |
| `AtLeastOnce.NothingLostByCrash` | README.md:1163-1177 | after a crash every record is stored or will be sent again |
| `AtLeastOnce.GracefulDrainCommitsAll` | crates/streamling-plugin/src/api.rs:14-44 | committing a terminal epoch whose marker was sent last leaves nothing to replay |
| `AtLeastOnce.StepKeeps` | README.md:1163-1177 | what every step keeps: recorded offsets match positions, the coordinator's beliefs are true of the sinks, committed rows are stored |
| `AtLeastOnce.FinalizedOffsetStored` | crates/streamling-plugin/src/api.rs:369-382 | the offset recorded at a finalized epoch is stored everywhere, whether or not earlier epochs were ever finalized |
| `AtLeastOnce.FinalizedOnce` | crates/streamling-core/src/checkpoints/checkpoint_management.rs:785-910 | with the ack arm's steps and the sending of finalizers apart, each epoch is turned final and broadcast at most once per process, and a minted terminal epoch is never dropped |
| `AtLeastOnce.NoMarkerAfterTerminal` | crates/streamling-core/src/checkpoints/checkpoint_management.rs:480-533 | in every run, once the terminal epoch began the process issues no other marker |
| `AtLeastOnce.AcksAreKept` | crates/streamling-core/src/checkpoints/checkpoint_management.rs:808-890 | in every run an open epoch has exactly the acks that were heard for it |
| `AtLeastOnce.FinalizeReadySettles` | crates/streamling-core/src/checkpoints/checkpoint_management.rs:400-455 | after the second half of a completion with the sinks that are expected now, no open epoch has all expected sinks among its acks |
| `AtLeastOnce.NothingIsStuck` | crates/streamling-core/src/checkpoints/checkpoint_management.rs:400-455 | in every run, once such a second half has run, an open epoch lacks the ack of an expected sink, or was issued when no sink was left |
| `AtLeastOnce.LastCompletionSettles` | crates/streamling-core/src/checkpoints/checkpoint_management.rs:418-423 | of sinks that complete at once, the second half of the one removed last is such a one |
| `EpochLife.CompletionSettles` | crates/streamling-core/src/checkpoints/checkpoint_management.rs:405-455 | from every reachable state a completed sink can be taken off the list, after which nothing waits for it |
| `EpochLife.OnlyTimeoutsDrop` | crates/streamling-core/src/checkpoints/checkpoint_management.rs:1064-1078 | in every run only a timeout drops an open epoch: the terminal epoch is added to it, and the timer waits for it |
| `EpochLife.SweepDrops` | crates/streamling-core/src/checkpoints/checkpoint_management.rs:686-702 | which epochs a timeout drops and which it keeps |
| `EpochLife.TimedOutIsReplaced` | crates/streamling-core/src/checkpoints/checkpoint_management.rs:1174-1201 | from every reachable state, when the open epochs have timed out, the timer can issue the next number, which is new |
| `EpochLife.TerminalIsIssued` | crates/streamling-core/src/checkpoints/checkpoint_management.rs:480-533 | in every run beginning the terminal epoch issues the next number, the first time only |
| `EpochLife.LastAckCommits` | crates/streamling-core/src/checkpoints/checkpoint_management.rs:785-910 | from every reachable state in which the last ack of an epoch was sent, the steps up to the commit of its offset are possible one after the other |
| `EpochLife.RoundCommits` | crates/streamling-plugin/src/api.rs:14-44 | a run from the start in which a row is emitted, stored and committed |
| `EpochLife.RoundCompletes` | crates/streamling-core/src/checkpoints/checkpoint_management.rs:400-455 | and one in which the source ends, the sink completes and nothing waits for it any more |
| `PluginSend.SendToPluginWith` | crates/streamling-core/src/plugin.rs:662-721 | whatever channel, flags and clock answer, the send ends at the first turn that ends it, with that turn's outcome, and otherwise keeps waiting; the message goes in exactly when the outcome is Ok |
| `PluginSend.EndsWithinGrace` | crates/streamling-core/src/plugin.rs:617-622 | after shutdown was seen a send ends within the slices that cover the grace |
| `PluginSend.NeverGivesUpEarly` | crates/streamling-core/src/plugin.rs:703-716 | giving up means that a whole grace has passed since shutdown was first seen and every slice was refused |
| `SendProtocol.OkMeansEnqueuedOnce` | crates/streamling-core/src/plugin.rs:662-721 | in every interleaving a send returned Ok exactly when its message was enqueued, once; failed and running sends enqueued nothing |
| `SendProtocol.NothingLostOrReordered` | crates/streamling-core/src/plugin.rs:662-721 | consumed and buffered messages are the accepted ones in order, the buffer stays within capacity, no sender's messages overtake each other |
| `SendProtocol.FailuresHaveCauses` | crates/streamling-core/src/plugin.rs:624-643 | without shutdown, exit or disconnect no send gives up, and each failure has its cause, abandoning only after the grace |
| `SendProtocol.LateSlicesAreBounded` | crates/streamling-core/src/plugin.rs:679-720 | after shutdown at most ceil(grace/slice)+1 slices time out |
| `SendProtocol.FiftyOneLateSlices` | crates/streamling-core/src/plugin.rs:617-622 | with 100 ms slices and 5 s of grace that is 51 |
| `SendProtocol.DeadlineStays` | crates/streamling-core/src/plugin.rs:703-706 | a deadline once set is not moved while its send lasts |
| `SendProtocol.ClosedChannelTakesNothing` | crates/streamling-core/src/plugin.rs:662-700 | in every run, once the channel is closed nothing goes in or out, and a send that begins then fails at once |
| `SendProtocol.SendsGoOn` | crates/streamling-core/src/plugin.rs:662-721 | in every run no sender is stuck for longer than a slice, and with room in an open channel its message can go in |
| `SendProtocol.ShutdownEndsIt` | crates/streamling-core/src/plugin.rs:703-716 | from every reachable state a waiting send can end by giving up one slice and one grace after a shutdown request |
| `SendProtocol.ClosedChannelEndsIt` | crates/streamling-core/src/plugin.rs:689-695 | or, when the channel closes, at once |
| `SendProtocol.DispatcherExitEndsIt` | crates/streamling-core/src/plugin.rs:688-702 | and by an exit of the dispatcher, at the end of its slice |
| `SendRefinement.SendsFollowTheLoop` | crates/streamling-core/src/plugin.rs:662-721 | in every interleaving, a send that had to wait ends when the loop ends on the turns this sender saw, with the same outcome and not before |
| `OutputDrain.ExitIsFinal` | crates/streamling-core/src/plugin.rs:788-815 | an empty channel after an observed exit means that everything ever sent was received, now and later |
| `OutputDrain.ShutdownDrainsSnapshot` | crates/streamling-core/src/plugin/table_provider.rs:234-260 | at shutdown the stream ends after exactly what had been sent when shutdown was noticed |
| `OutputDrain.CompletionCarriesEverything` | crates/streamling-core/src/plugin/table_provider.rs:251-345 | the rows downstream are the rows received, in order, and a completed or failed stream got all up to the plugin's own last word |
| `OutputDrain.MarkersFollowTheirRows` | crates/streamling-core/src/plugin/table_provider.rs:280-420 | each echoed marker goes downstream in turn behind every row sent before it; of a failed stream the waiting ones are dropped |
| `OutputDrain.MarkersGoWithTheNextRow` | crates/streamling-core/src/plugin/table_provider.rs:280-345 | in every run every marker received before the last row has gone downstream; only later ones wait for a batch |
| `OutputDrain.IdleTurnFlushes` | crates/streamling-core/src/plugin/table_provider.rs:396-422 | in every run, a turn that finds the channel empty and no exit has sent every marker received |
| `OutputDrain.ExitIsReported` | crates/streamling-core/src/plugin/table_provider.rs:225-430 | in every run, a turn that finds the channel empty reports an exit exactly when the flag was raised or the future gone at its start; a forwarder that has not ended has a next step |
| `OutputDrain.NextTurnAnswers` | crates/streamling-core/src/plugin/table_provider.rs:225-430 | a row that is sent goes downstream in the next turn, with the waiting markers behind it, and an exit is noticed in it |
| `OutputDrain.EndSkipsInside` | crates/streamling-core/src/plugin/table_provider.rs:480-512 | whether shutdown or the plugin ends the stream, the queued markers are passed on past the plugin, and all markers pass exactly when none is inside the plugin and every echo was received |
| `OutputDrain.ShutdownSkipsInside` | crates/streamling-core/src/plugin/table_provider.rs:480-512 | at shutdown a marker is skipped exactly when it was inside the plugin or echoed after the snapshot |
| `OutputDrain.MarkerInsideIsSkipped` | crates/streamling-core/src/plugin/table_provider.rs:480-512 | a run in which marker 2 is passed on and marker 1 is not |
| `OutputDrain.ReadingTheFlagLastLoses` | crates/streamling-core/src/plugin.rs:796-802 | a forwarder with the other order of reads reports an exit with a message left in the channel |
| `Termination.TerminatePlugins` | crates/streamling-core/src/plugin.rs:1065-1099 | every plugin gets one attempt whatever happened before, within n times 5 s and within the larger of the budget and n times 100 ms |
| `Termination.WithinBudget` | crates/streamling-core/src/plugin.rs:1075-1081 | the clamped equal shares stay within those bounds |
| `Termination.SharesAreUsed` | crates/streamling-core/src/plugin.rs:1073-1081 | without a budget each send may take 5 s; a share between 100 ms and 5 s is given in full |
| `Termination.SignalledOnce` | crates/streamling-core/src/plugin.rs:98-157 | however registrations and both kinds of terminator interleave, each registration is in exactly one place and is signalled at most once |
| `Termination.AllSignalled` | crates/streamling-core/src/plugin.rs:98-157 | when all terminators are through, everybody was signalled who was not replaced under the same key |
| `Termination.TerminatorSignalsAll` | crates/streamling-core/src/plugin.rs:98-157 | from any state a terminator takes all registered plugins in one step and can signal each |
| `Termination.RegistrationsAreRecorded` | crates/streamling-core/src/plugin.rs:98-157 | in every run each registration is taken note of, in order |
| `Registration.RegistrationOrder` | crates/streamling-core/src/plugin.rs:285-301 | every library once, by first configured id it is first to provide, then by index |
| `Registration.OrderIsUnique` | crates/streamling-core/src/plugin.rs:282-301 | there is one such order |
| `Registration.RegisterAll` | crates/streamling-core/src/plugin.rs:393-422 | registering in turn maps each id to its last provider |
| `Registration.LoadAndInitialize` | crates/streamling-core/src/plugin.rs:213-250 | every provided id is mapped to the provider that comes last in registration order |
| `Registration.FirstProviderIsKept` | crates/streamling-core/src/plugin.rs:408-412 | the library put first for an id keeps it exactly when all its other providers are put in front by earlier ids |
| `Registration.FirstProviderIsReplaced` | crates/streamling-core/src/plugin.rs:408-412 | two libraries of which the second ends up with the first one's preprocessor id |
| `StateKeys.KeysInjective` | crates/streamling-plugin/src/api.rs:175-205 | the keys of one node's handles and entries are all different, whatever node and entries are called |
| `StateKeys.DecimalInjective` | crates/streamling-plugin/src/lib.rs:143-145 | two indices never print alike |
| `StateKeys.HandlesAreIsolated` | crates/streamling-plugin/src/api.rs:168-205 | any interleaved run on the flat store answers like separate maps |
| `StateKeys.FreshStoreIsSeparate` | crates/streamling-plugin/src/api.rs:168-205 | on a fresh store every handle starts with an empty map of its own |
| `StateKeys.OthersDoNotInterfere` | crates/streamling-plugin/src/api.rs:168-205 | from any store, what a handle sees is what its own operations alone leave |
| `StateKeys.Perform` | crates/streamling-plugin/src/api.rs:257-284 | a backend object's operations are those steps on the shared store |
| `StateKeys.Create` | crates/streamling-plugin/src/api.rs:175-205 | a handle's object composes the handle's keys |
| `StateKeys.PluginStateBackend.SetPrefix` | crates/streamling-plugin/src/api.rs:248-255 | named values are keyed by the new prefix, or by the node again, and the default value's key does not move |
| `StateKeys.PluginStateBackend.PutKv` | crates/streamling-plugin/src/api.rs:273-275 | one entry of the shared store changes, under the composed key |
| `StateKeys.PrefixReachesOtherHandles` | crates/streamling-plugin/src/api.rs:248-255 | an explicit prefix can name another handle's entries |
| `SqlTables.ExtractFromBody` | crates/streamling-core/src/sql_parse.rs:8-47 | without CTEs the list grows by the FROM leaves in order, or the walk fails with the first error |
| `SqlTables.ExtractFromBodyWithCtes` | crates/streamling-core/src/sql_parse.rs:49-93 | the same walk with CTE names resolved; on an empty environment both agree |
| `SqlTables.ExtractBaseTables` | crates/streamling-core/src/sql_parse.rs:115-142 | each CTE resolves, in definition order, to its one distinct base table |
| `SqlTables.ExtractTableReferences` | crates/streamling-core/src/sql_parse.rs:95-153 | the whole extraction, with each of its errors |
| `CteInlining.AnswerIsInlining` | crates/streamling-core/src/sql_parse.rs:95-153 | for every parse: no answer without exactly one statement that is a query; for a query with harmless captures and no recursive WITH, an answer exactly when the inlined query can be walked and each inlined CTE reads one table, and then the tables of the inlined query, one per FROM leaf of the main body, in order |
| `CteInlining.AnswerFailsAsInlined` | crates/streamling-core/src/sql_parse.rs:95-153 | and which error: that of the first CTE whose inlined body does not come down to one table, or else that of the inlined query |
| `CteInlining.ExtractionIsInlining` | crates/streamling-core/src/sql_parse.rs:95-153 | for every query in which the leaves whose names nested WITH clauses bind read only the table that the walk takes them for, extraction succeeds exactly when the inlined query can be walked and each inlined CTE reads one table; its answer has the inlined query's tables, one per FROM leaf of the main body, in order |
| `CteInlining.CapturesDecide` | crates/streamling-core/src/sql_parse.rs:74-77 | for every body, each leaf reads only what the walk takes it for exactly when the leaves with captured names do |
| `CteInlining.QueryCapturesDecide` | crates/streamling-core/src/sql_parse.rs:95-153 | the same for whole queries, CTE bodies with WITH clauses of their own included |
| `CteInlining.FlatQueryAgrees` | crates/streamling-core/src/sql_parse.rs:95-153 | a query without nested WITH clauses is such a query |
| `CteInlining.AgreesExactly` | crates/streamling-core/src/sql_parse.rs:49-93 | for every body, the walk reports for each FROM leaf the one table it reads exactly when the body agrees with its scopes, which `CapturesDecide` reduces to captured names |
| `CteInlining.ExtractionExactly` | crates/streamling-core/src/sql_parse.rs:95-153 | the same for every query that extraction accepts, whatever WITH clauses its CTEs hold |
| `CteInlining.WalkIsInlining` | crates/streamling-core/src/sql_parse.rs:49-93 | walking a body with base tables is walking the body with definitions substituted in their scopes, errors included |
| `CteInlining.CtesResolve` | crates/streamling-core/src/sql_parse.rs:115-142 | the CTEs resolve exactly when each, inlined in the scope of the earlier ones, reads one table |
| `CteInlining.NestedWithIsMissed` | crates/streamling-core/src/sql_parse.rs:74-77 | a concrete query whose nested CTE is reported as a table |
| `CteInlining.ShadowingSeesTheEarlierOne` | crates/streamling-core/src/sql_parse.rs:115-142 | a redefined CTE resolves through the earlier definition |
| `Orphans.ValidateNoOrphanNodes` | crates/streamling-core/src/topology_validation.rs:24-131 | the error lists exactly the sorted nodes without a consumer, unless some SQL does not parse |
| `Orphans.CountTransforms` | crates/streamling-core/src/topology_validation.rs:82-111 | counting finds a consumer exactly where a transform reads the node, and stops at SQL that does not parse |
| `Orphans.SqlReads` | crates/streamling-core/src/topology_validation.rs:82-100 | a transform with SQL reads exactly the nodes that its inlined query names in some FROM clause, in any case, in quotes or not |
| `Orphans.PlainReads` | crates/streamling-core/src/topology_validation.rs:101-106 | one without SQL reads its `from`, if it has one |
| `Orphans.ReportedExactly` | crates/streamling-core/src/topology_validation.rs:64-131 | the reported names are those of sources, and of transforms that are no dynamic tables, that no transform reads and no sink |
| `Orphans.VerdictIgnoresOrder` | crates/streamling-core/src/topology_validation.rs:64-131 | there is one verdict, and the order of the transforms does not change it |
| `Orphans.AcceptedMeansReachable` | crates/streamling-core/src/topology_validation.rs:20-24 | acyclic topologies are accepted exactly when every node reaches a sink or a dynamic table |
| `Orphans.AcceptedExactly` | crates/streamling-core/src/topology_validation.rs:64-131 | when all SQL parses, a topology is accepted exactly when every node reaches a sink, a dynamic table or a cycle |
| `Orphans.CyclesAreAccepted` | crates/streamling-core/src/topology_validation.rs:64-131 | two transforms that feed each other pass |
| `DynamicTable.ExtractExpressions` | crates/streamling-core/src/dynamic_table.rs:349-387 | the loop through aliases finds the projection and the first filter, or refuses the query |
| `DynamicTable.TakenExactly` | crates/streamling-core/src/dynamic_table.rs:239-280 | for every plan: whether the query is taken, with which expressions, or why it is refused, read off the nodes met on the way down |
| `DynamicTable.DirectIsTaken` | crates/streamling-core/src/dynamic_table.rs:349-387 | every planned query with one expression over at most one filter on the source is taken |
| `DynamicTable.Process` | crates/streamling-core/src/dynamic_table.rs:286-344 | one batch adds exactly the specified values to the table, and nothing on an error |
| `DynamicTable.ProcessAll` | crates/streamling-core/src/dynamic_table.rs:286-344 | over a stream of batches the table grows by all appended values, unless an error stops it |
| `DynamicTable.FilterBatch` | crates/streamling-core/src/dynamic_table.rs:290-318 | the mask keeps exactly the rows the predicate is true of, in order; null counts as false |
| `DynamicTable.Table.Append` | crates/streamling-core/src/dynamic_table/in_memory.rs:39-52 | the table grows by the non-null strings of the column |
| `DynamicTable.BatchingDoesNotMatter` | crates/streamling-core/src/dynamic_table.rs:286-344 | any split into batches appends what the whole stream as one batch would |
| `DynamicTable.TableHoldsQuery` | crates/streamling-core/src/dynamic_table.rs:286-387 | for every planned query with a column-valued projection over at most one filter on the source, which is taken, the appended values are the query's non-null strings in order |
| `DynamicTable.ScalarProjectionIgnoresFilter` | crates/streamling-core/src/dynamic_table.rs:325-328 | for every such query with a scalar projection, exactly when appended values and table contents agree with the query |
| `DynamicTable.ConstantReadsNothing` | crates/streamling-core/src/dynamic_table.rs:325-328 | an expression is scalar exactly when it reads no column |
| `DynamicTable.LiteralIgnoresFilter` | crates/streamling-core/src/dynamic_table.rs:325-328 | a query that yields nothing and whose literal is stored |
| `StackedFilters.TableHoldsStackedQuery` | crates/streamling-core/src/dynamic_table.rs:349-387 | for filters and column selections beneath the found filter, the appended values are the query's exactly when every row the found filter keeps with a string value is kept beneath |
| `StackedFilters.RowsArrive` | crates/streamling-core/src/dynamic_table.rs:349-387 | the rows of such a plan are the source rows that pass all its filters, with the selected columns |
| `StackedFilters.StackedIsTaken` | crates/streamling-core/src/dynamic_table.rs:349-387 | every such planned query is taken |
| `StackedFilters.StackedFilterIsLost` | crates/streamling-core/src/dynamic_table.rs:355-372 | a planned query that yields nothing and whose value is stored |
| `Surrogates.FixIsRepair` | crates/streamling-core/wasm/runtime.js:158-177 | on every text the regular expression with its fast path is the token-level rewrite |
| `Surrogates.RegexIsTokens` | crates/streamling-core/wasm/runtime.js:173-176 | lookbehind and backslash pairs find the escapes that reading from the left finds |
| `Surrogates.RepairIsPerToken` | crates/streamling-core/wasm/runtime.js:158-177 | on well-escaped JSON (section 7 of RFC 8259) exactly the lower-case surrogate escapes are replaced, and the length stays |
| `Surrogates.RepairTwice` | crates/streamling-core/wasm/runtime.js:158-177 | repairing twice is repairing once |
| `Surrogates.RepairedStringReadsBack` | crates/streamling-core/wasm/runtime.js:158-177 | a reader of the repaired output of `JSON.stringify` gets the string with each lone surrogate, and nothing else, turned into U+FFFD |
| `SinkKey.NormalizeSinkKey` | crates/streamling-config/src/app_config.rs:809-824 | the one-pass loop computes the lower-cased alphanumeric runs joined by `_` |
| `SinkKey.KeysIdentifyRuns` | crates/streamling-config/src/app_config.rs:800-808 | normalizing again changes nothing, and keys are equal exactly when the run lists are |
| `SinkKey.KeySurvivesSplitting` | crates/streamling-config/src/app_config.rs:800-808 | a non-empty key between `__` separators is recovered by splitting on `__` |
| `SinkKey.KeySurvivesLowering` | crates/streamling-config/src/app_config.rs:809-817 | the key survives lower-casing exactly when the name has no alphanumeric character outside ASCII that lower-casing changes |
| `SinkKey.AccentedNameIsNotFound` | crates/streamling-config/src/app_config.rs:809-817 | a concrete name whose key does not survive |

## Left out

- The connectors, the admin API, telemetry, file and process I/O, and the plugin FFI layer: I/O and plumbing. Channels are bounded sequences, clocks are numbers that do not go back.
- DataFusion's planner and operators: scans, functions, unnest and extensions are arbitrary functions of the environment, and the builder's checks are name resolution, distinct output names and equal union widths. Column qualifiers are not modelled, nor that `col` parses a name such as `a.b` or `Ab` as an identifier.
- The row order of a union is taken to be its inputs one after the other.
- `SourceNames.SourceNameKept`: nodes that the extraction indexes into are taken to have an input; the program panics on others.
- `OptimizerRules.RulesAreSound`: that each streaming operator yields what its stock counterpart does is assumed of the operators; hash distribution requirements are not enforced by the program either.
- `AlignedProtocol.FinalizersKeepBehind`: for sources that pass on every marker and forwarders that send in turn; `OvertakenMarkers` shows that the program guarantees neither. A finalizer may reach a merge point as soon as it is broadcast; in the program it comes behind what the sources have sent.
- `AlignedProtocol.AcksAreDurable`: which reader an exchange deals a row to is a parameter, fixed for each row. A stream that fails, and a task whose receiver is gone, stop without a further step; such a stream never reports its end.
- `AtLeastOnce.CommittedIsDurable`: a stream is its source's log with a reading position, so transforms between source and sink pass rows through one to one; that a sink acks and completes only as api.rs asks is a rule of this step system, which `AlignedProtocol` derives.
- `Coordinator.CheckpointControl.SweepTimedOut`: reading the terminal epoch and removing the stale epochs are one step; in the program the first comes just before the lock. Which epochs are stale is a parameter.
- `Coordinator.CheckpointControl.MintEpoch`: in `AtLeastOnce` the wait for the previous epoch and the mint are one step.
- `SendProtocol.OkMeansEnqueuedOnce`: a slice may be reported as timed out although room appeared at its very end, and channels of capacity zero are not treated specially.
- `OutputDrain.ExitIsFinal`: that a completed or dropped execution future sends nothing more is how the program defines an exit; it is not derived. The waiting between polls is not modelled, nor finalizers, which go the same way as markers.
- `Termination.TerminatePlugins`: how long each send takes is a parameter bounded by its timeout, and the plugin count is not truncated to 32 bits.
- `StateKeys.HandlesAreIsolated`: for the default prefix and one node; explicit prefixes share on purpose, and nodes whose names contain brackets or colons can meet each other's keys.
- `CteInlining.ExtractionIsInlining`: for queries without harmful captures, which `ExtractionExactly` shows to be needed leaf by leaf. Names are compared as written. Parsing is a parameter.
- `Orphans.ValidateNoOrphanNodes`: lower-casing and the parse of each SQL text are parameters, and YAML decoding is not modelled.
- `StackedFilters.TableHoldsStackedQuery`: derived tables that compute columns, unnest or combine queries beneath the first filter are excluded, and as qualifiers are not modelled, so is that columns of an aliased derived table are not found. Arrow's large-string arrays, which are accepted and then refused by the table, are not told apart, and an expression without columns is taken to evaluate to a scalar.
- `Surrogates.RepairedStringReadsBack`: for one string; keys and structure of the surrounding JSON are plain units to the repair.
- `SinkKey.KeySurvivesLowering`: Unicode's classes and casing are parameters with their ASCII part fixed, and casing is per character, so casing that looks at neighbours, such as that of a final sigma, is not modelled.
- `postgres_sink_for`, channel capacities, label and job-mode checks, `declare_resolved_decimal_arb_fields` and the Postgres dynamic table cache: overlays, flat checks, or code that rests on libraries outside the repository.
