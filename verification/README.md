# A Dafny model of the agent platform's core

Nine parts of the system are modelled, each as the state machine or list transformation it is, and
proved over all inputs, all runs and all interleavings.

* **Dotenv engine** (`Text`, `Dotenv` … `DotenvStable`, `PathRemap`, `DotenvAround`, `DotenvRemap`):
  scanner, printer, secret stripper, one-key editor, layout-preserving merge, path remapper, and the
  last applied to a text, then to the values parsed from it. `Scan`, `Rewritten`, `Merge` and `Remap`
  say on whole texts what the cursor loops compute; the loops are methods proved against them.
* **Artifact revisions** (`ArtifactRevisions`, `ArtifactChain`, `ArtifactBackfill`): create, update
  and rollback as operations that advance one awaited action at a time in any interleaving, over a
  registry with its compare-and-set and a store of content files; and the two backfill loops.
* **Configuration import** (`ConfigImport`, `ConfigImportLaws`, `ConfigImportSlots`, `ConfigExport`):
  eight sections of a bundle, each a pass over a registry that behaves as the SQLite one does, and
  bundles as they are exported.
* **Agent turn** (`AgentTurn`): the graph prepare, model, tools, memory, finalize. What the model, the
  tools, the hooks and the clock do is a free choice at each node.
* **Budget** (`Budget`): the reserve, settle, release, close ledger of a run, and its service.
* **History repair and compaction** (`HistoryRepair`, `Compaction`).
* **Run lease** (`RunLease`): registration, activation, fencing, cancellation and heartbeat against a
  registry that may succeed, refuse or fail at every call.
* **One-time challenges** (`Challenges`) and **round-robin claiming** (`RoundRobin`).

Code that updates fields or runs loops is a class or a method, proved equal to a function on values;
the laws are lemmas about those functions. A law that the code does not meet on every input is stated
as an equivalence with the exact condition, beside a concrete input on which it fails. Every lemma is
marked `{:induction false}`: no induction is left to the verifier. `dafny verify dfyconfig.toml` checks
the project.

## Main results

* Dotenv: `SerializeRoundTrip`, `ScanRewritten`, `StrippingCommutesWithScanning`, `SetMeans`,
  `SetThenRemove`, `MergeMeans`, `MergeIsStable`, `MergeKeepsComments`, `RemapTwice`, `TwoPassesAreOne`,
  `TextPassAlone`.
* Artifacts: `RevisionChain`, `CommittedStays`, `OneChild`, `FilesAtRest`, `EndsExactly`.
* Import: `ImportTwice`, `ExportImportedTwice`, `OwnExportIsIdle`, `DryRunForetells`,
  `ActiveProviderKept`, `OneEnabledKept`.
* Turn: `CallsAreAnswered`, `BoundNeedsTexts`, `FinishedRunIsSaved`, `CallIsLost`, `RunIsFinalized`,
  `RecursionLimitCovers`.
* Budget: `LedgerBalances`, `OpenedRunBalances`, `AgainChangesNothing`, `CallsNeverExceed`, `SettleKeepsCaps`.
* History and compaction: `RepairIsValid`, `RepairTwice`, `CompactKeepsLives`, `CompactReplaces`.
* Runs and challenges: `FencingIsPermanent`, `FinishedAfterAll`, `ConsumeSucceeds`,
  `CleanupIsInvisible`, `ClaimsFairly`.

The other rows of the table below are the methods these rest on, their steps, concrete inputs, and
facts about one record or one call.

## What the proofs found

* A value that is a safe run and one final newline is printed bare, because the pattern's `$` accepts
  that newline; it is read back without it, and the rewritten file gains an empty line
  (`FinalNewlineIsLost`, and one side of `SetThenRemove`, `MergeMeans` and `MergeIsStable`).
* A target that ends inside an unclosed quote swallows what is appended: the first new key is lost,
  and every further merge appends again (`SwallowedMerge`, `UnclosedQuoteSwallows`, `OpenAppendLoses`).
* The one-key editor accepts any text as a key. What is no key is appended all the same, is not read
  as that key, and cannot be removed again (one side of `SetMeans` and `SetThenRemove`).
* The bundle's `docker/.env` is remapped as a text, parsed, and remapped value by value. This is the
  same as parsing and remapping once, on every text, if and only if the rules are apart and a root
  under the other one goes where it would go under that one's destination (`TwoPassesAreOne`).
  Otherwise a path moves twice when a root moves to or below a source root (`NestedRootMovesTwice`), or
  a path in escaped quotes lands under the outer root, because the text pass sees it with a backslash
  at its end (`EscapedQuoteTakesOuterRoot`).
* The second pass is not idle even where the two agree: a path behind an escaped newline is moved by it
  alone (`EscapedNewlineHidesPath`). The bundle's `<install-root>/.env` gets the text pass only, which
  therefore misses a path in some text whenever a root moves at all (`TextPassAlone`).
* A create, update or rollback strands its file when it is cancelled while it holds it, when the
  revision's values are refused after the file was written and outside the compensation, or when the
  compensating delete fails; nothing else does (`FilesAtRest`, `CancelledCreateLeaks`). Store and
  registry calls run in threads, so a write may land after its await was cancelled; that is the write
  followed by the cancellation.
* A backfill batch size over the registry's clamp of 500 makes the loop stop after one pass
  (`LargeBatchMisses`); otherwise a full batch of stuck rows makes it run forever (`EndsExactly`).
* A bundle row that creates a provider with an empty header map or an empty type, or a knowledge base
  with an empty name, is written again by a second import (`EmptyHeadersAreRewritten`; exactly when:
  `ImportTwice`). An export has no such rows exactly when every provider has a type and every base a
  name (`ExportIsFresh`).
* Importing an unredacted export where it comes from changes nothing, unless the global set enables a
  name that no longer resolves: then that name is dropped (`OwnExportIsIdle`).
* Enabling an external-memory row before the row that disables the current owner fails (`GrantFails`).
  The update call passes a provider type, which the registry's method does not accept, so a row that
  changes the type of a provider always fails; the model follows the code.
* A dry run can report the global external-memory set as degraded though the real run would resolve
  every name (`DryRunMisreadsGlobal`; the whole reports agree exactly when `GlobalForetold` holds).
* Any exception in the model call is recorded by its text. An empty text is no error to the turn
  policy, so the model is called again and the iteration is not counted: the iteration limit bounds
  the provider calls only of runs whose failures have a text (`BoundNeedsTexts`; with a limit of one,
  `SilentFailuresExceedLimit`), and only cancellation, the deadline, the budget or the graph library's recursion
  limit stops the others.
* A last message that asks for tools skips the save when the run is cancelled, when the call fails
  after taking it over, or when the deadline has passed (`CallSkipsSave`). Cancelled and failed runs
  then close with that very message, tools and all; after the deadline it is nowhere in the store
  (`CallIsLost`, `FailedAnswerSkipsSave`).
* An iteration limit of zero still makes one provider call (`ZeroLimitStillCalls`). The recursion
  limit handed to the graph library comes from the run's own option, the limit of the turn policy may
  come from a policy snapshot. Counting one step per node, the first covers every run exactly under
  the condition of `RecursionLimitCovers`; with equal limits and no failure without a text, up to 8.
* A call may report more than it reserved. It then takes an account over its caps exactly if an
  overrun does not fit into what is left (`SettleFits`), and no account is at risk exactly if nothing
  capped is overrun (`SettleKeepsCaps`); call counts never exceed their caps.
* Registering the id of a fenced run again, accepted while the service is open and after the earlier
  task is gone, is the one way in which the registry can be asked to finish it after all
  (`FinishedAfterAll`, `ReusedIdIsFinished`). The table's primary key
  (`app/infrastructure/registry/sqlite_agent_run_registry.py:43`) refuses a used id unless the rows of
  its session were deleted meanwhile (`app/infrastructure/memory/sqlite_store.py:538`).
* An unanswered call message that wraps another call object is unwrapped into an unanswered call
  (`NestedCallIsRevealed`); summarized messages after the latest summary stay in the context when none
  precedes it (`CompactReplaces`).

## Model

| member | source | states |
|---|---|---|
| Dotenv.UnescapeDouble | docker/config_bundle_files.py:81-95 | the escape loop computes Unescape, the recursive reading that UnescapeEscape inverts |
| Dotenv.FindClosingQuote | docker/config_bundle_files.py:128-138 | the two cursor loops stop at the first non-blank and at the first unescaped matching quote |
| Dotenv.ReadQuoted | docker/config_bundle_files.py:125-143 | a quoted value, read off the whole text over several lines, is the one the text from its line on determines |
| Dotenv.ScanEnv | docker/config_bundle_files.py:98-156 | the scanning loop ends on every text and yields the records of Scan |
| Dotenv.HeadIsLocal | docker/config_bundle_files.py:109-155 | a closed record is scanned the same whatever text follows it |
| DotenvLines.ScanGivesLines | docker/config_bundle_files.py:98-156 | the raws of a scan concatenate to the text, and each is a line that scans alone to its record |
| DotenvLines.ScanLines | docker/config_bundle_files.py:98-156 | conversely, lines put together scan to their records one for one |
| DotenvPrint.EscapeIsEscapeEach | docker/config_bundle_files.py:172-178 | the five replacement passes over the whole value escape every character once, on its own |
| DotenvPrint.UnescapeEscape | docker/config_bundle_files.py:81-95 | unescaping undoes escaping, for every text |
| DotenvPrint.PrintedLineScans | docker/config_bundle_files.py:167-183 | the printed line of a round-tripping value scans to one closed assignment of that key and value |
| DotenvPrint.LineOfBadValue | docker/config_bundle_files.py:170-171 | any other value is printed as its safe run followed by an empty line |
| DotenvRewrite.ParseEnv | docker/config_bundle_files.py:159-164 | the last assignment of a key wins |
| DotenvRewrite.ScanRewritten | docker/config_bundle_files.py:193-200 | for every text and every rewriting (blank, edit, supersede), scanning the rewritten text gives the rewritten records |
| DotenvRewrite.ParseRewritten | docker/config_bundle_files.py:193-200 | parsing a rewritten text rewrites the parsed map key by key |
| DotenvAppend.AppendScans | docker/config_bundle_files.py:815-818 | lines added to a text with a closed last line scan as themselves and change no earlier binding |
| DotenvAppend.SwallowedScan | docker/config_bundle_files.py:128-155 | an unclosed last line takes in at least the first added line; the lines after those taken scan as themselves |
| DotenvLaws.ParseSerialized | docker/config_bundle_files.py:182-183 | a printed dictionary parses to its bindings in order, each with the value it reads back as |
| DotenvLaws.SerializeRoundTrip | docker/config_bundle_files.py:167-183 | printing then parsing a dictionary gives it back if and only if no value is a safe run and one newline |
| DotenvLaws.FinalNewlineIsLost | docker/config_bundle_files.py:170 | a concrete dictionary that does not come back |
| DotenvLaws.StripSecrets | docker/config_bundle_files.py:193-200 | the stripping loop computes the text with every secret assignment blanked |
| DotenvLaws.StrippingCommutesWithScanning | docker/config_bundle_files.py:186-200 | for every text: raws concatenate to it, and the stripped text scans to its records with exactly the secret ones blanked |
| DotenvLaws.StrippingKeepsTheRest | docker/config_bundle_files.py:186-200 | stripping keeps the keys and every non-secret value, empties the secret ones, and is idempotent |
| DotenvEdit.EditEnvText | docker/config_bundle_files.py:1278-1297 | for any key text, the edit loop, its removal and its appending branch compute EditEnv |
| DotenvEdit.SetMeans | docker/config_bundle_files.py:1278-1297 | setting a key sets it and nothing else, if and only if it is a key, the value round-trips, and the key is there or the text has no unclosed quote |
| DotenvEdit.RemoveMeans | docker/config_bundle_files.py:1278-1297 | removing a key removes every assignment of it and nothing else |
| DotenvEdit.SetThenRemove | docker/config_bundle_files.py:1278-1297 | setting then removing an absent key restores the text up to one final newline, if and only if it is a key, the text has no unclosed quote and the value round-trips |
| DotenvEdit.OpenAppendLoses | docker/config_bundle_files.py:132-143 | after an unclosed quote, the first appended new key cannot be read |
| DotenvMerge.TailLines | docker/config_bundle_files.py:810-814 | a loop of the tail prints exactly the bindings whose keys are not to be skipped, in order |
| DotenvMerge.MergeLines | docker/config_bundle_files.py:794-809 | the loop over the target's records supersedes values in place and has seen exactly the target's keys |
| DotenvMerge.MergeEnvText | docker/config_bundle_files.py:786-818 | the whole merge computes Merge, on every target |
| DotenvMergeLaws.TailFacts | docker/config_bundle_files.py:810-814 | the tail binds exactly the bundle's and forced keys the target lacks, once each, forced values winning |
| DotenvMergeLaws.RewrittenOpen | docker/config_bundle_files.py:794-809 | the rewritten target ends in an unclosed quote if and only if the target does and its last line is kept |
| DotenvMergeLaws.MergeMeans | docker/config_bundle_files.py:786-818 | the merged text parses to target under bundle under forced (or bundle under target under forced), if and only if nothing added is swallowed and every value not there yet round-trips |
| DotenvMergeLaws.SwallowedMerge | docker/config_bundle_files.py:132-143 | whenever added lines meet an unclosed quote, the first added key is missing from the merge |
| DotenvMergeLaws.UnclosedQuoteSwallows | docker/config_bundle_files.py:132-143 | a concrete target and bundle whose key is lost |
| DotenvStable.MergeIsStable | docker/config_bundle_files.py:786-818 | merging twice gives the bytes of merging once, if and only if nothing added is swallowed and every value that is written over a line round-trips; put_text's "unchanged" relies on it |
| DotenvStable.MergeKeepsComments | docker/config_bundle_files.py:786-818 | comments, blank and malformed lines survive in order with none added, if and only if every written value round-trips, those excepted that an unclosed quote swallows: none where nothing is swallowed, else the first i added bindings, i fixed by the number of lines the merge scans to |
| PathRemap.ReplaceToken | docker/config_bundle_files.py:765-772 | the callback's loop takes the first rule the token lies under |
| PathRemap.RemapSplits | docker/config_bundle_files.py:755-774 | the parts between separators are remapped independently |
| PathRemap.SeparatorsStay | docker/config_bundle_files.py:755-774 | separators come out unchanged and in order |
| PathRemap.RemapUnchanged | docker/config_bundle_files.py:755-774 | a text is unchanged if and only if no token lies at or under a source root, whatever the destinations |
| PathRemap.ChooseLongest | docker/config_bundle_files.py:777-783 | of all roots a token lies under, the longest wins |
| PathRemap.RemapTwice | docker/config_bundle_files.py:755-774 | remapping a text twice is remapping it once, on every text, if and only if no effective destination, cut into tokens if it holds separators, meets a source root |
| PathRemap.RulesAreProper | docker/config_bundle_files.py:777-783 | the rules built from two pairs of roots whose sources are made of token characters are sorted and moving |
| PathRemap.RemapPathsTwice | docker/config_bundle_files.py:777-783 | so with the rules of the two roots, on texts alone: remapping twice is remapping once if and only if the rules are apart |
| PathRemap.NestedRootMovesTwice | docker/config_bundle_files.py:777-783 | a root moved below itself moves its paths twice |
| DotenvAround.HeadAround | docker/config_bundle_files.py:109-155 | a record with an absolute path in it, at the start of a token, is scanned alike whatever that path is: same key and end, and a value that carries the path or does not reach it |
| DotenvAround.HeadThrough | docker/config_bundle_files.py:98-164 | so the bindings of a text around a path are the same but for at most that one value |
| DotenvRemap.OneMove | docker/config_bundle_files.py:98-164 | moving one root anywhere in a dotenv text, in keys, comments and escapes as well, gives the same keys, and values that are remapped alike |
| DotenvRemap.ParsingCommutes | docker/config_bundle_files.py:755-774 | if the rules are apart and nested roots stay nested, remapping the text before parsing changes no remapped value, on every text |
| DotenvRemap.TwoPassesAreOne | docker/config_bundle_files.py:1187-1190 | remapping the bundle's dotenv text, parsing it and remapping each value is parsing it and remapping each value once, on every text, if and only if the rules are apart and nested roots stay nested |
| DotenvRemap.TextPassAlone | docker/config_bundle_files.py:1199-1203 | the text pass alone gives the remapped values of every text if and only if no root moves |
| DotenvRemap.NotNestedDiffers | docker/config_bundle_files.py:1187-1190 | if a nested root does not stay nested, a text with its path in escaped quotes tells the two apart |
| DotenvRemap.EscapedNewlineHidesPath | docker/config_bundle_files.py:1187-1190 | for any rules and path: behind an escaped newline the text pass leaves the path alone and the pass over the values moves it |
| DotenvRemap.EscapedQuoteTakesOuterRoot | docker/config_bundle_files.py:1187-1190 | concrete roots and a text whose quoted path lands under the wrong root |
| ArtifactRevisions.Registry.HighestNumber | app/infrastructure/registry/sqlite_artifact_registry.py:935-1030 | the highest revision number of one artifact |
| ArtifactRevisions.Registry.CreateWithInitial | app/infrastructure/registry/sqlite_artifact_registry.py:893-933 | inserts artifact and first revision together, or leaves both tables as they were |
| ArtifactRevisions.Registry.Append | app/infrastructure/registry/sqlite_artifact_registry.py:935-1030 | commits a revision exactly when the current one is still the expected one and number and id are free, else changes nothing |
| ArtifactChain.StepKeeps | app/application/artifact_service.py:1027-1186 | every action of every operation, every failure and every cancellation keeps the invariant of tables, files and owners |
| ArtifactChain.RunKeeps | app/application/artifact_service.py:710-1440 | so does every interleaving |
| ArtifactChain.RevisionChain | app/application/artifact_service.py:1005-1440 | in every interleaving revisions are numbered 1 to n, each parent is the predecessor, current is the n-th, and a rollback holds its target's bytes |
| ArtifactChain.CommittedStays | app/application/artifact_service.py:1027-1186 | committed rows are never changed or lost, nor are their bytes |
| ArtifactChain.OneChild | app/application/artifact_service.py:1020-1023 | no revision has two children: of two rivals at most one commits |
| ArtifactChain.FilesAtRest | app/application/artifact_service.py:807-859 | once all operations have ended the files are exactly those committed revisions name, if and only if none was cancelled, or had its revision values refused, holding a file and no delete failed |
| ArtifactChain.CancelledCreateLeaks | app/application/artifact_service.py:840-859 | a create cancelled after its file was written leaves the file |
| ArtifactChain.OperationsEnd | app/application/artifact_service.py:1005-1440 | every action brings its own operation nearer its end and touches no other |
| ArtifactBackfill.NoProgress | app/application/artifact_service.py:2517-2567 | a pass changes nothing if and only if its whole batch is stuck |
| ArtifactBackfill.PassProgresses | app/application/artifact_service.py:2517-2567 | otherwise the rows that still lack the field become fewer |
| ArtifactBackfill.EndsExactly | app/application/artifact_service.py:2517-2613 | the loop ends if and only if the batch size exceeds the clamp or the stuck rows are fewer than a batch, then within one pass more than rows to fill |
| ArtifactBackfill.LargeBatchMisses | app/infrastructure/registry/sqlite_artifact_registry.py:665-704 | a batch size over 500 ends after one pass, which fills everything if and only if the rows past the clamp are all stuck |
| ArtifactBackfill.Backfill.TryRow | app/application/artifact_service.py:2543-2558 | one row: filled, skipped or failed, and counted once |
| ArtifactBackfill.Backfill.TryBatch | app/application/artifact_service.py:2543-2558 | one batch: exactly its rows are tried, and processed stays updated plus skipped plus failed |
| ArtifactBackfill.Backfill.Run | app/application/artifact_service.py:2569-2613 | the loop ends with every fillable row filled (or one pass done, over the clamp), and the counts add up |
| ConfigImport.ConfigBundleService.ImportProviders | app/application/config_bundle_service.py:756-841 | the loop over provider rows computes registry and report of ProvidersAfter and ProviderItems |
| ConfigImport.ConfigBundleService.ImportKnowledgeBases | app/application/config_bundle_service.py:844-928 | likewise for knowledge bases |
| ConfigImport.ConfigBundleService.ImportMemories | app/application/config_bundle_service.py:1008-1103 | likewise for external memory, with the slot as it passes from row to row |
| ConfigImport.ConfigBundleService.ImportRows | app/application/config_bundle_service.py:931-1282 | likewise for the sections whose rows do not meet |
| ConfigImport.ConfigBundleService.ImportBundle | app/application/config_bundle_service.py:573-655 | all sections in order: final registries and the whole report |
| ConfigImportLaws.SecretSettles | app/application/config_bundle_service.py:207-227 | in all four secret states, realising a secret twice is realising it once, for new and for present records |
| ConfigImportLaws.ProvidersSettle | app/application/config_bundle_service.py:769-841 | after a pass each provider row leaves its record alone if and only if it was fresh |
| ConfigImportLaws.BasesSettle | app/application/config_bundle_service.py:857-928 | likewise for knowledge bases |
| ConfigImportLaws.MemoriesTwice | app/application/config_bundle_service.py:1008-1103 | an error-free pass over external memory, repeated, reports no action and changes nothing |
| ConfigImportLaws.RowsTwice | app/application/config_bundle_service.py:931-1282 | any section whose rule settles at once is idempotent |
| ConfigImportLaws.GlobalTwice | app/application/config_bundle_service.py:1106-1160 | setting the global set twice is setting it once |
| ConfigImportLaws.ImportTwice | app/application/config_bundle_service.py:573-655 | after an error-free OVERWRITE import, importing again reports NONE everywhere if and only if no row created a record stored differently, and then changes no registry |
| ConfigImportSlots.ActiveProviderKept | app/application/config_bundle_service.py:769-841 | in either mode the target's active provider stays active and at most one is |
| ConfigImportSlots.OneEnabledKept | app/application/config_bundle_service.py:1008-1103 | in either mode, whatever fails, at most one external-memory provider is enabled |
| ConfigImportSlots.OwnerKeepsSlot | app/application/config_bundle_service.py:1008-1042 | an enabled provider the bundle does not name stays the only enabled one |
| ConfigImportSlots.GrantFails | app/application/config_bundle_service.py:1043-1103 | an enabling row fails if and only if another provider is still enabled or its type differs |
| ConfigImportSlots.DryRunWritesNothing | app/application/config_bundle_service.py:573-655 | a dry run leaves all registries as they were |
| ConfigImportSlots.DryRunForetells | app/application/config_bundle_service.py:573-655 | where the real run has no error, a dry run reports every item as it will, the global set alone excepted, and the whole reports are equal if and only if the global set is foretold: section absent, slot owned outside the bundle, MERGE over a configured set, no wanted name created by the bundle, or another one resolving in neither run and neither run finding the set in place |
| ConfigImportSlots.GlobalForetoldExactly | app/application/config_bundle_service.py:1106-1160 | the two readings of the global set agree if and only if that condition holds |
| ConfigImportSlots.DryRunMisreadsGlobal | app/application/config_bundle_service.py:1106-1160 | a family of bundles on which that item differs |
| ConfigExport.ExportedIsFresh | app/application/config_bundle_service.py:374-416 | exported rows with non-empty type and name are never stored differently |
| ConfigExport.ProviderRoundTrip | app/application/config_bundle_service.py:374-394 | exporting with secrets and importing anew restores a provider if and only if it has a type and no empty key or header map |
| ConfigExport.BaseRoundTrip | app/application/config_bundle_service.py:396-416 | likewise a knowledge base, if and only if its name is non-empty and its key is not the empty string |
| ConfigExport.SiteRoundTrip | app/application/config_bundle_service.py:418-434 | an MCP site always comes back, whatever it replaces |
| ConfigExport.ExportIsValid | app/application/config_bundle_service.py:690-753 | an export, redacted or not, passes validation if and only if no registry has an empty natural key and at most one provider is active |
| ConfigExport.ExportIsFresh | app/application/config_bundle_service.py:374-416 | no target stores a record of the export differently, if and only if every provider has a type and every base a name |
| ConfigExport.ExportImportedTwice | app/application/config_bundle_service.py:573-655 | such an export, redacted or not, imported anywhere in OVERWRITE mode without an error, is imported again with NONE for every item and no change |
| ConfigExport.OwnExportIsIdle | app/application/config_bundle_service.py:573-655 | an unredacted export imported where it comes from reports NONE for every item and changes nothing, if and only if every enabled global name resolves |
| ConfigExport.EmptyHeadersAreRewritten | app/infrastructure/registry/sqlite_provider_registry.py:78-194 | a concrete row that the second import writes again |
| AgentTurn.AgentState.CallModel | app/application/agent_graph.py:910-1163 | the state after a model call in each of its outcomes, with exceptions before the provider, from it and after the answer, each with or without a text |
| AgentTurn.AgentState.RunEach | app/application/agent_graph.py:1193-1420 | one result per pending call in order, up to and including the first terminal one |
| AgentTurn.AgentState.RunPendingTools | app/application/agent_graph.py:1166-1420 | the whole state after the tools node |
| AgentTurn.AgentState.SaveToMemory | app/application/agent_graph.py:1734-1777 | call messages then results are appended to the session store and the buffers emptied |
| AgentTurn.AgentState.SaveAll | app/application/agent_graph.py:1734-1777 | a list of messages is appended once and in order, or not at all |
| AgentTurn.AgentState.FinalizeRun | app/application/agent_graph.py:1795-1860 | the final message and flags for each end reason |
| AgentTurn.CallsAreAnswered | app/application/agent_graph.py:1193-1420 | at every provider call, each call message of the run is followed at once by one result per call in call order, and all are saved once and in order |
| AgentTurn.ProviderCallsBounded | app/application/agent_graph.py:1161-1163 | at most max(1, limit) provider calls in any run, plus one for each failure without a text |
| AgentTurn.BoundNeedsTexts | app/domain/turn_policy.py:72-121 | max(1, limit) bounds the provider calls of all runs with at most j failures without a text, if and only if j is zero or the limit is not positive |
| AgentTurn.SilentFailuresExceedLimit | app/application/agent_graph.py:1161-1163 | with a limit of one, two calls that fail without a text |
| AgentTurn.ZeroLimitStillCalls | app/application/agent_graph.py:319-340 | a limit of zero makes one call |
| AgentTurn.FinishedRunIsSaved | app/application/agent_graph.py:1734-1777 | a finished run saved every call message and result once, in order, then its final message; only the last call message of a run that ends with an error may be missing in front of that |
| AgentTurn.CallSkipsSave | app/application/agent_graph.py:2010-2029 | a call message skips the save if and only if a cancellation is seen, the call fails with a text after taking it over, or the deadline passed before the last iteration |
| AgentTurn.CallIsLost | app/application/agent_graph.py:1795-1880 | then it closes the run if that was cancelled or failed, and is nowhere in the store if only the deadline did it |
| AgentTurn.FailedAnswerSkipsSave | app/application/agent_graph.py:1083-1163 | a concrete run whose call fails after its answer |
| AgentTurn.FinishedRunAnswers | app/application/agent_graph.py:1795-1860 | a finished run has a final message, whatever ended it, failures of the provider included |
| AgentTurn.AheadDecreases | app/application/agent_graph.py:2010-2039 | each node brings the run nearer its end, but for a failure without a text, which costs two |
| AgentTurn.RunEnds | app/application/agent_graph.py:319-340 | so every run is over after a number of nodes known at its start, and two more for each failure without a text |
| AgentTurn.RunIsFinalized | app/application/agent_graph.py:319-340 | a run of that many nodes has been finalized with a final message, if and only if no visited node raised and no cancellation came while it was preparing or running tools |
| AgentTurn.RecursionLimitCovers | app/application/agent_graph.py:456-462 | the recursion limit of the run option covers every run with at most j failures without a text, if and only if the policy limit is not positive or three times it, plus 1 and 2j, fits |
| Budget.RunBudgetAccount.Reserve | app/application/budget_service.py:128-143 | decision, pending entry and counters after a reservation or a refusal |
| Budget.RunBudgetAccount.Settle | app/application/budget_service.py:149-163 | counters become actual where known, estimate where not, and the reservation leaves pending |
| Budget.RunBudgetAccount.Release | app/application/budget_service.py:169-179 | the estimate is taken back and the reservation leaves pending, or nothing changes |
| Budget.RunBudgetAccount.Close | app/application/budget_service.py:185-189 | the loop releases every pending reservation |
| Budget.BudgetService.Open | app/application/budget_service.py:327-343 | opening a run is idempotent and touches no other |
| Budget.BudgetService.ReserveFor | app/application/budget_service.py:345-396 | reserves on the run's account, opened with the default budget if it has none |
| Budget.BudgetService.SettleFor | app/application/budget_service.py:398-413 | settles on the run's account, or nothing |
| Budget.BudgetService.ReleaseFor | app/application/budget_service.py:415-428 | releases on the run's account, or nothing |
| Budget.BudgetService.CloseRun | app/application/budget_service.py:430-441 | removes the run's account |
| Budget.SettleBalances | app/application/budget_service.py:149-163 | settling keeps counters equal to settled plus pending estimates, if and only if the decision handed back has the reserved estimate |
| Budget.ReleaseBalances | app/application/budget_service.py:169-179 | likewise releasing |
| Budget.LedgerBalances | app/application/budget_service.py:195-280 | after any run with the returned decisions every counter is settled consumption plus pending estimates |
| Budget.OpenedRunBalances | app/application/budget_service.py:327-441 | so it is for every run of an opened account, and closing it leaves exactly what that run settled |
| Budget.CloseLeavesSettled | app/application/budget_service.py:185-189 | closing leaves exactly what was settled and nothing pending |
| Budget.LeavesOnce | app/application/budget_service.py:149-179 | an id that has left pending never comes back |
| Budget.AgainChangesNothing | app/application/budget_service.py:149-179 | settling or releasing it again, however much later and with whatever figures, changes nothing |
| Budget.CallsNeverExceed | app/domain/budget_policy.py:56-300 | model and tool call counts never exceed their caps, whatever is handed back and reported |
| Budget.CostsWithinCaps | app/domain/budget_policy.py:56-300 | token, cost and sandbox caps hold throughout runs in which no call overruns its estimate of a capped amount |
| Budget.SettleKeepsCaps | app/application/budget_service.py:219-224 | settling a decision keeps every account that holds it within its caps, if and only if it consumed at most its estimate of every capped amount |
| Budget.SettleFits | app/application/budget_service.py:219-224 | one account stays within its caps if and only if every overrun fits into what is left |
| Budget.OverrunExceedsCap | app/application/budget_service.py:219-224 | some reported usage takes the tokens over their cap |
| Budget.RunsAreIsolated | app/application/budget_service.py:327-441 | a run's account is what its own calls make of it, whatever other runs do |
| HistoryRepair.Contiguous | app/application/context_service.py:572-577 | the inner loop keeps the answering tool messages of the run behind a call message |
| HistoryRepair.SanitizeGroup | app/application/context_service.py:570-597 | one call message and its run become the repaired group |
| HistoryRepair.Sanitize | app/application/context_service.py:563-603 | the two-cursor loop computes Repair |
| HistoryRepair.RepairIsValid | app/application/context_service.py:550-603 | in the result every call message is followed at once by exactly its answers and no other tool message is left, if and only if no unanswered call message wraps another |
| HistoryRepair.RepairStays | app/application/context_service.py:550-603 | a history is left alone if and only if it is valid and stores nothing else with its calls |
| HistoryRepair.RepairTwice | app/application/context_service.py:550-603 | repair is idempotent on a history if and only if no unanswered call message wraps another |
| HistoryRepair.RepairInvents | app/application/context_service.py:550-603 | no message is invented, doubled or moved |
| HistoryRepair.RepairKeepsPlains | app/application/context_service.py:550-603 | messages that neither call nor answer come out as they are, in order |
| HistoryRepair.RepairSplits | app/application/context_service.py:550-603 | parts that do not cut a group are repaired independently |
| HistoryRepair.GroupKeeps | app/application/context_service.py:571-583 | a group keeps exactly the calls that are answered and exactly their answers |
| HistoryRepair.NestedCallIsRevealed | app/application/context_service.py:550-603 | a concrete history whose repair is not valid and not stable |
| Compaction.FindLatestSummary | app/application/context_service.py:606-639 | the search from the back finds the latest summary |
| Compaction.FindFirstReplaced | app/application/context_service.py:606-639 | the search from the front finds the first replaced message |
| Compaction.BuildLatestContext | app/application/context_service.py:606-639 | the searches and comprehensions compute Compact |
| Compaction.CompactKeepsLives | app/application/context_service.py:606-639 | every live message comes out once and in order, if and only if no id is shared across the boundary |
| Compaction.UniqueIdsDoNotClash | app/application/context_service.py:606-639 | unique ids suffice |
| Compaction.CompactStandsInPlace | app/application/context_service.py:606-639 | the summary stands right after the live messages before the first replaced one |
| Compaction.CompactReplaces | app/application/context_service.py:606-639 | the only summary left is the latest, and a replaced message is left if and only if none precedes that summary and one follows it |
| RunLease.AgentRunService.Register | app/application/agent_run_service.py:50-79 | binding and foreground entry after an admission, also if the monitor then fails to start, or nothing |
| RunLease.AgentRunService.Check | app/application/agent_run_service.py:100-105 | passes exactly when the service is open, the run is not fenced and the registry agrees |
| RunLease.AgentRunService.Activate | app/application/agent_run_service.py:81-98 | the asyncio task is recorded exactly when the admission was not cancelled before its start, the check passes and the registry activates |
| RunLease.AgentRunService.Forget | app/application/agent_run_service.py:122-127 | what is forgotten, the foreground entry only if it is this run's |
| RunLease.AgentRunService.Finish | app/application/agent_run_service.py:107-120 | the registry is asked unless the run is fenced, any failure fences it, and it is forgotten in every case |
| RunLease.AgentRunService.Cancel | app/application/agent_run_service.py:129-152 | both branches: a running task, and a run not started yet, where a failure of the registry gives no reply |
| RunLease.AgentRunService.CancelSession | app/application/agent_run_service.py:157-159 | cancels the session's foreground run, or none |
| RunLease.AgentRunService.IsRunCancelled | app/application/agent_run_service.py:161-166 | the run is fenced or its task is being cancelled |
| RunLease.AgentRunService.Renew | app/application/agent_run_service.py:174-183 | the renewal loop fences and cancels exactly the running tasks that cannot renew |
| RunLease.AgentRunService.CheckPending | app/application/agent_run_service.py:188-198 | bound runs without a task are forgotten once ownership is lost, and fenced as well on any other failure |
| RunLease.AgentRunService.Heartbeat | app/application/agent_run_service.py:168-200 | one turn of the heartbeat |
| RunLease.FencedForever | app/application/agent_run_service.py:50-200 | a fenced run stays fenced and no later step of the service asks the registry to finish it |
| RunLease.FencingIsPermanent | app/application/agent_run_service.py:50-200 | from the start of the service with fresh ids: a fenced run fails every check, finish and activation and counts as cancelled |
| RunLease.FinishedAfterAll | app/application/agent_run_service.py:50-200 | after a run was fenced, the registry can be made to finish it along what follows, if and only if its id is registered again, accepted while the service is open and the earlier task is gone |
| RunLease.ReusedIdIsFinished | app/application/agent_run_service.py:50-79 | a concrete history in which a fenced run is finished under a reused id |
| RunLease.CancelTouchesOne | app/application/agent_run_service.py:129-152 | cancelling a run touches no other |
| RunLease.CancelSessionTouchesOwn | app/application/agent_run_service.py:157-159 | cancelling a session touches only a run registered for it |
| Challenges.ConfirmationService.Issue | app/application/browser_confirmation_service.py:65-92 | a token exactly for complete fields, stored with method in upper case and expiry |
| Challenges.ConfirmationService.Consume | app/application/browser_confirmation_service.py:98-142 | which entries a successful, mismatched and expired attempt removes |
| Challenges.ConfirmationService.IssueCapability | app/application/browser_confirmation_service.py:144-168 | a capability exactly for complete fields |
| Challenges.ConfirmationService.ValidateCapability | app/application/browser_confirmation_service.py:170-188 | passes exactly for a live capability with the same fields |
| Challenges.ConfirmationService.ResolveCapability | app/application/browser_confirmation_service.py:190-206 | the agent session of a live capability with this browser and actor |
| Challenges.ConfirmationService.RevokeForSession | app/application/browser_confirmation_service.py:212-228 | exactly the entries of that browser session go |
| Challenges.ConfirmationService.CleanupExpired | app/application/browser_confirmation_service.py:234-252 | exactly the expired entries go, and are counted |
| Challenges.SimilarStep | app/application/browser_confirmation_service.py:65-252 | stores with the same live entries give the same answer to every call and stay so |
| Challenges.CleanupIsInvisible | app/application/browser_confirmation_service.py:234-252 | a cleanup inserted anywhere changes no later answer |
| Challenges.FailureIsHarmless | app/application/browser_confirmation_service.py:98-142 | a failed consume, and any look at a capability, changes no later answer |
| Challenges.ConsumeSucceeds | app/application/browser_confirmation_service.py:98-142 | over all histories: consume succeeds if and only if the token was issued for these fields, has not expired and was since neither consumed, revoked nor issued again |
| Challenges.ConsumedOnce | app/application/browser_confirmation_service.py:98-142 | with fresh tokens, at most one consume of a token succeeds |
| RoundRobin.Group | app/application/delegation_run_service.py:115-117 | members grouped by delegation, in order of first appearance |
| RoundRobin.Pop | app/application/delegation_run_service.py:121-124 | one queue loses its head, and is deleted when empty |
| RoundRobin.Round | app/application/delegation_run_service.py:120-124 | one pass over a snapshot of the keys takes every head while deleting queues |
| RoundRobin.ClaimOrder | app/application/delegation_run_service.py:112-124 | the loop ends with the interleaving of the groups |
| RoundRobin.ClaimsEveryMember | app/application/delegation_run_service.py:114-124 | a permutation of the pending members that keeps each delegation's order |
| RoundRobin.ClaimsFairly | app/application/delegation_run_service.py:114-124 | in any prefix, no delegation is two ahead of one that still has members waiting |

## Left out

- Tar streaming, hashing, file modes, backups, locking and the command line of the bundle tool; only its text transformations are modelled.
- The line-based YAML check of the business compose file: heuristic by design.
- DotenvRemap.TwoPassesAreOne: roots that are not absolute (docker/config-export.sh:298-303 and docker/config-import.sh:214-219 refuse them), that hold a separator of the remapper such as a blank, or a backslash, are not covered; nor are they in TextPassAlone.
- PathRemap.RemapTwice: a source root with a separator in it, which no token can match as a whole, is not covered; destinations may hold any characters.
- Upper-casing beyond ASCII, Unicode normalization, and decoding of bytes.
- Artifact operations that do not go through the revision chain: update_artifact and delete_artifact, artifacts without a revision, publishing, export, diff, audit.
- Checksums, size limits, kinds and policy checks of a new revision are one flag that says whether the values are valid; the text a patch yields is an arbitrary payload.
- Reading a committed revision row back from the database is taken not to fail after the commit.
- ArtifactChain.RevisionChain: the operations are values that advance over an explicit world rather than coroutines, because they interleave; the registry alone is a class.
- The session backfill without a resolver, which does nothing.
- ArtifactBackfill.EndsExactly: each row has one fate for the whole run, so a failure that passes by itself is not modelled.
- Import of scheduled tasks, task configuration and their services; redaction of nested plugin settings; the texts of item reasons; timestamps and ids of records.
- A failure between two registry calls for one row of a bundle.
- External-memory single slot in MERGE mode is proved with the SQLite registry's own refusal of a second enabled provider; a registry without that refusal is not part of this model.
- Stream events, hooks, telemetry, approval, external-memory synchronisation and context preparation around a turn: their results are free choices or absent.
- AgentTurn.RecursionLimitCovers: counts one step for each node visited; how the graph library itself counts, and that it raises at its limit, is a free choice to raise in the model.
- Budget decisions carry no reason texts and no remaining figures; amounts of cost and time are exact reals.
- Budget.BudgetService.CloseRun: accounts are values in the service's map, so a caller that keeps an account object after it was closed is not modelled.
- Locks and threads: each method of the challenge store and of the run service is one atomic step, as the source intends.
- A lookup of a run's row that itself fails, which raises and changes nothing.
- RunLease.FinishedAfterAll: whether the registry accepts a registration is a free choice; its rows are not part of this model.
- The retries, monitor task, start and shutdown of the run service; claiming and executing the members once they are in order.
- Other fields of an assistant message are one text; message texts and tool payloads in a turn are numbers.
- A tool result's call id is the id of the call it was produced for.
