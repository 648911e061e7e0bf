# Verified model of the capture connectors and the artifact replay checks

Two parts of SalienceGate are modelled.

**The event pipeline of the connectors.** Provider events pass through a
reducer that bounds what a session or window may emit, a buffer that bounds
what is retained, a transport that remembers gaps and bounds concurrent writes,
and a chunker that splits records into capture documents.

**The replay checks of the algorithm-artifact validator.** Memory counts,
budgets, the ledger and the grouping of call receipts are recomputed from the
artifact and compared.

## How the model is built

Every object whose methods update fields is a class. Each of its methods
`ensures` that the new state is a specification function of the old one, and
the properties are lemmas about those functions. Asynchronous code is cut at
its awaits: a step is what runs between two of them, a run is any sequence of
enabled steps, and what the outside answers (chunk builds, launcher results,
generated discriminators) is left open in every step. Records taken in, marks,
hand-overs, confirmations and deliveries are noted in a history, about which
the results over whole runs speak.

| files | what they hold |
|---|---|
| `Contracts`, `Util`, `InsertionMap` | shared limits, options, sums over maps, insertion-ordered maps and the least-recently-used table |
| `Transport`, `TransportRuns`, `BatchTransport` | both batch transports, any interleaving of flushes, the object |
| `CaptureRuntime`, `PluginRuntime` | the OpenCode plugin runtime: its atomic steps, the object |
| `RuntimeBytes`, `RuntimeTerminals`, `RuntimeTermination` | its byte accounting, its terminal records, its coming to rest |
| `RuntimeHistory`, `RuntimeTables`, `RuntimeSafety`, `RuntimeRuns` | what becomes of every record it takes in |
| `RuntimeGaps`, `RuntimeDelivery`, `RuntimeAnswers` | what becomes of every gap it marks, when a flush is delivered, what each operation does when it can |
| `OpenCodeReducer`, `EventReducer` | the OpenCode reducer: its functions, the object |
| `ReducerInvariant`, `ReducerSteps`, `ReducerQuota`, `ReducerProgress`, `ReducerRuns`, `ReducerVerdicts`, `ReducerAnswers` | its invariant, its quota, its lifetimes, its answers to broken and repeated events, the table of all its answers |
| `PluginEvents`, `PluginFlushes`, `PluginDrift`, `PluginHook` | reducer and runtime composed: runs of the whole plugin, which events flush, the run with the inexact counter, the object |
| `PiReducer`, `PiGrammar`, `PiRuns`, `PiAnswers`, `PiWindowReducer` | the Pi window reducer: functions, grammar, runs, the tables of all its answers, the object |
| `PiExtension`, `PiExtensionRuns`, `PiExtensionAnswers`, `PiExtensionRuntime` | the Pi extension over one window at a time |
| `SerialQueue` | the serial session queue |
| `CanonicalJson`, `GreedyPartition`, `Chunks`, `ChunkCoverage` | the size of canonical JSON, greedy grouping, documents, coverage |
| `MemoryReplay`, `BudgetReplay`, `LedgerLayout`, `LedgerValidation`, `LedgerContents`, `CallGroups` | the replay checks |

## What the model takes for granted

- Digests and tags are injective: a table keyed by a digest is keyed by what
  was digested, and a tag is the term it was computed from.
- Canonical JSON is a tree with additive measures for nodes, string bytes,
  encoded bytes and depth; strings are well formed.
- Occurrences of equal records are told apart by a serial number; in the Pi
  extension that number is the event id, and a generated window discriminator
  is new.
- A cycle that replaces the private status does not also invalidate it: the
  projector would accept that, the materializer refuses it
  (`src/saliencegate/memory/materialize.py:703-704`).
- Events reach a reducer as its reads see them: identifiers checked, absent or
  malformed fields as `None`.

## Where the code differs from what one would expect

- The retained-byte counter of the plugin runtime is not always exact. When a
  session's flush is pending, an overfull buffer keeps its terminal record, and
  the next record starts a new buffer over it: the terminal, already marked as
  a gap, is gone and its bytes stay counted. `RuntimeBytes.ExactIff` gives the
  exact condition for a step of the runtime. The `event` hook drops records of
  finalized sessions, so in the whole plugin this takes more: the session must
  leave the table of 1024 finalized sessions while its terminal is still held,
  and be opened again. Without that the counter is exact throughout
  (`PluginEvents.ExactUnlessForgotten`); with it, it can drift
  (`PluginDrift.CounterCanDrift`). The counter never falls below the bytes held
  and never passes 32 MiB.
- A record is at most 64 KiB, except the placeholder of a record too large,
  which carries the session id: an id may take 256 KiB.
- The OpenCode transport refuses a mark when 256 other sessions have pending
  gaps; `RuntimeGaps.NoUnreportedLoss` says what holds of all records then, and
  `RuntimeGaps.MarkCanBeRefused` shows a run in which a record is lost for good.
- In the Pi extension `not_started` cannot occur, since all flushes run on one
  serial queue with all permits free: `PiExtensionRuns.FlushAllOk`. The branch
  that puts a terminal record back is modelled all the same.
- A tool input that is canonical by itself but too large once wrapped for its
  digest is reported by the reducer with its input, while its call is identified
  without it: `ReducerVerdicts.ChangedInputNoticedIff`.

## Model

| member | source | states |
|---|---|---|
| `RuntimeRuns.NoSilentLoss` | connectors/opencode/src/plugin.ts:145-323 | In every reachable state of every interleaving, a record that was taken in is buffered or in flight, or a gap of its session was marked afterwards, or it was part of a fully delivered flush afterwards. |
| `RuntimeRuns.HandedAtMostOnce` | connectors/opencode/src/plugin.ts:254-271 | Over a whole run no record, a `session_finished` in particular, is given to a launcher twice, in one chunk or in two. |
| `RuntimeRuns.DeliveredWasConfirmed` | connectors/opencode/src/transport.ts:210-232 | A delivery is claimed only of records each of which was in a chunk its launcher had reported successful before. |
| `RuntimeRuns.PermitsExact` | connectors/opencode/src/transport.ts:157-180 | The permit counter equals the number of chunk writes in flight over all sessions, and is at most four. |
| `RuntimeRuns.RestIffNothingInFlight` | connectors/opencode/src/plugin.ts:249-284 | A step needing no new event is possible exactly while some flush is in flight: the runtime neither stalls nor wakes by itself. |
| `RuntimeRuns.ComesToRest` | connectors/opencode/src/plugin.ts:190-284 | From any reachable state a run without new events has at most `Potential` steps, whatever the interleaving. |
| `RuntimeRuns.StepKeepsHistoryOk` | connectors/opencode/src/plugin.ts:145-323 | Every atomic step keeps: buffered and in-flight records apart and never handed over twice, everything owed held, the permit counter exact. |
| `RuntimeRuns.ReachableFlightsBounded` | connectors/opencode/src/plugin.ts:223-234 | At most 64 flushes are ever in flight, none with more chunks than a build returns. |
| `RuntimeSafety.AppendOk` | connectors/opencode/src/plugin.ts:286-323 | Taking a record in, with the flush or the marks that forces, loses nothing: what leaves the buffer goes in flight or is marked. |
| `RuntimeSafety.CompleteOk` | connectors/opencode/src/plugin.ts:259-284 | The completion of a flush, whatever it restores or sets off, keeps the history invariant. |
| `RuntimeSafety.UnsentTerminalIsFresh` | connectors/opencode/src/plugin.ts:262-267 | A terminal restored after `not_started` was never given to a launcher and is held nowhere else. |
| `RuntimeSafety.ChunkHanded` | connectors/opencode/src/transport.ts:210-217 | A chunk given a permit holds only records never handed over before, and shares none with the chunks still to come. |
| `RuntimeSafety.ChunkSettled` | connectors/opencode/src/transport.ts:174-179 | While every chunk so far was confirmed, all records of the flush are confirmed or still to come. |
| `RuntimeSafety.FinishedOwn` | connectors/opencode/src/transport.ts:218-241 | When a flush ends, each of its records has been marked or delivered; after `not_started` none was handed over. |
| `RuntimeTables.ScheduleOk` | connectors/opencode/src/plugin.ts:218-253 | Scheduling a flush, with any outcome, keeps every owed record held; a non-empty buffer leaves nothing of its session owed outside the flush in flight. |
| `RuntimeTermination.CompleteBacklog` | connectors/opencode/src/plugin.ts:190-284 | A completion strictly lowers 5 times the checks after pending flushes plus 3 times the flushes in flight plus the deferred sessions plus the buffered terminals, whatever it schedules. |
| `RuntimeTermination.InternalStepLowersPotential` | connectors/opencode/src/plugin.ts:190-284 | Every step without a new event strictly lowers one natural number, across all interleaved chains. |
| `RuntimeTermination.ChainsTerminate` | connectors/opencode/src/plugin.ts:190-284 | The length of such a run plus the potential after it is at most the potential before it. |
| `RuntimeBytes.ReachableBytes` | connectors/opencode/src/plugin.ts:145-323 | In every reachable state bytes buffered plus in flight are at most the counter, which is at most 32 MiB; at most 64 flushes, 256 checks, 256 deferred sessions. |
| `RuntimeBytes.ExactIff` | connectors/opencode/src/plugin.ts:286-323 | A step keeps the counter exact if and only if it is not an append that starts a new buffer over a terminal retained behind a pending flush. |
| `CaptureRuntime.TerminalOf` | connectors/opencode/src/plugin.ts:96-107 | The terminal found is one of the records and a `session_finished`; none is found exactly when there is none. |
| `PluginRuntimes.PluginRuntime.RetainOnlyTerminal` | connectors/opencode/src/plugin.ts:145-157 | Leaves only the last terminal of the buffer, or no buffer, with the counter adjusted; the new state is the specification step. |
| `PluginRuntimes.PluginRuntime.RestoreTerminal` | connectors/opencode/src/plugin.ts:159-188 | Puts an unsent terminal back unless one is there, dropping and marking an overfull buffer; refused and marked past the reserve. |
| `PluginRuntimes.PluginRuntime.DeferTerminal` | connectors/opencode/src/plugin.ts:190-197 | Adds a session to the deferred ones, once, up to 256. |
| `PluginRuntimes.PluginRuntime.ScheduleOneDeferredTerminal` | connectors/opencode/src/plugin.ts:199-216 | Schedules the first deferred session without a pending flush, else some buffered terminal without one, else nothing; both loops are proved. |
| `PluginRuntimes.PluginRuntime.ScheduleFlush` | connectors/opencode/src/plugin.ts:218-253 | The three outcomes of scheduling: retain and mark at 64 sessions, retain, mark and check later behind a pending flush, or start. |
| `PluginRuntimes.PluginRuntime.AppendRecord` | connectors/opencode/src/plugin.ts:286-323 | One turn of the append loop: flush when overfull, then mark, mark and keep, or keep. |
| `PluginRuntimes.PluginRuntime.AppendRecords` | connectors/opencode/src/plugin.ts:286-323 | The records of one event are taken in one after the other. |
| `PluginRuntimes.PluginRuntime.FlushCompleted` | connectors/opencode/src/plugin.ts:259-284 | The completion callback: release, then the check after the pending flush, else on delivery one deferred terminal. |
| `PluginRuntimes.PluginRuntime.ReleaseFlush` | connectors/opencode/src/plugin.ts:260-277 | Bytes released, an unsent terminal restored and deferred, the pending entry removed. |
| `PluginRuntimes.TerminalControl` | connectors/opencode/src/plugin.ts:96-107 | The downward loop finds the last terminal. |
| `TransportRuns.GapSurvivesRun` | connectors/opencode/src/transport.ts:139-155 | In every interleaving a pending gap stays pending, at its stamp or a newer one, until a fully delivered flush that read that stamp or a newer one and carried the gap notice. |
| `TransportRuns.WindowedForgetsNoMark` | connectors/bridge-core/src/windowed-transport.ts:167-186 | After a valid mark the window has a pending gap in every later state, or some fully delivered flush reported it; once past the 256-window cap, for ever. |
| `TransportRuns.RunKeepsSystemOk` | connectors/bridge-core/src/windowed-transport.ts:188-211 | In every interleaving the permit counter is the number of writes in flight and at most four, and no stamp is ahead of the generation. |
| `TransportRuns.MarkOutdatesFlights` | connectors/opencode/src/transport.ts:139-155 | A mark is newer than the stamp any flush in flight has read, so none of them can clear it. |
| `TransportRuns.PoisonSticks` | connectors/bridge-core/src/windowed-transport.ts:174-186 | Once poisoned, the windowed transport stays poisoned. |
| `Transport.FinishKeepsPending` | connectors/opencode/src/transport.ts:218-241 | Ending a flush keeps every pending gap except its own session's, and that only after a full delivery that read its current stamp. |
| `BatchTransports.BatchTransport.HasPendingGap` | connectors/bridge-core/src/windowed-transport.ts:167-172 | True exactly for valid coordinates that are pending, or when poisoned. |
| `BatchTransports.BatchTransport.MarkGap` | connectors/bridge-core/src/windowed-transport.ts:174-186 | A valid key gets a fresh stamp if there is room; otherwise the windowed transport is poisoned and the OpenCode one unchanged. |
| `BatchTransports.BatchTransport.AcquireWritePermit` | connectors/opencode/src/transport.ts:157-166 | Granted exactly below four active writes, counting up by one. |
| `BatchTransports.BatchTransport.ReleaseWritePermit` | connectors/opencode/src/transport.ts:161-165 | Counts down by one. |
| `BatchTransports.BatchTransport.FlushBegin` | connectors/opencode/src/transport.ts:182-209 | `flush` up to its first write: mismatch and failed chunking mark a gap, nothing to say is a delivery, otherwise the chunks fly with the gap notice first. |
| `BatchTransports.BatchTransport.WriteStart` | connectors/opencode/src/transport.ts:168-173 | A chunk without a permit is skipped; with one it is handed to the launcher. |
| `BatchTransports.BatchTransport.WriteSettled` | connectors/opencode/src/transport.ts:174-180 | The permit is released and the answer counted, an exception as a failure. |
| `BatchTransports.BatchTransport.FlushFinish` | connectors/opencode/src/transport.ts:224-237 | Nothing started marks a gap; all delivered clears the gap if its stamp is unchanged; anything else marks a gap. |
| `ReducerRuns.RunOk` | connectors/opencode/src/reducer.ts:133-595 | After every run: the byte counter is the sum over live sessions, their calls and event ids, and at most 2 MiB; all tables within bounds; live, finalized and overflow-marked sessions pairwise disjoint; every record counted and at most 996 before the terminal. |
| `ReducerRuns.FinishedIffAccepted` | connectors/opencode/src/reducer.ts:423-486 | A `session_finished` is emitted exactly for the deletions the reducer accepts, alone, whatever was suppressed before, as at most the 997th record. |
| `ReducerRuns.AcceptedDelete` | connectors/opencode/src/reducer.ts:510-546 | An accepted deletion emits its terminal, ends the live session and enters the finalized table; no other session moves. |
| `ReducerRuns.SuppressedIsDegraded` | connectors/opencode/src/reducer.ts:423-486 | When a live session's proposed records are not all emitted, or the session is disabled, its stream holds a `coverage_degraded`. |
| `ReducerRuns.CallsFollowLifecycle` | connectors/opencode/src/reducer.ts:356-421 | In every reachable live session the records of each call are a prefix of `tool_started`, `tool_finished`; while enabled they match its status, outcome and input exactly. |
| `ReducerRuns.EventAdvances` | connectors/opencode/src/reducer.ts:305-581 | An event that is no accepted deletion moves only its own session, and extends that session's stream by exactly what it emits. |
| `ReducerRuns.LifetimeGrows` | connectors/opencode/src/reducer.ts:286-303 | Over a lifetime the stream only grows, calls only move forward, recorded event ids stay. |
| `ReducerRuns.StatusNeverFalls` | connectors/opencode/src/reducer.ts:396-414 | Over a lifetime the rank of a call never falls and an outcome never changes. |
| `ReducerRuns.RecordedIsSilent` | connectors/opencode/src/reducer.ts:286-303 | An event whose id is recorded for it in the live session emits nothing. |
| `ReducerRuns.RedeliveryIsSilent` | connectors/opencode/src/reducer.ts:286-303 | Re-delivering a recorded event emits nothing at any later point of the session's lifetime. |
| `ReducerRuns.FirstDeliveryRecords` | connectors/opencode/src/reducer.ts:286-303 | An event with an id that emits anything but a degradation is recorded from then on. |
| `ReducerRuns.FinalizedReportsOnce` | connectors/opencode/src/reducer.ts:220-238 | A finalized session emits at most one record, a `coverage_degraded`. |
| `ReducerRuns.FinalizedIsLru` | connectors/opencode/src/reducer.ts:191-218 | Over every run the finalized table is, in order, exactly the list of the at most 1024 sessions finalized or looked up last. |
| `ReducerQuota.ReduceOk` | connectors/opencode/src/reducer.ts:583-590 | The reducer's invariant survives every event. |
| `ReducerQuota.QuotaOk` | connectors/opencode/src/reducer.ts:423-486 | What the quota admits, suppresses or replaces leaves every session in order. |
| `ReducerQuota.FinishAdmitted` | connectors/opencode/src/reducer.ts:460-471 | The terminal record of a deletion always fits under the quota. |
| `ReducerQuota.ReleaseIsExact` | connectors/opencode/src/reducer.ts:154-165 | Releasing a live session lowers the counter by exactly its size: the clamp at zero never fires. |
| `ReducerQuota.FinishOk` | connectors/opencode/src/reducer.ts:536-546 | After a deletion the live session is gone, its bytes released, its finalized entry the newest. |
| `ReducerSteps.ReduceCallOk` | connectors/opencode/src/reducer.ts:356-421 | A call's records and its new status move together: admitted, they extend its lifecycle; degraded, the call stays put. |
| `ReducerSteps.NoteOk` | connectors/opencode/src/reducer.ts:286-303 | Noting an event id reserves its bytes, within the bound of 4096 ids, or changes nothing. |
| `ReducerSteps.OpenOk` | connectors/opencode/src/reducer.ts:252-273 | Opening a session reserves its bytes, takes over the count of an earlier overflow notice and removes that marker. |
| `ReducerSteps.MarkOk` | connectors/opencode/src/reducer.ts:175-189 | A session there is no room for is marked and reported once while its marker lasts. |
| `InsertionMaps.UseKeepsMostRecent` | connectors/opencode/src/reducer.ts:191-218 | Deleting and setting again, with or without evicting the oldest, keeps exactly the most recently used keys. |
| `InsertionMaps.RememberIsLru` | connectors/opencode/src/reducer.ts:200-218 | A write keeps the table the least-recently-used list of its capacity. |
| `InsertionMaps.TouchIsLru` | connectors/opencode/src/reducer.ts:191-198 | A look-up that hits makes the entry the newest and evicts nothing. |
| `EventReducers.OpenCodeEventReducer.ReserveState` | connectors/opencode/src/reducer.ts:148-152 | Succeeds exactly when the bytes fit, and then counts them. |
| `EventReducers.OpenCodeEventReducer.ReleaseSession` | connectors/opencode/src/reducer.ts:158-165 | The loops over calls and events release exactly the session's size. |
| `EventReducers.OpenCodeEventReducer.SessionOverflow` | connectors/opencode/src/reducer.ts:175-189 | The marker table as an insertion-ordered map; reported when newly marked. |
| `EventReducers.OpenCodeEventReducer.FinalizedSession` | connectors/opencode/src/reducer.ts:191-198 | A look-up that counts as a use. |
| `EventReducers.OpenCodeEventReducer.RememberFinalized` | connectors/opencode/src/reducer.ts:200-218 | A fresh entry, at the cost of the oldest ones. |
| `EventReducers.OpenCodeEventReducer.ReduceFinalized` | connectors/opencode/src/reducer.ts:220-238 | Replay, conflict, full or remembered. |
| `EventReducers.OpenCodeEventReducer.ActiveSession` | connectors/opencode/src/reducer.ts:252-273 | The live session, opened when there is room. |
| `EventReducers.OpenCodeEventReducer.Degrade` | connectors/opencode/src/reducer.ts:275-284 | A degradation of a live session, disabling it on demand; the overflow marker without one. |
| `EventReducers.OpenCodeEventReducer.EventReplay` | connectors/opencode/src/reducer.ts:286-303 | New, replayed, conflicting or full. |
| `EventReducers.OpenCodeEventReducer.ReduceTool` | connectors/opencode/src/reducer.ts:305-421 | A tool event against finalized, disabled, replayed and new calls. |
| `EventReducers.OpenCodeEventReducer.ReduceDeleted` | connectors/opencode/src/reducer.ts:508-553 | A deletion against finalized, full, replayed and live sessions. |
| `EventReducers.OpenCodeEventReducer.ReduceSessionEvent` | connectors/opencode/src/reducer.ts:555-577 | Idle, error and compaction events. |
| `EventReducers.OpenCodeEventReducer.BoundedGroup` | connectors/opencode/src/reducer.ts:434-484 | The quota for one session's records. |
| `EventReducers.OpenCodeEventReducer.BoundedRecords` | connectors/opencode/src/reducer.ts:423-486 | The loop over the groups in order of first appearance. |
| `EventReducers.OpenCodeEventReducer.Reduce` | connectors/opencode/src/reducer.ts:583-590 | One event: reduced, bounded, deleted sessions evicted. |
| `PiRuns.StreamGrammar` | connectors/pi/src/reducer.ts:236-274 | After every run: event ids exactly 1 to n, every `tool_started` followed at once by its own `tool_finished`, each call at most once, nothing after `session_finished`, at most 997 records, state bytes 192 per call and at most 192000. |
| `PiRuns.ShutdownFinishes` | connectors/pi/src/reducer.ts:445-471 | An accepted shutdown ends the stream with its `session_finished`, whatever came before. |
| `PiRuns.AdmittedOrDegraded` | connectors/pi/src/reducer.ts:248-274 | Everything offered is emitted, or the stream holds a `coverage_degraded`. |
| `PiRuns.DegradeOrDegraded` | connectors/pi/src/reducer.ts:276-291 | After a degradation the stream holds a `coverage_degraded`, emitted now or before. |
| `PiRuns.DroppedNoticeIsDegraded` | connectors/pi/src/reducer.ts:458-464 | The unmatched-start notice that a full window drops at shutdown has a predecessor in the stream. |
| `PiRuns.ReportedIffMatched` | connectors/pi/src/reducer.ts:330-380 | A call is reported, as a pair, exactly when a start of the same call and tool is pending, it ends without error, the window is enabled and has room. |
| `PiRuns.StepExtends` | connectors/pi/src/reducer.ts:473-489 | Every step only adds to the stream; only an accepted shutdown finishes the window, and nothing moves after it. |
| `PiRuns.StepOk` | connectors/pi/src/reducer.ts:473-489 | The window's invariant survives every event and every degradation. |
| `PiRuns.SuppressOk` | connectors/pi/src/reducer.ts:262-273 | Suppression in normal mode disables the window and leaves a degradation in the stream. |
| `PiWindowReducers.PiWindowReducer.ReserveState` | connectors/pi/src/reducer.ts:213-217 | Succeeds exactly when the bytes fit. |
| `PiWindowReducers.PiWindowReducer.ReleaseState` | connectors/pi/src/reducer.ts:219-221 | Counts down, clamped at zero. |
| `PiWindowReducers.PiWindowReducer.ClearPending` | connectors/pi/src/reducer.ts:223-234 | The loop moves every pending call to the final ones at no cost in bytes. |
| `PiWindowReducers.PiWindowReducer.Materialize` | connectors/pi/src/reducer.ts:236-246 | Numbers and appends one record. |
| `PiWindowReducers.PiWindowReducer.Admit` | connectors/pi/src/reducer.ts:248-274 | All bodies, or in normal mode at most one overflow notice. |
| `PiWindowReducers.PiWindowReducer.Degrade` | connectors/pi/src/reducer.ts:276-291 | A degradation, an overflow only once. |
| `PiWindowReducers.PiWindowReducer.RememberFinal` | connectors/pi/src/reducer.ts:293-297 | A final entry if its bytes fit. |
| `PiWindowReducers.PiWindowReducer.ToolStart` | connectors/pi/src/reducer.ts:299-328 | A start against final, pending and new calls. |
| `PiWindowReducers.PiWindowReducer.ToolEnd` | connectors/pi/src/reducer.ts:330-380 | An end against final, unknown, mismatched and matched calls. |
| `PiWindowReducers.PiWindowReducer.AgentSettled` | connectors/pi/src/reducer.ts:389-396 | Unmatched starts, then the end of an open turn. |
| `PiWindowReducers.PiWindowReducer.BoundaryEvent` | connectors/pi/src/reducer.ts:398-443 | Unmatched starts, then the boundary. |
| `PiWindowReducers.PiWindowReducer.Shutdown` | connectors/pi/src/reducer.ts:445-471 | The terminal record, with the unmatched-start notice if both fit. |
| `PiWindowReducers.PiWindowReducer.Reduce` | connectors/pi/src/reducer.ts:473-489 | One event of an unfinished window. |
| `PiExtensionRuns.NoSilentLoss` | connectors/pi/src/extension.ts:137-190 | Over every run a record taken in is still buffered in the active window, or a gap of its window was marked since, or it was fully delivered since. |
| `PiExtensionRuns.HandedAtMostOnce` | connectors/pi/src/extension.ts:137-163 | No record is given to a launcher twice over a run. |
| `PiExtensionRuns.BytesExact` | connectors/pi/src/extension.ts:137-190 | Between callbacks the byte count is the sum over the buffered records, no write is in flight and the window's stream is in order. |
| `PiExtensionRuns.FlushAllOk` | connectors/bridge-core/src/windowed-transport.ts:213-279 | A whole flush leaves nothing of it owed; `not_started` means nothing was handed over, and cannot occur with a free permit. |
| `PiExtensionRuns.FlushOne` | connectors/pi/src/extension.ts:137-163 | A flush on the serial queue always empties the buffer: some write always begins, so no terminal is held back. |
| `PiExtensionRuns.AppendOk` | connectors/pi/src/extension.ts:165-190 | Appending numbers on, never repeats a record, and keeps the byte count exact through the flush it may force. |
| `PiExtensionRuns.StartSessionOk` | connectors/pi/src/extension.ts:197-242 | A session start replaces the window only after its records are flushed, and leaves a fresh window or none. |
| `PiExtensionRuns.ShutdownCloses` | connectors/pi/src/extension.ts:244-275 | An accepted shutdown always closes its window. |
| `PiExtensionRuntimes.PiExtensionRuntime.FlushBatch` | connectors/pi/src/extension.ts:137-150 | One whole flush of the windowed transport, loop included. |
| `PiExtensionRuntimes.PiExtensionRuntime.Flush` | connectors/pi/src/extension.ts:137-163 | The buffer emptied, a terminal put back when nothing started. |
| `PiExtensionRuntimes.PiExtensionRuntime.Append` | connectors/pi/src/extension.ts:165-190 | Group, flush when overfull, push. |
| `PiExtensionRuntimes.PiExtensionRuntime.DegradeActive` | connectors/pi/src/extension.ts:192-195 | A degradation of the active window, appended and flushed. |
| `PiExtensionRuntimes.PiExtensionRuntime.SessionStart` | connectors/pi/src/extension.ts:197-242 | The branches of a session start. |
| `PiExtensionRuntimes.PiExtensionRuntime.ObservedEvent` | connectors/pi/src/extension.ts:244-275 | Reduce or degrade, append, flush at boundaries, close. |
| `SerialQueue.FirstInFirstOut` | connectors/bridge-core/src/queue.ts:4-16 | Per key an operation begins only when every earlier one has settled, well or not. |
| `SerialQueue.MutualExclusion` | connectors/bridge-core/src/queue.ts:4-16 | At most one operation of a key runs at any time. |
| `SerialQueue.TailCovers` | connectors/bridge-core/src/queue.ts:4-16 | While an operation has not settled its key keeps a tail, at it or after it: clean-up removes only the current tail. |
| `SerialQueue.NothingLeft` | connectors/bridge-core/src/queue.ts:13-15 | Once every operation is cleaned up the table is empty. |
| `SerialQueue.DrainWaitsForAll` | connectors/bridge-core/src/queue.ts:18-20 | When the tails `drain` saw have settled, everything submitted before it has. |
| `SerialQueue.Progress` | connectors/bridge-core/src/queue.ts:4-16 | While an operation has not settled, some operation can begin or settle: chaining cannot deadlock. |
| `SerialQueue.CleanUpOk` | connectors/bridge-core/src/queue.ts:13-15 | The clean-up of an operation that is no longer the tail leaves the tail alone. |
| `SerialQueue.SerialSessionQueue.Submit` | connectors/bridge-core/src/queue.ts:4-12 | Chained to the key's tail, and the tail from then on. |
| `SerialQueue.SerialSessionQueue.TailSettled` | connectors/bridge-core/src/queue.ts:13-15 | Removes the tail only when it is still its own. |
| `GreedyPartition.GreedyIsOptimal` | connectors/bridge-core/src/chunks.ts:169-194 | No contiguous partition whose groups pass the same hereditary test has fewer groups than the greedy one. |
| `GreedyPartition.LimitExceededIffUnavoidable` | connectors/bridge-core/src/chunks.ts:194 | The greedy partition exceeds a limit if and only if every admissible partition does. |
| `GreedyPartition.MaximalIsUnique` | connectors/bridge-core/src/chunks.ts:169-194 | The greedy partition is the only one whose groups cannot be extended. |
| `Chunks.GroupTestIsHereditary` | connectors/bridge-core/src/chunks.ts:109-128 | Every contiguous part of a group that passes the count and size test passes it at the same index. |
| `Chunks.LargeGroupsPassFinalCheck` | connectors/bridge-core/src/chunks.ts:109-128 | A group of two or more events passes the final byte check: it was sized at its own index with count 1000. |
| `Chunks.GroupEvents` | connectors/bridge-core/src/chunks.ts:169-193 | The loop produces an admissible partition none of whose groups could take the next event. |
| `Chunks.PrepareEvents` | connectors/bridge-core/src/chunks.ts:154-168 | Every event is normalized, or replaced by the oversize event, one for one. |
| `Chunks.ChunksConserveEvents` | connectors/bridge-core/src/chunks.ts:196-211 | The chunks laid end to end are exactly one prepared event per input, in order. |
| `Chunks.EncodedSize` | connectors/bridge-core/src/chunks.ts:109-128 | At most the batch limit exactly when the document with count 1000 encodes within it. |
| `Chunks.EncodeDocuments` | connectors/bridge-core/src/chunks.ts:196-211 | All documents are made exactly when each passes the final check at its real index and count. |
| `ChunkCoverage.InspectChunkCoverage` | connectors/bridge-core/src/chunks.ts:218-258 | Accepted exactly for a consistent batch; the missing indexes are the ascending complement of those present, and complete means none is missing. |
| `ChunkCoverage.MissingIndexes` | connectors/bridge-core/src/chunks.ts:249-251 | The ascending list of indexes below the count that no document carries. |
| `ChunkCoverage.BuildIsConsistent` | connectors/bridge-core/src/chunks.ts:196-211 | Any non-empty collection of documents of one build, in any order and with duplicates, is accepted. |
| `ChunkCoverage.CompleteCoverageRestoresEvents` | connectors/bridge-core/src/chunks.ts:218-258 | Once no document of a build is missing, ordering by index restores the event list. |
| `CanonicalJson.Canonicalize` | connectors/bridge-core/src/canonical.ts:45-93 | The walk that spends node by node succeeds exactly when the totals of the tree fit the item, string and depth limits, and then has spent exactly those. |
| `CanonicalJson.CanonicalizeMembers` | connectors/bridge-core/src/canonical.ts:76-88 | Keys and values of an object spend together what the object costs. |
| `CanonicalJson.AddString` | connectors/bridge-core/src/canonical.ts:31-35 | A string spends its UTF-8 bytes and is refused past 1 MiB. |
| `CanonicalJson.EncodeCanonicalJson` | connectors/bridge-core/src/canonical.ts:104-111 | The byte length of the encoding, or a refusal, as the tree's measures say. |
| `Chunks.PartFits` | connectors/bridge-core/src/chunks.ts:109-128 | Fitting is inherited by every contiguous part of the events and by every smaller chunk count. |
| `MemoryReplay.ReplayedMemoryRecordCount` | src/saliencegate/artifacts/algorithm_validate.py:849-896 | None exactly when some cycle has updates or no concrete history of banks fits the counts; otherwise the number of records every fitting history has created. |
| `MemoryReplay.KeptIsExact` | src/saliencegate/artifacts/algorithm_validate.py:853-893 | For each private-status flag a count is kept exactly when some history ends there, and it is the maximum active count over all of them. |
| `MemoryReplay.Dominated` | src/saliencegate/artifacts/algorithm_validate.py:853-893 | Every reachable bank is dominated by the kept count of its flag. |
| `MemoryReplay.Attained` | src/saliencegate/artifacts/algorithm_validate.py:853-893 | Every kept count is attained by a concrete history. |
| `MemoryReplay.MoveIsPossible` | src/saliencegate/artifacts/algorithm_validate.py:862-889 | Whatever the replay's rules allow, some choice of records does. |
| `MemoryReplay.MoreIsBetter` | src/saliencegate/artifacts/algorithm_validate.py:862-889 | A larger active count allows at least the same moves, with at least the same results. |
| `MemoryReplay.NextFeasible` | src/saliencegate/artifacts/algorithm_validate.py:862-889 | The loop over the kept counts gives, for each flag, the better of the two moves, in whatever order the dictionary yields them. |
| `BudgetReplay.AcceptsBudget` | src/saliencegate/artifacts/algorithm_validate.py:445-499 | An accepted artifact shows at every decision exactly what was settled before it, with room for one more full reservation, and ends within its limits; the exact condition of acceptance is stated. |
| `BudgetReplay.ValidateDecisions` | src/saliencegate/artifacts/algorithm_validate.py:451-499 | The two-pointer pass accepts exactly when cycles are in order and every snapshot is the sum of the settlements with an earlier boundary. |
| `BudgetReplay.ReplayedIs` | src/saliencegate/artifacts/algorithm_validate.py:460-470 | The fold so far is the sum over all earlier boundaries. |
| `BudgetReplay.SpentBefore` | src/saliencegate/artifacts/algorithm_manifest.py:1084-1087 | With settlements within one reservation and ascending boundaries, at most event minus one reservations are settled before an event. |
| `BudgetReplay.SpendingBound` | src/saliencegate/artifacts/algorithm_validate.py:908-940 | Consumed plus one full reservation is within the limits at every decision. |
| `BudgetReplay.FinalSpending` | src/saliencegate/artifacts/algorithm_validate.py:917-940 | The final consumption is within the limits. |
| `BudgetReplay.SumOfTwo` | src/saliencegate/artifacts/algorithm_validate.py:284-296 | Summing field by field is adding. |
| `LedgerValidation.ValidateLedger` | src/saliencegate/artifacts/algorithm_validate.py:969-1150 | The pass accepts exactly the ledgers with a sealed chain and head, unambiguous indexes, the exact layout, and every record and window bound to its entry; `LedgerContents.AcceptedIff` writes that out. |
| `LedgerValidation.LedgerLength` | src/saliencegate/artifacts/algorithm_validate.py:1032-1099 | An accepted ledger has two entries per event, five per cycle and four per delivery. |
| `LedgerValidation.EventPosition` | src/saliencegate/artifacts/algorithm_validate.py:1134-1141 | Event k is at position 1 plus, over the earlier events, 2 each, 5 for a cycle and 4 for its delivery; its record says so. |
| `LedgerValidation.SameHeadSameLedger` | src/saliencegate/artifacts/algorithm_validate.py:980-1000 | Two accepted ledgers of one run with the same head chain tag have the same length and agree on every key, record tag and chain tag. |
| `LedgerValidation.ChainDetermines` | src/saliencegate/artifacts/algorithm_manifest.py:1310-1324 | A chain tag determines everything before it, positions included. |
| `LedgerValidation.TraceEntriesAre` | src/saliencegate/artifacts/algorithm_validate.py:1133-1150 | Filtering by type finds the entry of each event at its position. |
| `LedgerValidation.ExpectedLayout` | src/saliencegate/artifacts/algorithm_validate.py:1032-1097 | The nested loops build exactly the specified layout, or fail on a missing outcome. |
| `LedgerValidation.ChainVerifies` | src/saliencegate/artifacts/algorithm_validate.py:980-999 | The chain loop accepts exactly when every entry seals its position, key, record tag and the tag before it. |
| `LedgerLayout.FullIndex` | src/saliencegate/artifacts/algorithm_validate.py:1020-1030 | A dictionary is as large as its list exactly when the keys are distinct. |
| `CallGroups.MembershipIsSlice` | src/saliencegate/artifacts/algorithm_validate.py:549-551 | Picking a group's receipts by membership gives the contiguous slice at its position. |
| `CallGroups.GroupsPartition` | src/saliencegate/artifacts/algorithm_manifest.py:948-986 | Every receipt is in exactly one group. |
| `CallGroups.GroupsCover` | src/saliencegate/artifacts/algorithm_manifest.py:964-984 | The offset loop accepts exactly when every group's slice is named for its cycle and numbered from zero. |
| `CallGroups.GroupedCalls` | src/saliencegate/artifacts/algorithm_validate.py:549-551 | The receipts whose digest is among the group's, in order. |
| `RuntimeTerminals.ScheduleRemembersTerminal` | connectors/opencode/src/plugin.ts:218-253 | After scheduling, whichever of the three outcomes it was, a terminal buffered before is still buffered or in flight; and it is in flight, or its session will be looked at again, after its pending flush or as a deferred one, unless 256 sessions are deferred already. |
| `RuntimeTerminals.AppendedIffRoom` | connectors/opencode/src/plugin.ts:286-323 | A record joins its buffer exactly when there is room for it, a terminal having the reserve; otherwise a gap is marked; no other session's buffer changes. |
| `RuntimeTerminals.RestoredOrOverReserve` | connectors/opencode/src/plugin.ts:159-188 | An unsent terminal ends up buffered, or the reserve is exhausted and its session is marked. |
| `RuntimeTerminals.CompletionServes` | connectors/opencode/src/plugin.ts:199-284 | A completion serves its own session if that was asked for meanwhile; else, after a full delivery, exactly one waiting session if there is any. |
| `Transport.GapCarriedIffPending` | connectors/opencode/src/transport.ts:182-209 | A flush carries a `transport_gap` event exactly when its session has a gap or all are poisoned, and every record after it, in order. |
| `ReducerVerdicts.DisabledIsSilent` | connectors/opencode/src/reducer.ts:317-319 | A disabled session emits nothing more for tool and session events. |
| `ReducerVerdicts.MalformedDisables` | connectors/opencode/src/reducer.ts:320-342 | A tool event with a missing or contradictory field disables its session, and its stream holds a `coverage_degraded`. |
| `ReducerVerdicts.ConflictOnlyDegrades` | connectors/opencode/src/reducer.ts:286-303 | An event id seen before with another fingerprint changes no call and no recorded event; all it emits is degradation. |
| `ReducerVerdicts.DeletionReplayIsSilent` | connectors/opencode/src/reducer.ts:529-546 | The deletion that was accepted, delivered again, emits nothing. |
| `RuntimeBytes.RunBytes` | connectors/opencode/src/plugin.ts:145-323 | Over every run the counter drifts from the bytes held by exactly the sum of the bytes that the appends of the run stranded. |
| `PluginDrift.CounterCanDrift` | connectors/opencode/src/plugin.ts:286-362 | The counter is not exact in every run of the whole plugin: a session is deleted behind its pending flush, 1024 other deletions push its entry out, it is opened again, and its eighth record of 64 KiB strands the 44 bytes of its terminal. |
| `PluginEvents.ExactUnlessForgotten` | connectors/opencode/src/plugin.ts:145-362 | The counter is exact throughout every run of the plugin in which no session leaves the table of finalized sessions while its terminal record is held. |
| `PluginEvents.HandleExact` | connectors/opencode/src/plugin.ts:325-362 | While every terminal held is of a finalized session, no event strands one. |
| `PluginEvents.RunIsReachable` | connectors/opencode/src/plugin.ts:325-362 | The runtime of every run of the whole plugin is in a state its own runs reach, and the reducer keeps its invariant: all results about either hold of the plugin. |
| `PluginEvents.ReportedIs` | connectors/opencode/src/plugin.ts:328-341 | What an event has appended is of its own session, and a `session_finished` exactly for an accepted deletion. |
| `PluginEvents.FinalizedIsSilent` | connectors/opencode/src/plugin.ts:332-336 | While a session is finalized no event of it has anything appended. |
| `PluginEvents.SilentWhileFinalized` | connectors/opencode/src/plugin.ts:325-362 | Over every run, for as long as a session is remembered as finalized, the runtime takes in no further record of it. |
| `PluginEvents.AcceptedIsAppended` | connectors/opencode/src/plugin.ts:328-355 | An accepted deletion has exactly its one terminal record appended, and its buffer flushed by force. |
| `PluginHooks.OpenCodePlugin.Event` | connectors/opencode/src/plugin.ts:325-362 | The `event` hook up to its await, on the reducer and runtime objects, is the specified step; the records kept are those the filter passes. |
| `PluginHooks.OpenCodePlugin.Filter` | connectors/opencode/src/plugin.ts:328-341 | The loop over the reduced records asks and filters as specified and collects the sessions that end. |
| `RuntimeGaps.NoUnreportedLoss` | connectors/opencode/src/transport.ts:139-241 | In every reachable state a record taken in is held, or fully delivered since, or its session was marked since; and that mark is still pending, or a delivery reported it after its notice was confirmed, or it was refused for an invalid key or because 256 other sessions had gaps. |
| `RuntimeGaps.MarkFate` | connectors/opencode/src/transport.ts:139-241 | A mark is refused, or still owed, or reported by a later delivery whose notice was confirmed after the mark. |
| `RuntimeGaps.PendingIsOwed` | connectors/opencode/src/transport.ts:139-241 | The table of pending gaps is exactly the sessions with a remembered mark not reported since; a gap is only reported after its notice was confirmed. |
| `RuntimeGaps.OwedWasMarked` | connectors/opencode/src/transport.ts:139-155 | A pending gap goes back to a mark that was not refused and not reported since. |
| `RuntimeGaps.MarkCanBeRefused` | connectors/opencode/src/transport.ts:139-155 | With 256 sessions marked the 257th loses its record for good: never handed over, not held, no gap of it pending. |
| `RuntimeGaps.FinishGaps` | connectors/opencode/src/transport.ts:210-241 | The end of a flush clears its gap only when it read the stamp still pending and its notice was confirmed, and every other flight keeps its account. |
| `MemoryReplay.MoveIsAllowed` | src/saliencegate/memory/materialize.py:692-704 | Whatever records a cycle may invalidate, the private status it replaces not among them, the flag and the active count move as the replay's rules allow. |
| `ReducerVerdicts.ChangedInputNoticedIff` | connectors/opencode/src/reducer.ts:344-352 | A call repeated with another input is degraded exactly when its inputs have digests; one too large once wrapped is reported with its input and identified without it. |
| `PiExtensionRuns.GroupStandsFor` | connectors/pi/src/extension.ts:164-174 | An emitted record is appended itself, unless one of its group is oversize; then one placeholder, no terminal, stands for the whole group. |
| `Chunks.NormalizeCaptureEvent` | connectors/bridge-core/src/chunks.ts:70-80 | An event within the canonicalizer's budgets whose text is at most 64 KiB is returned unchanged, any other becomes the oversize placeholder. |
| `Chunks.BuildCaptureChunks` | connectors/bridge-core/src/chunks.ts:130-211 | The build is refused exactly for unacceptable input, or when no admissible partition has at most 1000 groups, or for a document over the limit at its real index; otherwise documents are numbered and counted, and event i of them all is input i itself if it is small and fits a document alone, else the placeholder. |
| `Chunks.GroupOkIs` | connectors/bridge-core/src/chunks.ts:109-128 | A group passes exactly when it is one event, or at most 999 whose document, sized at its index with 1000 chunks, has a text of at most 2 MiB. |
| `Chunks.InputAcceptedIs` | connectors/bridge-core/src/chunks.ts:139-153 | The exact bounds of the batch id, the session id and the number of events. |
| `Chunks.DocumentText` | connectors/bridge-core/src/chunks.ts:86-107 | The text of a document: its named members in canonical order. |
| `ChunkCoverage.ConsistentFields` | connectors/bridge-core/src/chunks.ts:218-253 | The exact condition, field by field, under which observed documents are one batch. |
| `CanonicalJson.BytesAreOfText` | connectors/bridge-core/src/canonical.ts:104-111 | The bytes a tree costs are the UTF-8 bytes of its canonical text, escapes included. |
| `CanonicalJson.EncodableIff` | connectors/bridge-core/src/canonical.ts:45-93 | A tree can be encoded exactly when it has at most 10000 nodes, a mebibyte of strings and keys, and no node deeper than 32. |
| `CanonicalJson.CostIsOfNodes` | connectors/bridge-core/src/canonical.ts:45-93 | The three budgets of a tree are the number of its nodes, the bytes of their strings and keys, and the depth of its deepest node. |
| `RuntimeDelivery.SettledAs` | connectors/opencode/src/transport.ts:182-241 | Over any run from queued to settled: a flush is delivered exactly when its chunks could be built, or there was nothing to send, and each got a permit and was confirmed; not started exactly when they could be built and none got a permit; a failed attempt otherwise. |
| `RuntimeDelivery.WellNotes` | connectors/opencode/src/transport.ts:205-232 | A flush that goes well marks nothing: it hands its chunks over, each is confirmed, and its last note is the delivery of its records. |
| `RuntimeDelivery.DeliveredLeavesNoGap` | connectors/opencode/src/transport.ts:224-231 | A flush that settles delivered leaves no gap of its session pending, unless one was marked after it was queued. |
| `Transport.MarkAnswers` | connectors/opencode/src/transport.ts:139-155 | A mark is remembered under a new stamp exactly when the key is valid and the session has a gap or fewer than 256 do; other gaps stay. |
| `Transport.BeginAnswers` | connectors/opencode/src/transport.ts:182-204 | A flush flies exactly when its records are its own, there is something to send or it is forced, and its chunks can be built. |
| `Transport.FinishAnswers` | connectors/opencode/src/transport.ts:224-241 | Delivered exactly when every chunk was confirmed, with the delivery the only note and the stamp it read no longer pending; not started exactly when no write began; a mark otherwise. |
| `RuntimeAnswers.ScheduleStarts` | connectors/opencode/src/plugin.ts:218-253 | A flush that may start does: all that is buffered is in flight, and nothing is marked. |
| `RuntimeAnswers.ScheduleBehind` | connectors/opencode/src/plugin.ts:234-246 | Behind a pending flush the buffer keeps its last terminal alone, is marked once, and its session is looked at again after the flush, or deferred, if there is a terminal. |
| `RuntimeAnswers.ScheduleBehindEmpty` | connectors/opencode/src/plugin.ts:234-246 | A flush forced behind a pending one with nothing buffered is looked at again after it. |
| `RuntimeAnswers.ScheduleFull` | connectors/opencode/src/plugin.ts:223-233 | With 64 flushes pending the buffer keeps its last terminal alone, is marked once, and its session is deferred for it. |
| `RuntimeAnswers.AppendFits` | connectors/opencode/src/plugin.ts:286-323 | A record its buffer and the memory have room for joins it, last; nothing else moves. |
| `RuntimeAnswers.AppendSendsOff` | connectors/opencode/src/plugin.ts:286-323 | A record its buffer has no room for sends the buffer off and starts the next one. |
| `RuntimeAnswers.RestoreFits` | connectors/opencode/src/plugin.ts:159-188 | An unsent terminal goes back, last, behind what has been buffered since. |
| `RuntimeAnswers.UnsentComesBack` | connectors/opencode/src/plugin.ts:254-284 | After a flush that handed nothing over its last terminal is buffered again and its session deferred, or it is in flight again, or the 32 MiB are used up. |
| `RuntimeAnswers.ServesInOrder` | connectors/opencode/src/plugin.ts:199-216 | After a full delivery deferred sessions go first, in the order they were deferred; a buffered terminal only when none of them can. |
| `RuntimeAnswers.TerminalIsTheLast` | connectors/opencode/src/plugin.ts:96-107 | The terminal found is the last one. |
| `PluginFlushes.TargetSendsOff` | connectors/opencode/src/plugin.ts:69-90 | After an idle, error, compaction or deletion event of a session not finalized, with no flush of it pending and fewer than 64 in all, all that was buffered is in flight, and so is what the event said unless a gap was marked for it; a gap alone is sent off too. |
| `PluginFlushes.TargetWaits` | connectors/opencode/src/plugin.ts:341-362 | Behind a pending flush such an event leaves no plain record waiting, and the session is looked at again after the flush. |
| `PluginFlushes.ToolOnlyAppends` | connectors/opencode/src/plugin.ts:341-362 | A tool event starts no flush of a buffer with room: what it says is appended. |
| `PluginFlushes.KeptIs` | connectors/opencode/src/plugin.ts:328-341 | Everything the reducer says of a session not finalized is kept, in order; of a finalized one nothing. |
| `PluginFlushes.FinalizedLeavesRuntime` | connectors/opencode/src/plugin.ts:332-362 | An event of a finalized session leaves the runtime alone. |
| `ReducerAnswers.Says` | connectors/opencode/src/reducer.ts:305-586 | For every state in order and every event the reducer emits exactly the records of the table of answers, the quota included. |
| `ReducerAnswers.Keeps` | connectors/opencode/src/reducer.ts:286-421 | A session that is live or can be opened keeps exactly the calls, statuses and event ids of the tables, and is disabled exactly when they say. |
| `ReducerAnswers.FinalKeeps` | connectors/opencode/src/reducer.ts:220-238 | A finalized session remembers the ids of complete events, up to eight, and that it was reported. |
| `ReducerAnswers.AcceptsIff` | connectors/opencode/src/reducer.ts:509-546 | A deletion is accepted exactly when it is unambiguous, the session is not finalized and can be opened, and its event id is fresh. |
| `ReducerAnswers.SameFingerprintIff` | connectors/opencode/src/reducer.ts:344-352 | Fingerprints tell tool events apart by session, call, tool, status and digestible input, and by nothing else. |
| `PiAnswers.Answers` | connectors/pi/src/reducer.ts:213-490 | Every event of an unfinished window adds exactly the bodies of the table of answers, numbered on, the quota included. |
| `PiAnswers.Moves` | connectors/pi/src/reducer.ts:293-445 | Every event moves the pending and the final calls, and the turn, exactly as the tables say. |
| `PiAnswers.Disables` | connectors/pi/src/reducer.ts:213-291 | A window is disabled, and its overflow notice spent, exactly as the tables say. |
| `PiAnswers.RemembersCall` | connectors/pi/src/reducer.ts:293-380 | A new start is remembered as it came, a call that ends as it started and ended. |
| `PiExtensionAnswers.ObservedAnswers` | connectors/pi/src/extension.ts:244-275 | A matching event is reduced and the window says exactly what the table has for it; a mismatch is a missing field; what is said is taken in and buffered, a boundary empties the buffer, and the window closes when it is asked to and has finished. |
| `PiExtensionAnswers.StartThenEnd` | connectors/pi/src/extension.ts:244-275 | A call that starts and ends without error, both observed, adds exactly its start and its finish to the window, and both are taken in. |
| `PiExtensionAnswers.StartAnswers` | connectors/pi/src/extension.ts:197-242 | A malformed start is a missing field of the open window; any other ends it with an invalid transition and opens an empty window, if a discriminator could be generated. |
| `PiExtensionAnswers.FlushAllDelivers` | connectors/bridge-core/src/windowed-transport.ts:213-279 | With a permit free, chunks that can be built and a launcher that confirms, a flush is delivered, marks nothing and leaves no gap of its window. |
| `PiExtensionAnswers.FlushRefused` | connectors/pi/src/extension.ts:137-162 | A flush that gets no permit leaves the terminals buffered, and only them, with their bytes. |
| `CanonicalJson.WidthIsUtf8` | connectors/bridge-core/src/canonical.ts:28-32 | A character counts as many bytes as UTF-8 gives it, and they read back as the character. |
| `RuntimeAnswers.ScheduleIdle` | connectors/opencode/src/plugin.ts:218-222 | With nothing buffered and nothing forced nothing happens. |
| `RuntimeAnswers.AppendTerminalInReserve` | connectors/opencode/src/plugin.ts:302-322 | A terminal the ordinary 16 MiB have no room for is kept within the reserve, and a gap is marked. |
| `RuntimeAnswers.RestoreIdle` | connectors/opencode/src/plugin.ts:159-166 | With a terminal buffered already an unsent one is not put back. |
| `PiExtensionAnswers.NothingToFlush` | connectors/bridge-core/src/windowed-transport.ts:213-240 | A flush with nothing to send and nothing forced is delivered and changes nothing. |
| `BudgetReplay.SettlementAtIs` | src/saliencegate/artifacts/algorithm_validate.py:460-470 | What settles at an event is the settlement of the one cycle there, if there is one. |
| `LedgerContents.AcceptedIff` | src/saliencegate/artifacts/algorithm_validate.py:969-1150 | Acceptance, written out: every entry sealed to the one before it and the head to the last, distinct items, the entries event by event as listed and no others, every outcome among them, every window bound to its event. |
| `LedgerContents.BlockIsShown` | src/saliencegate/artifacts/algorithm_validate.py:1032-1104 | In an accepted ledger an event is followed by its decision; with a cycle by revisions 1 to 4 as pending, reserved, running, committed; with a delivery by revisions 1 to 4 as pending, claimed, attempting, delivered; the outcome is last before the next event. |
| `CallGroups.GroupOkIs` | src/saliencegate/artifacts/algorithm_manifest.py:964-984 | A group is in order exactly when it is not empty and its receipts are its cycle's, numbered from zero, first attempts. |
| `BudgetReplay.SettledStep` | src/saliencegate/artifacts/algorithm_validate.py:460-470 | Nothing is settled before the first event, and from one event to the next exactly what settles at it. |
| `SerialQueue.BeginsWhenFree` | connectors/bridge-core/src/queue.ts:4-16 | No key waits for another: an operation may begin as soon as the earlier ones of its own key have settled. |

## Left out

- Process spawning, timeouts and launcher command lines: a chunk write answers true or false, an exception counting as false.
- Bootstrap files, environment copying, and the validation of bootstrap and workspace paths: taken as valid.
- SHA-256, HMAC, random batch ids and discriminators: injective terms and fresh values.
- JavaScript property descriptors, prototypes, cyclic objects, unpaired surrogates and non-finite numbers: events are JSON trees.
- PluginEvents.Handle: how a kept record is encoded is an input, constrained to its session, kind and size; the `dispose` entry point and `#knownSessions` are arbitrary flushes of a run, and `#disposed` and the `catch` around the hook are left out.
- The order in which a JavaScript `Map` yields buffers in the fallback of `#scheduleOneDeferredTerminal`: any eligible buffer may be picked.
- The promises of pending flushes: what their callbacks captured is a table of the runtime object.
- CaptureRuntime.TerminalOf: a record carries its kind and encoded size; how it is encoded and normalized is the chunker's part of the model.
- Sessions, finalized entries, calls and final calls of both reducers are values in their tables, not objects: updates in place of one entry and aliasing are not captured.
- `windowed-chunks.ts`: the algorithm of `chunks.ts` with one more field.
- PiExtensionRuns.NoSilentLoss: a record displaced by the placeholder of an oversize one in its group is not counted as taken in; `GroupStandsFor` says when that happens.
- PiExtension: workspace paths, and the comparison of context and event beyond whether they match.
- PiReducer: the exact text checks of native session ids and leaf ids.
- BudgetReplay.ValidateDecisions: does not model decision ids, policy versions, timestamps and reason codes, which are field equalities beside the budget.
- LedgerValidation.ValidateLedger: record keys and record types are terms instead of formatted strings, and the components' own validators are its precondition.
- CallGroups.GroupsCover: does not model request digests, run ids and the grounding index of a group.
- Execution bindings, prompt and profile checks, `FixedStepSchedule`, metric totals, deliveries' field checks, the raw projection and the re-sealing of component digests: field equalities, or defined in classes that are not part of this model.
- `exclusive.py`, `jsonl.py`, `observability.py`, the command line and everything under `scripts/`: file-system and tooling code.
