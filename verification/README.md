# CRAMC: a verified model

CRAMC finds Excel workbooks infected with macro viruses, cleans them through Excel, and hardens the
machine against reinfection. This project models the parts of it in which order, state and round
trips matter, and proves what they promise.

**Privilege-helper server.** The agent hands documents to a helper process over a named pipe. The
helper runs an accept loop, one handler per connection, one wrapper and one cleaner goroutine per
document, a WaitGroup, a quit channel closed through a `sync.Once`, and one Excel worker guarded by a
mutex. `RpcServer` gives every goroutine a program counter and every atomic action a step; a run is any
list of enabled steps, so all schedules, messages, failures and timeouts are covered. `ServerGroup`,
`ServerWorker`, `ServerPaths`, `ServerBackup`, `ServerFiles` and `ServerQuit` prove invariants of all
runs. `ServerWitness` gives runs that show which hypotheses cannot be dropped. `ServerExact` and
`ServerLoss` state exactly which liberties allow a send on the closed quit channel, two cleaners
inside, a fatal Unlock, a nil Excel object, a workbook left current, and the loss of an original;
when a pass over the components panics is in `Workbooks`. `ExcelWorker`, `FileStore` and `CleanProcedure` hold the
sequential code as classes and methods, and `CleanProcedure` ties that code back to the steps.

**Agent pipeline.** `Dispatch` has the scanning and dispatching loops and what they should request;
`Network` runs them with two bounded queues and their consumers under any schedule, and `FinalWait`
adds what main waits for at the end. `Session` is the
server's end of the pipe and `Link` composes it with the client's, so that between two actions of the
client the server may take any steps. `RpcClient` is the client object over it, and `Agent` puts the
pieces together. `CodecInstance` shows that the laws asked of JSON can be met.

**Search.** `Search` compares the directory walk with the scan of the NTFS file table that is meant as
its fast form, over concrete trees and path strings (`PathNames`). `SearchStage` is the choice between
them in sequence, and `SearchSchedule` the same choice as its goroutines are scheduled.

**Codecs and hardening.** `ScanList` (scan results as text), `Envelope` (encrypted databases),
`Workbooks` (the loop over VBA components), `Hardener` and `HardenGate` (file-tree actions and the
once-per-name rule).

`dafny verify dfyconfig.toml` checks everything.

## Where the code and its apparent intent differ

The model follows the code. What that means for the results:

- The project's README (line 23) says an original is always backed up before remediation. A failed
  backup is only logged (`gocode/sanitizer_ole/rpc_server.go:325-328`): `ServerLoss.TreatedWithoutBackup`.
  A second request for the same document, which the dispatcher makes when two rules match
  (`gocode/cmd/aioagent/main.go:303-337`), overwrites the first backup:
  `ServerLoss.SecondBackupOverwritesFirst`. `ServerLoss.LosesOriginalExactly` says that it takes one of these.
- `gzBakFile` drops the errors of its deferred flush, close and sync
  (`gocode/sanitizer_ole/filebak_windows.go:17-34`), so it can report success without a backup.
- `OpenWorkbook` uses the application after the call that opens (`gocode/sanitizer_ole/excelop_windows.go:169`),
  and the deferred `Quit(false)` runs when Stop gave up waiting after 15 s: a cleaner can meet nil.
- `Ping` reads a second response after `SendControlMessage` has already read the only one
  (`gocode/sanitizer_ole/rpc_client.go:97` and `:158`), so it never succeeds from a connection with
  nothing pending, and the sanitiser's loop never sends a document. On a connection that stays open it
  blocks, and with it the agent.
- `ConnClose` has its guard inverted (`gocode/sanitizer_ole/rpc_client.go:79`).
- `ExcelWorker.Init` replaces the mutex (`gocode/sanitizer_ole/excelop_windows.go:100`), also in the
  recovery after a timeout, so claims about the lock need a run without timeouts.
- The component count is read once before a loop that removes components
  (`gocode/sanitizer_ole/excelop_windows.go:222-251`): `rm_module` panics unless the target is last or absent.
- `r.quit` is sent to before it is closed, and in one place without a close
  (`gocode/sanitizer_ole/rpc_server.go:293-296` and `:312`): a signal, a second connection or a
  timeout each allow a send on the closed channel.
- Two calls of `f_harden_SetRO` have their arguments swapped (`gocode/hardener/tinyActions.go:21` and `:37`),
  so the directory or file put in place is not made read-only by them.
- The comment at `gocode/yarax_scanner/parse_iptlist.go:25` asks for two bytes after the space; the
  condition needs three.
- Decryption slices up to a constant, which Go checks against the slice's capacity and not its length.
- With disk scanning off, the searcher's channel is created and never closed; nobody waits for it.

## Model

| member | source | states |
|---|---|---|
| `ServerFiles.DocumentsAtQuiescence` | gocode/sanitizer_ole/rpc_server.go:315-406 | Any timeout-free interleaving of requests on documents that share no path, once no cleaner is live: a backup of which every call succeeded, the deferred ones included, decompresses to the original bytes; an opened document holds the treated workbook if its save succeeded and its original bytes if not, under its `G-` name with the old name gone if the rename succeeded; a document that was not opened is as it was |
| `ServerFiles.RemediatedDocument` | gocode/sanitizer_ole/rpc_server.go:364-406 | For remediation without edit failures the file under the `G-` name renders the original workbook with exactly the target modules replaced by the placeholder, names and order kept |
| `ServerPaths.OtherPathsAreUntouched` | gocode/sanitizer_ole/rpc_server.go:315-406 | At every moment of every run, timeouts and shared documents included, a path that is no requested document, backup or `G-` name has its original content |
| `ServerBackup.BackupAlways` | gocode/sanitizer_ole/rpc_server.go:324-328 | At every moment of every run on documents that share no path, timeouts included, the file under each backup's name is what the request's backup left there, made from the untouched original |
| `ServerBackup.RecoverableExactly` | gocode/sanitizer_ole/rpc_server.go:324-328 | So in such a run the promise that an original is backed up before it is treated is kept exactly when every call of the backup succeeded, or what is in its place happens to decompress to the original |
| `ServerBackup.FirstBackupExactly` | gocode/sanitizer_ole/filebak_windows.go:12-35 | For a document with no older backup, whose original an empty or unfinished file does not decompress to: if and only if every call succeeded |
| `ServerLoss.LosesOriginalExactly` | gocode/sanitizer_ole/rpc_server.go:315-348 | Over all runs: a treated document without older backup can end without a good one if and only if two requests may share paths or a backup call may fail on a document that is there; signals, timeouts and further connections make no difference |
| `ServerLoss.SecondBackupOverwritesFirst` | gocode/cmd/aioagent/main.go:301-337 | A run with two requests for one document, as two matching rules produce: both backups succeed, the second overwrites the first with treated bytes, and the original is nowhere on disk |
| `ServerFiles.FilesAlways` | gocode/sanitizer_ole/rpc_server.go:315-406 | The inductive invariant behind these: in every reachable timeout-free state with distinct documents, every path of every request holds what the request's history says |
| `CleanProcedure.ExcelFileClean` | gocode/sanitizer_ole/rpc_server.go:366-405 | The cleaner goroutine as straight-line code over worker, disk and `errC`: it performs a run of the server's cleaner steps and ends in a state mirroring it, with an unlocked mutex; disk, result and panic are given exactly, and a workbook is left current exactly if the application was nil when its properties were to be set |
| `CleanProcedure.LockAndOpen` | gocode/sanitizer_ole/rpc_server.go:370-379 | Lock and OpenWorkbook undisturbed: the three steps of the machine, and the outcome of each combination of handles and answer |
| `CleanProcedure.Helper.Boot` | gocode/sanitizer_ole/rpc_server.go:91-104 | What Start does with the worker before it serves is main's first step: ready exactly if Excel could be created |
| `CleanProcedure.Helper.Recover` | gocode/sanitizer_ole/rpc_server.go:419-438 | The branch after 180 s is a run of the wrapper's steps: flag cleared and set, handles dropped and fetched again, a new unlocked mutex exactly if Excel could be created, the current workbook kept; it dies on a nil application |
| `CleanProcedure.TreatAndReport` | gocode/sanitizer_ole/rpc_server.go:392-405 | One pass over the open workbook, and one send on the capacity-one channel unless a fetch past the end panicked |
| `CleanProcedure.SaveCloseRename` | gocode/sanitizer_ole/rpc_server.go:380-391 | The deferred save, close and rename: the file holds the rendered current workbook and then moves to its `G-` name |
| `ServerGroup.WaitGroupCountsTrackedGoroutines` | gocode/sanitizer_ole/rpc_server.go:97-188 | In every run the counter equals the number of live or just-added tracked goroutines (accept loop, handlers, wrappers, cleaners) and never goes negative |
| `ServerGroup.AddsAreCounted` | gocode/sanitizer_ole/rpc_server.go:107-368 | Every `Add` but main's first is made while the counter is positive, by a goroutine it counts |
| `ServerGroup.ZeroMeansAllGone` | gocode/sanitizer_ole/rpc_server.go:138-142 | While Stop waits, the counter is zero if and only if the accept loop, all handlers, wrappers and cleaners are gone |
| `ServerGroup.DrainedAlways` | gocode/sanitizer_ole/rpc_server.go:138-149 | The wait channel is only ever closed when nothing tracked is left, and Stop leaves by it only then |
| `ServerGroup.DrainedQuitRunsAlone` | gocode/sanitizer_ole/rpc_server.go:97-149 | When Stop leaves by `waitD`, no tracked goroutine is live, no later step changes a job or the counter, so the deferred `Quit(false)` overlaps no cleaner |
| `ServerWorker.DrainedLeavesNothingHalfDone` | gocode/sanitizer_ole/rpc_server.go:138-146 | Then, too, every opened workbook has had its close and rename attempted, although its result was reported before them |
| `ServerWorker.CleanersReportOnceAndFinishTheirBook` | gocode/sanitizer_ole/rpc_server.go:364-405 | Every run, timeouts included: a cleaner sends at most once on `errC`, its send always finds room, and a book it opened is closed and renamed before it unlocks |
| `ServerWorker.OneCleanerAtATime` | gocode/sanitizer_ole/rpc_server.go:364-418 | Runs without a 180 s timeout: at most one cleaner between Lock and Unlock, a cleaner that has a workbook finds its own as the current one, and no Unlock is fatal |
| `ServerWorker.WorkerIsSafeWithoutTimeout` | gocode/sanitizer_ole/rpc_server.go:364-418 | Runs in which, moreover, Stop was not left by its 15 s timer: no current workbook while unlocked or when one is about to be opened, and no nil Excel object ends the process or unwinds a cleaner |
| `ServerExact.TwoInsideExactly` | gocode/sanitizer_ole/rpc_server.go:419-438 | Two cleaners can be inside at once if and only if timeouts are allowed |
| `ServerExact.FatalUnlockExactly` | gocode/sanitizer_ole/excelop_windows.go:273-275 | The deferred Unlock can be fatal if and only if timeouts are allowed: recovery has replaced the mutex |
| `ServerExact.NilExcelExactly` | gocode/sanitizer_ole/excelop_windows.go:127-192 | A nil Excel object can end the process if and only if timeouts or leaving Stop by its timer are allowed: `Quit` then runs beside a cleaner inside `OpenWorkbook` |
| `ServerExact.LeftCurrentExactly` | gocode/sanitizer_ole/excelop_windows.go:145-192 | Under the same condition, and no other, an unlocked worker can be left with a current workbook |
| `ServerWorker.WorkerAlways` | gocode/sanitizer_ole/rpc_server.go:364-418 | The inductive invariant behind these: mutex and occupancy of the section agree, the handles are there until main drops them, and as long as the timer has not been used the current workbook is the one of the cleaner inside |
| `ServerWitness.TimeoutBreaksExclusion` | gocode/sanitizer_ole/rpc_server.go:419-438 | A run in which recovery replaces the mutex while its holder still runs, so that two cleaners are inside at once |
| `ServerLoss.TreatedWithoutBackup` | gocode/sanitizer_ole/rpc_server.go:324-328 | A run in which the backup fails and the document is rewritten and renamed all the same, its original bytes nowhere on disk |
| `ServerQuit.QuitIsClosedAtMostOnce` | gocode/sanitizer_ole/rpc_server.go:130-136 | In every run the quit channel is closed at most once |
| `ServerQuit.QuitHandshake` | gocode/sanitizer_ole/rpc_server.go:196-297 | One connection, no signal, no timeout: the send on `quit` always has two enabled receivers and never meets a closed channel; the handler is never stuck after it; from the step after the send on the channel is closed |
| `ServerQuit.QuitHandlerGoesHome` | gocode/sanitizer_ole/rpc_server.go:251-297 | After its send each of the handler's own steps brings it strictly closer to being gone, at most four in all |
| `ServerWitness.SignalRacesQuit` | gocode/sanitizer_ole/rpc_server.go:113-136 | Without the no-signal hypothesis: a run with one connection that dies sending on the closed channel |
| `ServerWitness.TwoConnectionsRaceQuit` | gocode/sanitizer_ole/rpc_server.go:290-297 | Without the one-connection hypothesis: likewise, no signal needed |
| `ServerWitness.TimeoutRacesQuit` | gocode/sanitizer_ole/rpc_server.go:310-314 | Without the no-timeout hypothesis: likewise, after the send that is not followed by a close |
| `ServerExact.SendOnClosedExactly` | gocode/sanitizer_ole/rpc_server.go:113-314 | The process can die sending on the closed channel if and only if there is a second connection, or one connection and a signal or a timeout |
| `ServerQuit.DrainingAdvances` | gocode/sanitizer_ole/rpc_server.go:138-272 | During shutdown every step of a tracked goroutine, the recovery branch included and only passing over a skipped line excepted, strictly lowers what is left to do or ends the process |
| `ServerQuit.HeldAlways` | gocode/sanitizer_ole/rpc_server.go:364-418 | In every run of a living process the number of locked mutexes, replaced ones included, is the number of cleaners between Lock and Unlock |
| `ServerQuit.DrainingIsNeverStuck` | gocode/sanitizer_ole/rpc_server.go:138-149 | During shutdown, timeouts included, while the counter is positive some such step is enabled, so the drain cannot deadlock |
| `Workbooks.RemoveStaysInRangeExactlyWhenTargetIsLastOrAbsent` | gocode/sanitizer_ole/excelop_windows.go:222-264 | `rm_module`, all removals succeeding: every fetch by position is in range if and only if the target is absent from all positions but the last, and then the result is the list minus the target |
| `Workbooks.RemoveTakesExactlyTheTarget` | gocode/sanitizer_ole/excelop_windows.go:222-264 | With unique names the target and nothing else is gone, even from a pass that then panics |
| `Workbooks.RemediateReplacesExactlyTheTargets` | gocode/sanitizer_ole/excelop_windows.go:224-248 | `remediate`, all edits succeeding: names and order kept, every target ends as exactly the placeholder, all others unchanged |
| `Workbooks.RemediateIsIdempotent` | gocode/sanitizer_ole/excelop_windows.go:224-248 | Running it again is the identity |
| `Workbooks.RemediateNeverTouchesOthers` | gocode/sanitizer_ole/excelop_windows.go:224-248 | Whatever edit fails, no fetch leaves the range and no other module changes |
| `Workbooks.UnknownOperationFailsExactlyOnTarget` | gocode/sanitizer_ole/excelop_windows.go:258-261 | An unknown operation changes nothing and is an error if and only if the target occurs |
| `ExcelWorker.Worker.Init` | gocode/sanitizer_ole/excelop_windows.go:89-102 | Replaces the mutex by an unlocked one exactly when the application was created; the current workbook survives |
| `ExcelWorker.Worker.Quit` | gocode/sanitizer_ole/excelop_windows.go:104-115 | Drops application and workbooks handle, nothing else |
| `ExcelWorker.Worker.GetWorkbooks` | gocode/sanitizer_ole/excelop_windows.go:117-125 | Fails exactly without an application |
| `ExcelWorker.Worker.OpenWorkbook` | gocode/sanitizer_ole/excelop_windows.go:127-192 | Without a handle or an answer everything is kept; otherwise workbook and path are set, and the properties set last need the application: nil there is a panic that leaves the workbook current |
| `ExcelWorker.Worker.SaveAndCloseWorkbook` | gocode/sanitizer_ole/excelop_windows.go:194-205 | Hands out the current workbook as it is and leaves none current |
| `ExcelWorker.Worker.SanitizeWorkbook` | gocode/sanitizer_ole/excelop_windows.go:207-267 | The in-place loop, with its count read once: ends with exactly the specified pass over the components and its status, panics included |
| `ExcelWorker.Worker.Lock` | gocode/sanitizer_ole/excelop_windows.go:269-271 | Enters exactly if the current mutex is free, and otherwise still waits |
| `ExcelWorker.Worker.Unlock` | gocode/sanitizer_ole/excelop_windows.go:273-275 | Releases the mutex that is current now |
| `FileStore.FileSystem.GzBakFile` | gocode/sanitizer_ole/filebak_windows.go:12-35 | Creates and truncates the backup before opening the original; returns no error exactly if all calls up to the copy succeeded, and then, unless a deferred call failed unnoticed, the backup is the compressed original; no other path changes |
| `FileStore.FileSystem.RenameFileAndSave` | gocode/sanitizer_ole/filebak_windows.go:37-42 | Moves the document to its `G-` name exactly on success; no other path changes |
| `Session.AnswersEcho` | gocode/sanitizer_ole/rpc_server.go:274-362 | The responses of a connection are an in-order filter-map of its messages: at most one per message, each echoing the ClientID and MessageID of its message, none missing that could be written |
| `Session.ProcessedIsAPrefix` | gocode/sanitizer_ole/rpc_server.go:204-271 | Every interleaving of reader and handler: what is processed is a prefix of the received lines, in order, and the answers are those of that prefix |
| `Session.HandleConnection` | gocode/sanitizer_ole/rpc_server.go:227-260 | The handler's loop writes exactly the answers of the lines it processed, and stops early only where its select sees quit or after a message that ends it |
| `Session.UnansweredLines` | gocode/sanitizer_ole/rpc_server.go:236-248 | Blank and undecodable lines, messages without client and unknown message types get no answer |
| `Link.ReadsNeverExceedWrites` | gocode/sanitizer_ole/rpc_client.go:107-188 | Client and server put together, any use of the connection, every schedule of client, reader, channel and handler: the responses read are a prefix of those written, and no more than the requests processed, nor those than the requests written |
| `Link.ResponsesInOrder` | gocode/sanitizer_ole/rpc_client.go:107-188 | However the connection is used, when every request processed so far has been answered the j-th response belongs to the j-th request |
| `Link.PingNeverSucceeds` | gocode/sanitizer_ole/rpc_client.go:89-105 | A ping started with no response pending never returns success, under any schedule and whatever fails: its two reads meet at most one response |
| `Link.PingBlocks` | gocode/sanitizer_ole/rpc_client.go:89-105 | On a connection that stays open it does not fail either: after every schedule, however long, it still waits |
| `Link.SendReadsItsOwn` | gocode/sanitizer_ole/rpc_client.go:107-188 | One write and one read with nothing pending: a response read is the request's own; a read that still waits means that the request is not processed yet or got no answer |
| `Link.NoDocumentIsEverSent` | gocode/sanitizer_ole/entrypoint_windows.go:95-113 | So over a fresh connection the sanitiser's loop, whatever fails, never writes a sanitise request |
| `Link.FirstDocumentBlocks` | gocode/sanitizer_ole/entrypoint_windows.go:95-102 | On a connection that stays open the loop blocks on its first document |
| `Link.ResponsesMatchRequests` | gocode/sanitizer_ole/rpc_client.go:107-188 | With one read per request, under every schedule and whatever fails, the j-th request gets its own response or none |
| `RpcClient.Client.Connect` | gocode/sanitizer_ole/rpc_client.go:33-60 | Three attempts, the first success kept, an old connection closed; `connected` exactly if one succeeded |
| `RpcClient.Client.ProcRespData` | gocode/sanitizer_ole/rpc_client.go:173-188 | One read, refused when not connected |
| `RpcClient.Client.SendControlMessage` | gocode/sanitizer_ole/rpc_client.go:136-164 | One write and one read; from a connection with nothing pending the response has the request's own ids and nothing is left pending |
| `RpcClient.Client.SendSanitizeMessage` | gocode/sanitizer_ole/rpc_client.go:107-134 | Likewise for a document |
| `RpcClient.Client.PingServer` | gocode/sanitizer_ole/rpc_client.go:89-105 | Reads a second time after `SendControlMessage` has read, and so never succeeds from a connection with nothing pending |
| `RpcClient.Client.ConnClose` | gocode/sanitizer_ole/rpc_client.go:78-87 | Refuses whenever there is a connection and dereferences nil when there is none |
| `RpcClient.Client.RequestTerminateAndDisconnect` | gocode/sanitizer_ole/rpc_client.go:190-209 | Likewise reads twice for one answer, and leaves the connection as it is |
| `RpcClient.Client.OfferDocument` | gocode/sanitizer_ole/entrypoint_windows.go:97-112 | The loop's body: a ping, and the document only after success |
| `RpcClient.Client.ServeQueue` | gocode/sanitizer_ole/entrypoint_windows.go:95-113 | The loop over the queue, one body per document until one blocks |
| `RpcClient.Client.DrainQueue` | gocode/sanitizer_ole/entrypoint_windows.go:95-113 | The same, and that no sanitise request is written from a connection with nothing pending |
| `Agent.StartSanitizer` | gocode/sanitizer_ole/entrypoint_windows.go:27-141 | Returns before its loop exactly when launching or all three connection attempts fail; otherwise serves the queue over the first pipe, writing no document to a fresh one; it returns in the end exactly if the loop drains, the request to terminate returns and the helper exits |
| `Network.OutputIsDeterministic` | gocode/cmd/aioagent/main.go:298-343 | Every schedule: what reached the sanitiser and its queue is a prefix of one sequence that depends only on results and table, the hardening side carries the same pairs and lags by at most one, queues hold at most 100, nothing is sent after close |
| `Network.DeadlockExactlyWhenRequestsDoNotFit` | gocode/cmd/aioagent/main.go:263-343 | In some schedule the dispatcher gets stuck if and only if the wanted requests exceed what queues and consumers take, and then it finishes in none |
| `Network.AgentDeadlockBound` | gocode/cmd/aioagent/main.go:263-343 | The dispatcher as wired: never stuck with draining consumers; off Windows or with a sanitiser that returned early exactly when more than 100 requests are wanted; with one that blocks after n exactly when more than 100 + n are |
| `FinalWait.FinalWaitExactly` | gocode/cmd/aioagent/main.go:262-405 | Main's last wait, for producer, dispatcher, sanitiser and hardener, ends in every schedule that runs to its end if and only if the sanitiser returns and the requests fit, and otherwise in none |
| `FinalWait.AgentEndsExactly` | gocode/cmd/aioagent/main.go:262-405 | The agent as wired: off Windows or with a sanitiser that returned early it ends exactly when at most 100 requests are wanted, otherwise exactly when the sanitiser blocks on none and its termination goes well |
| `FinalWait.StepsLeaveLess` | gocode/cmd/aioagent/main.go:262-405 | And every schedule comes to an end, over or stuck |
| `Network.RunsAreFinite` | gocode/common/shared.go:18-22 | No schedule is longer than a bound known before it starts |
| `Network.StepsDecreaseWork` | gocode/cmd/aioagent/main.go:298-343 | Every step strictly decreases the work left |
| `Network.DrainingConsumersGetEverything` | gocode/cmd/aioagent/main.go:263-343 | With draining consumers every schedule that runs to its end has delivered every request, in order, and closed both queues |
| `Agent.OpenConnectionBound` | gocode/sanitizer_ole/entrypoint_windows.go:95-102 | On Windows over a connection that stays open the dispatcher gets stuck exactly when more than 101 requests are wanted, and no document reaches the server in any case |
| `Agent.OpenConnectionHangs` | gocode/cmd/aioagent/main.go:405-405 | There the agent itself never ends once a single request is wanted, since main waits for the blocked sanitiser |
| `Dispatch.DispatchAll` | gocode/cmd/aioagent/main.go:301-337 | The dispatcher's nested loops build exactly the in-order flat-map of results and matching solutions, on both queues |
| `Dispatch.WantedPairs` | gocode/cmd/aioagent/main.go:309-337 | A request is wanted exactly for a result and a solution of its rule's name |
| `Dispatch.WantedConcat` | gocode/cmd/aioagent/main.go:301-337 | The requests of two lists of results one after the other are the two lists of requests one after the other |
| `Dispatch.ScanFilesWithYara` | gocode/yarax_scanner/yara_call.go:28-74 | The scanning loop sends exactly the specified sequence |
| `Dispatch.ScannedExactly` | gocode/yarax_scanner/yara_call.go:28-74 | A file reaches the dispatcher under a rule exactly when it was listed, could be read and matched that rule |
| `Search.BoostedCoversWalk` | gocode/fileutils/filesearcher_booster_windows.go:136-172 | For an action path without trailing separator and a table listing exactly the volume's files, every path the walk emits is emitted identically from the table |
| `Search.BoostedExtrasExactly` | gocode/fileutils/filesearcher_booster_windows.go:159-170 | The table's extras are exactly the interesting files under string-prefix siblings, those below directories the walk cannot read, the action directory included, and those whose `XLSTART` match is not inside the relative path |
| `Search.GeneralWalkthroughSearch` | gocode/fileutils/filesearcher.go:14-48 | Emits exactly the interesting files of the visits, counted |
| `Search.WalkEmits` | gocode/fileutils/filesearcher.go:18-48 | What the walk emits over a tree, by membership: the readable files that are interesting |
| `Search.ExtractAndParseMFTThenSearch` | gocode/fileutils/filesearcher_booster_windows.go:83-172 | Which of its exits it takes, from the action path and device alone; nothing is emitted before any of the failing ones |
| `Search.TableEmits` | gocode/fileutils/filesearcher_booster_windows.go:144-172 | What the table scan emits, by membership |
| `SearchStage.RunSearch` | gocode/cmd/aioagent/main.go:160-261 | The stage in sequence, for any flags, privilege, platform and outcome: each searcher channel is closed exactly once unless disk scanning is off (then never), and on every run that does not exit the list is the present part of exactly one searcher's output |
| `SearchSchedule.ConsumersRangeOverTheirSearchersChannel` | gocode/cmd/aioagent/main.go:160-261 | The stage as scheduled, with the channel in one variable that main reassigns: in every schedule a consumer ranges over the channel its own searcher sends on and closes, no channel is closed twice and nothing is sent on a closed one |
| `SearchSchedule.StageEnds` | gocode/cmd/aioagent/main.go:182-261 | Every schedule that reaches the end has closed each channel exactly once (never with disk scanning off) and lists one searcher's output alone, in order; the process exits instead only on invalid input |
| `SearchSchedule.SchedulesAgreeWithRunSearch` | gocode/cmd/aioagent/main.go:160-261 | That list is the one computed in sequence |
| `SearchSchedule.NeverStuck` | gocode/cmd/aioagent/main.go:226-260 | Until the stage ends or exits some goroutine can step |
| `SearchSchedule.StepsLeaveLess` | gocode/cmd/aioagent/main.go:226-260 | And every step strictly decreases what is left, so every schedule ends |
| `SearchStage.PresentExactly` | gocode/cmd/aioagent/main.go:164-178 | A file is listed exactly when the searcher emitted it and it is present |
| `SearchStage.BoostedListCoversWalkList` | gocode/cmd/aioagent/main.go:182-261 | The boosted search's list contains whatever the fallback would have listed |
| `ScanList.ParseYaraScanResultText` | gocode/yarax_scanner/parse_iptlist.go:11-41 | The scanner loop sends exactly the parsed results and reports an error exactly when a line is too long or the file cannot be opened |
| `ScanList.ParseLineExactly` | gocode/yarax_scanner/parse_iptlist.go:24-34 | A line gives a result exactly when it is a non-empty space-free rule, one space and at least three bytes |
| `ScanList.PrintThenParse` | gocode/yarax_scanner/parse_iptlist.go:19-36 | Printing results and parsing them back returns the same list in order; malformed lines anywhere change nothing |
| `ScanList.ParsePrinted` | gocode/yarax_scanner/parse_iptlist.go:19-36 | The same in front of any text |
| `ScanList.LastLineNeedsNoNewline` | gocode/yarax_scanner/parse_iptlist.go:22-36 | A last line without newline counts like any other |
| `ScanList.LongLineStopsTheScan` | gocode/yarax_scanner/parse_iptlist.go:37-39 | A line over the scanner's limit is an error, after the results before it have been sent |
| `Envelope.XChacha20Encrypt` | gocode/cryptutils/xchacha20.go:21-43 | The three regions tile the output without overlap, whose length is that of the text plus 44; which failures occur |
| `Envelope.XChacha20Decrypt` | gocode/cryptutils/xchacha20.go:45-69 | When slicing or allocating panics, exactly: capacity below 28, or a valid key and length below 44; otherwise the result is that of opening the three regions |
| `Envelope.DecryptAfterEncrypt` | gocode/cryptutils/xchacha20.go:34-68 | Opening what sealing laid out gives back every text, empty included, given only the AEAD's laws |
| `Envelope.AcceptedEnvelopes` | gocode/cryptutils/xchacha20.go:57-68 | Whatever is accepted carries the checksum of the text returned and is 44 bytes longer |
| `Envelope.RoundTrip` | gocode/cryptutils/xchacha20.go:21-69 | The two methods in sequence return the original text |
| `HardenGate.RequestsProceedOncePerName` | gocode/hardener/actionScheduler.go:20-36 | Any interleaving of dispatchers: in lock order a request proceeds if and only if it allows repeats or no earlier one had its name; the record is exactly the names seen; one dispatcher in the critical section |
| `HardenGate.Registry.DispatchHardenAction` | gocode/hardener/actionScheduler.go:10-41 | Dry run and other platforms leave record and disk alone; otherwise the actions are carried out exactly when the gate lets the request through |
| `Hardener.HardeningFrame` | gocode/hardener/actionScheduler.go:43-69 | Whatever fails, a path that is neither at nor below a destination is unchanged, or is a directory newly made on the way to one |
| `Hardener.HardenedParent` | gocode/hardener/tinyActions.go:14-84 | If every call succeeds, replacing distinct direct children by directories and then setting the parent read-only leaves each child an empty directory and the whole subtree read-only, the parent having been made on the way if it was missing |
| `Hardener.ReplacedIsReadOnlyExactlyByMkdirMode` | gocode/hardener/tinyActions.go:14-22 | Replace-by-directory alone leaves the directory read-only if and only if the platform honours Mkdir's mode, because its last call has its arguments swapped |
| `Hardener.ReplacedFileIsWritable` | gocode/hardener/tinyActions.go:27-38 | For the same reason replace-by-file leaves the new empty file writable |
| `Hardener.ReplacedByEmptyDirectory` | gocode/hardener/tinyActions.go:14-22 | A successful replacement leaves an empty directory |
| `Hardener.UnknownActionsDoNothing` | gocode/hardener/actionScheduler.go:64-67 | Unknown actions are the identity |
| `Hardener.Disk.TakeProperHardenAction` | gocode/hardener/actionScheduler.go:43-69 | The loop performs exactly the fold of the actions over the file tree |
| `Hardener.Disk.HardenRmReplaceDirSetRO` | gocode/hardener/tinyActions.go:14-25 | Remove, make directories, and the swapped call |
| `Hardener.Disk.HardenReplaceFileSetRO` | gocode/hardener/tinyActions.go:27-41 | Remove, create, and the swapped call |
| `Hardener.Disk.HardenCleanSetRO` | gocode/hardener/tinyActions.go:43-59 | Truncate a file or empty a directory, then set it read-only |
| `Hardener.CleanedFile` | gocode/hardener/tinyActions.go:43-59 | A successful clean of a file leaves it empty and read-only and touches nothing else |
| `Hardener.CleanedDirectory` | gocode/hardener/tinyActions.go:43-59 | A successful clean of a directory leaves it empty and read-only and touches nothing outside it |
| `Hardener.Disk.HardenSetRO` | gocode/hardener/tinyActions.go:61-84 | One chmod for a file, a recursive one for a directory, nothing on mismatch; no path appears or disappears |

## Left out

- The goroutines of the server are steps on a value and not methods of a class, because their
  interleaving is the subject; the cleaner and the start and recovery of the worker are given as imperative code as well.
- COM calls, registry, tokens, privileges, session selection, telemetry, logging, sleeps, the update
  checker, process killing and spawning. Excel is a map from bytes to named code modules and back,
  with open, edit, save and close that may fail.
- gzip, ChaCha20-Poly1305, CRC, JSON, YARA, zip and NTFS parsing are functions given as parameters;
  where laws are needed an instance shows they can be met.
- A timeout may fire at any time while the wrapper waits. After the recovery branch only the results
  that say so hold (counter, life cycle of a cleaner, quit channel closed at most once).
- Paths are compared as values: case-insensitive names and links that denote the same file are not modelled,
  and `filepath.Abs` is part of the request.
- A save that Excel reports as failed leaves the file as it was.
- Permission checks of the operating system: the hardener records a read-only bit and walks through it.
- A server's write to the pipe succeeds or fails but does not block.
- The clock behind message ids is a parameter. A write is reported as failed only if nothing arrives, and
  lines longer than a scanner's buffer do not occur on the pipe.
- `Must...` calls on COM objects other than `Item` are taken to succeed, and creating Excel either works or
  returns an error; the use of a COM object between its release and the nil assignment is the library's.
- `Disconnect` of the client, which repeats the pattern of `RequestTerminateAndDisconnect`, is never called by the agent.
- White space trimmed from a message is the ASCII kind only, and strings are sequences of one-byte characters.
- Flag parsing, exits other than the search stage's, `CheckFileOnDiskSize` (a predicate here), the
  template's environment lookup, the rule compiler and the release tools.
- Search.BoostedCoversWalk: compares the two outputs as sets of paths; the order of the file table is the volume's own.
- ServerQuit.QuitHandshake: holds for one connection, no signal and no timeout; `ServerExact.SendOnClosedExactly` says
  that each of the three is needed.
- ServerFiles.DocumentsAtQuiescence: requires that no timeout fired, since recovery lets a second cleaner into the section,
  and documents that share no path; `ServerLoss` says what sharing can do to an original.
- Link.PingNeverSucceeds: requires that no response is pending when the ping starts, as on a fresh connection.
