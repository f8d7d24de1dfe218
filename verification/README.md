# Verified model of nbdmux

nbdmux serves disk images over NBD. A table of exports drives one warm worker,
which downloads and decompresses each image, and a supervisor that keeps one
`nbdkit` child per ready export; request handlers change the same table
concurrently. This project models that machinery in Dafny 4.11 and proves what
it keeps. `dafny verify dfyconfig.toml` checks everything.

| file | models |
|---|---|
| `Wrappers.dfy` | `Option`, `Result`, minimum and maximum |
| `ExportNames.dfy` | name validator, name normaliser, the namespace of image and temporary files |
| `Base64Url.dfy`, `SessionToken.dfy` | unpadded base64url (RFC 4648, sections 5 and 3.2), the cache URL of a source; the session token |
| `TableState.dfy`, `EventsLog.dfy` | page arithmetic, the event log and the page that shows it |
| `ExportStore.dfy` | the exports table: one function per SQL statement, and the class that performs them |
| `Supervision.dfy`, `NbdSupervisor.dfy` | the supervisor: functions with their contracts, and the class with its loops |
| `WarmSystem.dfy` | the whole daemon as an interleaved step system |
| `WarmFrames.dfy`, `WarmGenerations.dfy` | what single steps leave alone; the generations of a row |
| `WarmSafety.dfy` | no lost warm, rows in flight |
| `WarmPorts.dfy`, `WarmServing.dfy`, `WarmServedFiles.dfy` | the advertised port, what is served, which file is served |
| `WarmBytes.dfy`, `WarmRows.dfy` | what is in the image files; what a row says, in terms of the request that registered it |
| `WarmDrain.dfy` | termination and restart |
| `WarmRegistration.dfy` | exactly when a registration is fetched, crashes and older warms included |
| `WarmOverlap.dfy`, `WarmDeletes.dfy` | what an older warm or an older delete of the name does to a newer row |
| `WarmWitnesses.dfy` | runs from the first start into the states that the promises exclude |
| `WarmWorker.dfy`, `ControlPlane.dfy` | the worker, the request handlers and the start-up hook as imperative code on the objects, each proved to be a run of the step system |
| `NetbootBundle.dfy` | replacing a netboot bundle, with crashes and a concurrent delete |

## How to read it

`WarmSystem` has one `State` (rows, queue, program point of the worker,
handlers under way, files, supervisor maps) and one `Step` type. A step is one
SQL statement, one change of a managed file, or one call that holds a lock; any
agent may take the next step. `History` fields record what the program does not
keep (the generation of a row, which rows a crash interrupted, the file a child
was started with) and no guard or program value depends on them. Theorems speak
of every reachable state or of every run. What the daemon cannot see into (bytes
of a source, decompressors, catalog, ports and children of the host, exit codes)
is a parameter of the world or of the step. The world also lists the names and
files that get registered; the classes run in any world, so every theorem about
runs applies to them.

Where the code does less than its comments say, the model follows the code. The
condition under which the promise holds is proved, and `WarmWitnesses` (for the
bundle, `NetbootBundle`) builds a run in which it does not:

- A registration is fetched if and only if it is not lost before: by an older warm
  of the name that is written ready, or by a crash that finds its row in another
  status than queued (`RegistrationIsFetchedIff`). So one that finds no warm of the
  name in flight is always fetched (`RegistrationIsFetched`). If the older warm
  succeeds, it marks the new row ready and the new source is never fetched
  (`SuccessfulWarmShadowsANewRegistration`, `AWarmCanBeShadowed`). If it fails, the
  new row keeps its turn unless a crash comes first, because a failed row is not
  resumed (`FailedWarmDoesNotShadowANewRegistration`, `ACrashCanLoseARegistration`).
- A file registered while a warm of the name is in flight can end `failed`
  (`FileRowStaysReadyIff`, `AFileRowCanFail`).
- The start-up hook says interrupted rows resume. They are enqueued, but the
  worker skips them, so they stay as they are (`RestartDrainsAllButTheInterrupted`,
  `AnInterruptedRowIsSkipped`).
- The images directory is made outside the worker's `try`; a failure there loses
  the warm until the next start (`MkdirFailureLosesTheWarm`, `AWarmCanBeLost`).
- A delete unlinks the image after the row is gone; a registration and warm of the
  same name in between loses its file (`ADeleteCanTakeANewImage`). The file of a
  warmed row is the right one or missing (`WarmedRowsAreFaithful`), and the row is
  safe exactly if no such delete is late (`WarmedRowIsSafeIffNoDeleteIsLate`).
- The ready rows are listed outside the supervisor's lock. That does no harm as
  long as no two different listings are on their way to their reloads at the same
  time (`ServedIsReady`); if there are two, the older one can leave a ready row
  unserved for good (`AReadyRowCanStayUnserved`).
- A row inserted between the deletion of its predecessor and that delete's reload
  never gets its port written while the old child runs
  (`UnadvertisedIffInsertedUnderItsChild`, `APortCanStayUnadvertised`).
- A reload leaves a live child alone, so registering another file under a running
  name is acknowledged while the old file goes on being served (`OutdatedIff`,
  `AChildCanServeAnOldFile`, and the contract of `PostExport`).
- The bundle swap is clean exactly if clearing the staging directory left no file
  that the new bundle does not replace (`SwapInstalls`, `ABundleCanBeMixed`).
- Page links drop `per_page` when it is 10 and `/ui/events` reads a missing value
  as 25, so following them from a 10-row page repeats or skips rows
  (`NextLinksTileUnlessDefaultSize`).
- A token lives from the whole second in which it was made
  (`FullLifetimeOnlyOnWholeSeconds`).
- The comment on the length cap of names says the leading portion is dropped; the
  code keeps the leading portion and drops the tail (`PlainNameGetsImg`).

## Model

| member | source | states |
|---|---|---|
| ExportNames.DeriveExportName | src/nbdmux/server.py:84-143 | the loops of the normaliser compute the specification function that the following rows characterise |
| ExportNames.DerivedIsSound | src/nbdmux/server.py:75-81 | a name is derived if and only if the basename has a letter or digit, and it is always a strict name ending in `.img` that the validator accepts |
| ExportNames.DerivedFixedPoints | src/nbdmux/server.py:119-143 | the fixed points of the normaliser are exactly the strict names ending in `.img`, in any case |
| ExportNames.DerivedIsIdempotent | src/nbdmux/server.py:119-143 | deriving a derived name gives it back |
| ExportNames.CompressedFormsShareAnExport | src/nbdmux/server.py:96-110 | an image and each of its compressed forms derive one and the same export, whatever their length |
| ExportNames.PlainNameGetsImg | src/nbdmux/server.py:135-142 | a clean name without a known suffix gets `.img`, and only its tail is cut |
| ExportNames.NoiseAroundTheNameIsIgnored | src/nbdmux/server.py:121-125 | leading characters up to the first letter or digit and trailing dashes and foreign characters make no difference |
| ExportNames.ForeignRunIsOneDash | src/nbdmux/server.py:123 | a run of characters outside the allowlist inside a basename counts as one dash |
| ExportNames.NameWithForeignRun | src/nbdmux/server.py:106-142 | so two parts of a name with such a run between them derive the dashed name with `.img`, with or without a compression suffix |
| ExportNames.ImageNameLetters | src/nbdmux/server.py:135 | the suffix policy asks for a dot and the letters i, m, g in either case |
| ExportNames.ValidatorAccepts | src/nbdmux/server.py:75-81 | the validator takes exactly the strict names of at most 64 characters, each also with one newline at the end |
| ExportNames.PathsFollowNames | src/nbdmux/server.py:957-958 | two managed paths coincide exactly if the names do, and one is the temporary of another exactly if the names say so |
| ExportNames.DerivedNamesAreDisjoint | src/nbdmux/server.py:1076 | images and artifacts of derived names never collide with each other's `.inflight` and `.tmp` |
| ExportNames.ValidNamesCanCollide | src/nbdmux/_api.py:332-334 | the validator alone does not keep the namespace apart: two valid names whose files collide |
| Base64Url.RoundTrip | src/nbdmux/server.py:157-162 | decoding undoes encoding for every byte string, through rstrip and the padding arithmetic |
| Base64Url.EncodedShape | src/nbdmux/server.py:157-162 | the code is a url-safe word, and the padding `_b64d` adds is the padding that was stripped |
| Base64Url.EncodingOfThreeBytes | src/nbdmux/server.py:157-158 | every three bytes become the four digits of their number in base 64, in the alphabet of Table 2 of RFC 4648 |
| Base64Url.EncodingOfTheLastBytes | src/nbdmux/server.py:157-158 | one or two last bytes become two or three digits, filled up with zero bits, and nothing more |
| Base64Url.DecodedAlphabet | src/nbdmux/server.py:161-162 | the decoder reads that table, and `+` and `/` as its last two characters |
| Base64Url.TrailingSlashesAreIgnored | src/nbdmux/server.py:679-687 | the cache URL is the base without trailing slashes, `/b/` and the code of the source, and there is none exactly if nothing but slashes is configured |
| Base64Url.CacheUrlNamesTheSource | src/nbdmux/server.py:679-687 | the last path segment of the cache URL is slash-free and decodes to the bytes of the source |
| Base64Url.CacheUrlIsInjective | src/nbdmux/server.py:674-687 | different sources have different cache URLs |
| SessionToken.SplitRecovers | src/nbdmux/server.py:203-207 | splitting a token at the first dot recovers payload and signature |
| SessionToken.AcceptedIff | src/nbdmux/server.py:203-214 | for every token, clock and MAC: accepted exactly if it is an ASCII payload without a dot, a dot and the signature of that payload, and the payload decodes to a time less than MAX_AGE ago |
| SessionToken.RaisesIff | src/nbdmux/server.py:208-214 | exactly which tokens make the check raise: a signature that is not ASCII after an ASCII payload, or a signed payload of a foreign kind |
| SessionToken.ForeignSignatureIsNeverAccepted | src/nbdmux/server.py:208-209 | a token signed with a MAC that differs on its payload is never accepted |
| SessionToken.TokenLifetime | src/nbdmux/server.py:197-214 | for any MAC a fresh token is accepted exactly until seven days after its whole second, and checking never raises |
| SessionToken.FullLifetimeOnlyOnWholeSeconds | src/nbdmux/server.py:202-212 | a token lives its full MAX_AGE if and only if it was made on a whole second |
| TableState.PaginationIsClamped | src/nbdmux/_table_state.py:101-128 | for every query and total the page is the one asked for, or the last one, and in the table, and the reported page bound is the ceiling it was clamped with |
| TableState.PaginationDefaults | src/nbdmux/_table_state.py:108-127 | page 1 without a usable page number, ten rows without a usable size, no row numbers for an empty table |
| TableState.NumberedPagesWindow | src/nbdmux/_table_state.py:68-71 | the numbered links are the run of pages at distance at most two, at most five, containing the current one |
| TableState.RowIntervalsPartition | src/nbdmux/_table_state.py:48-58 | every row number is printed on exactly one page |
| EventsLog.Log.Record | src/nbdmux/_events_log.py:134-157 | appends one event whose id is above all ids so far |
| EventsLog.Log.SetAcknowledged | src/nbdmux/_events_log.py:231-236 | changes the flag of the event with that id, nothing else, and says whether there is one |
| EventsLog.UiEventsReadsTheQuery | src/nbdmux/_app.py:681-700 | page 1 and 25 rows when the parameters are missing, 10 rows when the size is no choice, the nearest page when there is no such page |
| EventsLog.SearchIsAStretch | src/nbdmux/_events_log.py:182-198 | for any offset and limit a search gives the matching rows from the offset on, between one and 500 of them unless they run out |
| EventsLog.NewestFirstIsTheMatchingLog | src/nbdmux/_events_log.py:173-198 | the listing holds each matching event exactly once, newest first |
| EventsLog.PageIsItsSlice | src/nbdmux/_events_log.py:182-198 | a page is the slice its interval names; the clamps of the search never bite |
| EventsLog.PagesTileTheLog | src/nbdmux/_app.py:690-706 | pages 1 to last_page concatenate to the whole matching log |
| EventsLog.NextLinksTileUnlessDefaultSize | src/nbdmux/_app.py:707-714 | following the page links shows the log if and only if the page size is not 10 or one page is enough |
| ExportStore.UpsertForgetsAllButThePort | src/nbdmux/server.py:391-414 | whatever the table was, a registration stores the requested columns, keeps nothing of an old row but its port, and touches no other row |
| ExportStore.StatusWriteColumns | src/nbdmux/server.py:434-465 | column by column what a status write changes: absent error and size stay, no other column and no other row is touched |
| ExportStore.StatusWritesCommute | src/nbdmux/server.py:461-465 | status writes for different names do not interfere |
| ExportStore.Store.ListReadyExports | src/nbdmux/server.py:482-484 | lists every ready name once and no other |
| ExportStore.Store.ListPendingExports | src/nbdmux/server.py:486-490 | lists every queued or in-flight name once and no other |
| Supervision.ScanContract | src/nbdmux/server.py:1432-1443 | the allocator returns the least port neither claimed nor busy, fails only when there is none, and trips over the 16-bit limit only at an unclaimed port beyond it |
| Supervision.SpawnSucceedsIff | src/nbdmux/server.py:1366-1425 | a spawn succeeds exactly if the child of the name lives, or a port can be had, counting the dead child's own as free, and the new child comes up |
| Supervision.SpawnAllContract | src/nbdmux/server.py:1320-1325 | spawning a list: invariant, survivors, port writes, and which names run when an exception stops it |
| Supervision.ReloadContract | src/nbdmux/server.py:1327-1341 | normal return serves exactly the desired names, live children keep process and port, every other name gets a new process; on an exception the undesired are gone, those before the failing name run, the rest is untouched |
| Supervision.CallsKeepInv | src/nbdmux/server.py:1316-1346 | over every sequence of start, reload and stop, with dying children and failing spawns, both maps have the same names, no port is used twice and every port is in the window |
| Supervision.UnclaimedPortExists | src/nbdmux/server.py:1436-1442 | pigeonhole: with fewer than 256 entries some port of the window is unclaimed |
| Supervision.ReloadNeverRunsOutOfPorts | src/nbdmux/server.py:1334-1341 | a reload of at most 256 names finds ports for all if the host holds none of the window |
| NbdSupervisor.NbdServer.AllocatePort | src/nbdmux/server.py:1432-1443 | the scanning loop returns what ScanContract describes |
| NbdSupervisor.NbdServer.SpawnExport | src/nbdmux/server.py:1359-1430 | reap, allocate, start, record and persist one child, or raise with the dead entry reaped |
| NbdSupervisor.NbdServer.TerminateExport | src/nbdmux/server.py:1445-1456 | removes the entry from both maps and clears the port column |
| NbdSupervisor.NbdServer.Start | src/nbdmux/server.py:1320-1325 | spawns every listed export, keeping the class invariant |
| NbdSupervisor.NbdServer.Reload | src/nbdmux/server.py:1327-1341 | the two loops of the diff-sync have the effect ReloadContract describes, on the maps and on the port column |
| NbdSupervisor.NbdServer.Stop | src/nbdmux/server.py:1343-1346 | leaves both maps empty and the ports cleared |
| WarmSafety.ReachableIsSafe | src/nbdmux/server.py:764-836 | in every reachable state each queued row is in sight of somebody who will process it or lost its directory, and at most one row more than there were crashes is in flight |
| WarmSafety.NothingStrandedWithoutMkdirFailure | src/nbdmux/server.py:833-836 | as long as the directory can be made no queued row is lost |
| WarmGenerations.WarmIsOfItsGenerationIff | src/nbdmux/server.py:786-834 | in every run after a registration, the job the worker has for the name is the new registration's own if and only if it is not the one in flight at the registration, going on since |
| WarmPorts.PortColumnAgreement | src/nbdmux/server.py:389-430 | in every reachable state a running name with a row advertises the port of its child or none; no two running exports advertise one port |
| WarmPorts.UnadvertisedIffInsertedUnderItsChild | src/nbdmux/server.py:391-404 | over every run a running export advertises no port if and only if its row was inserted while its child was already running |
| WarmServing.ServedIsReady | src/nbdmux/server.py:869-884 | over every run in which no two different listings are out at the same time and no reload raises, with writes anywhere, ready rows are served and served names have rows, up to reloads still owed |
| WarmServing.OrderlyRunIsCoherent | src/nbdmux/_api.py:376-378 | that is so in every run in which no write adds or removes a ready row while a listing is out |
| WarmServing.QuietReloadServesTheReady | src/nbdmux/_api.py:376-378 | a reload anywhere later in the run than its listing serves exactly the ready rows if no write in between adds or removes one |
| WarmServedFiles.OutdatedIff | src/nbdmux/server.py:1359-1371 | over every run a child serves another file than its row says if and only if it was started from a listing with another file or another file was registered while it ran, and nothing has mended it since |
| WarmServedFiles.ChildrenServeTheirRows | src/nbdmux/server.py:1367-1370 | over every run in which each registration fits the running child of its name and the listings under way, every child serves its row's file |
| WarmBytes.ReadyMeansRightBytes | src/nbdmux/server.py:833-874 | after a ready write on the generation that was picked up the row is right if and only if the image is still there; it is never another image |
| WarmBytes.WarmedRowsAreFaithful | src/nbdmux/server.py:1041-1167 | in every reachable state the file of a row its own warm made ready is the complete image of its source, or missing |
| WarmRows.WarmedFileIsTheDecompressedSource | src/nbdmux/server.py:1092-1118 | in every reachable state the file of such a row, if it is there, has the bytes of its source through gunzip, zstd, xz or none, as the row's own format asks, else the detected one |
| WarmRows.WarmRowIsAsRequested | src/nbdmux/_api.py:332-343 | over every run within its generation a row registered for warming has the file, flag, source, format and bundle of its request; it starts queued, with the old port, and touches no other row |
| WarmRows.FileRowIsAsRequested | src/nbdmux/_api.py:288 | the same for a row registered for an operator's file: its file and flag, no source, format or bundle |
| WarmRows.FailedRowsSayWhy | src/nbdmux/server.py:801-855 | in every reachable state a failed row has a reason in the error column |
| WarmRows.SecondDeleteRemovesNothing | src/nbdmux/_api.py:375-383 | a delete whose row has gone in the meantime removes no file |
| WarmBytes.CleanRegistrationEndsRight | src/nbdmux/server.py:833-874 | a row registered while no delete has its image to remove is right in every later state of its generation in which its warm has been written ready |
| WarmBytes.SettledRowStaysRight | src/nbdmux/server.py:869-874 | a warmed row with its image keeps it in every run that does not register or delete it, if no delete still has the file to remove |
| WarmBytes.StaleDeleteRemovesTheNewImage | src/nbdmux/_api.py:376-383 | a delete that is late with its unlink takes the file of a newer ready row of the name |
| WarmBytes.DestinationIsAtomic | src/nbdmux/server.py:1164-1165 | every step of anybody keeps an image file, removes it, or installs a complete one |
| WarmBytes.ImagesAreAlwaysComplete | src/nbdmux/server.py:1076-1081 | in every reachable state, crashes included, no image file is partial |
| WarmBytes.FailedWarmLeavesNothing | src/nbdmux/server.py:847-856 | after a failed warm neither image nor temporary file exists |
| WarmBytes.ProgressIsWhatWasWritten | src/nbdmux/server.py:1125-1135 | the watcher reports exactly the bytes written so far, when at least 32 MiB are new |
| WarmBytes.OperatorFilesAreSafe | src/nbdmux/_api.py:358-361 | the daemon never touches a file an operator placed outside the managed paths |
| WarmBytes.DerivedNamesAreClean | src/nbdmux/_app.py:554 | exports created from source URLs satisfy the disjointness the file theorems assume |
| WarmDrain.DrainMakesProgress | src/nbdmux/server.py:773-784 | every step of worker, pipeline, watcher and resume loop makes a lexicographic measure smaller |
| WarmDrain.NoEndlessDrain | src/nbdmux/server.py:773-784 | there is no infinite run of such steps |
| WarmDrain.DrainIsNeverStuck | src/nbdmux/server.py:773-784 | with the handlers done, a reachable state has such a step unless the worker waits on an empty queue |
| WarmDrain.DrainReachesHalt | src/nbdmux/server.py:773-784 | a run to that state exists |
| WarmDrain.HaltedIsTerminal | src/nbdmux/server.py:786-874 | there every row is ready or failed, except rows a crash interrupted or without a directory |
| WarmDrain.RestartDrainsAllButTheInterrupted | src/nbdmux/_app.py:178-184 | after crash, restart and drain exactly the rows in flight at the crash are not ready or failed, and are as they were |
| WarmDrain.GoodWarmSucceeds | src/nbdmux/server.py:836-874 | from any point of a warm of the current generation a run to ready with the right bytes exists |
| WarmRegistration.RegistrationIsFetchedIff | src/nbdmux/server.py:764-836 | over every run within the generation, crashes and restarts included: at a halt the worker has picked up this very row if and only if no older warm of the name was written ready and no crash found the row in another status than queued before |
| WarmRegistration.RegistrationIsFetched | src/nbdmux/_api.py:335-345 | a registration that finds the worker not busy with the name is on its way until it is picked up, whatever crashes and restarts come |
| WarmRegistration.FetchedIffTheOlderWarmIsNotReady | src/nbdmux/server.py:845-874 | without a crash the new row has been picked up at a halt if and only if no job of the name in flight at the registration is carried to its ready write |
| WarmRegistration.FailedWarmDoesNotShadowANewRegistration | src/nbdmux/server.py:793 | after an older warm has failed the new row, it has been picked up at a halt if and only if no crash came before |
| WarmRegistration.ReadyRowIsNeverFetched | src/nbdmux/server.py:786-795 | over every run a row that is ready or was interrupted is not taken up again until it is registered again, however often it is queued |
| WarmOverlap.SuccessfulWarmShadowsANewRegistration | src/nbdmux/server.py:869-874 | a warm that succeeds marks a newer row of the name ready; in every later run the new source is never fetched |
| WarmOverlap.ShadowedRowHasTheOldImage | src/nbdmux/server.py:1164-1167 | all that time its file is the complete image of the old source, or missing |
| WarmOverlap.FileRowStaysReadyIff | src/nbdmux/_api.py:280-289 | a registered file stays ready over every run within its generation if and only if no warm of the name was in flight that goes on to write another status |
| WarmOverlap.MkdirFailureLosesTheWarm | src/nbdmux/server.py:781-784 | a failure to make the directory leaves a queued row that in no run without a crash or a new registration is taken up |
| WarmDeletes.WarmedRowIsSafeIffNoDeleteIsLate | src/nbdmux/_api.py:376-383 | with room in the port window, a warmed row with the right bytes keeps them in every run that does not register or delete it if and only if no older delete of the name is still to unlink |
| WarmWitnesses.AWarmCanBeLost | src/nbdmux/server.py:835 | a run without a crash to a halt with a queued row |
| WarmWitnesses.ACrashCanLoseARegistration | src/nbdmux/server.py:486-490 | a run to a halt after a restart with a failed row whose source was never fetched |
| WarmWitnesses.AnInterruptedRowIsSkipped | src/nbdmux/server.py:793-795 | a run to a halt after a restart with a row that is still fetching |
| WarmWitnesses.AFileRowCanFail | src/nbdmux/server.py:461-465 | a run without a crash to a halt with an operator's file failed |
| WarmWitnesses.AWarmCanBeShadowed | src/nbdmux/server.py:461-465 | a run to a halt with a ready row whose file is the image of another source |
| WarmWitnesses.ADeleteCanTakeANewImage | src/nbdmux/_api.py:376-387 | a run to a ready row whose image is gone |
| WarmWitnesses.APortCanStayUnadvertised | src/nbdmux/server.py:389-404 | a run to a halt with a served export whose port column is empty |
| WarmWitnesses.AReadyRowCanStayUnserved | src/nbdmux/_api.py:288-289 | a run to a halt with a ready row that is not served |
| WarmWitnesses.AChildCanServeAnOldFile | src/nbdmux/server.py:1367-1370 | a run to a halt with a child that serves another file than its row says |
| WarmWorker.Warmer.Enqueue | src/nbdmux/server.py:764-771 | appends the name unless it is already queued, so no name is queued twice |
| WarmWorker.Warmer.FetchAndDecompress | src/nbdmux/server.py:1041-1167 | a run of the step system that returns normally exactly if the format is supported and start and exit codes allow, and then the destination has the source's bytes, decompressed by the program of the format |
| WarmWorker.Warmer.PickUp | src/nbdmux/server.py:786-834 | yields source, format and destination of the row exactly if it is queued or failed, has a source and the cache is configured; fails a queued or failed row otherwise with the reason that applies, and leaves every other alone |
| WarmWorker.Warmer.Abort | src/nbdmux/server.py:847-856 | removes both files and leaves the row failed with this reason, and every other column and row as it was |
| WarmWorker.Warmer.Publish | src/nbdmux/server.py:869-898 | the row is ready and only ready rows are served, all of them unless a child fails to start |
| WarmWorker.Warmer.Warm | src/nbdmux/server.py:836-884 | the row ends ready exactly if the fetch went well, with its image and size, otherwise failed without files |
| WarmWorker.Warmer.Process | src/nbdmux/server.py:786-898 | one queued name: a run of the step system that leaves its row ready or failed |
| WarmWorker.Warmer.RunUntilIdle | src/nbdmux/server.py:773-784 | the worker loop terminates on an empty queue with every row ready or failed, up to interrupted and stranded ones, and no warmed row with a wrong image |
| ControlPlane.PostExport | src/nbdmux/_api.py:233-345 | rejects exactly the unacceptable bodies, without effect; queues or serves the others with every column as posted, and says exactly when the file served is the one posted |
| ControlPlane.UiCreateExport | src/nbdmux/_app.py:514-572 | queues the export derived from the source, read-only and with every column as given, or does nothing |
| ControlPlane.DeleteExport | src/nbdmux/_api.py:349-389 | the row is gone, what is served is what is ready, the image of a warm is removed unless the reload raised, an operator's file never |
| ControlPlane.Lifespan | src/nbdmux/_app.py:177-184 | serves exactly the ready rows and enqueues exactly the pending ones, each once |
| NetbootBundle.ArtifactsNeverMix | src/nbdmux/server.py:957-1031 | with complete clearings, crashes and deletes anywhere, the artifacts are part of one bundle |
| NetbootBundle.ABundleCanBeMixed | src/nbdmux/server.py:957-962 | a run that installs the manifest of a new bundle with a file of an old one |
| NetbootBundle.SwapInstalls | src/nbdmux/server.py:1014-1031 | over every run the rename takes effect exactly over an emptied target and otherwise moves nothing; what it installs contains the manifest, and is the new bundle exactly if no leftover file survived |

## Left out

- Request parsing, authentication of requests, templates, redirects, flash messages and the settings table: plumbing without state of interest.
- The catalog and client code, `_detect_format` and the URL parser: their results are parameters; the normaliser starts from the basename.
- Processes of the host: curl, tar, decompressors and nbdkit are reduced to the bytes they write, their exit codes and whether a child lives; a pipeline's output is fixed when it starts.
- Leftover processes of a crashed daemon: a crash is taken to end its downloads too.
- File-system errors that the code suppresses: removing a managed file is taken to succeed; removals of bundle directories are not.
- Store writes are taken to succeed, and the progress watcher to stop before the final write.
- The port writes inside one reload happen in one step of the system, together with the reload.
- The order of listed rows: every order is covered, so ORDER BY name is not modelled.
- Timestamps, `bytes_total`, progress percentages, schema rotation, the probe export and the event emission of the worker.
- Graceful shutdown of the worker is covered by the crash step, which may come at any point.
- Running the supervisor without a store is not modelled.
- The JSON endpoint's removal of a bundle directory is a step of NetbootBundle, not of the warm system; the bundle stage is one step there.
- The artifacts of a UI delete stay in place, as the code leaves them.
- Name and source checks of a request happen before its first step, so a file that disappears between check and upsert is not modelled.
- `parse_sort`, `build_query_string`, the decompressor argv table and dashboard counts: one-branch facts.
- The event filter is an arbitrary predicate: the meaning of LIKE and of free text is not modelled.
- The `default_per_page` parameter of `parse_pagination`: no caller passes one.
- Strength of the MAC and of password comparison: no claim.
- WarmDeletes.WarmedRowIsSafeIffNoDeleteIsLate: assumes that the window has room for the ready exports, because a late delete whose own reload raises never reaches its unlink.
- WarmBytes.WarmedRowsAreFaithful: assumes that registered names and operator files keep the managed paths disjoint, which DerivedNamesAreClean proves for derived names.
- WarmPorts.PortColumnAgreement: says nothing about names that are not running, whose column may be stale after a failed respawn.
