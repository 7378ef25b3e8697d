# libdevmgr and list.h, modelled and verified in Dafny

This project models the device manager in `jni/libdevmgr` and the intrusive list in
`jni/include/list.h`, and proves what their protocols keep.

| file | what it models |
|---|---|
| `Scheduler.dfy` | the command scheduler of `SmartDeviceAdb` as a labelled transition system: one label is one lock-protected region, one semaphore operation or one callback; any number of devices and of threads that queue commands, worker pools up to 1, 1, 4 and 2 threads |
| `SchedulerInvariant.dfy` | locks, and one token for each (device, queue) pair |
| `SchedulerRefs.dfy` | reference counts and the life of a device; the destructor's flush |
| `SchedulerCommands.dfy` | each queue refines a sequential first-in first-out server |
| `SchedulerRecords.dfy` | the story of one command record |
| `SchedulerWake.dfy`, `SchedulerPosts.dfy` | wake-ups, enough posts for shutdown, and the books of each semaphore |
| `SchedulerOrder.dfy` | the order in which devices are served, and where a command runs |
| `SchedulerRuns.dfy` | the invariant over all runs and its theorems |
| `SchedulerFates.dfy` | what one step does to the fates of the records |
| `SchedulerFuel.dfy` | the fuel of a state, which every step without new work uses up |
| `SchedulerProgress.dfy`, `SchedulerFinish.dfy` | the scheduler's own threads can go on until every command is done, or after quit every worker has left; runs without new work are bounded and end there |
| `SchedulerShutdown.dfy` | which commands are lost at shutdown |
| `RequestRows.dfy`, `RequestRuns.dfy`, `RequestResults.dfy`, `RequestProgress.dfy` | the request table of `CmdTableMod` as a second machine on top of the scheduler, its runs, its results and its progress |
| `BufferItem.dfy`, `PduStream.dfy`, `TransStreamHandler.dfy` | the byte buffer, the wire format as pure functions with a whole-stream parser, and the incremental decoder and the encoder working in place |
| `PObject.dfy`, `Reconcile.dfy`, `DeviceCenter.dfy`, `AdbDeviceMon.dfy` | reference-counted objects, matching an old list against an enumeration, the device and observer lists, and the ADB monitor that reconciles them |
| `MtpDeviceMon.dfy`, `MtpMarks.dfy`, `MtpReplug.dfy` | MTP records handed out by count while they are reconciled; when they are marked and go; which of several records with one id is handed out |
| `CommonServer.dfy`, `CommonServerRuns.dfy`, `CommonServerEnds.dfy` | client records between accept thread, mux thread, cleanup thread and `Unload`; when a session ends |
| `AdbCmd.dfy`, `MiscUtils.dfy`, `AdbCmdEnumDev.dfy` | collecting a child's output, the text scanners, the parser of `adb devices` |
| `IntrusiveList.dfy` | the circular list on the heap, refined to sequences |
| `Basics.dfy`, `Sums.dfy` | definitions shared by the modules |

Protocols between threads (scheduler, request rows, client records, MTP records) are state machines on
values; their theorems speak about every reachable state or every step of every run. Code that works in
place (buffers, decoder, encoder, parsers, registries, the list) is classes and methods with loops,
proved against functions or sequences about which the lemmas speak. The MTP monitor is both: its methods
are proved to do exactly the steps of its state machine.

## What the code does that its promises do not say

- A message arrives if and only if its body has at most 988 bytes, whatever follows it: the frame room of
  1000 bytes includes the header (`PduStream.ArrivesIff`).
- A device id of 64 bytes or more fills its field of a message without a NUL, so that its end cannot be found
  in the field (`StreamHandler.BodyTellsDevice`).
- A command that prints nothing leaves its output buffer as it was. What a parser then reads in a buffer
  that was used before is the child's output if and only if the child printed something or the buffer began
  with a NUL (`AdbCmd.ProcessChildOutput`, `jni/libdevmgr/dev/AdbCmd.cpp:303-333`). After an `adb devices`
  listing a silent run therefore yields the old devices again (`AdbCmdEnumDev.SilentRunRepeats`, and for the
  method itself `AdbCmdEnumDev.CollectTwice`; one such input is `AdbCmdEnumDev.SilentRunRepeatsListing`). The
  byte is indeterminate if the buffer was allocated for that very run.
- The device parser reserves a slot for every line it reads, device or not. The slots suffice if and only
  if there are at most 128 lines or the first 128 are all devices (`AdbCmdEnumDev.SlotsSufficeIff`).
- An MTP record marked for removal keeps its mark when its device is enumerated again. In every run and
  until the next enumeration such a record is dropped, although its device is plugged in, if and only if it
  was marked and there was a moment when none of its handles was out (`MtpDeviceMon.ReturnedIsLostIffMarked`,
  and a run that shows it, `MtpDeviceMon.ReturnedDeviceIsLost`).
- A device plugged in again at another place while its old record is in use gets a new record behind the
  marked one, and GetMtpDevice takes the first with the id. It hands out the handle of a device that is gone
  if and only if such a record with the id is still in use and none with the id was found again
  (`MtpReplug.GetIsStaleIff`, and a run that shows it, `MtpReplug.ReplugGetsStale`).
- A command can be lost at shutdown: a worker that finds the quit flag set leaves without looking at its
  list, and nobody is ever called back. When all workers have left, every accepted command is done if and
  only if all lists are empty and no caller is about to put a device on one; at the time the flag is set
  that is decided by whether each list that is not empty has a worker past its test of the flag
  (`SchedulerShutdown.DoneIffUnlisted`, `SchedulerShutdown.DoneIffCovered`, and a run that loses a command,
  `SchedulerShutdown.CommandIsLost`).
- A stream is aborted if and only if, behind messages that fit, a header declares more than 988 bytes and
  more than 988 of them have arrived (`PduStream.AbortsIff`).
- The comment at `jni/libdevmgr/net/CommonServer.cpp:283` says only the cleanup thread removes list
  items. `Unload` does too, but only after that thread has ended, so the conclusion stands.

## Model

| member | source | states |
|---|---|---|
| SchedulerRuns.RunInv | jni/libdevmgr/dev/SmartDeviceAdb.cpp:104-173 | every state of every interleaving satisfies the whole invariant: locks, tokens, counts, queues, records, wake-ups |
| SchedulerRuns.OneToken | jni/libdevmgr/dev/SmartDeviceAdb.cpp:294-301 | a (device, queue) pair with commands queued or `_bRunning` set has exactly one list entry or worker, any other pair none, outside the window between push and `Request`; no device is on a list twice |
| SchedulerRuns.RequestFindsNoEntry | jni/libdevmgr/dev/SmartDeviceAdb.cpp:114-120 | the already-in-queue branch of `Request` is unreachable |
| SchedulerRuns.CountIsHolders | jni/libdevmgr/comm/PObject.cpp:20-53 | a device's count is always the number of its holders, and it is destroyed once, when it is gone from both registries and nobody holds it |
| SchedulerRuns.NeverTouchesTheDead | jni/libdevmgr/dev/SmartDeviceAdb.cpp:152-168 | every step that works on a device finds it alive with a count above zero |
| SchedulerRuns.DestructorCancelsNothing | jni/libdevmgr/dev/SmartDeviceAdb.cpp:191-203 | the step that destroys a device finds its four queues empty, so its flush calls nobody back |
| SchedulerRefs.FlushCancelsNothing | jni/libdevmgr/dev/SmartDeviceAdb.cpp:306-331 | a step with the destructor's flush is the step without it, apart from the device record |
| SchedulerRuns.SlotIsFifoServer | jni/libdevmgr/dev/SmartDeviceAdb.cpp:333-361 | commands of one pair start in the order they were queued, end before the next one starts, and are deleted in that order; what was accepted and not started is exactly the queue |
| SchedulerCommands.ServerIsFifo | jni/libdevmgr/dev/SmartDeviceAdb.cpp:333-361 | a log the sequential server accepts has that order |
| SchedulerRuns.RecordStory | jni/libdevmgr/dev/SmartDeviceAdb.cpp:363-395 | a deleted record was queued once, taken off once, and saw OnCancelled alone, or OnExecuting and then one of OnExecuted and OnFailed; a record on its way has seen a beginning of that |
| SchedulerRuns.NoLostWakeup | jni/libdevmgr/dev/SmartDeviceAdb.cpp:122-131 | a non-empty list implies a post waiting, a producer about to post, or a worker that will look again |
| SchedulerPosts.PostsAreExact | jni/libdevmgr/dev/SmartDeviceAdb.cpp:122-131 | in every state of every run, for each queue: wake-ups taken and posts still waiting are the posts made; a caller posts once for each device put on an empty list and otherwise not; `Cleanup` posts once for each thread of the pool |
| SchedulerOrder.ServedInOrder | jni/libdevmgr/dev/SmartDeviceAdb.cpp:122-162 | in every run the devices a queue was asked to serve are, in order, those its workers took off the list, then those still on it |
| SchedulerOrder.RunsWhereQueued | jni/libdevmgr/dev/SmartDeviceAdb.cpp:333-361 | in every run a callback of a command comes after it was queued, from a worker of the queue asked for that has the device its caller was given |
| SchedulerWake.KeepWakeful | jni/libdevmgr/dev/SmartDeviceAdb.cpp:72-86 | every step keeps that, and after quit there are posts for all workers that may still wait |
| SchedulerFinish.QuietIsBounded | jni/libdevmgr/dev/SmartDeviceAdb.cpp:72-102 | before quit or after it, a run without new work is no longer than the fuel it starts with |
| SchedulerProgress.WorkIsNeverStuck | jni/libdevmgr/dev/SmartDeviceAdb.cpp:152-168 | before quit, with a thread for every queue: while a command is queued or running, a worker or a caller inside `QueueCmd` can go on, whatever devices are plugged in |
| SchedulerProgress.StoppedIff | jni/libdevmgr/dev/SmartDeviceAdb.cpp:146-168 | these can go no further exactly where no queue has a command, no caller is inside, and all workers wait with no post left |
| SchedulerProgress.AllWorkGetsDone | jni/libdevmgr/dev/SmartDeviceAdb.cpp:333-395 | where they can go no further, every command ever accepted has had its terminal callback and is deleted |
| SchedulerFinish.QuietRunsFinish | jni/libdevmgr/dev/SmartDeviceAdb.cpp:104-173 | a run without new work is bounded, and if it ends where they can go no further, every command is done |
| SchedulerFinish.CanFinish | jni/libdevmgr/dev/SmartDeviceAdb.cpp:104-173 | from every reachable state before quit there is a run of their steps alone to where every command is done |
| SchedulerProgress.QueueCmdIsNeverStuck | jni/libdevmgr/dev/SmartDeviceAdb.cpp:294-304 | a caller with a device can queue any new command at once, unless another caller is inside for that queue, and then that one can go on |
| SchedulerProgress.ShutdownIsNeverStuck | jni/libdevmgr/dev/SmartDeviceAdb.cpp:72-102 | after quit, until every worker has left, a worker, a caller inside `QueueCmd` or the posting loop of `Cleanup` can go on |
| SchedulerShutdown.DoneIffUnlisted | jni/libdevmgr/dev/SmartDeviceAdb.cpp:91-98 | in any run, when all workers have left: every accepted command is done if and only if all lists are empty and nobody is between push and `Request` |
| SchedulerShutdown.DoneIffCovered | jni/libdevmgr/dev/SmartDeviceAdb.cpp:152-168 | with nobody in that window and no new work, it is decided when the flag is set: all commands will be done if and only if each list is empty or has a worker that is not about to test the flag |
| SchedulerShutdown.CommandIsLost | jni/libdevmgr/dev/SmartDeviceAdb.cpp:152-154 | a run in which the only worker leaves before it ever waited, and an accepted command stays queued |
| SchedulerInvariant.KeepTokensPush | jni/libdevmgr/dev/SmartDeviceAdb.cpp:294-301 | queueing keeps one token per pair, opening the window when the queue was idle |
| SchedulerInvariant.KeepTokensRequest | jni/libdevmgr/dev/SmartDeviceAdb.cpp:112-126 | `Request` turns the window into a list entry, which is not there yet |
| SchedulerInvariant.KeepTokensFetch | jni/libdevmgr/dev/SmartDeviceAdb.cpp:156-162 | popping hands the token to one worker |
| SchedulerInvariant.KeepTokensTake | jni/libdevmgr/dev/SmartDeviceAdb.cpp:341-360 | taking a command or leaving `Execute` keeps one token per pair |
| SchedulerRefs.KeepCounted | jni/libdevmgr/dev/DeviceCenter.cpp:75-135 | every step keeps count and holders equal, with list inserts awaiting their AddRef and erases awaiting their Release |
| RequestRuns.TableRunInv | jni/libdevmgr/db/CmdTableMod.cpp:207-269 | in every run each row fits where its command record is, although it is queued first and marked afterwards |
| RequestRuns.RowsOnlyAdvance | jni/libdevmgr/db/CmdTableMod.cpp:100-175 | in every step is_processing does not go down, is_done does not go back, and a result once written is not written again |
| RequestResults.ReportIsWritten | jni/libdevmgr/db/CmdTableMod.cpp:115-175 | in every step of every run: a result reported for a row, by the worker that executed, failed or cancelled its command (1223) or by the monitor that found no device or bad arguments, is written to that row and was not preceded by another; nothing else changes a result |
| RequestResults.ResultIff | jni/libdevmgr/db/CmdTableMod.cpp:115-269 | in every state of every run a row has a result if and only if just that one was reported for it before |
| RequestResults.ProbeFetches | jni/libdevmgr/db/CmdTableMod.cpp:183-202 | a probe fetches exactly the rows that are not done and not in process |
| RequestRuns.QueuedAtMostOnce | jni/libdevmgr/db/CmdTableMod.cpp:177-205 | no row is queued twice in a run |
| RequestRuns.IdleMeansAllDone | jni/libdevmgr/db/CmdTableMod.cpp:237-268 | with monitor and queues idle every row ever fetched is done and marked, whichever update came first |
| RequestProgress.QuietMovesAreBounded | jni/libdevmgr/db/CmdTableMod.cpp:177-205 | a run without new rows and new work from other callers is no longer than the fuel it starts with |
| RequestProgress.EveryRowGetsDone | jni/libdevmgr/db/CmdTableMod.cpp:177-269 | where monitor and scheduler can go no further by themselves, every row ever fetched is done and marked, whatever devices are plugged in |
| RequestResults.EveryRowPresentGetsDone | jni/libdevmgr/db/CmdTableMod.cpp:177-269 | every row that was in the table at a probe is done and marked wherever monitor and scheduler later can go no further |
| RequestProgress.RowsCanFinish | jni/libdevmgr/db/CmdTableMod.cpp:177-269 | before quit, moves of monitor and scheduler alone lead to where every row fetched so far is done and marked |
| Buffers.BufferItem.Alloc | jni/libdevmgr/comm/BufferItem.cpp:20-33 | never shrinks, and leaves empty headroom and content |
| Buffers.BufferItem.Expand | jni/libdevmgr/comm/BufferItem.cpp:35-53 | adds tailroom and keeps headroom and content |
| Buffers.BufferItem.Put | jni/libdevmgr/comm/BufferItem.cpp:76-91 | appends, within the allocation |
| Buffers.BufferItem.Push | jni/libdevmgr/comm/BufferItem.cpp:93-105 | prepends out of the headroom |
| Buffers.BufferItem.Pull | jni/libdevmgr/comm/BufferItem.cpp:107-117 | drops from the front |
| PduStream.ParseCut | jni/libdevmgr/net/TransStreamHandler.cpp:48-120 | a stream can be cut anywhere: parsing what was held and the rest gives what parsing the whole gives |
| PduStream.ChunkingDoesNotMatter | jni/libdevmgr/net/TransStreamHandler.cpp:48-120 | feeding chunks equals parsing their concatenation, for every way to cut it |
| PduStream.HeldIsHeld | jni/libdevmgr/net/TransStreamHandler.cpp:72-119 | what is carried over fits the frame room and parses to itself |
| PduStream.RoundTripOne | jni/libdevmgr/net/TransStreamHandler.cpp:122-138 | an encoded message of at most 988 bytes of body comes out first and unchanged, whatever follows |
| PduStream.ArrivesIff | jni/libdevmgr/net/TransStreamHandler.cpp:23-24 | a message comes out first if and only if its body has at most 988 bytes |
| PduStream.RoundTrip | jni/libdevmgr/net/TransStreamHandler.cpp:72-138 | any list of messages that fit, cut in any way, arrives as it was sent, and nothing is left over |
| PduStream.StreamIsWire | jni/libdevmgr/net/TransStreamHandler.cpp:72-119 | any stream at all is encoded messages that fit, exactly those delivered, and a tail without a complete frame |
| PduStream.FrameIsEncoded | jni/libdevmgr/net/TransStreamHandler.cpp:85-117 | a complete frame is, byte by byte, the encoding of the message it delivers |
| PduStream.KnownBytes | jni/libdevmgr/inc/GlobalDef.h:202-212 | two messages, every byte on the wire |
| PduStream.AbortsIff | jni/libdevmgr/net/TransStreamHandler.cpp:98-111 | a stream is aborted if and only if, behind messages that fit, an overlong body was declared and has arrived |
| PduStream.EndsIff | jni/libdevmgr/net/TransStreamHandler.cpp:88-94 | a stream is given up if and only if, behind messages that fit, a complete header has the wrong magic |
| PduStream.ClosedIsFinal | jni/libdevmgr/net/TransStreamHandler.cpp:88-94 | after that nothing is delivered until the next start |
| StreamHandler.Transfer | jni/libdevmgr/net/TransStreamHandler.cpp:36-138 | one handler sends messages that fit, another receives them in whatever chunks: those that went out whole arrive unchanged and in order, and without a failure nothing is left over |
| StreamHandler.TransStreamHandler.SendAll | jni/libdevmgr/net/TransStreamHandler.cpp:122-138 | sending until one fails puts a stream on the wire that parses to the messages sent whole, the part of the next one being held |
| StreamHandler.TransStreamHandler.OnRecvReady | jni/libdevmgr/net/TransStreamHandler.cpp:48-120 | one call makes exactly the ProcessPDU calls, carries over the bytes and ends the session as the whole-stream parser says for held bytes and chunk; nothing unconsumed is left unless it ended |
| StreamHandler.TransStreamHandler.Decode | jni/libdevmgr/net/TransStreamHandler.cpp:72-119 | the loop terminates for every buffer content and does that |
| StreamHandler.TransStreamHandler.DecodeStep | jni/libdevmgr/net/TransStreamHandler.cpp:74-118 | one round keeps the outcome and lowers (bytes to consume, bytes held) |
| StreamHandler.TransStreamHandler.Deliver | jni/libdevmgr/net/TransStreamHandler.cpp:104-117 | header fields are put in host order in place and the handler sees the frame's fields and body |
| StreamHandler.TransStreamHandler.ReceiveAll | jni/libdevmgr/net/TransStreamHandler.cpp:36-120 | all chunks of a session together give what the parser gives for their concatenation, and EndSession is called once or never |
| StreamHandler.TransStreamHandler.OnStarted | jni/libdevmgr/net/TransStreamHandler.cpp:36-41 | starts with nothing held and the headroom reserved |
| StreamHandler.TransStreamHandler.Send | jni/libdevmgr/net/TransStreamHandler.cpp:137 | however many bytes the socket takes at a time, the content goes out once and in order; if the socket fails, a front part of it went out, the rest is still in the buffer, and the failure is reported |
| StreamHandler.TransStreamHandler.SendPDU | jni/libdevmgr/net/TransStreamHandler.cpp:122-138 | the encoded message goes out that way, built in the headroom in front of the body, with the result of sending |
| StreamHandler.TransStreamHandler.SendDbMsg | jni/libdevmgr/net/MsgClient.cpp:130-157 | with a long-lived buffer reset behind the headroom a message goes out whose body has 68 bytes, device count 1, and the id with a NUL if it has less than 64 bytes, its first 64 bytes without one otherwise; without a connection nothing happens and that is reported |
| StreamHandler.TransStreamHandler.Notify | jni/libdevmgr/net/MsgServerHandler.cpp:70-85 | with a fresh buffer and reserved headroom a message with such a body goes out, too, whatever became of the sending |
| StreamHandler.BodyTellsDevice | jni/libdevmgr/inc/GlobalDef.h:214-219 | what is in the body, for ids of any length |
| StreamHandler.TransferDbMsg | jni/libdevmgr/net/MsgClient.cpp:130-157 | from `SendDbMsg` to the other side's `ProcessPDU`: a message that went out whole is delivered with code, parameter and such a body, one that did not is not |
| Objects.PObject.AddRef | jni/libdevmgr/comm/PObject.cpp:20-33 | counts up |
| Objects.PObject.Release | jni/libdevmgr/comm/PObject.cpp:35-53 | counts down and deletes exactly at zero |
| Reconcile.FindFirst | jni/libdevmgr/dev/AdbDeviceMon.cpp:223-230 | the search loop stops at the first record with the key, or at the end |
| Reconcile.MatchConserves | jni/libdevmgr/dev/AdbDeviceMon.cpp:219-243 | no old record is lost or used twice |
| Reconcile.MatchFits | jni/libdevmgr/dev/AdbDeviceMon.cpp:225-228 | a record reused for an enumerated key has that key |
| Reconcile.MatchCounts | jni/libdevmgr/dev/AdbDeviceMon.cpp:219-251 | for every key, duplicates included: left over old minus new, created new minus old, reused the smaller of both |
| DeviceCenter.DeviceCenter.OnDeviceAttached | jni/libdevmgr/dev/DeviceCenter.cpp:75-104 | appends the device, takes a reference and tells every observer, or reports that it exists and changes nothing |
| DeviceCenter.DeviceCenter.OnDeviceDetached | jni/libdevmgr/dev/DeviceCenter.cpp:106-135 | removes the device, drops the reference and tells every observer, or reports that it is unknown and changes nothing |
| DeviceCenter.DeviceCenter.RegisterObserver | jni/libdevmgr/dev/DeviceCenter.cpp:151-180 | adds the observer and tells it all present devices in order, or reports that it exists |
| DeviceCenter.DeviceCenter.UnregisterObserver | jni/libdevmgr/dev/DeviceCenter.cpp:182-203 | takes exactly the observer given out of the list, leaves the others in their order and all else as it was, and drops its reference; or reports that it is unknown and changes nothing |
| DeviceCenter.DeviceCenter.GetDevice | jni/libdevmgr/dev/DeviceCenter.cpp:205-228 | the first listed device with the id and one more reference, or none if there is none |
| DeviceCenter.ObserversKnowTheList | jni/libdevmgr/dev/DeviceCenter.cpp:75-203 | after any sequence of these calls, replaying what an observer was told since it registered gives exactly the device list |
| DeviceCenter.ListedIff | jni/libdevmgr/dev/DeviceCenter.cpp:75-205 | after any calls an observer is listed if and only if it was registered and not unregistered since, a device if and only if it was attached and not detached since |
| DeviceCenter.KeepCenterInv | jni/libdevmgr/dev/DeviceCenter.cpp:75-203 | each call keeps that, and keeps both lists free of duplicates |
| AdbDeviceMon.AdbDeviceMon.ProcessDevices | jni/libdevmgr/dev/AdbDeviceMon.cpp:211-252 | the list's ids become the enumeration in order, kept objects keep their references, new ones get one for each list, leftover ones lose both and die only without other holders, DeviceCenter is called once for each new and each leftover object, and both lists hold the same objects again |
| AdbDeviceMon.AdbDeviceMon.Obtain | jni/libdevmgr/dev/AdbDeviceMon.cpp:223-242 | the already-exists branch of DeviceCenter is not reached |
| AdbDeviceMon.AdbDeviceMon.DetachOne | jni/libdevmgr/dev/AdbDeviceMon.cpp:247-250 | nor is its not-found branch |
| AdbDeviceMon.AdbDeviceMon.Unload | jni/libdevmgr/dev/AdbDeviceMon.cpp:96-102 | every device is detached and both references are dropped |
| AdbDeviceMon.CallsAreTheDifference | jni/libdevmgr/dev/AdbDeviceMon.cpp:219-251 | for every id the attached objects are new minus old, the detached ones old minus new |
| AdbDeviceMon.ObserversAreToldTheDifference | jni/libdevmgr/dev/AdbDeviceMon.cpp:219-268 | what one reconciliation tells each observer is the new devices in the order of the enumeration, then the leftover ones, and nothing else |
| MtpDeviceMon.KeepInv | jni/libdevmgr/dev/MtpDeviceMon.cpp:105-282 | get, release and the phases of reconciliation keep: counts equal handles outside, one owner per handle, every record in one place, marked records in use |
| MtpDeviceMon.RunInv | jni/libdevmgr/dev/MtpDeviceMon.cpp:105-282 | so they hold in every state of every interleaving |
| MtpDeviceMon.ReleaseFindsItsRecord | jni/libdevmgr/dev/MtpDeviceMon.cpp:153-161 | the assertion in ReleaseMtpDevice never fires; the record found counts the handles outside |
| MtpDeviceMon.FreedWhenUnused | jni/libdevmgr/dev/MtpDeviceMon.cpp:164-169 | what a step frees has count zero and no handle outside |
| MtpDeviceMon.FreedOnce | jni/libdevmgr/dev/MtpDeviceMon.cpp:209-282 | every record ever created is listed, waiting to be opened, or freed, exactly one of these and once |
| MtpDeviceMon.MarkedIsInUse | jni/libdevmgr/dev/MtpDeviceMon.cpp:249-255 | whenever the lock is free a marked record has handles outside, as many as its count says |
| MtpMarks.MarkedIff | jni/libdevmgr/dev/MtpDeviceMon.cpp:243-258 | in any run, until the next enumeration: a listed record is marked if and only if it was not found, or was marked before; and then its handles are out |
| MtpMarks.GoesWithItsLastHandle | jni/libdevmgr/dev/MtpDeviceMon.cpp:161-169 | in any run, when a handle comes back its record is freed if and only if it is marked and that was the last one; otherwise it stays |
| MtpMarks.FoundHaveRecords | jni/libdevmgr/dev/MtpDeviceMon.cpp:220-241 | each place has as many records found again or new as it was found, and a new one has place and id of a device found |
| MtpMarks.OpenedIff | jni/libdevmgr/dev/MtpDeviceMon.cpp:262-277 | exactly the new records that got a handle stay, each with its own, and the others are freed |
| MtpDeviceMon.UnloadIffAllReleased | jni/libdevmgr/dev/MtpDeviceMon.cpp:89-97 | the assertion in Unload holds for all records if and only if all handles were released |
| MtpDeviceMon.ReturnedIsLostIffMarked | jni/libdevmgr/dev/MtpDeviceMon.cpp:164-169 | in any run and any state before the next enumeration, a record just enumerated is listed unless it had been marked and all its handles came back since; then it is not |
| MtpDeviceMon.ReturnedDeviceIsLost | jni/libdevmgr/dev/MtpDeviceMon.cpp:237-242 | a run in which that happens |
| MtpReplug.GetIsStaleIff | jni/libdevmgr/dev/MtpDeviceMon.cpp:115-122 | in any run, until the next enumeration, both ways: the handle given is that of a plugged-in record if and only if one with the id was found again, or a new one is listed and none that vanished is in use; it is that of a vanished one if and only if one with the id is in use and none was found again |
| MtpReplug.ReplugGetsStale | jni/libdevmgr/dev/MtpDeviceMon.cpp:279-281 | a run in which a replugged device has a new record and the old handle is given |
| MtpDeviceMon.MtpDeviceMon.GetMtpDevice | jni/libdevmgr/dev/MtpDeviceMon.cpp:105-142 | the method does exactly the step |
| MtpDeviceMon.MtpDeviceMon.ReleaseMtpDevice | jni/libdevmgr/dev/MtpDeviceMon.cpp:144-172 | the method does exactly the step |
| MtpDeviceMon.MtpDeviceMon.BeginProcess | jni/libdevmgr/dev/MtpDeviceMon.cpp:218-260 | both loops of the first locked region do exactly the step |
| MtpDeviceMon.MtpDeviceMon.OpenAdded | jni/libdevmgr/dev/MtpDeviceMon.cpp:262-277 | records that open stay, the others are freed |
| MtpDeviceMon.MtpDeviceMon.JoinAdded | jni/libdevmgr/dev/MtpDeviceMon.cpp:279-281 | opened records join the list behind the others |
| MtpDeviceMon.MtpDeviceMon.Unload | jni/libdevmgr/dev/MtpDeviceMon.cpp:75-102 | with all handles released, every record ever created ends up freed exactly once |
| CommonServerRuns.RunInv | jni/libdevmgr/net/CommonServer.cpp:75-299 | every state of every interleaving of accept, mux, cleanup and unload threads satisfies the invariant |
| CommonServerRuns.FreedAtMostOnce | jni/libdevmgr/net/CommonServer.cpp:157-167 | a freed record is freed once, its session is stopped, and no thread holds it |
| CommonServerRuns.UnloadFreesAll | jni/libdevmgr/net/CommonServer.cpp:75-109 | when Unload returns, every record ever created has been freed exactly once |
| CommonServerRuns.EndIsNotForgotten | jni/libdevmgr/net/CommonServer.cpp:261-281 | before quit an ended session still listed implies an event about to be posted or posted, a cleanup thread on its way to scan, or a scan that has yet to reach it |
| CommonServerEnds.EndedOnlyByEndSession | jni/libdevmgr/net/TransHandler.cpp:49-60 | in every run a session is over only if EndSession was called for it, and before quit a record is freed only after EndSession has posted for it |
| CommonServerEnds.RunsIffNotEnded | jni/libdevmgr/net/CommonServer.cpp:144-149 | before quit a session runs, and its record is listed, if and only if it was started and EndSession was not called for it |
| CommonServerEnds.ListAndPosts | jni/libdevmgr/net/CommonServer.cpp:144-146 | in every run clients are listed in the order of acceptance, and the event counts the posts of EndSession and Unload that have not woken the cleanup thread |
| CommonServer.KeepRemembered | jni/libdevmgr/net/TransHandler.cpp:49-60 | every step keeps that, because the flag is set before the post |
| CommonServerRuns.UnloadIsNeverStuck | jni/libdevmgr/net/CommonServer.cpp:81-94 | until Unload returns, one of the server's threads, or a callback about to post, can go on |
| CommonServerRuns.UnloadIsBounded | jni/libdevmgr/net/CommonServer.cpp:81-109 | after quit every step of any thread uses up a finite amount |
| AdbCmd.ProcessChildOutput | jni/libdevmgr/dev/AdbCmd.cpp:303-333 | any non-empty series of reads leaves its concatenation and a NUL, with every copy in bounds; a parser reads the output if and only if there was some or the buffer began with a NUL, otherwise what the buffer held |
| AdbCmdEnumDev.SilentRunRepeats | jni/libdevmgr/dev/AdbCmd.cpp:310-332 | after a listing of at most 128 lines and a run that prints nothing, the parser finds the listing's devices, though an empty output has none |
| AdbCmdEnumDev.SilentRunRepeatsListing | jni/libdevmgr/dev/AdbCmd.cpp:310-332 | one such input |
| AdbCmdEnumDev.CollectTwice | jni/libdevmgr/dev/AdbCmd.cpp:303-333 | the same for the method run twice on one buffer |
| AdbCmd.Append | jni/libdevmgr/dev/AdbCmd.cpp:322-327 | the buffer grows before chunk and NUL would not fit |
| AdbCmd.OutputIsAString | jni/libdevmgr/dev/AdbCmdEnumDev.cpp:30 | so a parser that reads up to the NUL sees the output up to its first NUL |
| MiscUtils.SkipCRLFs | jni/libdevmgr/comm/MiscUtils.cpp:81-96 | stops at the first byte behind the rest of the line and all line ends after it |
| MiscUtils.MatchStringBeginning | jni/libdevmgr/comm/MiscUtils.cpp:98-116 | searching and comparing the place succeeds exactly when the string begins with the match |
| MiscUtils.ParseUnquotedString | jni/libdevmgr/comm/MiscUtils.cpp:203-239 | finds the first delimiter if there is one, stores what is before it with a NUL, all of it or the first cbOut - 1 bytes, and writes nowhere else |
| AdbCmdEnumDev.ProcessResult | jni/libdevmgr/dev/AdbCmdEnumDev.cpp:24-72 | the result holds size, code, count and ids as the reference parser finds them; an assertion stops it exactly when more than 128 lines are read |
| AdbCmdEnumDev.ReadLines | jni/libdevmgr/dev/AdbCmdEnumDev.cpp:45-65 | the loop reads what the reference parser reads, every slot in bounds |
| AdbCmdEnumDev.ReadLine | jni/libdevmgr/dev/AdbCmdEnumDev.cpp:47-62 | one line goes into the next slot and leaves the others alone |
| AdbCmdEnumDev.ParsesEntry | jni/libdevmgr/dev/AdbCmdEnumDev.cpp:47-62 | a printed line is parsed to its id, to whether its state begins with "device", and to where it ends |
| AdbCmdEnumDev.ParseOfPrinted | jni/libdevmgr/dev/AdbCmdEnumDev.cpp:33-71 | any printed listing of at most 128 lines gives exactly the ids of its devices, in order, cut to 63 characters |
| AdbCmdEnumDev.SlotsSufficeIff | jni/libdevmgr/dev/AdbCmdEnumDev.cpp:33-64 | for listings of any length the slots suffice if and only if there are at most 128 lines or the first 128 are all devices |
| AdbCmdEnumDev.ListsTheDevices | jni/libdevmgr/dev/AdbCmdEnumDev.cpp:33-71 | wherever the slots suffice: the ids found are, in order, those of exactly the lines read whose state begins with "device", whole up to 63 bytes and their first 63 bytes beyond |
| AdbCmdEnumDev.EnumDevices | jni/libdevmgr/dev/AdbCmdEnumDev.cpp:24-72 | from the child's output to the result buffer: size, code, count and just those ids in the slots |
| AdbCmdEnumDev.CountIsBounded | jni/libdevmgr/dev/AdbCmdEnumDev.cpp:45-66 | for any text at all there are at most 128 ids, each fits its slot, and none is outside the slots reserved |
| IntrusiveList.AddBetween | jni/include/list.h:45-54 | inserts between two neighbours, the ring stays linked both ways |
| IntrusiveList.Add | jni/include/list.h:64-67 | prepends |
| IntrusiveList.AddTail | jni/include/list.h:78-81 | appends |
| IntrusiveList.Unlink | jni/include/list.h:84-88 | takes one entry out, the ring stays linked both ways |
| IntrusiveList.Del | jni/include/list.h:91-96 | takes the entry out and poisons it |
| IntrusiveList.DelInit | jni/include/list.h:99-103 | takes the entry out and makes it a ring of its own |
| IntrusiveList.Move | jni/include/list.h:106-110 | moves an entry to the front of another ring, or of its own |
| IntrusiveList.MoveTail | jni/include/list.h:113-118 | moves an entry to the end of another ring, or of its own |
| IntrusiveList.Empty | jni/include/list.h:121-124 | true exactly for the empty sequence |
| IntrusiveList.Splice | jni/include/list.h:154-158 | puts one list in front of the other |
| IntrusiveList.SpliceInit | jni/include/list.h:168-176 | and leaves the first one empty |
| IntrusiveList.EntryCount | jni/include/list.h:183-201 | terminates with the length; 0 for no list |
| IntrusiveList.RingIsFunctional | jni/include/list.h:45-201 | the pointers determine the sequence |
| IntrusiveList.NextAndPrevAreInverse | jni/include/list.h:45-201 | next and prev undo each other on every node and never leave the ring |
| IntrusiveList.CloseAllClient | jni/src/server.c:58-74 | every client is closed and freed once, in order, no freed node is read, and the list ends empty |

## Left out

- The scheduler, the request rows and the client records are state machines on values, not classes: their subject is the interleaving of threads, one label per atomic region; pointers are numbers.
- MTP records are values in the monitor's lists; two pointers to one record do not occur in the source.
- Program order inside one lock-protected region: such a region is one step; work between two regions that touches only a thread's own data is part of a neighbouring step.
- `FlushCmds` as a call of its own: it is only called from the destructor, and is modelled there.
- Assertions are taken as checks that stop the program; builds that compile them out are not modelled.
- Failing allocations, `Startup` and `Load` with their error paths, and the `catch` branches of `QueueCmd` and `CreateClientRec`.
- Widths of counters: reference counts, `int i` in `list_entry_count` and buffer sizes are unbounded; the 16-bit size field of a message and the 32-bit fields of messages and results are modelled.
- Sockets, `select`, pipes, `fork`, libmtp, SQL, JNI and libev: arbitrary inputs, or atomic steps that succeed. Each `ExecSql` is one atomic update of rows with unique ids.
- A socket read or a child's read delivers any bytes within the size asked for; error codes of a failing socket are one value.
- The mux thread's own list and wake-ups (`jni/libdevmgr/net/TransSockInst.cpp:63-199`), beyond that `Stop` waits for a running callback and that a suspended session gets no further one.
- `bReqDel` of a client record: nothing in the repository sets it.
- SchedulerFinish.QuietIsBounded: without new commands, as a caller that keeps queueing keeps the workers busy for as long as it likes.
- DeviceCenter.ObserversKnowTheList: for serialised calls only; a register and an attach at the same time may tell an observer twice, since the two locks are taken one after the other.
- SchedulerProgress.WorkIsNeverStuck: a thread that can go on is assumed to be run at some time, and each command to return; a queue whose threads could not be created is left out by the condition that every queue has one.
- SchedulerShutdown.DoneIffCovered: for a flag set while no caller is between push and `Request`; with one there it depends on who is faster, and only `DoneIffUnlisted` at the end applies.
- AdbDeviceMon.AdbDeviceMon.ProcessDevices: callers of `GetDevice` between its steps are not interleaved here; the scheduler machine does that for the counts.
- `DeviceCenter::Unload`, `OnDeviceStateChanged`, `UpdateDevicesState`, `ConvertArgs` and the tables of devices and apps.
- `ParseDWord`, `MatchStringEnd`, `MatchStringAnywhere`, the other `AdbCmd*` parsers, the hlist half of `list.h`, `list_empty_careful`, the other iteration macros, `RingBuffer`, and logging: easy members, or plumbing.
- Host byte order other than little-endian: the build is for 32-bit x86.
