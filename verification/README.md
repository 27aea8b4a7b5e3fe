# Flatpak bridge: a verified model

This project models the parts of the Dart/C++ Flatpak bridge whose correctness
depends on more than one function at a time, and proves what they promise.
`dafny verify dfyconfig.toml` checks all of it.

* **The child reaper** (`ChildReaper`, `ReaperProtocol`, `ReaperOwnership`,
  `ReaperSafety`, `ReaperTheorems`). The critical sections and the in-place
  compaction are methods of a class over mutable fields. Around them, every thread
  (any number of `add()` callers, the loop threads, detached waiters, the
  destructor) is a program counter of one step system. The kernel answers
  `pidfd_open`, `poll` and `waitpid` in every way it may. All theorems are about
  every schedule.
* **The queues** (`SerialQueue`, `TransactionWorker`). The same shape twice: mutex,
  condition variable, FIFO and shutdown. The older launch queue is `SerialQueue` with
  the kind `Launch`: it refuses nothing.
* **The codec** (`Bytes`, `BeveLite`, `GlazeIO`, `WireTypes`, `DartCodec`). A schema
  datatype, the format as a pair of functions over it, the growing C++ writer and the
  advancing C++ reader proved against the format, the registered structs as schemas,
  and the positional Dart decoders proved to invert the C++ writer.
* **Replies** (`Frames`, `Delivery`, `LaunchTarget`, `StopRequest`). Frames, error
  text, the list, launch and stop requests from the native side to the Dart future.
* **Remote changes** (`RemoteConfig`). Dart encoder, C++ decoder and `apply_config` as
  one operation on a remote.
* **Processes** (`ProcStat`, `PidSafety`, `ChildPid`). The `/proc/<pid>/stat` scanner,
  signalling under pid reuse, and the polling for a child pid.
* **Permissions** (`PermissionStore`, `PermissionFlow`, `PermissionRuns`,
  `LaunchPermissions`). The store client, the prompt bookkeeping, and every
  interleaving of concurrent launches, answers, `close` and other writers.
* **The host listing** (`HostPs`, over `Splitting` and `Decimal`).

`Wrappers`, `Counting`, `Splitting` and `Decimal` are support.

An exception, a null pointer or an error return is an `Option`, a `Result` or an
outcome. Text is a sequence of UTF-8 bytes where it crosses the bridge and a `string`
where only Dart or only `/proc` reads it. What libflatpak, the kernel, the clock, the
D-Bus service or the user answers is a parameter or an event.

Where the code and its own comments disagree the model follows the code:

* `native/include/flatpak_types.h:118-120` and `lib/src/remote.dart:136` say that an
  empty `filter` (and subset) clears the stored one. `apply_config` skips every empty
  string, so it is left alone, and it does nothing with subset at all
  (`RemoteConfig.BlanksClearNothing`; `RemoteConfig.PushWhole` says exactly when such
  a field arrives, and `RemoteConfig.MergeIsTwoPushes` what this means for merged
  change sets).
* `FlatpakTransaction.cancel()` (`lib/src/transaction.dart:38-40`) is documented as this
  transaction's own, without effect once it has completed. It is the worker's
  `cancel_current` (line 166): it hits whichever transaction the worker is at work on,
  up to and just after its final frame, and misses one still queued
  (`TransactionWorker.CancelReachesOwn`, `TransactionWorker.CancelHitsAnother`).
* `native/include/child_reaper.h:33-45` promises that a child given to `add()` is
  reaped. After a `poll` that fails other than by EINTR a child queued at that moment
  has no thread in charge of it until the next `add()` or the destructor
  (`ReaperTheorems.HardFailureStrands`, `ReaperTheorems.FailureStrandsWhatIsQueued`,
  `ReaperTheorems.NextAddRecovers`).
* `native/src/installation_reader.cpp:711-713` says that strtoull keeps a garbage start
  time from being accepted. It does unless field 22 is nothing but white space other
  than blanks, which the kernel never prints (`ProcStat.WhiteFieldIsSkipped`).

## Model

| member | source | states |
|---|---|---|
| ChildReaper.Reaper.Add | native/src/child_reaper.cpp:84-100 | under the mutex: a stopping reaper queues nothing and asks for a waiter; otherwise the child joins the tail of `pending_` and exactly the call that finds `running_` clear is told to start a loop |
| ChildReaper.Reaper.TakePending | native/src/child_reaper.cpp:113-122 | everything queued moves to the watched children in order; the loop goes on exactly when there is something to watch and no stop, and `running_` is cleared exactly when it does not |
| ChildReaper.Reaper.ReapSignalled | native/src/child_reaper.cpp:124-147 | the in-place compaction of an array computes the sweep: what is kept stays at the front, and the reaped, orphaned and closed children are those `ChildReaper.SweepIsStableFilter` describes |
| ChildReaper.SweepConserves | native/src/child_reaper.cpp:124-147 | for each child and any outcome of each wait: as many are kept, reaped or orphaned as were watched, and the closed pidfds are exactly those of the children dropped |
| ChildReaper.SweepIsStableFilter | native/src/child_reaper.cpp:124-147 | what becomes of each watched child, every list in the original order: kept are exactly those whose poll slot has zero revents, handed to a waiter exactly the others that the wait found still running, reaped exactly the rest, and closed exactly the pidfds not kept |
| ChildReaper.PolledSlotsAreOwn | native/src/child_reaper.cpp:154-190 | slot i + offset of a poll set built by the loop is the pidfd of watched child i, with and without the wake pipe |
| ReaperOwnership.Conservation | native/src/child_reaper.cpp:26-200 | in every reachable state, with any number of concurrent callers, hard poll failures and the destructor included: each child added has exactly one owner, and each opened pidfd is held once or has been closed once |
| ReaperSafety.Safety | native/src/child_reaper.cpp:75-200 | every reachable state satisfies the inductive invariant over tokens, both locks, the handle, the pipe and the queue |
| ReaperTheorems.OneLoop | native/include/child_reaper.h:72-84 | `thread_` is never assigned while joinable, only the newest loop can be alive, and `running_` is true exactly when the token is held, by one caller about to start a loop or by one live loop, never both and never two callers |
| ReaperTheorems.JoinCannotBlock | native/src/child_reaper.cpp:101-109 | a join in `add()` is ready, or becomes so by one step of the old loop that is enabled whatever locks are held and waits for no child |
| ReaperTheorems.PollSets | native/src/child_reaper.cpp:153-163 | in every run each loop polls its wake pipe and the pidfds of exactly its watched children |
| ReaperTheorems.SweepFollowsPidfds | native/src/child_reaper.cpp:124-190 | in every run a sweep goes by each child's own pidfd: it keeps, in order, exactly the children whose pidfd stayed quiet, closes every other pidfd, counts as reaped exactly those of the others that the wait collected, and detaches one waiter, that closes nothing, for exactly those still running |
| ReaperTheorems.PollLeadsTo | native/src/child_reaper.cpp:163-188 | in every run: a readable wake pipe is drained until it is empty before the sweep; an interrupted poll takes what is queued and polls again; only another failure ends the loop; and none of these lets go of a child |
| ReaperTheorems.NoLostWakeUp | native/src/child_reaper.cpp:67-190 | with a wake pipe: a loop at `poll` with a child queued or a stop requested can return at once, or the thread that owes it a wake-up can step, waiting for nothing |
| ReaperTheorems.QueuedChildrenAreServed | native/src/child_reaper.cpp:84-122 | as long as no poll has ever failed hard, a queued child always has a live loop or a caller about to start one |
| ReaperTheorems.HardFailureStrands | native/src/child_reaper.cpp:163-182 | a run whose hard poll failure leaves a queued child with no loop, no caller and no token |
| ReaperTheorems.FailureStrandsWhatIsQueued | native/src/child_reaper.cpp:167-174 | in every run, clearing `running_` after a hard failure leaves a child unattended if and only if one is queued at that moment |
| ReaperTheorems.NextAddRecovers | native/src/child_reaper.cpp:84-100 | in every run, failed polls or not, the critical section of an `add()` on a reaper that is not stopping leaves the queue with a live loop or a caller about to start one |
| ReaperTheorems.DestructorPhases | native/src/child_reaper.cpp:26-52 | in every run that respects the destructor's contract: from the stop request on no caller is active, after the join no loop is alive, after the swap nothing is pending, at the end nothing is left over |
| ReaperTheorems.DestructorWakesTheLoop | native/src/child_reaper.cpp:26-37 | while the destructor waits in its join for a loop at `poll`, the wake pipe lets that poll return |
| ReaperTheorems.LoopStepCounts | native/src/child_reaper.cpp:149-200 | once a stop is requested every step of a loop, failed and interrupted polls included, uses up one of a bounded number of steps |
| ReaperTheorems.JoinIsBounded | native/src/child_reaper.cpp:26-37 | in every run, from the stop request on and whatever else happens, the loop the destructor joins takes at most the steps its pipe bytes, its children and the queue allow, one wait for each child it holds |
| ReaperTheorems.JoinProgresses | native/src/child_reaper.cpp:26-37 | with a wake pipe, as long as the destructor waits in the join the loop has a step to take |
| ReaperTheorems.DestructorLeavesNothing | native/include/child_reaper.h:35-39 | when the destructor returns no loop is alive, every child ever added was reaped or is held by one detached waiter, and each pidfd ever opened was closed exactly once or is held by one waiter that closes it |
| SerialQueue.WorkQueue.Push | native/include/serial_queue.h:46-56 | the item is taken, last in the queue, if and only if the queue has not been stopped or is the launch queue; a refused one leaves the queue as it was |
| SerialQueue.PushIsTaken | native/include/serial_queue.h:46-56 | in the step system: a push that gets the lock is queued last if and only if the queue is not stopped or is the launch queue |
| SerialQueue.WorkQueue.TakeWork | native/include/serial_queue.h:85-101 | a stop takes the whole backlog before any further item is popped; else the oldest item is popped; else the worker sleeps |
| SerialQueue.WorkQueue.CancelBacklog | native/include/serial_queue.h:89-98 | the loop over the swapped queue hands every item to the cancel callback, in order |
| SerialQueue.History | native/include/serial_queue.h:46-106 | in every reachable state the accepted items, in order, are those that ran, the one in flight, those cancelled, those about to be and those queued; what ran is what the handler was called with; nothing is cancelled before the stop or beside a running item |
| SerialQueue.AnsweredExactlyOnce | native/include/serial_queue.h:58-74 | once any `stop()` has returned, accepted = ran ++ cancelled: each accepted item was answered exactly once and a refused one never |
| SerialQueue.PushAnswered | native/include/serial_queue.h:43-74 | a push that gets the lock before the stop is answered exactly once by the time any `stop()` returns, whatever happens in between, and a later one never |
| SerialQueue.LaunchAnswers | native/src/installation_reader.cpp:140-166 | whatever happens after it gets the lock, a launch is answered exactly once if the worker has not yet taken the backlog to cancel it, stop or no stop, and never if it has |
| SerialQueue.LaunchLeftUnanswered | native/src/installation_reader.cpp:600-611 | such an unanswered launch is reachable: `launch()` does not test the stop flag |
| SerialQueue.NoLostNotification | native/include/serial_queue.h:47-74 | a worker asleep with a stop or an item pending implies a pusher or stopper whose notification is still due and wakes it |
| SerialQueue.ShutdownIsBounded | native/include/serial_queue.h:58-106 | from the moment the stop flag is set, in any continuation, at most one more handler run begins and the worker takes at most a measured number of steps |
| SerialQueue.ShutdownProgresses | native/include/serial_queue.h:58-106 | until the stopped worker has exited, some thread can take a step that lowers that measure |
| TransactionWorker.Worker.TakeWork | native/src/transaction_bridge.cpp:158-168 | a stop wins over queued work and leaves the backlog; otherwise the head is popped and becomes the current transaction in one critical section |
| TransactionWorker.RunsInOrder | native/src/transaction_bridge.cpp:141-177 | in every reachable state transactions have started in submission order, each once, and all but the newest have been answered |
| TransactionWorker.CancelReachesTheRunningTransaction | native/src/transaction_bridge.cpp:149-175 | what `cancel_current` finds is the transaction being executed, whose cancellable nobody has released and which is no longer queued |
| TransactionWorker.CancelReachesOwn | native/src/transaction_bridge.cpp:149-173 | a transaction's own cancel reaches it if and only if it is executing or has just posted its final frame, never while it is queued; and it affects nobody else if and only if the worker is at work on no other |
| TransactionWorker.CancelHitsAnother | native/src/transaction_bridge.cpp:149-168 | a reachable state in which the cancel of a queued transaction hits another one |
| TransactionWorker.ReferencesDroppedOnce | native/src/transaction_bridge.cpp:174-175 | both references of a finished transaction were dropped exactly once; one left in the backlog keeps both and is unanswered |
| TransactionWorker.AnsweredIfStartedByTheStop | native/src/transaction_bridge.cpp:131-139 | what the destructor finds when it takes the lock decides: after the join, in every continuation, exactly the transactions started by then have been answered, each once |
| TransactionWorker.TransactionLeftUnanswered | native/src/transaction_bridge.cpp:156-164 | a reachable run that destroys the worker with submitted transactions nobody answers |
| TransactionWorker.NoLostNotification | native/src/transaction_bridge.cpp:131-147 | a sleeping worker with work or a stop implies a submitter or the destructor still owes the notification |
| Bytes.LittleEndianRoundTrip | native/include/glaze_meta.h:145-150 | an integer below 256^width is its little-endian bytes |
| Bytes.LittleEndianAt | native/include/glaze_meta.h:145-150 | byte i of an integer is its i-th from the low end |
| Bytes.SignedRoundTrip | native/include/glaze_meta.h:248-257 | two's complement: a negative value is written as itself plus 256^width, any other as itself, and a value in range survives the cast to unsigned and back |
| BeveLite.RoundTrip | native/include/glaze_meta.h:139-198 | for every schema and every value of it, reading what was written, followed by anything, gives the value and leaves exactly what followed |
| BeveLite.ReadIsLocal | native/include/glaze_meta.h:248-359 | a read that succeeds consumes the same bytes and gives the same value whatever follows them |
| BeveLite.TruncationIsRejected | native/include/glaze_meta.h:248-316 | every strict prefix of a written value is rejected |
| BeveLite.PrefixFree | native/include/glaze_meta.h:139-198 | no written value is a proper prefix of another, and equal bytes are equal values |
| GlazeIO.Writer.WriteValue | native/include/glaze_meta.h:143-198 | the growing buffer gains exactly the format of the value, at every nesting |
| GlazeIO.Reader.ReadValue | native/include/glaze_meta.h:248-359 | the advancing pointer gives the value and the rest the format says, and throws exactly when the format rejects |
| GlazeIO.ReadBinary | native/include/glaze_meta.h:382-391 | reports whether the read succeeded; `out` takes the value on success and is untouched on a throw |
| GlazeIO.WriteThenRead | native/include/glaze_meta.h:366-391 | a written value cut to any length reads back if and only if nothing was cut, and a cut one leaves `out` alone |
| DartCodec.BinaryReader.ReadString | lib/src/ffi/codec.dart:29-35 | positioned at a string the C++ writer wrote, gives its bytes and moves to the next field |
| DartCodec.BinaryReader.ReadUint64 | lib/src/ffi/codec.dart:55-59 | gives a written uint64 as a signed Dart int and moves to the next field |
| DartCodec.DecodeFlatpakRef | lib/src/ffi/codec.dart:110-120 | inverts the C++ writer for FpRef, at any offset and before any further bytes |
| DartCodec.DecodeInstalledApp | lib/src/ffi/codec.dart:126-149 | inverts the C++ writer for InstalledApp with its nested ref, the size as a signed int |
| DartCodec.DecodeInstance | lib/src/ffi/codec.dart:153-166 | inverts the C++ writer for FpInstance |
| DartCodec.DecodeInstallationInfo | lib/src/ffi/codec.dart:168-180 | inverts the C++ writer for FpInstallationInfo |
| DartCodec.DecodeMetadataEntry | lib/src/ffi/codec.dart:182-189 | inverts the C++ writer for FpMetadataEntry |
| DartCodec.DecodeFlatpakRemote | lib/src/ffi/codec.dart:195-214 | inverts the C++ writer for FlatpakRemoteInfo, naming the subset and the remote type |
| DartCodec.RemoteIsShown | lib/src/ffi/codec.dart:195-214 | every field of a remote is shown under its own name as it was sent, but for the subset and the type |
| DartCodec.RemoteNames | lib/src/remote.dart:45-50 | each subset has its own name on the wire, spelt out, and reads back from it; the types are 1 for system, 2 for static and anything else for user |
| DartCodec.DecodeTransactionProgress | lib/src/ffi/codec.dart:218-231 | inverts the C++ writer for TransactionProgress, byte counters as signed ints |
| DartCodec.DecodeRemoteMetadata | lib/src/ffi/codec.dart:246-260 | reads back exactly the entries, in order, of the counted list fetch_remote_metadata writes |
| DartCodec.NestedIsInline | native/include/glaze_meta.h:194-198 | a nested struct is written as its fields in place, which is what lets a positional decoder flatten it |
| Frames.Port.PostFramed | native/include/flatpak_post.h:65-72 | posts the discriminator followed by the payload, filled by index and copy |
| Frames.Port.PostFramedError | native/include/flatpak_post.h:75-82 | posts discriminator, 32-bit length and text, the length taken modulo 2^32 |
| Frames.ErrorArrives | lib/src/ffi/codec.dart:235-242 | the text Dart shows is the posted text exactly when it is shorter than 2^32 bytes, and otherwise its cut |
| Frames.CutErrorFrame | lib/src/ffi/codec.dart:235-242 | every strict prefix of an error frame is reported as "unknown error" or, once it has its length, "truncated error", never as text |
| Delivery.SizeArrives | lib/src/ffi/codec.dart:126-149 | an app is shown with the size it was sent with if and only if that is below 2^63, otherwise with 2^64 less, and all else as it was sent |
| Delivery.ListListener.OnMessage | lib/src/installation.dart:46-63 | for any message at all: nothing happens after the port is closed, a completer is completed at most once, a 0x01 frame adds its item, 0x02 fails with its text, 0xFF completes with the results so far |
| Delivery.Deliver | lib/src/installation.dart:39-71 | after any number of the reply's frames the future is pending with exactly the items so far; with the last it completes with exactly the items in order or the error text; what comes later changes nothing |
| Delivery.ListApps | native/src/installation_reader.cpp:168-204 | posts one frame per wanted ref in order and the sentinel, or one error frame |
| Delivery.SelectsInPlace | native/src/installation_reader.cpp:176-203 | the items come, in order, from exactly the refs that are apps, or from all of them when runtimes are included |
| Delivery.AppIsDescribed | native/src/installation_reader.cpp:176-203 | each field of the struct posted for a ref comes from the getter of its own name, a NULL string being empty |
| Delivery.ListApplications | lib/src/installation.dart:39-71 | native loop, frames and listener together: the future completes with exactly the wanted refs as Dart shows them, or with the error |
| Delivery.ListRunning | lib/src/installation.dart:418-446 | the future completes with exactly the enumerated instances in order, and an enumeration that failed is an empty list |
| LaunchTarget.Scan | native/src/installation_reader.cpp:522-546 | despite the early break: a ref is found if and only if an installed app of that name meets both hints, and it is the preferred one (first of the default arch when the arch is open and one exists, else the first); a match passed over before it is of another arch, with the arch open |
| LaunchTarget.PreferredIsUnique | native/src/installation_reader.cpp:522-546 | the hints and the list single out one ref |
| LaunchTarget.ResolveLaunchTarget | native/src/installation_reader.cpp:492-546 | the current app if it meets the hints, else the preferred ref; found if and only if there is one; the error is set only when the list could not be read |
| LaunchTarget.SelectTarget | native/src/installation_reader.cpp:613-640 | the arch launched is the arch argument if that is given and not empty, the branch likewise, the commit too; both come from one ref; something is tried if and only if both are given, the current app meets what is given, or some installed app of that name does, where an argument that is null or empty excludes no ref; an unreadable installation is told from a missing app |
| LaunchTarget.LaunchListener.OnMessage | lib/src/installation.dart:326-358 | the instance is kept until 0xFF completes with it, or with an error when none came; 0x02 and 0x03 fail with their own exceptions |
| LaunchTarget.Launch | lib/src/installation.dart:308-369 | selection from the arguments as they were given, frames and listener together: pending until the last frame, then the spawned instance or the reason there is none |
| LaunchTarget.LaunchFailures | native/src/installation_reader.cpp:624-655 | the words and the exception of each failure: a missing app, an unreadable installation, a launch libflatpak refused with or without a message |
| StopRequest.SignalAll | native/src/installation_reader.cpp:841-886 | something matched if and only if a running instance of the app exists, something was signalled if and only if one of them has a pid and was reached, and the pids tried are the targets in order |
| StopRequest.TargetsExactly | native/src/installation_reader.cpp:850-871 | a pid is signalled if and only if it is positive and is the child pid if that is positive, else the outer pid, of a running instance of this app |
| StopRequest.StopApp | lib/src/installation.dart:380-411 | stop completes if and only if the signalling call returned true for some running instance, and otherwise reports, word for word, whether there was none or none could be signalled |
| StopRequest.StopReaches | native/src/installation_reader.cpp:810-886 | a stop that completes has signalled some running instance of the app with a pid; if its call opened a pidfd, SIGTERM went to the process it pinned, and with the start time read that is the owner of the pid |
| RemoteConfig.EncodeRemoteConfig | lib/src/ffi/codec.dart:265-281 | the Dart encoder writes exactly what the C++ writer would write for the struct the change set stands for |
| RemoteConfig.DecodeConfig | native/src/user_remote_bridge.cpp:80-86 | an empty or unreadable buffer decodes to the defaults |
| RemoteConfig.FlatpakRemote.ApplyConfig | native/src/user_remote_bridge.cpp:36-78 | the guarded setters together are one overlay: each field is its new value or its old one, subset always its old one |
| RemoteConfig.PushModify | native/src/user_remote_bridge.cpp:36-86 | encode, decode and apply: the whole buffer changes exactly the fields set and not empty (the priority: not negative in 32 bits), a buffer cut anywhere changes nothing |
| RemoteConfig.OverlayTwice | native/src/user_remote_bridge.cpp:36-78 | pushing one effect and then another is pushing their field-wise override |
| RemoteConfig.MergeIsTwoPushes | lib/src/ffi/codec.dart:265-281 | one push of a merged change set equals the two pushes on every remote if and only if the second blanks no field the first had set |
| RemoteConfig.PushWhole | native/src/user_remote_bridge.cpp:36-86 | end to end: each text that is set shows on the remote as given if and only if it is not empty and has no NUL, or is empty where there was nothing to clear; one that is not set stays; each flag that is set and a key that is not empty arrive as their own; and the subset is never touched |
| RemoteConfig.BlanksClearNothing | native/include/flatpak_types.h:118-120 | pushing an empty filter and no subset, all the way, onto a remote that has both clears neither |
| RemoteConfig.PriorityArrives | lib/src/ffi/codec.dart:88-91 | a priority arrives as given if and only if it is in [0, 2^31) |
| ProcStat.ScanFields | native/src/installation_reader.cpp:699-726 | the pointer loop ends, reads the number at the start of the twentieth field if there is one, and fails if there are fewer |
| ProcStat.ReadStartTime | native/src/installation_reader.cpp:687-728 | equals the declarative field 22: the twentieth field after the last closing parenthesis |
| ProcStat.StartTimeOfStat | native/src/installation_reader.cpp:695-728 | for every comm, with spaces and parentheses, and every tail of tokens: the scanner reads the twentieth token, or fails when there are fewer |
| ProcStat.StartTimeIsTheField | native/src/installation_reader.cpp:708-722 | a field 22 that does not start with white space is read as what it says, and is a failure if and only if it has no digits after an optional sign or they reach 2^64 |
| ProcStat.StartTimeRoundTrip | native/src/installation_reader.cpp:708-722 | a printed decimal is read back if and only if it is below 2^64 |
| ProcStat.SignedNumerals | native/src/installation_reader.cpp:714-718 | a plus sign changes nothing, a minus sign negates modulo 2^64, and neither is a failure below 2^64 |
| ProcStat.StrtoullOfField | native/src/installation_reader.cpp:709-718 | strtoull sees the rest of the line: it reads the field's own numeral unless the field is nothing but white space, and then whatever follows |
| ProcStat.WhiteFieldIsSkipped | native/src/installation_reader.cpp:708-722 | the input where a field without digits is not a failure: a field 22 of white space other than blanks is skipped and field 23 is read instead |
| ProcStat.TabIsAToken | native/src/installation_reader.cpp:709-718 | the smallest such field, a single tab: it is a token, it holds no digits, and strtoull on the line gives the next field |
| PidSafety.PidReuseSafety | native/src/installation_reader.cpp:747-839 | in every interleaving with exits and recycled pids: once the start time was read, signals reach only the process that had the pid at that read; SIGKILL comes only after SIGTERM and the grace period; the pidfd is closed once; by way of the pidfd the call returns true exactly when its SIGTERM was sent |
| PidSafety.OwnerIsStopped | native/src/installation_reader.cpp:747-829 | in every run whose calls all work and whose process is not reaped before it is signalled: when the call is over it has returned true, the owner of the pid has been sent SIGTERM, and SIGKILL too if and only if the grace period ran out |
| PidSafety.FourCallsSignal | native/src/installation_reader.cpp:810-829 | for any pid that is in use such a run exists: four calls that work send SIGTERM to its process and the result is true |
| PidSafety.ThreeStepsKill | native/src/installation_reader.cpp:747-771 | a signalled process still running when the grace period ends is sent SIGKILL and the pidfd is closed |
| PidSafety.SafeExactlyWithStartTime | native/src/installation_reader.cpp:810-829 | every continuation is safe if and only if the start time could be read: without it a recycled pid gets the signal |
| ChildPid.LookUp | native/src/installation_reader.cpp:565-579 | the child pid of the entry with the least index among those with the id, and none exactly when there is no such entry |
| ChildPid.SleepsAreFew | native/src/installation_reader.cpp:589-597 | for any budget and cap, a back-off stays within the budget and has at most the doublings up to the cap plus one sleep per cap's worth of budget |
| ChildPid.ThirteenAtMost | native/src/installation_reader.cpp:555-597 | with the cap of the code and any budget from 448 to 511 ms, the budget is spent after the thirteenth sleep and not before |
| ChildPid.Poll | native/src/installation_reader.cpp:555-598 | for every sequence of probes: polling ends at the first probe that shows a child pid, shows the instance gone or finds the reader closing, or when the budget is spent; a positive pid is what that probe showed; there is one sleep between two probes, each the doubled delay or what is left of the budget |
| ChildPid.RereadChildPid | native/src/installation_reader.cpp:555-598 | with the constants of the code: at most 13 sleeps, 14 probes and 500 ms; no probe before the last shows a child pid or the reader closing, and once one has seen the instance the later ones do |
| ChildPid.ReportInstance | native/src/installation_reader.cpp:657-681 | the instance is reported as spawned but for its child pid: one that is missing becomes what polling by the instance id finds, the pid of the first probe that shows one or 0; one that is there, or has no id to poll by, is left alone |
| ChildPid.SeenMeans | native/src/installation_reader.cpp:563-579 | a probe sees the instance if and only if the enumeration worked and lists its id, and shows the child pid of the first such entry |
| PermissionStore.Portal.SetThenGet | lib/src/portal/permission_store.dart:22-39 | a status written to the store is stored as "yes", "no" or "ask", or as nothing, and read back as itself, notSet included; every other entry stays what it was |
| PermissionStore.KeysAreDistinct | lib/src/portal/permission_store.dart:261-268 | no two resources share a key of the batched check |
| PermissionStore.PermissionsHaveOwnEntries | lib/src/portal/permission_store.dart:52-62 | where each permission lives, spelt out; two permissions, of any apps, share an entry only if they are the same one, and background never does |
| PermissionStore.Portal.Get | lib/src/portal/permission_store.dart:115-127 | the first string of the stored list decides: "yes", "no" and "ask" are granted, denied and ask, and nothing else is any of them |
| PermissionStore.Portal.Check | lib/src/portal/permission_store.dart:253-276 | on a fixed store the batched check equals one lookup per permission, and each resource is looked up once |
| PermissionStore.Portal.RemoveAllForApp | lib/src/portal/permission_store.dart:278-291 | afterwards no permission of the app, by any name, is set; every other entry of every app is unchanged |
| PermissionFlow.IdsAreDistinct | lib/src/portal/permission_flow.dart:149-149 | two request ids are equal only if their sequence numbers are, whatever the names contain |
| Decimal.PrintAppends | lib/src/portal/permission_flow.dart:149-149 | a number in an id prints as its decimal digits, the last one at the end |
| PermissionFlow.PermissionFlow.Request | lib/src/portal/permission_flow.dart:143-162 | a fresh id becomes pending with an uncompleted completer, even when the closed stream then refuses the request |
| PermissionFlow.PermissionFlow.Respond | lib/src/portal/permission_flow.dart:106-108 | completes exactly the prompt with that id, once; an unknown id changes nothing |
| PermissionFlow.PermissionFlow.Close | lib/src/portal/permission_flow.dart:166-172 | the loop cancels exactly the pending prompts and leaves none pending |
| PermissionRuns.PermissionSafety | lib/src/portal/permission_flow.dart:105-173 | in every run: ids never repeat, no prompt is completed twice, each write was made by a call that read notSet and stores the answer to its own prompt, no prompt is written twice, and every status in every result is justified |
| PermissionRuns.NoCallIsStranded | lib/src/portal/permission_flow.dart:117-173 | in every run a waiting call can be answered by its id while the flow is open, and no call is left waiting once it is closed |
| PermissionRuns.PromptDecides | lib/src/portal/permission_flow.dart:123-143 | whatever happens after a prompt is answered or cancelled, its permission resolves to that answer, or to ask; a cancelled prompt is never written, and its call has got past it or still has to resume, and cannot fail there |
| PermissionRuns.CloseCancels | lib/src/portal/permission_flow.dart:166-172 | close turns every prompt that is waited for into a cancelled one and writes nothing |
| PermissionRuns.StoreIsAskedFirst | lib/src/portal/permission_flow.dart:117-132 | a call that asks the store returns a status that is set as it is; an unset one is ask when nobody listens, a prompt with its own id that can be answered when somebody does, and the end of the call on a closed flow; nothing is written |
| PermissionRuns.AnswerIsStored | lib/src/portal/permission_flow.dart:105-142 | end to end: answering a waiting prompt, resuming and persisting stores "yes" for a grant and "no" for a refusal at exactly the permission's entry of this app, puts granted or denied in the result and goes on to the next permission |
| PermissionRuns.CancelledIsAsk | lib/src/portal/permission_flow.dart:132-136 | end to end: after close the call goes on with ask for the permission it was at, and the store is as it was |
| LaunchPermissions.DerivePermissions | lib/src/portal/permission_flow.dart:40-84 | the derived list has no duplicates and holds a permission if and only if the metadata implies it |
| LaunchPermissions.WhatIsImplied | lib/src/portal/permission_flow.dart:55-81 | what each of the six permissions takes, by section, key and bus name, and that there is no seventh |
| LaunchPermissions.ListsItsItems | lib/src/portal/permission_flow.dart:46-53 | printing items between semicolons under a key that no earlier entry has makes the key list exactly those items that are not empty |
| LaunchPermissions.FirstValueStands | lib/src/portal/permission_flow.dart:46-53 | only the first entry of a section and key counts |
| HostPs.ReadLine | lib/src/host_flatpak.dart:257-283 | one line is read as the instance its cells say, or skipped |
| HostPs.ParseHostPsOutput | lib/src/host_flatpak.dart:253-285 | the loop collects, in order, the instances of the lines that have one |
| HostPs.RowShape | lib/src/host_flatpak.dart:257-283 | a tab-separated row is read if and only if it has nine cells and the last two are numerals, decimal or hexadecimal, in 64 bits; any other drops out |
| HostPs.RowRoundTrip | lib/src/host_flatpak.dart:257-293 | a printed row reads back as its instance, every cell in its own field, with empty cells kept and the runtime ref reassembled as runtime/id/arch/branch |
| HostPs.ParsePrinted | lib/src/host_flatpak.dart:266-268 | a printed number is read back if and only if it fits a signed 64-bit integer |
| HostPs.ParseHexadecimal | lib/src/host_flatpak.dart:266-268 | 0x and hexadecimal digits are read if and only if they fit 64 bits, as a signed integer |
| HostPs.CarriageReturnIsDropped | lib/src/host_flatpak.dart:258-261 | a carriage return left at the end of a line does not change how the line is read |
| HostPs.ListingRoundTrip | lib/src/host_flatpak.dart:253-285 | printing any instances with any other lines between them and parsing gives those instances in order, with either line ending |
| HostPs.AlignedRoundTrip | lib/src/host_flatpak.dart:262-264 | space-aligned rows read back as long as no cell is empty or holds white space |
| Splitting.SplitJoin | lib/src/host_flatpak.dart:262-264 | splitting inverts joining when no part holds the separator |

## Left out

- ReaperTheorems.NoLostWakeUp: assumes that the wake pipe was created; without it a parked loop is woken only by a child's exit.
- ReaperTheorems.JoinIsBounded: counts steps; how long a child takes to exit, which one of those steps waits for, is up to the child.
- ReaperTheorems.DestructorLeavesNothing: assumes the destructor's contract, that no `add()` is in flight; that memory stays valid for a detached waiter is not part of the model.
- SerialQueue.AnsweredExactlyOnce: `stop()` called from a handler is a self-join and is not modelled.
- TransactionWorker.AnsweredIfStartedByTheStop: the code abandons its backlog on destruction; the references those transactions keep are leaked.
- GlazeIO.Reader.ReadValue: bounds are compared as numbers; the pointer sums of the code are assumed not to overflow. The schema type also allows nestings that the C++ templates do not compile.
- DartCodec.BinaryReader.ReadString: gives bytes; decoding malformed UTF-8, which throws in Dart, is not modelled.
- PidSafety.PidReuseSafety: covers the pidfd path; after a failed `pidfd_open` the plain-signal fallback has a check-then-kill window, and nothing is claimed about whom it hits.
- StopRequest.StopReaches: says nothing about a call that fell back to plain signals.
- PermissionStore.Portal.RemoveAllForApp: the concurrent deletes run one after another, with no other writer between them.
- Liveness and fairness: beyond the bounded measures no claim is made that a thread is ever scheduled. Wall-clock time is a count of sleeps or a nondeterministic timeout.
- EINTR retries inside a blocking wait are absorbed into the wait.
- Floating point fields do not occur in the registered structs and have no schema.
- libflatpak, GLib, OSTree, the Dart VM C API, D-Bus, files and subprocesses are parameters or events.
- Catalog parsing and caching, icons, SQLite, the update monitor, arch policy, runnability and the example application.
- The single-item readers, the string readers and the transaction progress listener fold frames the same way as the list readers and would add nothing harder.
- The error a second `submit` of one transaction posts, and the host-side launch loop of `host_flatpak.dart`.
