# FileLogger: lifecycle and drain logic

This project models the file-based log sink of the AWS IoT Device Client
(`source/logging/FileLogger.cpp`) as a sequential state machine and proves
what its operations do to the pending-message queue, the output file and the
`isRunning` / `needsShutdown` flags.

- `log_message.dfy` (module `LogMessages`): the `LogMessage` record
  `{level, tag, time, text}`, the external helpers kept uninterpreted
  (timestamp generation with its 25-character buffer, level-to-text, parent
  directory of a path), the exact line layout
  `<ts> <LEVEL> {<tag>}: <text>` followed by a newline (`FormatLine`), the lines a FIFO
  drain writes (`Rendered`), and the fact that the messages one producer
  queued, which form a subsequence of the queue, keep their relative order in
  the output (`ProducerOrderPreserved`). An element of a file's `lines` is one
  record: the text written for one message, ending with the newline of
  `endl`; a message text that itself holds newlines makes one record span
  several physical lines.
- `file_logger.dfy` (module `FileLogging`): the class `FileLogger` with the
  source's state as fields — `logLevel`, `logFile`, the output stream, the
  queue (a `seq<LogMessage>`, head first) with its own shutdown signal,
  `isRunning`, `needsShutdown` — and the number of writer threads spawned and
  looping. The filesystem becomes parameters of `Start`: what the first
  `stat` of the parent directory reports (`StatFails` for any failure, such
  as a missing entry, a denied search permission or a non-directory path
  component, or else the entry's file type), what the `stat` after `mkdirs` reports, whether the append-mode open
  succeeds, and the lines the file already holds. `Classify` reads a `stat`
  result the way `start` does: `Missing` when `stat` fails, `IsDirectory` when
  the `S_IFDIR` bit of the mode is set, `NotDirectory` when it is clear. `Start` also returns the
  sequence of filesystem calls it makes. The stream is `Unopened`, `Failed`
  (an `ofstream` whose open failed, which discards what is written to it) or
  `Open(path, lines)`. The writer thread's `run` is two steps a scheduler may
  take at any time: `RunEnter` (it sets `isRunning`) and `RunStep` (one loop
  iteration: leave on `needsShutdown`, otherwise pop and write the head
  message if there is one).
- `scenarios.dfy` (module `LoggerScenarios`): client runs that drive a fresh
  logger through calls and writer steps and state the outcome from the
  contracts alone: queue-then-shutdown, writer-only drain, an arbitrary
  interleaving of producers and writer followed by shutdown, several
  producers interleaving their calls followed by shutdown, empty flush,
  a parent that is a regular file, FIFO or character device, a parent that
  is a block device or socket, directory creation followed by a restart,
  shutdown before the writer enters `run`, and a restart whose open fails.

Four behaviours of the code a caller might not expect:

- After `mkdirs`, the second `stat` is only checked for success, so a path that
  then exists as a non-directory lets `start` go on to the open step
  (`DirectoryReady`).
- The directory test is `st_mode & S_IFDIR`, a single bit, not a file-type
  comparison. The type codes of block devices and sockets contain that bit, so
  a parent path of either kind passes the test and `start` goes on to the open
  step (`Classify`, `DeviceParentReachesOpen`).
- `shutdown` drains the queue only when `isRunning` is already set. A writer
  that was spawned but has not yet executed `isRunning = true` is not waited
  for; it later sets `isRunning` again and leaves its loop at once, so the
  queued messages stay unwritten (`ShutdownBeforeWriterEnters`).
- A later `start` whose open fails replaces the stream with a failed one, while
  `isRunning`, set by the earlier writer, stays set: a `flush` afterwards (or
  that writer's next steps) takes the queued messages off the queue and writes
  them into the failed stream, so they reach no file
  (`FailedReopenDropsMessages`, which drains by `flush`).

## Model

| member | source | states |
|---|---|---|
| `LogMessages.Rendered` | source/logging/FileLogger.cpp:121-125 | a drain of a queue writes one record per message, and record i is the formatted text of message i (its newlines included) |
| `LogMessages.RenderedConcat` | source/logging/FileLogger.cpp:121-125 | draining a queue in two parts writes the lines of the first part followed by those of the second |
| `LogMessages.ProducerOrderPreserved` | source/logging/FileLogger.cpp:91-98 | whenever a producer's messages form a subsequence of the queue (as every producer's calls do, whatever the interleaving), their records occur in the drained output as a subsequence, in that producer's order |
| `LogMessages.SelectedRecordsInQueueOrder` | source/logging/FileLogger.cpp:121-125 | the records of the messages picked out by a property of their value (one tag, say) come out of a drain of the queue in queue order |
| `LogMessages.OnlyIsSubsequence` | source/logging/FileLogger.cpp:91-98 | the messages picked out of the queue by a property of their value (a tag, say) form a subsequence of it, so the order lemma above applies to them |
| `LogMessages.OnlyKeepsEveryMatch` | source/logging/FileLogger.cpp:91-98 | picking messages out of the queue by a property of their value keeps each matching message exactly as often as it was queued and nothing else |
| `FileLogging.Stream.Append` | source/logging/FileLogger.cpp:69-71 | writing to an open stream appends to its file's records; writing to a failed stream changes nothing; the model never writes to an `Unopened` stream, since `WriteLogMessage` requires an opened one (the source would dereference a null `outputStream`) |
| `FileLogging.Classify` | source/logging/FileLogger.cpp:27-46 | a failed stat reads as missing; a stat result passes the S_IFDIR bit test exactly for directories, block devices and sockets, and fails it exactly for regular files, FIFOs and character devices |
| `FileLogging.StartOutcome` | source/logging/FileLogger.cpp:25-61 | start succeeds exactly when the directory was there (or appears after mkdirs) and the open succeeds; it fails as directory-unavailable exactly when the directory is still missing after mkdirs, as unknown-state exactly when the first stat succeeds with the S_IFDIR bit clear, and as open-failed exactly when the checks pass and the open fails |
| `FileLogging.FileLogger.Start` | source/logging/FileLogger.cpp:17-62 | the level is set on every call; logFile changes only for a non-empty configured file; the result is true exactly on the success exit; mkdirs and a second stat happen exactly when the directory is missing and the open exactly when the checks pass; the stream is replaced only when the open is attempted; exactly one writer is spawned on success and none on any failure |
| `FileLogging.FileLogger.WriteLogMessage` | source/logging/FileLogger.cpp:64-72 | the stream receives exactly one record, timestamp, level text, tag in braces and text, ended by a newline |
| `FileLogging.FileLogger.RunEnter` | source/logging/FileLogger.cpp:74-78 | a spawned writer sets isRunning and enters its loop |
| `FileLogging.FileLogger.RunStep` | source/logging/FileLogger.cpp:80-88 | once shutdown is requested the writer leaves its loop without touching queue or file; otherwise it pops at most one head message and writes exactly its line |
| `FileLogging.FileLogger.QueueLog` | source/logging/FileLogger.cpp:91-98 | exactly one message (level, tag, time, text) is appended to the tail of the queue; nothing else changes |
| `FileLogging.FileLogger.Shutdown` | source/logging/FileLogger.cpp:100-110 | afterwards needsShutdown and the queue's shutdown signal are set and isRunning is clear; if the writer was running the queue is empty and every queued message was written in order, otherwise queue and file are untouched |
| `FileLogging.FileLogger.Flush` | source/logging/FileLogger.cpp:112-126 | when not running queue and file are unchanged; when running the queue ends empty and the file grows by the lines of the previously queued messages in FIFO order |
| `LoggerScenarios.QueueThenShutdown` | source/logging/FileLogger.cpp:91-110 | messages queued on a running logger and then shut down are all in the file, after its earlier content, in call order, with nothing left queued |
| `LoggerScenarios.WriterDrainsInOrder` | source/logging/FileLogger.cpp:74-98 | the writer thread alone, one step per message, writes all queued messages in queue order |
| `LoggerScenarios.InterleavedThenShutdown` | source/logging/FileLogger.cpp:74-126 | under any interleaving of queueLog calls and writer steps, the number queued is the number of producer steps (capped by the messages available); the number written before shutdown is exactly `Written`'s count, one per writer step that finds a message queued, and bounded by the writer steps and the messages queued; just before shutdown the file holds the records of that prefix of the queued messages, in order; after shutdown it holds all of them in order |
| `LoggerScenarios.Merged` | source/logging/FileLogger.cpp:91-98 | the queue built by a schedule of producers' queueLog calls, in call order, has at most one message per call |
| `LoggerScenarios.ProducersInterleaveThenShutdown` | source/logging/FileLogger.cpp:91-110 | under any interleaving of several producers' queueLog calls, each producer has sent as many messages as the schedule names it (up to all it has), the queue is exactly `Merged`, the messages in the schedule's call order (so also, as a multiset, exactly the messages sent), each producer's messages form a subsequence of it, and after shutdown the file holds the queued records in queue order, with each producer's records in that producer's order |
| `LoggerScenarios.FlushEmptyQueue` | source/logging/FileLogger.cpp:112-126 | a flush with an empty queue leaves the file unchanged |
| `LoggerScenarios.ConflictingParentNeverWrites` | source/logging/FileLogger.cpp:42-50 | when the parent path is a regular file, FIFO or character device, start fails after one stat, opens no stream, spawns no writer, and messages queued afterwards stay queued through flush and shutdown |
| `LoggerScenarios.DeviceParentReachesOpen` | source/logging/FileLogger.cpp:42-61 | when the parent path is a block device or socket, start passes the directory test, attempts the open without calling mkdirs, and on open failure returns false with the stream replaced by a failed one and no writer spawned |
| `LoggerScenarios.CreateDirectoryThenRestart` | source/logging/FileLogger.cpp:27-57 | a missing directory is created (stat, mkdirs, stat, open) and start succeeds; a second start finds it (stat, open) and succeeds |
| `LoggerScenarios.ShutdownBeforeWriterEnters` | source/logging/FileLogger.cpp:74-110 | a shutdown before the spawned writer sets isRunning leaves every queued message unwritten, and the writer then ends with isRunning set |
| `LoggerScenarios.FailedReopenDropsMessages` | source/logging/FileLogger.cpp:52-61 | after a restart whose open fails, a flush empties the queue into the failed stream and no line is kept |

## Left out

- Threads, `detach` and the mutex `isRunningLock` (source/logging/FileLogger.cpp:55-56, 76-78, 108-114): the model is sequential; each pop from the queue is atomic, and `Shutdown`'s drain does not interleave with writer steps.
- The blocking and wake-up behaviour of the log queue (`getNextLog`, `shutdown`), whose code is not part of this model: the queue is a sequence plus a shutdown flag, and a writer that would block in `getNextLog` on an empty queue takes a step that changes nothing and returns to the loop head.
- `stat`, `FileUtils::mkdirs` and `ofstream`: replaced by the parameters of `Start` (a `stat` result is its file type only; the mode values are those Linux uses); the content of a file the stream stops writing to when `start` reopens is not tracked.
- `LogUtil::generateTimestamp`, `LogLevelMarshaller::ToString` and `FileUtils::extractParentDirectory`: uninterpreted functions held in `Externals`; `FormatMessage` and every `cout` diagnostic are left out, since they only print.
- FileLogger.h (the default log file, the default level and the `LogLevel` enumeration) is not part of this model: the defaults are constructor parameters and the levels are Error, Warn, Info, Debug.
- The stream flush after each line (line 71) has no separate effect: a line written is a line in the file.
- integration-tests/source/jobs/JobsIntegrationTests.cpp: network-driven test fixtures with no local logic.
