/** The lifecycle and drain logic of FileLogger, as a sequential state machine.
    The filesystem is replaced by parameters of `Start`; the writer thread by the
    two steps `RunEnter` and `RunStep`, which a scheduler may call at any time. */
module FileLogging {
  import opened LogMessages

  /** The file types `stat` can report (it follows symbolic links, so a link is
      never reported as one). */
  datatype FileType = Fifo | CharDevice | Directory | BlockDevice | Regular | Socket

  /** What `stat` reports for a path: it fails (for any reason: no such entry,
      no permission, a path component that is not a directory), or it gives the
      entry's type. */
  datatype StatResult = StatFails | Entry(kind: FileType)

  /** The `S_IFDIR` bit that `start` tests in `st_mode`. */
  const S_IFDIR: bv32 := 0x4000

  /** The file-type field of `st_mode`, with the values Linux uses
      (octal 0010000, 0020000, 0040000, 0060000, 0100000, 0140000). */
  function ModeBits(t: FileType): (bits: bv32)
  {
    match t
    case Fifo => 0x1000
    case CharDevice => 0x2000
    case Directory => 0x4000
    case BlockDevice => 0x6000
    case Regular => 0x8000
    case Socket => 0xC000
  }

  /** How `start` reads a `stat` result: `Missing` when `stat` fails,
      `IsDirectory` when it succeeds and the `S_IFDIR` bit of the mode is set,
      `NotDirectory` when it succeeds and that bit is clear. */
  datatype DirState = Missing | IsDirectory | NotDirectory

  /** The bit test `info.st_mode & S_IFDIR`: it accepts directories, and also
      block devices and sockets, whose type codes contain that bit. */
  function Classify(st: StatResult): (d: DirState)
    ensures d == Missing <==> st.StatFails?
    ensures d == IsDirectory <==> st.Entry? && st.kind in {Directory, BlockDevice, Socket}
    ensures d == NotDirectory <==> st.Entry? && st.kind in {Regular, Fifo, CharDevice}
  {
    match st
    case StatFails => Missing
    case Entry(t) => if ModeBits(t) & S_IFDIR != 0 then IsDirectory else NotDirectory
  }

  /** How a call to `start` ends; the failures are reported only as `false`
      together with a diagnostic on standard output. */
  datatype StartResult = Started | DirectoryUnavailable | UnknownDirectoryState | FileOpenFailed

  /** The calls `start` makes on the filesystem, in order. */
  datatype FsCall = Stat(dir: string) | Mkdirs(dir: string) | OpenAppend(file: string)

  /** The output stream: none yet, an ofstream whose open failed (it silently
      discards everything written to it), or an open append-mode file whose
      lines are `lines`. */
  datatype Stream = Unopened | Failed | Open(path: string, lines: seq<string>)
  {
    /** Writing `ls` through this stream. */
    function Append(ls: seq<string>): (s: Stream)
      ensures s.Open? <==> this.Open?
      ensures s.Failed? <==> this.Failed?
      ensures s.Open? ==> s.path == path && s.lines == lines + ls
    {
      if Open? then Open(path, lines + ls) else this
    }
  }

  /** Writing the next message of `q` after its first `k` extends the drained prefix by one. */
  lemma DrainOneMore(ext: Externals, s: Stream, q: seq<LogMessage>, k: nat)
    requires k < |q|
    ensures s.Append(Rendered(ext, q[..k])).Append([FormatLine(ext, q[k])]) == s.Append(Rendered(ext, q[..k + 1]))
  {
    assert q[..k + 1] == q[..k] + [q[k]];
    RenderedConcat(ext, q[..k], [q[k]]);
  }

  /** Writing the messages of `q` from `k` up to `n` after its first `k` gives its first `n`. */
  lemma DrainRest(ext: Externals, s: Stream, q: seq<LogMessage>, k: nat, n: nat)
    requires k <= n <= |q|
    ensures s.Append(Rendered(ext, q[..k])).Append(Rendered(ext, q[k..n])) == s.Append(Rendered(ext, q[..n]))
  {
    assert q[..n] == q[..k] + q[k..n];
    RenderedConcat(ext, q[..k], q[k..n]);
    if s.Open? {
      assert (s.lines + Rendered(ext, q[..k])) + Rendered(ext, q[k..n])
          == s.lines + (Rendered(ext, q[..k]) + Rendered(ext, q[k..n]));
    }
  }

  /** The directory checks pass: the directory was there, or the re-`stat` after
      `mkdirs` succeeds. The re-check tests only that the path exists, not that
      it is a directory. */
  predicate DirectoryReady(before: DirState, afterMkdirs: DirState)
  {
    before == IsDirectory || (before == Missing && afterMkdirs != Missing)
  }

  /** The decision tree of `start`: which exit it takes. */
  function StartOutcome(before: DirState, afterMkdirs: DirState, openSucceeds: bool): (r: StartResult)
    ensures r == Started <==> DirectoryReady(before, afterMkdirs) && openSucceeds
    ensures r == DirectoryUnavailable <==> before == Missing && afterMkdirs == Missing
    ensures r == UnknownDirectoryState <==> before == NotDirectory
    ensures r == FileOpenFailed <==> DirectoryReady(before, afterMkdirs) && !openSucceeds
  {
    match before
    case Missing =>
      if afterMkdirs == Missing then DirectoryUnavailable
      else if openSucceeds then Started else FileOpenFailed
    case NotDirectory => UnknownDirectoryState
    case IsDirectory => if openSucceeds then Started else FileOpenFailed
  }

  /** The configuration `start` reads: the log level and an optional file path
      (empty when not configured). */
  datatype LogConfig = LogConfig(level: LogLevel, file: string)

  class FileLogger {
    /** The helpers whose code is outside the logger. */
    const ext: Externals

    var logLevel: LogLevel
    var logFile: string
    var stream: Stream
    /** The pending messages of the log queue, head first. */
    var queue: seq<LogMessage>
    /** The log queue's own shutdown signal. */
    var queueShutdown: bool
    var isRunning: bool
    var needsShutdown: bool
    /** Writer threads spawned by `start` that have not yet set `isRunning`. */
    var spawnedWriters: nat
    /** Writer threads inside the `while (!needsShutdown)` loop. */
    var loopingWriters: nat

    /** The queue's shutdown signal is only ever raised by `Shutdown`, after
        `needsShutdown`; a writer thread or a set `isRunning` exists only after
        a `start` that opened a stream. */
    ghost predicate Valid()
      reads this
    {
      (queueShutdown ==> needsShutdown) &&
      (stream.Unopened? ==> spawnedWriters == 0 && loopingWriters == 0 && !isRunning)
    }

    /** A fresh logger with the default file and level from its declaration. */
    constructor (ext: Externals, defaultFile: string, defaultLevel: LogLevel)
      ensures Valid()
      ensures this.ext == ext && logLevel == defaultLevel && logFile == defaultFile
      ensures stream == Unopened && queue == []
      ensures !queueShutdown && !isRunning && !needsShutdown
      ensures spawnedWriters == 0 && loopingWriters == 0
    {
      this.ext := ext;
      logLevel := defaultLevel;
      logFile := defaultFile;
      stream := Unopened;
      queue := [];
      queueShutdown := false;
      isRunning := false;
      needsShutdown := false;
      spawnedWriters := 0;
      loopingWriters := 0;
    }

    /** Configures the logger, checks (and if need be creates) the log directory,
        opens the log file for appending and spawns one writer. `firstStat` is
        what the first `stat` of the parent directory reports, `secondStat` what
        the `stat` after `mkdirs` reports,
        `openSucceeds` whether the append-mode open succeeds, and `existing`
        the lines the file already holds. */
    method Start(config: LogConfig, firstStat: StatResult, secondStat: StatResult, openSucceeds: bool,
                 existing: seq<string>)
      returns (ok: bool, calls: seq<FsCall>)
      requires Valid()
      modifies this`logLevel, this`logFile, this`stream, this`spawnedWriters
      ensures Valid()
      ensures logLevel == config.level
      ensures logFile == if config.file != [] then config.file else old(logFile)
      ensures ok <==> StartOutcome(Classify(firstStat), Classify(secondStat), openSucceeds) == Started
      ensures calls == [Stat(ext.parentDirectory(logFile))]
        + (if firstStat.StatFails? then [Mkdirs(ext.parentDirectory(logFile)), Stat(ext.parentDirectory(logFile))] else [])
        + (if DirectoryReady(Classify(firstStat), Classify(secondStat)) then [OpenAppend(logFile)] else [])
      ensures stream == if !DirectoryReady(Classify(firstStat), Classify(secondStat)) then old(stream)
                        else if openSucceeds then Open(logFile, existing) else Failed
      ensures spawnedWriters == old(spawnedWriters) + (if ok then 1 else 0)
    {
      logLevel := config.level;
      if config.file != [] {
        logFile := config.file;
      }
      var dir := ext.parentDirectory(logFile);
      calls := [Stat(dir)];
      var before := Classify(firstStat);
      if before == Missing {
        calls := calls + [Mkdirs(dir), Stat(dir)];
        if Classify(secondStat) == Missing {
          return false, calls;
        }
      } else if before == NotDirectory {
        return false, calls;
      }
      calls := calls + [OpenAppend(logFile)];
      stream := if openSucceeds then Open(logFile, existing) else Failed;
      if openSucceeds {
        spawnedWriters := spawnedWriters + 1;
        return true, calls;
      }
      return false, calls;
    }

    /** Writes one formatted line to the stream (and flushes it). */
    method WriteLogMessage(m: LogMessage)
      requires !stream.Unopened?
      modifies this`stream
      ensures stream == old(stream).Append([FormatLine(ext, m)])
    {
      stream := stream.Append([FormatLine(ext, m)]);
    }

    /** A spawned writer thread begins `run`: it marks the logger running. */
    method RunEnter()
      requires Valid() && spawnedWriters > 0
      modifies this`isRunning, this`spawnedWriters, this`loopingWriters
      ensures Valid() && isRunning
      ensures spawnedWriters == old(spawnedWriters) - 1
      ensures loopingWriters == old(loopingWriters) + 1
    {
      isRunning := true;
      spawnedWriters := spawnedWriters - 1;
      loopingWriters := loopingWriters + 1;
    }

    /** One iteration of a looping writer: it leaves the loop once shutdown is
        requested; otherwise it takes the head message, if any, and writes it
        (with an empty queue `getNextLog` blocks, and the step does nothing). */
    method RunStep()
      requires Valid() && loopingWriters > 0
      modifies this`queue, this`stream, this`loopingWriters
      ensures Valid()
      ensures needsShutdown ==>
        loopingWriters == old(loopingWriters) - 1 && queue == old(queue) && stream == old(stream)
      ensures !needsShutdown ==> loopingWriters == old(loopingWriters)
      ensures !needsShutdown && old(queue) == [] ==> queue == [] && stream == old(stream)
      ensures !needsShutdown && old(queue) != [] ==>
        queue == old(queue)[1..] && stream == old(stream).Append([FormatLine(ext, old(queue)[0])])
    {
      if needsShutdown {
        loopingWriters := loopingWriters - 1;
      } else if queue != [] {
        var m := queue[0];
        queue := queue[1..];
        WriteLogMessage(m);
      }
    }

    /** Builds a message and appends it to the tail of the queue; never fails. */
    method QueueLog(level: LogLevel, tag: string, t: Time, text: string)
      modifies this`queue
      ensures queue == old(queue) + [LogMessage(level, tag, t, text)]
    {
      queue := queue + [LogMessage(level, tag, t, text)];
    }

    /** Requests shutdown, signals the queue, drains it if the writer is
        running, and clears the running flag. */
    method Shutdown()
      requires Valid()
      modifies this`needsShutdown, this`queueShutdown, this`queue, this`stream, this`isRunning
      ensures Valid()
      ensures needsShutdown && queueShutdown && !isRunning
      ensures old(isRunning) ==>
        queue == [] && stream == old(stream).Append(Rendered(ext, old(queue)))
      ensures !old(isRunning) ==> queue == old(queue) && stream == old(stream)
    {
      needsShutdown := true;
      queueShutdown := true;
      Flush();
      isRunning := false;
    }

    /** Drains the queue on the calling thread, head first, if the writer is
        running; otherwise does nothing. */
    method Flush()
      requires Valid()
      modifies this`queue, this`stream
      ensures Valid()
      ensures !old(isRunning) ==> queue == old(queue) && stream == old(stream)
      ensures old(isRunning) ==>
        queue == [] && stream == old(stream).Append(Rendered(ext, old(queue)))
    {
      if !isRunning {
        return;
      }
      ghost var q0 := queue;
      ghost var s0 := stream;
      ghost var done := 0;
      while queue != []
        invariant Valid()
        invariant done <= |q0| && queue == q0[done..]
        invariant stream == s0.Append(Rendered(ext, q0[..done]))
        decreases |queue|
      {
        var m := queue[0];
        queue := queue[1..];
        WriteLogMessage(m);
        DrainOneMore(ext, s0, q0, done);
        done := done + 1;
      }
      assert q0[..done] == q0;
    }
  }
}
