/** Client runs of the logger: each one drives a fresh FileLogger through a
    sequence of calls and writer steps and states what the file and the queue
    hold at the end, using only the contracts of FileLogging. */
module LoggerScenarios {
  import opened LogMessages
  import opened FileLogging

  /** Queues every message of `msgs`, in order. */
  method QueueAll(logger: FileLogger, msgs: seq<LogMessage>)
    requires logger.Valid()
    modifies logger`queue
    ensures logger.Valid()
    ensures logger.queue == old(logger.queue) + msgs
  {
    ghost var q0 := logger.queue;
    var i := 0;
    while i < |msgs|
      invariant 0 <= i <= |msgs|
      invariant logger.Valid()
      invariant logger.queue == q0 + msgs[..i]
    {
      var m := msgs[i];
      logger.QueueLog(m.level, m.tag, m.time, m.text);
      assert msgs[..i + 1] == msgs[..i] + [m];
      i := i + 1;
    }
    assert msgs[..i] == msgs;
  }

  /** A started logger whose writer has begun `run`, on a file already holding `existing`. */
  method RunningLogger(ext: Externals, path: string, existing: seq<string>) returns (logger: FileLogger)
    ensures fresh(logger) && logger.Valid() && logger.ext == ext
    ensures logger.isRunning && !logger.needsShutdown && !logger.queueShutdown
    ensures logger.queue == [] && logger.stream == Open(path, existing)
    ensures logger.spawnedWriters == 0 && logger.loopingWriters == 1
  {
    logger := new FileLogger(ext, path, Info);
    var ok, calls := logger.Start(LogConfig(Info, path), Entry(Directory), Entry(Directory), true, existing);
    logger.RunEnter();
  }

  /** Queue some messages, then shut down: the file holds exactly those lines,
      after what it held before, in call order, and nothing stays queued. */
  method QueueThenShutdown(ext: Externals, path: string, existing: seq<string>, msgs: seq<LogMessage>)
    returns (lines: seq<string>, pending: seq<LogMessage>)
    ensures lines == existing + Rendered(ext, msgs)
    ensures pending == []
  {
    var logger := RunningLogger(ext, path, existing);
    QueueAll(logger, msgs);
    assert logger.queue == msgs;
    logger.Shutdown();
    assert logger.stream == Open(path, existing).Append(Rendered(ext, msgs));
    lines := logger.stream.lines;
    pending := logger.queue;
  }

  /** Queue some messages and let the writer thread take one step per message:
      the writer alone writes them to the file in queue order. */
  method WriterDrainsInOrder(ext: Externals, path: string, existing: seq<string>, msgs: seq<LogMessage>)
    returns (lines: seq<string>, pending: seq<LogMessage>)
    ensures lines == existing + Rendered(ext, msgs)
    ensures pending == []
  {
    var logger := RunningLogger(ext, path, existing);
    QueueAll(logger, msgs);
    var j := 0;
    while j < |msgs|
      invariant 0 <= j <= |msgs|
      invariant logger.Valid() && logger.loopingWriters == 1 && !logger.needsShutdown
      invariant logger.queue == msgs[j..]
      invariant logger.stream == Open(path, existing).Append(Rendered(ext, msgs[..j]))
    {
      logger.RunStep();
      DrainOneMore(ext, Open(path, existing), msgs, j);
      j := j + 1;
    }
    assert msgs[..j] == msgs;
    lines := logger.stream.lines;
    pending := logger.queue;
  }

  /** How many entries of `schedule` equal `b`. */
  function Count<T(==)>(b: T, schedule: seq<T>): (n: nat)
    ensures n <= |schedule|
  {
    if schedule == [] then 0
    else Count(b, schedule[..|schedule| - 1]) + (if schedule[|schedule| - 1] == b then 1 else 0)
  }

  function Min(a: nat, b: nat): (m: nat)
  {
    if a < b then a else b
  }

  /** How many of the `n` offered messages the writer has written after
      `schedule` (true: a producer step, false: a writer step): a writer step
      writes one message exactly when a queued one is still unwritten. */
  function Written(n: nat, schedule: seq<bool>): (w: nat)
    ensures w <= Min(n, Count(true, schedule)) && w <= Count(false, schedule)
  {
    if schedule == [] then 0
    else
      var prefix := schedule[..|schedule| - 1];
      var w := Written(n, prefix);
      if !schedule[|schedule| - 1] && w < Min(n, Count(true, prefix)) then w + 1 else w
  }

  /** A running logger, not shut down, with one looping writer, that has
      written the first `byWriter` of the `queued` messages taken from `msgs`. */
  ghost predicate Progress(logger: FileLogger, path: string, existing: seq<string>, msgs: seq<LogMessage>,
                           byWriter: nat, queued: nat)
    reads logger
  {
    byWriter <= queued <= |msgs| &&
    logger.Valid() && logger.isRunning && logger.loopingWriters == 1 && !logger.needsShutdown &&
    logger.queue == msgs[byWriter..queued] &&
    logger.stream == Open(path, existing).Append(Rendered(logger.ext, msgs[..byWriter]))
  }

  /** One entry of a schedule: queue the next message, or let the writer step. */
  method ScheduleStep(logger: FileLogger, path: string, existing: seq<string>, msgs: seq<LogMessage>,
                      produce: bool, byWriter: nat, queued: nat)
    returns (byWriter': nat, queued': nat)
    requires Progress(logger, path, existing, msgs, byWriter, queued)
    modifies logger`queue, logger`stream, logger`loopingWriters
    ensures Progress(logger, path, existing, msgs, byWriter', queued')
    ensures queued' == if produce && queued < |msgs| then queued + 1 else queued
    ensures byWriter' == if !produce && byWriter < queued then byWriter + 1 else byWriter
  {
    byWriter', queued' := byWriter, queued;
    if produce {
      if queued < |msgs| {
        var m := msgs[queued];
        logger.QueueLog(m.level, m.tag, m.time, m.text);
        assert msgs[byWriter..queued + 1] == msgs[byWriter..queued] + [m];
        queued' := queued + 1;
      }
    } else {
      logger.RunStep();
      if byWriter < queued {
        assert msgs[byWriter..queued][1..] == msgs[byWriter + 1..queued];
        DrainOneMore(logger.ext, Open(path, existing), msgs, byWriter);
        byWriter' := byWriter + 1;
      }
    }
  }

  /** Producers and the writer interleave as `schedule` says (true: the next
      message, if any is left, is queued; false: the writer takes a step), then
      the logger shuts down. Whatever the interleaving, just before shutdown the
      file holds the lines of the first `Written` queued messages, and after shutdown it holds every queued message's line in
      queue order. */
  method InterleavedThenShutdown(ext: Externals, path: string, existing: seq<string>,
                                 msgs: seq<LogMessage>, schedule: seq<bool>)
    returns (byWriter: nat, queued: nat, beforeShutdown: seq<string>, lines: seq<string>,
             pending: seq<LogMessage>)
    ensures queued == Min(|msgs|, Count(true, schedule))
    ensures byWriter == Written(|msgs|, schedule)
    ensures byWriter <= queued && byWriter <= Count(false, schedule)
    ensures beforeShutdown == existing + Rendered(ext, msgs[..byWriter])
    ensures lines == existing + Rendered(ext, msgs[..queued])
    ensures pending == []
  {
    var logger := RunningLogger(ext, path, existing);
    byWriter, queued := 0, 0;
    var s := 0;
    while s < |schedule|
      invariant 0 <= s <= |schedule|
      invariant queued == Min(|msgs|, Count(true, schedule[..s]))
      invariant byWriter == Written(|msgs|, schedule[..s])
      invariant Progress(logger, path, existing, msgs, byWriter, queued)
    {
      assert schedule[..s + 1][..s] == schedule[..s];
      byWriter, queued := ScheduleStep(logger, path, existing, msgs, schedule[s], byWriter, queued);
      s := s + 1;
    }
    assert schedule[..s] == schedule;
    beforeShutdown := logger.stream.lines;
    logger.Shutdown();
    DrainRest(ext, Open(path, existing), msgs, byWriter, queued);
    lines := logger.stream.lines;
    pending := logger.queue;
  }

  /** Every message the producers have sent so far, `sent[i]` of producer i
      (all of them when `sent[i]` exceeds what producer i has). */
  function AllSent(producers: seq<seq<LogMessage>>, sent: seq<nat>): (ms: multiset<LogMessage>)
    requires |sent| == |producers|
  {
    if producers == [] then multiset{}
    else multiset(producers[0][..Min(sent[0], |producers[0]|)]) + AllSent(producers[1..], sent[1..])
  }

  /** Before any producer has sent anything, nothing was sent. */
  lemma {:induction false} AllSentNone(producers: seq<seq<LogMessage>>, sent: seq<nat>)
    requires |sent| == |producers|
    requires forall i :: 0 <= i < |producers| ==> sent[i] == 0
    ensures AllSent(producers, sent) == multiset{}
  {
    if producers != [] {
      assert producers[0][..Min(sent[0], |producers[0]|)] == [];
      AllSentNone(producers[1..], sent[1..]);
    }
  }

  /** Producer p sending its next message adds exactly that message to what was sent. */
  lemma {:induction false} AllSentStep(producers: seq<seq<LogMessage>>, sent: seq<nat>, p: nat)
    requires |sent| == |producers|
    requires p < |producers| && sent[p] < |producers[p]|
    ensures AllSent(producers, sent[p := sent[p] + 1]) == AllSent(producers, sent) + multiset{producers[p][sent[p]]}
  {
    var sent' := sent[p := sent[p] + 1];
    var m := producers[p][sent[p]];
    if p == 0 {
      assert sent'[1..] == sent[1..];
      assert producers[0][..sent[0] + 1] == producers[0][..sent[0]] + [m];
      assert multiset(producers[0][..sent[0] + 1]) == multiset(producers[0][..sent[0]]) + multiset{m};
    } else {
      var ps, ss := producers[1..], sent[1..];
      assert ps[p - 1] == producers[p] && ss[p - 1] == sent[p];
      assert sent'[1..] == ss[p - 1 := ss[p - 1] + 1];
      AllSentStep(ps, ss, p - 1);
      assert sent'[0] == sent[0];
    }
  }

  /** A running logger, not shut down, whose queue holds exactly what the
      producers have sent, each producer's messages in its own order. */
  ghost predicate ProducersProgress(logger: FileLogger, path: string, existing: seq<string>,
                                    producers: seq<seq<LogMessage>>, sent: seq<nat>)
    reads logger
  {
    |sent| == |producers| &&
    (forall i :: 0 <= i < |producers| ==> sent[i] <= |producers[i]|) &&
    (forall i :: 0 <= i < |producers| ==> IsSubsequence(producers[i][..sent[i]], logger.queue)) &&
    multiset(logger.queue) == AllSent(producers, sent) &&
    logger.Valid() && logger.isRunning && !logger.needsShutdown && logger.stream == Open(path, existing)
  }

  /** Producer p calls queueLog with its next message, if it has one left. */
  method ProduceMessage(logger: FileLogger, path: string, existing: seq<string>,
                        producers: seq<seq<LogMessage>>, sent: seq<nat>, p: nat)
    returns (sent': seq<nat>)
    requires ProducersProgress(logger, path, existing, producers, sent)
    modifies logger`queue
    ensures ProducersProgress(logger, path, existing, producers, sent')
    ensures sent' == if p < |producers| && sent[p] < |producers[p]| then sent[p := sent[p] + 1] else sent
    ensures logger.queue == old(logger.queue) +
              if p < |producers| && sent[p] < |producers[p]| then [producers[p][sent[p]]] else []
  {
    sent' := sent;
    if p < |producers| && sent[p] < |producers[p]| {
      var m := producers[p][sent[p]];
      ghost var q0 := logger.queue;
      logger.QueueLog(m.level, m.tag, m.time, m.text);
      assert logger.queue == q0 + [m];
      sent' := sent[p := sent[p] + 1];
      forall i | 0 <= i < |producers|
        ensures IsSubsequence(producers[i][..sent'[i]], logger.queue)
      {
        SubsequenceAppend(producers[i][..sent[i]], q0, m);
        if i == p {
          assert producers[i][..sent'[i]] == producers[i][..sent[i]] + [m];
        }
      }
      AllSentStep(producers, sent, p);
    }
  }

  /** One more schedule entry counts once more exactly when it equals `b`. */
  lemma CountStep<T>(b: T, schedule: seq<T>, s: nat)
    requires s < |schedule|
    ensures Count(b, schedule[..s + 1]) == Count(b, schedule[..s]) + if schedule[s] == b then 1 else 0
  {
    assert schedule[..s + 1][..s] == schedule[..s];
  }

  /** Producer i has sent as many messages as `schedule` names it, up to all it has. */
  predicate SentPerSchedule(producers: seq<seq<LogMessage>>, sent: seq<nat>, schedule: seq<nat>)
  {
    |sent| == |producers| &&
    forall i :: 0 <= i < |producers| ==> sent[i] == Min(|producers[i]|, Count(i, schedule))
  }

  /** One more schedule entry p moves producer p on by one message, if it has one left. */
  lemma SentPerScheduleStep(producers: seq<seq<LogMessage>>, sent: seq<nat>, schedule: seq<nat>, s: nat)
    requires s < |schedule| && SentPerSchedule(producers, sent, schedule[..s])
    ensures var p := schedule[s];
      SentPerSchedule(producers, if p < |producers| && sent[p] < |producers[p]| then sent[p := sent[p] + 1] else sent,
                      schedule[..s + 1])
  {
    forall i | 0 <= i < |producers|
      ensures Count(i, schedule[..s + 1]) == Count(i, schedule[..s]) + if schedule[s] == i then 1 else 0
    {
      CountStep(i, schedule, s);
    }
  }

  /** The queue that the producers' calls of `schedule` build, in call order: an
      entry p appends producer p's next message, if it has one left. */
  function Merged(producers: seq<seq<LogMessage>>, schedule: seq<nat>): (q: seq<LogMessage>)
    ensures |q| <= |schedule|
  {
    if schedule == [] then []
    else
      var prefix := schedule[..|schedule| - 1];
      var p := schedule[|schedule| - 1];
      Merged(producers, prefix) +
        if p < |producers| && Count(p, prefix) < |producers[p]| then [producers[p][Count(p, prefix)]] else []
  }

  /** One more schedule entry p appends exactly producer p's next message to the merged queue. */
  lemma MergedStep(producers: seq<seq<LogMessage>>, sent: seq<nat>, schedule: seq<nat>, s: nat)
    requires s < |schedule| && SentPerSchedule(producers, sent, schedule[..s])
    ensures var p := schedule[s];
      Merged(producers, schedule[..s + 1]) == Merged(producers, schedule[..s]) +
        if p < |producers| && sent[p] < |producers[p]| then [producers[p][sent[p]]] else []
  {
    assert schedule[..s + 1][..s] == schedule[..s];
  }

  /** Entry s of `schedule`: the producer it names calls queueLog, which keeps
      the queue equal to the merge of the entries so far. */
  method ProduceStep(logger: FileLogger, path: string, existing: seq<string>,
                     producers: seq<seq<LogMessage>>, sent: seq<nat>, schedule: seq<nat>, s: nat)
    returns (sent': seq<nat>)
    requires s < |schedule|
    requires ProducersProgress(logger, path, existing, producers, sent)
    requires SentPerSchedule(producers, sent, schedule[..s])
    requires logger.queue == Merged(producers, schedule[..s])
    modifies logger`queue
    ensures ProducersProgress(logger, path, existing, producers, sent')
    ensures SentPerSchedule(producers, sent', schedule[..s + 1])
    ensures logger.queue == Merged(producers, schedule[..s + 1])
  {
    SentPerScheduleStep(producers, sent, schedule, s);
    MergedStep(producers, sent, schedule, s);
    sent' := ProduceMessage(logger, path, existing, producers, sent, schedule[s]);
  }

  /** The producers' calls of `schedule` on a running logger. */
  method ProduceAll(logger: FileLogger, path: string, existing: seq<string>,
                    producers: seq<seq<LogMessage>>, schedule: seq<nat>)
    returns (sent: seq<nat>)
    requires logger.Valid() && logger.isRunning && !logger.needsShutdown
    requires logger.queue == [] && logger.stream == Open(path, existing)
    modifies logger`queue
    ensures ProducersProgress(logger, path, existing, producers, sent)
    ensures SentPerSchedule(producers, sent, schedule)
    ensures logger.queue == Merged(producers, schedule)
  {
    sent := seq(|producers|, _ => 0);
    assert forall i :: 0 <= i < |producers| ==> producers[i][..sent[i]] == [];
    AllSentNone(producers, sent);
    var s := 0;
    while s < |schedule|
      invariant 0 <= s <= |schedule|
      invariant ProducersProgress(logger, path, existing, producers, sent)
      invariant SentPerSchedule(producers, sent, schedule[..s])
      invariant logger.queue == Merged(producers, schedule[..s])
    {
      sent := ProduceStep(logger, path, existing, producers, sent, schedule, s);
      s := s + 1;
    }
    assert schedule[..s] == schedule;
  }

  /** Several producers call queueLog in the order `schedule` names them (an
      entry p queues producer p's next message, if it has one left), then the
      logger shuts down. Whatever the interleaving, the queue holds exactly the
      messages sent, in call order, each producer's messages form a subsequence of it, and the
      file receives each producer's lines in that producer's own order. */
  method ProducersInterleaveThenShutdown(ext: Externals, path: string, existing: seq<string>,
                                         producers: seq<seq<LogMessage>>, schedule: seq<nat>)
    returns (sent: seq<nat>, queued: seq<LogMessage>, lines: seq<string>)
    ensures |sent| == |producers|
    ensures forall i :: 0 <= i < |producers| ==> sent[i] == Min(|producers[i]|, Count(i, schedule))
    ensures forall i :: 0 <= i < |producers| ==> sent[i] <= |producers[i]|
    ensures queued == Merged(producers, schedule)
    ensures multiset(queued) == AllSent(producers, sent)
    ensures forall i :: 0 <= i < |producers| ==> IsSubsequence(producers[i][..sent[i]], queued)
    ensures lines == existing + Rendered(ext, queued)
    ensures forall i :: 0 <= i < |producers| ==>
              IsSubsequence(Rendered(ext, producers[i][..sent[i]]), Rendered(ext, queued))
  {
    var logger := RunningLogger(ext, path, existing);
    sent := ProduceAll(logger, path, existing, producers, schedule);
    queued := logger.queue;
    logger.Shutdown();
    lines := logger.stream.lines;
    forall i | 0 <= i < |producers|
      ensures IsSubsequence(Rendered(ext, producers[i][..sent[i]]), Rendered(ext, queued))
    {
      ProducerOrderPreserved(ext, producers[i][..sent[i]], queued);
    }
  }

  /** A flush with nothing queued leaves the file as it was. */
  method FlushEmptyQueue(ext: Externals, path: string, existing: seq<string>)
    returns (lines: seq<string>)
    ensures lines == existing
  {
    var logger := RunningLogger(ext, path, existing);
    logger.Flush();
    lines := logger.stream.lines;
  }

  /** The parent of the log file is a regular file, a FIFO or a character
      device, so the `S_IFDIR` bit is clear: `start` fails after a single
      `stat`, opens nothing and spawns no writer; later messages pile up in the
      queue, since neither flush nor shutdown drains them. */
  method ConflictingParentNeverWrites(ext: Externals, path: string, kind: FileType, msgs: seq<LogMessage>)
    returns (ok: bool, calls: seq<FsCall>, stream: Stream, writers: nat, pending: seq<LogMessage>)
    requires kind in {Regular, Fifo, CharDevice}
    ensures !ok && calls == [Stat(ext.parentDirectory(path))]
    ensures stream == Unopened && writers == 0
    ensures pending == msgs
  {
    var logger := new FileLogger(ext, path, Info);
    ok, calls := logger.Start(LogConfig(Debug, path), Entry(kind), Entry(Directory), true, []);
    QueueAll(logger, msgs);
    logger.Flush();
    logger.Shutdown();
    stream := logger.stream;
    writers := logger.spawnedWriters + logger.loopingWriters;
    pending := logger.queue;
  }

  /** The parent of the log file is a block device or a socket: their type
      codes contain the `S_IFDIR` bit, so `start` takes the directory as present
      and goes on to open the file; when that open fails it returns false
      through the open-failure exit, with the stream replaced by a failed one. */
  method DeviceParentReachesOpen(ext: Externals, path: string, kind: FileType)
    returns (ok: bool, calls: seq<FsCall>, stream: Stream, writers: nat)
    requires kind in {BlockDevice, Socket}
    ensures !ok && calls == [Stat(ext.parentDirectory(path)), OpenAppend(path)]
    ensures stream == Failed && writers == 0
  {
    var logger := new FileLogger(ext, path, Info);
    ok, calls := logger.Start(LogConfig(Info, path), Entry(kind), StatFails, false, []);
    stream := logger.stream;
    writers := logger.spawnedWriters + logger.loopingWriters;
  }

  /** A missing log directory is created and `start` succeeds; a second `start`
      finds the directory in place, does not call `mkdirs`, and succeeds too. */
  method CreateDirectoryThenRestart(ext: Externals, path: string)
    returns (first: bool, second: bool, firstCalls: seq<FsCall>, secondCalls: seq<FsCall>)
    ensures first && second
    ensures firstCalls == [Stat(ext.parentDirectory(path)), Mkdirs(ext.parentDirectory(path)),
                           Stat(ext.parentDirectory(path)), OpenAppend(path)]
    ensures secondCalls == [Stat(ext.parentDirectory(path)), OpenAppend(path)]
  {
    var logger := new FileLogger(ext, path, Info);
    first, firstCalls := logger.Start(LogConfig(Info, path), StatFails, Entry(Directory), true, []);
    second, secondCalls := logger.Start(LogConfig(Info, path), Entry(Directory), Entry(Directory), true, []);
  }

  /** `shutdown` before the spawned writer has marked the logger running drains
      nothing; the writer then sets `isRunning` again and leaves its loop at once,
      so the queued messages are never written. */
  method ShutdownBeforeWriterEnters(ext: Externals, path: string, existing: seq<string>, msgs: seq<LogMessage>)
    returns (lines: seq<string>, pending: seq<LogMessage>, running: bool, writers: nat)
    ensures lines == existing && pending == msgs
    ensures running && writers == 0
  {
    var logger := new FileLogger(ext, path, Info);
    var ok, calls := logger.Start(LogConfig(Info, path), Entry(Directory), Entry(Directory), true, existing);
    QueueAll(logger, msgs);
    logger.Shutdown();
    logger.RunEnter();
    logger.RunStep();
    lines := logger.stream.lines;
    pending := logger.queue;
    running := logger.isRunning;
    writers := logger.spawnedWriters + logger.loopingWriters;
  }

  /** A restart whose append-mode open fails replaces the stream with a failed
      one, while `isRunning`, set by the earlier writer, stays set: a flush
      afterwards drains the queue into the failed stream, and the messages
      reach no file. */
  method FailedReopenDropsMessages(ext: Externals, path: string, existing: seq<string>, msgs: seq<LogMessage>)
    returns (restarted: bool, stream: Stream, pending: seq<LogMessage>)
    ensures !restarted && stream == Failed && pending == []
  {
    var logger := RunningLogger(ext, path, existing);
    var calls;
    restarted, calls := logger.Start(LogConfig(Info, path), Entry(Directory), Entry(Directory), false, []);
    QueueAll(logger, msgs);
    logger.Flush();
    stream := logger.stream;
    pending := logger.queue;
  }
}
