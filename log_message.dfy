/** Log records, the external formatting helpers, and the on-disk line layout
    that FileLogger::writeLogMessage produces. */
module LogMessages {

  /** Severity of a record, as configured and as carried by each message. */
  datatype LogLevel = Error | Warn | Info | Debug

  /** A point on the system clock, as a count of clock ticks. */
  type Time = int

  /** One log record: immutable once built by queueLog. */
  datatype LogMessage = LogMessage(level: LogLevel, tag: string, time: Time, text: string)

  /** Size of the character buffer handed to the timestamp generator. */
  const TimestampBufferSize: nat := 25

  /** Collaborators whose code is outside the logger: the timestamp generator
      (given the buffer size), the level-to-text marshaller, and the helper that
      extracts the parent directory of the log file path. They are kept
      uninterpreted: the model only ever applies them. */
  datatype Externals = Externals(
    timestamp: (Time, nat) -> string,
    levelName: LogLevel -> string,
    parentDirectory: string -> string)

  /** The record one message contributes to the file: "<ts> <LEVEL> {<tag>}: <text>"
      terminated by the newline that `endl` writes. A text holding newlines of
      its own makes the record span several physical lines. */
  function FormatLine(ext: Externals, m: LogMessage): (line: string)
  {
    ext.timestamp(m.time, TimestampBufferSize) + " " + ext.levelName(m.level)
      + " {" + m.tag + "}: " + m.text + "\n"
  }

  /** The records a FIFO drain of `ms` writes: one per message, in queue order. */
  function Rendered(ext: Externals, ms: seq<LogMessage>): (lines: seq<string>)
    ensures |lines| == |ms|
    ensures forall i :: 0 <= i < |ms| ==> lines[i] == FormatLine(ext, ms[i])
  {
    if ms == [] then [] else [FormatLine(ext, ms[0])] + Rendered(ext, ms[1..])
  }

  /** Draining a queue in two parts writes the same lines as draining it at once. */
  lemma RenderedConcat(ext: Externals, a: seq<LogMessage>, b: seq<LogMessage>)
    ensures Rendered(ext, a + b) == Rendered(ext, a) + Rendered(ext, b)
  {
    assert |Rendered(ext, a + b)| == |Rendered(ext, a) + Rendered(ext, b)|;
    forall i | 0 <= i < |a + b|
      ensures Rendered(ext, a + b)[i] == (Rendered(ext, a) + Rendered(ext, b))[i]
    {
      if i < |a| {
        assert (a + b)[i] == a[i];
      } else {
        assert (a + b)[i] == b[i - |a|];
      }
    }
  }

  /** The messages of one producer, picked out of the global queue by `mine`. */
  function Only(mine: LogMessage -> bool, ms: seq<LogMessage>): (r: seq<LogMessage>)
    ensures |r| <= |ms|
    ensures forall m :: m in r ==> m in ms && mine(m)
  {
    if ms == [] then []
    else if mine(ms[0]) then [ms[0]] + Only(mine, ms[1..])
    else Only(mine, ms[1..])
  }

  /** `Only` keeps every message of the producer, as often as it occurs, and nothing else. */
  lemma {:induction false} OnlyKeepsEveryMatch(mine: LogMessage -> bool, ms: seq<LogMessage>)
    ensures forall m :: multiset(Only(mine, ms))[m] == if mine(m) then multiset(ms)[m] else 0
  {
    if ms != [] {
      OnlyKeepsEveryMatch(mine, ms[1..]);
      assert ms == [ms[0]] + ms[1..];
      assert multiset(ms) == multiset([ms[0]]) + multiset(ms[1..]);
    }
  }

  /** `a` can be obtained from `b` by deleting elements: same elements, same order. */
  predicate IsSubsequence<T(==)>(a: seq<T>, b: seq<T>)
    decreases |b|
  {
    if a == [] then true
    else if b == [] then false
    else (a[0] == b[0] && IsSubsequence(a[1..], b[1..])) || IsSubsequence(a, b[1..])
  }

  /** Appending `x` to `b` keeps every subsequence of `b`, and extends each of them by `x`. */
  lemma {:induction false} SubsequenceAppend<T>(a: seq<T>, b: seq<T>, x: T)
    requires IsSubsequence(a, b)
    ensures IsSubsequence(a, b + [x])
    ensures IsSubsequence(a + [x], b + [x])
    decreases |b|
  {
    if b == [] {
      assert a == [];
      assert ([x] + [])[1..] == [];
    } else {
      assert (b + [x])[1..] == b[1..] + [x];
      if a == [] {
        SubsequenceAppend(a, b[1..], x);
        assert a + [x] == [x];
      } else {
        assert (a + [x])[1..] == a[1..] + [x];
        if a[0] == b[0] && IsSubsequence(a[1..], b[1..]) {
          SubsequenceAppend(a[1..], b[1..], x);
        } else {
          SubsequenceAppend(a, b[1..], x);
        }
      }
    }
  }

  /** Whatever the producers' calls interleave with, the messages of one
      producer form a subsequence `p` of the queue `ms`; draining the queue then
      writes that producer's lines in its own order. */
  lemma {:induction false} ProducerOrderPreserved(ext: Externals, p: seq<LogMessage>, ms: seq<LogMessage>)
    requires IsSubsequence(p, ms)
    ensures IsSubsequence(Rendered(ext, p), Rendered(ext, ms))
    decreases |ms|
  {
    if p != [] {
      var lines := Rendered(ext, ms);
      assert lines[1..] == Rendered(ext, ms[1..]);
      if p[0] == ms[0] && IsSubsequence(p[1..], ms[1..]) {
        ProducerOrderPreserved(ext, p[1..], ms[1..]);
        assert Rendered(ext, p)[1..] == Rendered(ext, p[1..]);
      } else {
        ProducerOrderPreserved(ext, p, ms[1..]);
      }
    }
  }

  /** The messages picked out by a property of their value (their tag, say) are a
      subsequence of the queue. */
  lemma {:induction false} OnlyIsSubsequence(mine: LogMessage -> bool, ms: seq<LogMessage>)
    ensures IsSubsequence(Only(mine, ms), ms)
    decreases |ms|
  {
    if ms != [] {
      OnlyIsSubsequence(mine, ms[1..]);
      if mine(ms[0]) {
        assert Only(mine, ms)[1..] == Only(mine, ms[1..]);
      }
    }
  }

  /** The records of the messages picked out by a property of their value (one
      tag, say) come out of a drain of the queue in queue order. */
  lemma {:induction false} SelectedRecordsInQueueOrder(ext: Externals, mine: LogMessage -> bool, q: seq<LogMessage>)
    ensures IsSubsequence(Rendered(ext, Only(mine, q)), Rendered(ext, q))
  {
    OnlyIsSubsequence(mine, q);
    ProducerOrderPreserved(ext, Only(mine, q), q);
  }
}
