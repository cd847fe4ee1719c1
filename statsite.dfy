/** The statsite sink: the bounded drop-on-full metric queue, the delivery
    worker that drains it onto a buffered connection, and the public
    emission calls that format a metric line and push it.

    The worker runs concurrently with the producers. Here each thing that
    can happen is one method: a push by a producer, the shutdown, and every
    branch the worker can take (a dial that succeeds or fails, a line taken
    from the queue, a tick of the flush timer, the end of the backoff, the
    closed queue). Any interleaving of the goroutines is a sequence of these
    calls. The socket is the string `wire`, the bytes the aggregator has
    received; `buffered` is what the current bufio.Writer holds. */
module Statsite {
  import opened Sequences
  import opened KeyFormat
  import opened Worker
  import opened Wrappers

  /** Capacity of the metric channel made by NewStatsiteSink. */
  const QueueCapacity: nat := 4096

  /** The four kinds of metric line and their type suffixes on the wire. */
  datatype Kind = Gauge | KeyValue | Counter | Sample

  function Suffix(k: Kind): (r: string)
    ensures 1 <= |r| <= 2
    ensures '|' !in r && ':' !in r && '\n' !in r
  {
    match k
    case Gauge => "g"
    case KeyValue => "kv"
    case Counter => "c"
    case Sample => "ms"
  }

  /** One line of the statsite protocol: `key:value|suffix` and a newline.
      `value` stands for the %f rendering of the float32 value. */
  function MetricLine(key: string, value: string, k: Kind): (line: string)
    ensures |line| == |key| + |value| + |Suffix(k)| + 3
    ensures line[..|key|] == key && line[|key|] == ':'
    ensures line[|key| + 1 + |value|] == '|'
    ensures line[|line| - 1] == '\n'
  {
    key + ":" + value + "|" + Suffix(k) + "\n"
  }

  // ---------------------------------------------------------------------
  // Reading a line back, as the aggregator does

  datatype Fields = Fields(key: string, value: string, kind: Kind)

  /** Index of the first `c` in `s`, or |s| if there is none. */
  function IndexOf(s: string, c: char): (r: nat)
    ensures r <= |s|
    ensures r < |s| ==> s[r] == c
    ensures forall i :: 0 <= i < r ==> s[i] != c
  {
    if s == [] then 0
    else if s[0] == c then 0
    else 1 + IndexOf(s[1..], c)
  }

  /** Index of the last `c` in `s`, or -1 if there is none. */
  function LastIndexOf(s: string, c: char): (r: int)
    ensures -1 <= r < |s|
    ensures r >= 0 ==> s[r] == c
    ensures forall i :: r < i < |s| ==> s[i] != c
  {
    if s == [] then -1
    else if s[|s| - 1] == c then |s| - 1
    else LastIndexOf(s[..|s| - 1], c)
  }

  function KindOfSuffix(t: string): (r: Option<Kind>)
    ensures forall k :: r == Some(k) <==> Suffix(k) == t
  {
    if t == "g" then Some(Gauge)
    else if t == "kv" then Some(KeyValue)
    else if t == "c" then Some(Counter)
    else if t == "ms" then Some(Sample)
    else None
  }

  /** Split `key:value` at the first ':'. */
  function SplitKeyValue(head: string): Option<(string, string)>
  {
    var i := IndexOf(head, ':');
    if i == |head| then None else Some((head[..i], head[i + 1..]))
  }

  /** Split `key:value|suffix` at the last '|', then at the first ':'. */
  function ParseFields(body: string): Option<Fields>
  {
    var j := LastIndexOf(body, '|');
    if j < 0 then None
    else match (KindOfSuffix(body[j + 1..]), SplitKeyValue(body[..j]))
      case (Some(k), Some((key, value))) => Some(Fields(key, value, k))
      case _ => None
  }

  /** Read a received line back into key, value and kind: the key ends at the
      first ':', the kind follows the last '|', and the line ends with its
      only newline. None for a line that is not framed this way, including
      one that a reader splitting at newlines would see as two lines. */
  function ParseLine(line: string): Option<Fields>
  {
    if line == [] || line[|line| - 1] != '\n' || '\n' in line[..|line| - 1] then None
    else ParseFields(line[..|line| - 1])
  }

  lemma IndexOfSeparator(a: string, c: char, b: string)
    requires c !in a
    ensures IndexOf(a + [c] + b, c) == |a|
  {
    var s := a + [c] + b;
    var r := IndexOf(s, c);
    assert s[|a|] == c;
  }

  lemma LastIndexOfSeparator(a: string, c: char, b: string)
    requires c !in b
    ensures LastIndexOf(a + [c] + b, c) == |a|
  {
    var s := a + [c] + b;
    var r := LastIndexOf(s, c);
    assert s[|a|] == c;
  }

  lemma SplitKeyValueOf(key: string, value: string)
    requires ':' !in key
    ensures SplitKeyValue(key + [':'] + value) == Some((key, value))
  {
    var head := key + [':'] + value;
    IndexOfSeparator(key, ':', value);
    assert head[..|key|] == key;
    assert head[|key| + 1..] == value;
  }

  lemma ParseFieldsOf(key: string, value: string, k: Kind)
    requires ':' !in key && '|' !in value
    ensures ParseFields(key + [':'] + value + ['|'] + Suffix(k)) == Some(Fields(key, value, k))
  {
    var head := key + [':'] + value;
    var body := head + ['|'] + Suffix(k);
    assert '|' !in Suffix(k);
    LastIndexOfSeparator(head, '|', Suffix(k));
    assert body[|head| + 1..] == Suffix(k);
    assert body[..|head|] == head;
    SplitKeyValueOf(key, value);
  }

  /** The framing round-trip: a line built from a key without ':' or newline
      and a value without '|' or newline is read back as exactly that key,
      value and kind. */
  lemma ParseMetricLine(key: string, value: string, k: Kind)
    requires ':' !in key && '\n' !in key
    requires '|' !in value && '\n' !in value
    ensures ParseLine(MetricLine(key, value, k)) == Some(Fields(key, value, k))
  {
    var line := MetricLine(key, value, k);
    var body := key + [':'] + value + ['|'] + Suffix(k);
    assert line == body + "\n";
    assert line[..|line| - 1] == body;
    assert '\n' !in Suffix(k);
    assert '\n' !in body;
    ParseFieldsOf(key, value, k);
  }

  /** Because flattening removes every ':', the key of any emitted line is
      recovered intact from the wire, as long as no segment holds a newline
      (flattening keeps newlines). */
  lemma FlattenedKeyIsRecovered(parts: seq<string>, value: string, k: Kind)
    requires '\n' !in Join(parts)
    requires '|' !in value && '\n' !in value
    ensures ParseLine(MetricLine(FlattenKey(parts), value, k)) == Some(Fields(FlattenKey(parts), value, k))
  {
    var key := FlattenKey(parts);
    assert forall i :: 0 <= i < |key| ==> key[i] != ':' && key[i] != '\n';
    ParseMetricLine(key, value, k);
  }

  /** A newline inside the key is kept by flattening and ends the line early
      on the wire: the emitted text is not one well-framed line. */
  lemma NewlineInKeyBreaksLine(key: string, value: string, k: Kind)
    requires '\n' in key
    ensures ParseLine(MetricLine(key, value, k)) == None
  {
    var line := MetricLine(key, value, k);
    var i :| 0 <= i < |key| && key[i] == '\n';
    assert line[..|line| - 1][i] == '\n';
  }

  // ---------------------------------------------------------------------
  // The sink: queue plus delivery worker

  class StatsiteSink {
    const addr: string

    /** Lines pushed and not yet taken by the worker, oldest first. */
    var metricQueue: seq<string>
    /** Set by Shutdown: no more lines will arrive. */
    var closed: bool
    /** Where the worker is in its loop. */
    var phase: Phase
    /** Bytes held by the current bufio.Writer, not yet flushed. */
    var buffered: string
    /** Bytes flushed onto connections so far, over all reconnects. */
    var wire: string

    /** Every line handed to pushMetric, accepted or dropped. */
    ghost var offered: seq<string>
    /** Every line the queue accepted. */
    ghost var accepted: seq<string>
    /** Every line the worker took from the queue, delivered or discarded. */
    ghost var consumed: seq<string>
    /** The lines whose bytes make up `buffered`. */
    ghost var bufferedLines: seq<string>
    /** The lines whose bytes make up `wire`. */
    ghost var wireLines: seq<string>

    ghost predicate Valid()
      reads this
    {
      && |metricQueue| <= QueueCapacity
      && accepted == consumed + metricQueue
      && IsSubsequence(accepted, offered)
      && buffered == Concat(bufferedLines)
      && wire == Concat(wireLines)
      && IsSubsequence(wireLines + bufferedLines, consumed)
      && (phase == Connect || phase == Wait ==> bufferedLines == [])
      && (phase == Quit ==> closed && metricQueue == [])
    }

    /** NewStatsiteSink: an empty open queue, the worker about to dial. */
    constructor (addr: string)
      ensures Valid()
      ensures this.addr == addr
      ensures metricQueue == [] && !closed && phase == Connect
      ensures buffered == "" && wire == ""
      ensures offered == [] && accepted == [] && consumed == []
    {
      this.addr := addr;
      metricQueue := [];
      closed := false;
      phase := Connect;
      buffered := "";
      wire := "";
      offered := [];
      accepted := [];
      consumed := [];
      bufferedLines := [];
      wireLines := [];
    }

    /** Survivors reach the aggregator in push order: the delivered lines
        followed by the buffered ones are an order-preserving subsequence of
        the lines handed to pushMetric. */
    lemma SurvivorsInPushOrder()
      requires Valid()
      ensures IsSubsequence(wireLines + bufferedLines, accepted)
      ensures IsSubsequence(wireLines + bufferedLines, offered)
      ensures |wireLines| + |bufferedLines| <= |offered|
    {
      SubsequenceRefl(consumed);
      SubsequenceExtendRight(consumed, consumed, metricQueue);
      SubsequenceTrans(wireLines + bufferedLines, consumed, accepted);
      SubsequenceTrans(wireLines + bufferedLines, accepted, offered);
      SubsequenceLength(wireLines + bufferedLines, offered);
    }

    /** The effect of pushMetric(m): the line is appended when the queue is
        open and has room, and is silently dropped otherwise; the worker's
        state is not touched. */
    twostate predicate PushEffect(m: string)
      reads this
    {
      && offered == old(offered) + [m]
      && (if !old(closed) && |old(metricQueue)| < QueueCapacity
          then metricQueue == old(metricQueue) + [m] && accepted == old(accepted) + [m]
          else metricQueue == old(metricQueue) && accepted == old(accepted))
      && closed == old(closed) && phase == old(phase)
      && buffered == old(buffered) && wire == old(wire)
      && consumed == old(consumed)
      && bufferedLines == old(bufferedLines) && wireLines == old(wireLines)
    }

    /** pushMetric: a non-blocking send on the metric channel. */
    method PushMetric(m: string)
      requires Valid()
      modifies this
      ensures Valid()
      ensures PushEffect(m)
    {
      if phase == Quit {
        // The worker has set the channel to nil; a send on it is never
        // ready, so the select takes its default branch.
      } else if closed {
        // A send on a closed channel; the line never reaches the queue.
      } else if |metricQueue| < QueueCapacity {
        SubsequenceSnocBoth(accepted, offered, m);
        metricQueue := metricQueue + [m];
        accepted := accepted + [m];
      }
      if !(!closed && |old(metricQueue)| < QueueCapacity) {
        SubsequenceExtendRight(accepted, offered, [m]);
      }
      offered := offered + [m];
    }

    /** Shutdown: close the metric channel. Closing it twice is not allowed. */
    method Shutdown()
      requires Valid() && !closed
      modifies this
      ensures Valid()
      ensures closed
      ensures metricQueue == old(metricQueue) && phase == old(phase)
      ensures buffered == old(buffered) && wire == old(wire)
      ensures offered == old(offered) && accepted == old(accepted) && consumed == old(consumed)
      ensures bufferedLines == old(bufferedLines) && wireLines == old(wireLines)
    {
      closed := true;
    }

    // -------------------------------------------------------------------
    // Facade: format the line, then push it.

    method SetGauge(key: seq<string>, value: string)
      requires Valid()
      modifies this
      ensures Valid() && PushEffect(MetricLine(FlattenKey(key), value, Gauge))
    {
      PushMetric(MetricLine(FlattenKey(key), value, Gauge));
    }

    method SetGaugeWithLabels(key: seq<string>, value: string, labels: seq<Label>)
      requires Valid()
      modifies this
      ensures Valid() && PushEffect(MetricLine(FlattenKey(key + LabelValues(labels)), value, Gauge))
    {
      var flatKey := FlattenKeyLabels(key, labels);
      PushMetric(MetricLine(flatKey, value, Gauge));
    }

    method EmitKey(key: seq<string>, value: string)
      requires Valid()
      modifies this
      ensures Valid() && PushEffect(MetricLine(FlattenKey(key), value, KeyValue))
    {
      PushMetric(MetricLine(FlattenKey(key), value, KeyValue));
    }

    method IncrCounter(key: seq<string>, value: string)
      requires Valid()
      modifies this
      ensures Valid() && PushEffect(MetricLine(FlattenKey(key), value, Counter))
    {
      PushMetric(MetricLine(FlattenKey(key), value, Counter));
    }

    method IncrCounterWithLabels(key: seq<string>, value: string, labels: seq<Label>)
      requires Valid()
      modifies this
      ensures Valid() && PushEffect(MetricLine(FlattenKey(key + LabelValues(labels)), value, Counter))
    {
      var flatKey := FlattenKeyLabels(key, labels);
      PushMetric(MetricLine(flatKey, value, Counter));
    }

    method AddSample(key: seq<string>, value: string)
      requires Valid()
      modifies this
      ensures Valid() && PushEffect(MetricLine(FlattenKey(key), value, Sample))
    {
      PushMetric(MetricLine(FlattenKey(key), value, Sample));
    }

    method AddSampleWithLabels(key: seq<string>, value: string, labels: seq<Label>)
      requires Valid()
      modifies this
      ensures Valid() && PushEffect(MetricLine(FlattenKey(key + LabelValues(labels)), value, Sample))
    {
      var flatKey := FlattenKeyLabels(key, labels);
      PushMetric(MetricLine(flatKey, value, Sample));
    }

    // -------------------------------------------------------------------
    // Delivery worker: one method per branch of flushMetrics.

    /** Nothing a producer can observe about the queue changes. */
    twostate predicate QueueUnchanged()
      reads this
    {
      && metricQueue == old(metricQueue) && closed == old(closed)
      && offered == old(offered) && accepted == old(accepted) && consumed == old(consumed)
    }

    /** CONNECT: the dial succeeds (a fresh, empty writer; on to STREAM) or
        fails (on to WAIT). */
    method Dial(ok: bool)
      requires Valid() && phase == Connect
      modifies this
      ensures Valid()
      ensures Next(old(phase), if ok then Connected else ConnectFailed) == Some(phase)
      ensures buffered == "" && bufferedLines == []
      ensures wire == old(wire) && wireLines == old(wireLines)
      ensures QueueUnchanged()
    {
      if ok {
        phase := Stream;
        buffered := "";
        bufferedLines := [];
      } else {
        phase := Wait;
      }
    }

    /** STREAM, a line arrives: it is written into the buffer, not onto the
        wire; if the write fails the connection is abandoned with everything
        it buffered, and the worker goes to WAIT. */
    method StreamDequeue(writeOk: bool) returns (line: string)
      requires Valid() && phase == Stream && metricQueue != []
      modifies this
      ensures Valid()
      ensures Next(old(phase), if writeOk then Received else WriteFailed) == Some(phase)
      ensures line == old(metricQueue[0]) && metricQueue == old(metricQueue[1..])
      ensures consumed == old(consumed) + [line]
      ensures writeOk ==> buffered == old(buffered) + line && bufferedLines == old(bufferedLines) + [line]
      ensures !writeOk ==> buffered == "" && bufferedLines == []
      ensures wire == old(wire) && wireLines == old(wireLines)
      ensures closed == old(closed) && offered == old(offered) && accepted == old(accepted)
    {
      line := metricQueue[0];
      assert consumed + [line] + metricQueue[1..] == consumed + metricQueue;
      if writeOk {
        SubsequenceSnocBoth(wireLines + bufferedLines, consumed, line);
        assert wireLines + bufferedLines + [line] == wireLines + (bufferedLines + [line]);
        ConcatSnoc(bufferedLines, line);
        buffered := buffered + line;
        bufferedLines := bufferedLines + [line];
      } else {
        SubsequenceDropSuffix(wireLines, bufferedLines, consumed);
        SubsequenceExtendRight(wireLines, consumed, [line]);
        assert wireLines + [] == wireLines;
        buffered := "";
        bufferedLines := [];
        phase := Wait;
      }
      metricQueue := metricQueue[1..];
      consumed := consumed + [line];
    }

    /** STREAM, the flush ticker fires: on success the whole buffer goes onto
        the wire and the buffer is empty; on failure the connection is
        abandoned with everything it buffered, and the worker goes to WAIT. */
    method Tick(flushOk: bool)
      requires Valid() && phase == Stream
      modifies this
      ensures Valid()
      ensures Next(old(phase), if flushOk then Flushed else FlushFailed) == Some(phase)
      ensures buffered == "" && bufferedLines == []
      ensures flushOk ==> wire == old(wire) + old(buffered) && wireLines == old(wireLines) + old(bufferedLines)
      ensures !flushOk ==> wire == old(wire) && wireLines == old(wireLines)
      ensures QueueUnchanged()
    {
      if flushOk {
        ConcatAppend(wireLines, bufferedLines);
        assert wireLines + bufferedLines + [] == wireLines + bufferedLines;
        wire := wire + buffered;
        wireLines := wireLines + bufferedLines;
      } else {
        SubsequenceDropSuffix(wireLines, bufferedLines, consumed);
        assert wireLines + [] == wireLines;
        phase := Wait;
      }
      buffered := "";
      bufferedLines := [];
    }

    /** WAIT, a line arrives: it is discarded; nothing is written. */
    method WaitDequeue() returns (line: string)
      requires Valid() && phase == Wait && metricQueue != []
      modifies this
      ensures Valid()
      ensures Next(old(phase), Received) == Some(phase)
      ensures line == old(metricQueue[0]) && metricQueue == old(metricQueue[1..])
      ensures consumed == old(consumed) + [line]
      ensures buffered == old(buffered) && bufferedLines == old(bufferedLines)
      ensures wire == old(wire) && wireLines == old(wireLines)
      ensures closed == old(closed) && offered == old(offered) && accepted == old(accepted)
    {
      line := metricQueue[0];
      assert consumed + [line] + metricQueue[1..] == consumed + metricQueue;
      SubsequenceExtendRight(wireLines + bufferedLines, consumed, [line]);
      metricQueue := metricQueue[1..];
      consumed := consumed + [line];
    }

    /** WAIT, the backoff elapses: back to CONNECT; nothing is written. */
    method BackoffElapsed()
      requires Valid() && phase == Wait
      modifies this
      ensures Valid()
      ensures Next(old(phase), WaitElapsed) == Some(phase)
      ensures buffered == old(buffered) && bufferedLines == old(bufferedLines)
      ensures wire == old(wire) && wireLines == old(wireLines)
      ensures QueueUnchanged()
    {
      phase := Connect;
    }

    /** STREAM or WAIT, the receive reports the channel closed and drained:
        the worker quits. The buffer is not flushed first. */
    method ObserveClosed()
      requires Valid() && (phase == Stream || phase == Wait)
      requires closed && metricQueue == []
      modifies this
      ensures Valid()
      ensures Next(old(phase), Closed) == Some(phase)
      ensures buffered == old(buffered) && bufferedLines == old(bufferedLines)
      ensures wire == old(wire) && wireLines == old(wireLines)
      ensures QueueUnchanged()
    {
      phase := Quit;
    }

    /** Recovery after a failure: a failed flush abandons the connection, the
        backoff elapses, the redial succeeds, and a line pushed afterwards
        reaches the wire on the next good flush. */
    method FailureThenDelivery(m: string)
      requires Valid() && phase == Stream && !closed && metricQueue == []
      modifies this
      ensures Valid() && phase == Stream
      ensures wire == old(wire) + m
      ensures buffered == "" && metricQueue == []
    {
      Tick(false);
      BackoffElapsed();
      Dial(true);
      PushMetric(m);
      var line := StreamDequeue(true);
      Tick(true);
    }
  }
}
