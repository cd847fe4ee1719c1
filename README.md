# Statsite metrics sink — a Dafny model

This project models the statsite sink of go-metrics (`statsite.go`). The sink
is a client-side metrics sink. Applications emit gauges, counters, samples and
key/value events. Each call formats one line of the statsite text protocol and
does a non-blocking push onto a 4096-slot queue. A background worker drains the
queue onto a buffered TCP connection. It flushes on a 100 ms ticker. After any
connect, write or flush error it backs off for 5 s, discarding what arrives,
and then reconnects. It quits when the queue is closed.

The model has five modules:

- `KeyFormat` (`key_format.dfy`): `flattenKey` and `flattenKeyLabels` as
  string functions. The proofs cover length preservation, the absence of
  `' '` and `':'`, pointwise identity elsewhere, idempotence, labels appended
  after the base segments in order, and recovery of the segments by splitting
  at `'.'`.
- `Worker` (`worker.dfy`): the CONNECT / STREAM / WAIT / QUIT labels of
  `flushMetrics` as a pure transition function over abstract events. It also
  has lemmas over event traces: QUIT is terminal, only the closed queue leads
  into QUIT, and nothing is flushed in WAIT.
- `Statsite` (`statsite.dfy`): the class `StatsiteSink`. Its fields are the
  queue, the closed flag, the worker's phase, the write buffer and the bytes
  on the wire. It has one method per thing that can happen: a push, the
  shutdown, or a branch of the worker's `select`. Any interleaving of the
  producers and the worker is a sequence of these calls. The invariant
  `Valid()` is kept by every method. It says that the lines on the wire,
  followed by the buffered lines, form an order-preserving subsequence of the
  lines the worker took from the queue. Lines may be lost but are never
  reordered. The facade calls (`SetGauge` and the others) and a parser for the
  line framing are here too.
- `Sequences` (`sequences.dfy`) and `Wrappers` (`wrappers.dfy`): helpers
  (line concatenation, the subsequence relation, `Option`).

Where the behaviour of the code could be read more than one way, the model
follows the code:

- On QUIT the code does not flush the write buffer. Lines still buffered when
  the closed queue is seen never reach the aggregator. `ObserveClosed` keeps
  the buffer unflushed.
- A push after `Shutdown` is a send on a closed channel, which panics in Go.
  Once the worker has quit, `metricQueue` is `nil`, so the send is never ready
  and the `select` drops the line. The model treats both cases as dropping the
  line (see `## Left out`).

Nondeterministic outcomes are parameters of the event methods: the dial result,
the write result and the flush result. The two timers are the events `Tick`
and `BackoffElapsed`.

## Model

| member | source | states |
|---|---|---|
| KeyFormat.Sanitize | statsite.go:86-94 | The closure passed to strings.Map: its result is never ':' or ' '; it is '_' exactly for ':' and ' ' (the fallthrough case); every other rune is returned unchanged |
| KeyFormat.Join | statsite.go:85 | strings.Join(parts, "."): the result holds every segment's runes plus one '.' between each neighbouring pair, and starts with the first segment; JoinAppend and SplitJoin relate it further |
| KeyFormat.MapRunes | statsite.go:86-95 | The mapped string is as long as the input; position by position it is the input rune, with ':' and ' ' (the fallthrough case) turned into '_' |
| KeyFormat.FlattenKey | statsite.go:84-95 | The flattened key is as long as `strings.Join(parts, ".")`, holds no ' ' and no ':', and equals the joined key at every position where that is neither ' ' nor ':' (where it is '_') |
| KeyFormat.LabelValues | statsite.go:100-102 | One entry per label, in label order, each the label's Value |
| KeyFormat.FlattenKeyLabels | statsite.go:99-104 | The result is flattenKey of the base segments followed by every label's Value in order |
| KeyFormat.MapRunesIdempotent | statsite.go:86-95 | Applying the rune mapping twice gives the same string as applying it once |
| KeyFormat.FlattenKeyIdempotent | statsite.go:84-95 | Flattening a flattened key as a single segment returns it unchanged |
| KeyFormat.FlattenKeyKeepsCleanKey | statsite.go:84-95 | A key whose joined form has no ' ' or ':' is returned exactly as joined |
| KeyFormat.MapRunesAppend | statsite.go:86-95 | The mapping distributes over concatenation |
| KeyFormat.JoinAppend | statsite.go:85 | Joining two non-empty runs of segments puts exactly one '.' between their joins |
| KeyFormat.FlattenKeyAppend | statsite.go:99-104 | Flattening two non-empty runs of segments is flattening each, joined by '.'; so a labelled key is the flattened base key, '.', and the flattened label values |
| KeyFormat.FlattenKeyPerSegment | statsite.go:84-95 | Flattening equals sanitising each segment and then joining: separators are never altered |
| KeyFormat.SplitJoin | statsite.go:85 | Splitting at '.' undoes the join when no segment contains '.' |
| KeyFormat.FlattenKeySegments | statsite.go:84-95 | When no segment contains '.', splitting the flattened key gives back each segment, sanitised, in order |
| KeyFormat.FlattenKeyExamples | statsite.go:84-104 | ["a", "b c"] flattens to "a.b_c"; ["svc"] with a label valued "x:y" flattens to "svc.x_y" |
| Worker.Next | statsite.go:123-172 | QUIT has no successor. QUIT is reached exactly when the closed queue is seen in STREAM or WAIT. WAIT is reached exactly on a failed connect, a failed write, a failed flush, or a line dequeued while waiting. CONNECT is reached only when the wait elapses. STREAM is reached only by a successful connect or by a successful write or flush in STREAM. A flush happens only in STREAM |
| Worker.QuitIsTerminal | statsite.go:171-173 | From QUIT no non-empty run of events is possible |
| Worker.OnlyClosureQuits | statsite.go:137-141 | Any run that reaches QUIT from another phase ends with the queue-closed event, and that event occurs nowhere earlier in the run |
| Worker.WaitHoldsUntilElapsed | statsite.go:157-170 | Until the wait elapses, a run from WAIT contains no flush and stays in WAIT, or ends in QUIT on the closed queue |
| Worker.FailureThenRecovery | statsite.go:125-129 | A failed connect, write or flush leads to WAIT; WAIT, then the wait elapsing, then a successful connect, lead back to STREAM |
| Statsite.Suffix | statsite.go:48-81 | The kind suffixes g, kv, c and ms: one or two runes, none of them a bar character, ':' or a newline |
| Statsite.MetricLine | statsite.go:48-81 | The Sprintf framing: the key, then ':' right after it, then the value text, then a bar character right after the value, then the suffix, and a final newline; ParseMetricLine reads it back |
| Statsite.ParseMetricLine | statsite.go:48-81 | A line built from a key with no ':' and no newline, and a value with no bar character and no newline, is read back as exactly that key, value and kind; the reader takes a line to end at its only newline |
| Statsite.NewlineInKeyBreaksLine | statsite.go:48-95 | A key holding a newline, which flattening keeps, makes the emitted text something other than one well-framed line: the reader returns nothing for it |
| Statsite.FlattenedKeyIsRecovered | statsite.go:48-95 | The key of every emitted line, being flattened and so free of ':', is recovered intact from the line, provided the joined key and the value hold no newline and the value no bar character |
| Statsite.StatsiteSink.constructor | statsite.go:34-41 | A new sink has an empty, open queue, an empty wire, and its worker in CONNECT |
| Statsite.StatsiteSink.SurvivorsInPushOrder | statsite.go:107-155 | The lines on the wire followed by the buffered lines are an order-preserving subsequence of the accepted lines and of all pushed lines. Since a closed queue accepts nothing more, after Shutdown only lines accepted before it can still reach the wire |
| Statsite.StatsiteSink.PushMetric | statsite.go:107-112 | With fewer than 4096 queued lines on an open queue, the line is appended and earlier entries are unchanged. On a full or closed queue nothing changes. The worker's state and the wire are never touched |
| Statsite.StatsiteSink.Shutdown | statsite.go:44-46 | The queue becomes closed; nothing else changes |
| Statsite.StatsiteSink.SetGauge | statsite.go:48-51 | Pushes the line of the flattened key, the value and the gauge suffix g |
| Statsite.StatsiteSink.SetGaugeWithLabels | statsite.go:53-56 | Pushes the line of the key flattened with its label values, the value and the gauge suffix g |
| Statsite.StatsiteSink.EmitKey | statsite.go:58-61 | Pushes the line of the flattened key, the value and the key/value suffix kv |
| Statsite.StatsiteSink.IncrCounter | statsite.go:63-66 | Pushes the line of the flattened key, the value and the counter suffix c |
| Statsite.StatsiteSink.IncrCounterWithLabels | statsite.go:68-71 | Pushes the line of the key flattened with its label values, the value and the counter suffix c |
| Statsite.StatsiteSink.AddSample | statsite.go:73-76 | Pushes the line of the flattened key, the value and the sample suffix ms |
| Statsite.StatsiteSink.AddSampleWithLabels | statsite.go:78-81 | Pushes the line of the key flattened with its label values, the value and the sample suffix ms |
| Statsite.StatsiteSink.Dial | statsite.go:123-133 | A successful dial gives a fresh, empty buffer and STREAM; a failed one gives WAIT; the wire and the queue are unchanged |
| Statsite.StatsiteSink.StreamDequeue | statsite.go:137-148 | The head of the queue is removed. On a good write it is appended to the buffer and not to the wire; on a failed write the buffer is abandoned and the worker goes to WAIT. The wire is unchanged either way, and the invariant is kept |
| Statsite.StatsiteSink.Tick | statsite.go:149-153 | A successful flush appends the whole buffer to the wire and empties it. A failed flush leaves the wire unchanged, abandons the buffer and goes to WAIT |
| Statsite.StatsiteSink.WaitDequeue | statsite.go:160-166 | In WAIT the head of the queue is discarded; the buffer and the wire do not change |
| Statsite.StatsiteSink.BackoffElapsed | statsite.go:167-168 | WAIT goes to CONNECT with the wire unchanged |
| Statsite.StatsiteSink.ObserveClosed | statsite.go:137-141 | Seeing the closed, drained queue in STREAM or WAIT moves to QUIT. Nothing is flushed or written |
| Statsite.StatsiteSink.FailureThenDelivery | statsite.go:123-153 | From STREAM with an open, empty queue: a failed flush, the backoff elapsing, a good redial, a push, a good write and a good flush leave the worker in STREAM with exactly the pushed line added to the wire and an empty buffer |

## Left out

- The `%f` rendering of `float32` values: the facade calls take the value's text as an opaque string, and only the framing (`:`, `|g`, `|kv`, `|c`, `|ms`, newline) is modelled.
- `net.Dial`, TCP sockets and the internals of `bufio.Writer`: dial, write and flush outcomes are parameters. The writer's own flush when its internal buffer fills, and partial writes before an error, are not modelled. In the model a write only buffers, and a failed write or flush puts nothing on the wire. Write and flush failures are allowed in every state of the buffer, including a flush of an empty buffer and a write that fits, which the real writer never fails; the safety properties proved hold for this larger set of behaviours.
- Statsite.StatsiteSink.StreamDequeue: states that a successful write never reaches the wire, which holds only while bufio's internal buffer does not overflow (not modelled, see above).
- The goroutine, channel synchronisation and `select` fairness: every interleaving is a sequence of method calls chosen by the caller.
- The 100 ms ticker and the 5 s `time.After`: they become the `Tick` and `BackoffElapsed` events. Durations, and any liveness claim such as "no line sits unflushed longer than one interval" or "the worker terminates within one drain cycle", are not modelled.
- Logging of connect, write and flush errors: it is observational only.
- `NewStatsiteSinkFromURL`: a thin wrapper over `net/url`.
- Statsite.StatsiteSink.PushMetric: a push after `Shutdown` but before the worker has quit panics in Go (a send on a closed channel). The model drops the line instead. It claims that the line is not queued and that the wire and the worker are untouched.
- Statsite.StatsiteSink.Shutdown: requires an open queue, because closing a closed channel panics in Go.
- The stacked `defer sock.Close()` on every reconnect, and the closing of sockets in general, are not modelled. The data race of the worker's `s.metricQueue = nil` write against concurrent pushes is also not modelled: after QUIT the model drops every push.
- Statsite.FlattenedKeyIsRecovered: promises recovery only when the joined key and the value hold no newline. Flattening keeps '\n', so a key segment or label value holding one splits its metric line on the wire; `NewlineInKeyBreaksLine` states this.
- Byte encoding: strings are sequences of characters, and one character stands for one byte of the wire. UTF-8 encoding, and `strings.Map`'s replacement of invalid UTF-8, are not modelled.
- `Label` is declared outside `statsite.go`, and that file is not part of this model. Here it is a record of `Name` and `Value`, and only `Value` is read.
- In `flattenKeyLabels`, `append` may write into spare capacity of the caller's slice. That aliasing is not modelled, since the model works on sequence values.
