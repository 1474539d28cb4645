# RTMPStream session model

A Dafny model of the stream session of an RTMP publisher/player
(`lf/RTMP/RTMPStream.swift`). The session holds a ready state, the stream id
the connection assigned, a per-media-kind "already sent" chunk table and one
timestamp accumulator per media kind. Every write the session makes to its
connection is appended to `log`, so the log is the message sequence the
connection receives.

- `rtmp_messages.dfy` (module `RtmpMessages`): the ready states (the first is
  spelled `Initilized`, as in the source), media kinds, the Type 0 and Type 1
  chunk message header formats of section 5.3.1.2 of the Adobe RTMP
  specification, argument values, and the three kinds of message written to
  the connection (command, data, media).
- `media_chunks.dfy` (module `MediaChunks`): the per-sample framing decisions,
  namely the header format a sample gets and the integer timestamp it carries
  with the fractional remainder carried forward. It also holds functions that
  iterate these over a run of samples, with lemmas about whole runs: the first
  sample of each kind after the table is emptied gets the full header, and
  timestamps are conserved (the wire timestamps plus the final accumulator
  equal the starting accumulator plus all sample timestamps), so the wire
  timestamps never drift by a whole unit.
- `rtmp_stream.dfy` (module `RtmpStream`): class `Stream` with the source's
  mutable fields. It has the ready-state assignment hook (`SetState`), the
  guarded NetStream commands of section 7.2.2 of the Adobe RTMP specification
  (`play`, `publish`, `seek`, `receiveAudio`, `receiveVideo`, `deleteStream`),
  `send`, the status handler and the two media emitters. `Valid()` is the
  object invariant: callbacks are bound in Publishing and unbound in Closed,
  accumulators stay convertible to UInt32, and the chunk table holds only
  `true`. It also ties the table to the log: a kind is in the table exactly
  when a chunk of that kind was written since the stream was created or `publish` last emptied it
  (the ghost field `clearedAt` marks that point of the log). `EmitSamples`
  emits a run of samples of one kind through the class and writes exactly
  the chunks `MediaRun` gives, whose formats and timestamps are those the run
  functions of `MediaChunks` give. Two scenario methods run a whole
  publishing session and a short media run.

Work the source queues on its serial dispatch queue is modelled as the method
call itself, one at a time in call order. The busy-wait for the stream to leave
`Initilized` (in `play` and `publish`) is a precondition. In `publish`, the
precondition applies only when a name is given, because the nil-name check comes
before the wait.

A chunk carries the truncation of the accumulator as it stood *before* its own
sample is folded in: chunk i carries the truncation of the accumulator after i
samples (`EmittedRunAt`). So the first chunk of a kind carries the starting
accumulator (0 for a new stream), and each sample's own timestamp appears one
chunk later.

## Model

| member | source | states |
|---|---|---|
| `RtmpStream.Stream.SetState` | lf/RTMP/RTMPStream.swift:121-135 | the state becomes the assigned one; entering Publishing appends exactly one `@setDataFrame` data message whose first argument is `onMetaData` and binds the callbacks; entering Closed unbinds; the hook runs on every assignment; the invariant is kept |
| `RtmpStream.Stream.Send` | lf/RTMP/RTMPStream.swift:294-304 | a closed stream appends nothing; any other state appends exactly one data message with the given handler and arguments; nothing else changes |
| `RtmpStream.Stream.ReceiveAudio` | lf/RTMP/RTMPStream.swift:175-189 | in Playing, appends exactly one `receiveAudio` command with the current id and the single flag argument; otherwise the log and all fields are unchanged |
| `RtmpStream.Stream.ReceiveVideo` | lf/RTMP/RTMPStream.swift:191-205 | in Playing, appends exactly one `receiveVideo` command with the current id and the single flag argument; otherwise nothing changes |
| `RtmpStream.Stream.Seek` | lf/RTMP/RTMPStream.swift:228-242 | in Playing, appends exactly one `seek` command with the current id and the offset; otherwise nothing changes |
| `RtmpStream.Stream.Play` | lf/RTMP/RTMPStream.swift:207-222 | once the state has left Initilized, clears `readyForKeyframe` and appends exactly one `play` command carrying the caller's arguments unchanged; the state is untouched |
| `RtmpStream.Stream.Publish` | lf/RTMP/RTMPStream.swift:244-272 | a missing name changes nothing; otherwise (after leaving Initilized) the chunk table is empty, exactly one `publish` command with arguments `[name, type]` on a Type 0 chunk of the audio chunk stream is appended, the state is Publish and the binding is untouched; the point where the table was emptied is the log's old end |
| `RtmpStream.Stream.PublishLive` | lf/RTMP/RTMPStream.swift:224-226 | the one-argument publish has exactly the effect of publish with type `live` |
| `RtmpStream.Stream.Close` | lf/RTMP/RTMPStream.swift:274-292 | on a closed stream nothing changes; otherwise exactly one `deleteStream` command with argument `[id]` is appended, the state becomes Closed and the callbacks are unbound |
| `RtmpStream.CloseTwice` | lf/RTMP/RTMPStream.swift:274-292 | closing twice appends and changes exactly what closing once does |
| `RtmpStream.Stream.HandleStatus` | lf/RTMP/RTMPStream.swift:345-360 | connect success sets Initilized and records one more createStream request without writing; publish start sets Publishing, appends the metadata message and binds; any other notification changes nothing |
| `RtmpStream.PublishSession` | lf/RTMP/RTMPStream.swift:345-360 | a session from connect success through publish("cam1") to publish start writes exactly the publish command `["cam1", "live"]` and then the metadata message, ends in Publishing with callbacks bound, and made one createStream request |
| `RtmpStream.Stream.constructor` | lf/RTMP/RTMPStream.swift:150-157 | a new stream is Initilized with id 0, an empty table, zero accumulators, unbound callbacks and an empty log, and has requested a stream exactly when the connection was already up |
| `RtmpStream.Stream.AssignId` | lf/RTMP/RTMPStream.swift:120 | the connection's write of the stream id sets it and nothing else |
| `RtmpStream.Stream.SampleAudio` | lf/RTMP/RTMPStream.swift:311-320 | appends exactly one audio chunk whose format is Zero iff no audio chunk was written since the stream was created or publish last emptied the table, and whose timestamp is the old accumulator truncated; marks only audio as sent; the audio accumulator becomes `timestamp + (old - floor(old))`; video state is untouched |
| `RtmpStream.Stream.SampleVideo` | lf/RTMP/RTMPStream.swift:322-331 | the same for video: format Zero iff no video chunk was written since the table was emptied; marks only video and touches only the video accumulator |
| `RtmpStream.EmitSamples` | lf/RTMP/RTMPStream.swift:311-331 | emitting a run of samples of one kind through the stream appends exactly the chunks `MediaRun` gives for the starting table and accumulator, one per sample; the table ends as `TableAfter` and that kind's accumulator as `AccumulatorAfter` say; the other kind's accumulator is untouched |
| `RtmpStream.MediaRunAt` | lf/RTMP/RTMPStream.swift:311-331 | the j-th chunk of a run has the format `FormatRun` gives and the timestamp `EmittedRun` gives |
| `RtmpStream.PublishedMediaSession` | lf/RTMP/RTMPStream.swift:311-331 | after a publish and the server's publish-start notification, two audio samples and one video sample give formats Zero, One, Zero with timestamps 0, 23, 0, and the audio accumulator carries the dropped half |
| `MediaChunks.WireTimestamp` | lf/RTMP/RTMPStream.swift:316 | the UInt32 timestamp is the largest integer not above the accumulator and is below 2^32 |
| `MediaChunks.Carry` | lf/RTMP/RTMPStream.swift:319 | the new accumulator lies in `[timestamp, timestamp + 1)`, stays convertible, and the written timestamp plus the new accumulator equal the old accumulator plus the sample timestamp |
| `MediaChunks.FormatRunFirstOfKind` | lf/RTMP/RTMPStream.swift:311-331 | over any run of samples, a sample gets format Zero iff its kind was not in the starting table and did not occur earlier in the run |
| `MediaChunks.FormatRunAfterClear` | lf/RTMP/RTMPStream.swift:257 | after the table is emptied, the first sample of each kind gets format Zero and every later sample of that kind gets format One |
| `MediaChunks.FormatRunAt` | lf/RTMP/RTMPStream.swift:314-318 | the i-th format of a run is the one the table after the first i samples gives |
| `MediaChunks.TableAfterKeys` | lf/RTMP/RTMPStream.swift:318 | after a run the table's kinds are exactly the starting kinds plus the kinds in the run |
| `MediaChunks.EmittedRunAt` | lf/RTMP/RTMPStream.swift:316-319 | the i-th chunk of a run carries the truncation of the accumulator after the first i samples |
| `MediaChunks.RunConservesTime` | lf/RTMP/RTMPStream.swift:316-319 | over any run, the sum of the wire timestamps plus the final accumulator equals the starting accumulator plus the sum of the sample timestamps |
| `MediaChunks.AccumulatorAfterTracksLast` | lf/RTMP/RTMPStream.swift:319 | after a non-empty run the accumulator lies in `[last, last + 1)` for the last sample timestamp |
| `MediaChunks.RunTracksElapsedTime` | lf/RTMP/RTMPStream.swift:316-319 | the wire timestamps of a run add up to the starting accumulator plus all sample timestamps but the last, to within less than one unit |

## Left out

- The view, display layer, key-value observation and `enqueueSampleBuffer` paths (lines 72-91, 333-343, 362-373): rendering, not session logic.
- Capture-manager and muxer pass-throughs: `torch`, `syncOrientation`, the audio, video and capture settings dictionaries, `attachAudio`, `attachCamera`, `setPointOfInterest`. These are foreign AVFoundation calls. Binding the sample callbacks is kept as the boolean `delegatesBound`.
- In `publish`, the steps `muxer.dispose()`, `muxer.delegate = self` and `captureManager.startRunning()` are calls into code outside this model and are not represented.
- The serial dispatch queue and concurrency: queued blocks are method calls run one at a time in call order. So the model cannot show that `send` bypasses the queue, or that the media emitters run on the encoders' queues.
- The `usleep` busy-wait in `play` and `publish` is a precondition (`state != Initilized`), not a wait.
- Wire encoding of chunks and messages (`RTMPChunk`, `RTMPCommandMessage`, `RTMPDataMessage`, `FLVTag.createMessage`): messages are kept as records. The metadata object from `muxer.createMetadata()` is the opaque value `MuxerMetadata`. The media chunk stream id (`type.streamId`) is implied by the media kind.
- IEEE-754 rounding of the Double accumulators: timestamps are exact reals. The UInt32 conversion truncates toward zero and traps out of range; it also accepts values in `(-1, 0)`, giving 0. The model requires the accumulator to stay in `[0, 2^32)`, the range where truncation and the floor `WireTimestamp` takes agree, so that interval is narrower than what the conversion itself accepts. So sample timestamps must lie in `[0, 2^32 - 1]`.
- `PlayOptions`, its `description` string and the `PlayTransitions` raw values: plain data with no behaviour in the session.
- The connection side: RTMPConnection itself is not part of this model. That includes the status listener registration in the initializer, `deinit`, and how the connection turns a createStream reply into a stream id and a new state. `AssignId` and `SetState` stand for its writes to the stream's internal `id` and `readyState`, and the constructor takes the connection's `connected` flag as a parameter.
- `objectEncoding` is set once by the constructor. Later assignments to this public property by callers are not modelled as an operation.
- Command and data arguments (`Any?` in the source) are limited to the values `Null`, `Bool`, `Number`, `UInt`, `Str` and `MuxerMetadata`.
