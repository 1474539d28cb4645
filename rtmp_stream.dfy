/** The stream session: lifecycle state, guarded NetStream commands (section
    7.2.2 of the Adobe RTMP specification), reactions to remote status
    notifications, and the media chunk emitters. Every write to the
    connection is appended to `log`, so the log is the sequence of messages
    the connection receives, in order. Work the Swift class submits to its
    serial queue is modelled as the method call itself, run to completion
    before the next one; its wait for stream creation is a precondition. */
module RtmpStream {
  import opened RtmpMessages
  import opened MediaChunks

  const ConnectSuccess: string := "NetConnection.Connect.Success"
  const PublishStart: string := "NetStream.Publish.Start"

  /** The stream type `publish(name)` uses. */
  const DefaultPublishType: string := "live"

  /** The side effect that assigning a ready state triggers. */
  datatype Hook = SendMetadataAndBind | Unbind | NoEffect

  /** Entering Publishing sends metadata and binds the capture callbacks,
      entering Closed unbinds them, and no other state has an effect. */
  function HookFor(next: ReadyState): Hook
  {
    match next
    case Publishing => SendMetadataAndBind
    case Closed => Unbind
    case _ => NoEffect
  }

  /** What the stream does with a status notification. */
  datatype StatusReaction = Reconnect | PublishStarted | Ignore

  /** `code` is the notification's "code" entry, None when the payload is
      not an object or has no string code. Exactly two codes are acted on. */
  function ReactionTo(code: Option<string>): StatusReaction
  {
    match code
    case Some(c) =>
      if c == ConnectSuccess then Reconnect
      else if c == PublishStart then PublishStarted
      else Ignore
    case None => Ignore
  }

  class Stream {
    var state: ReadyState
    var id: nat                      // UInt32, assigned by the connection
    var objectEncoding: nat          // UInt8
    var readyForKeyframe: bool
    var chunkTypes: ChunkTable
    var audioTimestamp: real
    var videoTimestamp: real
    var delegatesBound: bool         // capture callbacks installed
    var createStreamRequests: nat    // createStream calls made to the connection
    var log: seq<Msg>                // messages written to the connection
    ghost var clearedAt: nat         // length of the log when the table was last emptied

    /** A kind is in the chunk table iff a chunk of that kind was written
        since the table was last emptied. */
    ghost predicate TableTracksLog()
      reads this
    {
      clearedAt <= |log| && chunkTypes.Keys == SentSince(log, clearedAt)
    }

    /** The callbacks are bound in Publishing and unbound in Closed; the
        accumulators stay convertible to UInt32; the table only holds true
        and tracks the chunks written since it was last emptied. */
    ghost predicate Valid()
      reads this
    {
      && TableTracksLog()
      && id < Uint32Limit
      && objectEncoding < 256
      && InWireRange(audioTimestamp)
      && InWireRange(videoTimestamp)
      && (forall k :: k in chunkTypes ==> chunkTypes[k])
      && (state == Publishing ==> delegatesBound)
      && (state == Closed ==> !delegatesBound)
    }

    /** A new stream on a connection; it asks for a stream id at once when the
        connection is already up. */
    constructor (connected: bool, encoding: nat)
      requires encoding < 256
      ensures Valid()
      ensures state == Initilized && id == 0 && objectEncoding == encoding
      ensures !readyForKeyframe && chunkTypes == map[] && !delegatesBound
      ensures audioTimestamp == 0.0 && videoTimestamp == 0.0
      ensures createStreamRequests == (if connected then 1 else 0)
      ensures log == []
    {
      state := Initilized;
      id := 0;
      objectEncoding := encoding;
      readyForKeyframe := false;
      chunkTypes := map[];
      audioTimestamp, videoTimestamp := 0.0, 0.0;
      delegatesBound := false;
      createStreamRequests := if connected then 1 else 0;
      log := [];
      clearedAt := 0;
    }

    /** The connection records the id it obtained for this stream. */
    method AssignId(newId: nat)
      requires Valid() && newId < Uint32Limit
      modifies this`id
      ensures Valid() && id == newId
    {
      id := newId;
    }

    /** Assigning the ready state, with the hook that runs on every
        assignment, even of the state the stream is already in. */
    method SetState(next: ReadyState)
      requires Valid()
      modifies this`state, this`log, this`delegatesBound
      ensures Valid() && state == next
      ensures log == old(log) + (if next == Publishing then [MetadataMessage(id, objectEncoding)] else [])
      ensures delegatesBound == (next == Publishing || (next != Closed && old(delegatesBound)))
    {
      state := next;
      match HookFor(next)
      case SendMetadataAndBind =>
        Send(MetadataHandler, MetadataArgs);
        delegatesBound := true;
      case Unbind =>
        delegatesBound := false;
      case NoEffect =>
    }

    /** A data message, written at once unless the stream is closed. It does
        not require the invariant, because the ready-state hook calls it after
        entering Publishing and before binding the callbacks; it keeps the
        invariant whenever it held. */
    method Send(handler: string, args: seq<Value>)
      modifies this`log
      ensures old(Valid()) ==> Valid()
      ensures old(TableTracksLog()) ==> TableTracksLog()
      ensures state == Closed ==> log == old(log)
      ensures state != Closed ==> log == old(log) + [Data(id, objectEncoding, handler, args)]
    {
      if state == Closed {
        return;
      }
      if clearedAt <= |log| {
        SentSinceSnoc(log, clearedAt, Data(id, objectEncoding, handler, args));
      }
      log := log + [Data(id, objectEncoding, handler, args)];
    }

    method ReceiveAudio(flag: bool)
      requires Valid()
      modifies this`log
      ensures Valid()
      ensures state == Playing ==> log == old(log) + [Command(DefaultFraming, id, objectEncoding, "receiveAudio", [Bool(flag)])]
      ensures state != Playing ==> log == old(log)
    {
      if state != Playing {
        return;
      }
      SentSinceSnoc(log, clearedAt, Command(DefaultFraming, id, objectEncoding, "receiveAudio", [Bool(flag)]));
      log := log + [Command(DefaultFraming, id, objectEncoding, "receiveAudio", [Bool(flag)])];
    }

    method ReceiveVideo(flag: bool)
      requires Valid()
      modifies this`log
      ensures Valid()
      ensures state == Playing ==> log == old(log) + [Command(DefaultFraming, id, objectEncoding, "receiveVideo", [Bool(flag)])]
      ensures state != Playing ==> log == old(log)
    {
      if state != Playing {
        return;
      }
      SentSinceSnoc(log, clearedAt, Command(DefaultFraming, id, objectEncoding, "receiveVideo", [Bool(flag)]));
      log := log + [Command(DefaultFraming, id, objectEncoding, "receiveVideo", [Bool(flag)])];
    }

    method Seek(offset: real)
      requires Valid()
      modifies this`log
      ensures Valid()
      ensures state == Playing ==> log == old(log) + [Command(DefaultFraming, id, objectEncoding, "seek", [Number(offset)])]
      ensures state != Playing ==> log == old(log)
    {
      if state != Playing {
        return;
      }
      SentSinceSnoc(log, clearedAt, Command(DefaultFraming, id, objectEncoding, "seek", [Number(offset)]));
      log := log + [Command(DefaultFraming, id, objectEncoding, "seek", [Number(offset)])];
    }

    /** Runs once the stream has left Initilized; the caller's arguments are
        passed through unchanged. */
    method Play(args: seq<Value>)
      requires Valid() && state != Initilized
      modifies this`readyForKeyframe, this`log
      ensures Valid() && !readyForKeyframe
      ensures log == old(log) + [Command(DefaultFraming, id, objectEncoding, "play", args)]
    {
      readyForKeyframe := false;
      SentSinceSnoc(log, clearedAt, Command(DefaultFraming, id, objectEncoding, "play", args));
      log := log + [Command(DefaultFraming, id, objectEncoding, "play", args)];
    }

    /** Without a name nothing happens; otherwise, once the stream has left
        Initilized, the chunk table is emptied, the publish command is
        written and the state becomes Publish. */
    method Publish(name: Option<string>, streamType: string)
      requires Valid() && (name.Some? ==> state != Initilized)
      modifies this`state, this`chunkTypes, this`log, this`delegatesBound, this`clearedAt
      ensures Valid()
      ensures name.None? ==> unchanged(this)
      ensures name.Some? ==> && state == ReadyState.Publish
                             && chunkTypes == map[] && clearedAt == old(|log|)
                             && delegatesBound == old(delegatesBound)
                             && log == old(log) + [Command(ZeroOnAudioChunkStream, id, objectEncoding, "publish", [Str(name.value), Str(streamType)])]
    {
      if name.None? {
        return;
      }
      chunkTypes := map[];
      clearedAt := |log|;
      SentSinceSnoc(log, clearedAt, Command(ZeroOnAudioChunkStream, id, objectEncoding, "publish", [Str(name.value), Str(streamType)]));
      log := log + [Command(ZeroOnAudioChunkStream, id, objectEncoding, "publish", [Str(name.value), Str(streamType)])];
      SetState(ReadyState.Publish);
    }

    /** `publish(name)` is `publish(name, type: "live")`. */
    method PublishLive(name: Option<string>)
      requires Valid() && (name.Some? ==> state != Initilized)
      modifies this`state, this`chunkTypes, this`log, this`delegatesBound, this`clearedAt
      ensures Valid()
      ensures name.None? ==> unchanged(this)
      ensures name.Some? ==> && state == ReadyState.Publish
                             && chunkTypes == map[] && clearedAt == old(|log|)
                             && delegatesBound == old(delegatesBound)
                             && log == old(log) + [Command(ZeroOnAudioChunkStream, id, objectEncoding, "publish", [Str(name.value), Str("live")])]
    {
      Publish(name, DefaultPublishType);
    }

    /** A closed stream ignores close; otherwise deleteStream is written for
        this stream's id, and the stream becomes Closed, unbinding its
        callbacks. */
    method Close()
      requires Valid()
      modifies this`state, this`log, this`delegatesBound
      ensures Valid() && state == Closed
      ensures old(state) == Closed ==> unchanged(this)
      ensures old(state) != Closed ==> && !delegatesBound
                                       && log == old(log) + [Command(ZeroOnAudioChunkStream, id, objectEncoding, "deleteStream", [UInt(id)])]
    {
      if state == Closed {
        return;
      }
      SentSinceSnoc(log, clearedAt, Command(ZeroOnAudioChunkStream, id, objectEncoding, "deleteStream", [UInt(id)]));
      log := log + [Command(ZeroOnAudioChunkStream, id, objectEncoding, "deleteStream", [UInt(id)])];
      SetState(Closed);
    }

    /** An encoded audio sample becomes one audio chunk: format Zero for the
        first audio chunk since the table was emptied, One afterwards; its
        timestamp is the accumulator truncated before this sample is
        folded in. Video state is untouched. */
    method SampleAudio(payload: Bytes, timestamp: real)
      requires Valid() && SampleTimestamp(timestamp)
      modifies this`log, this`chunkTypes, this`audioTimestamp
      ensures Valid()
      ensures log == old(log) + [Media(Audio, FormatFor(old(chunkTypes), Audio), id, WireTimestamp(old(audioTimestamp)), payload)]
      ensures chunkTypes == old(chunkTypes)[Audio := true]
      ensures log[|log| - 1].format == Zero <==> Audio !in SentSince(old(log), clearedAt)
      ensures audioTimestamp == Carry(old(audioTimestamp), timestamp)
    {
      var format := FormatFor(chunkTypes, Audio);
      SentSinceSnoc(log, clearedAt, Media(Audio, format, id, WireTimestamp(audioTimestamp), payload));
      log := log + [Media(Audio, format, id, WireTimestamp(audioTimestamp), payload)];
      chunkTypes := chunkTypes[Audio := true];
      audioTimestamp := Carry(audioTimestamp, timestamp);
    }

    /** The video counterpart of SampleAudio, with its own accumulator. */
    method SampleVideo(payload: Bytes, timestamp: real)
      requires Valid() && SampleTimestamp(timestamp)
      modifies this`log, this`chunkTypes, this`videoTimestamp
      ensures Valid()
      ensures log == old(log) + [Media(Video, FormatFor(old(chunkTypes), Video), id, WireTimestamp(old(videoTimestamp)), payload)]
      ensures chunkTypes == old(chunkTypes)[Video := true]
      ensures log[|log| - 1].format == Zero <==> Video !in SentSince(old(log), clearedAt)
      ensures videoTimestamp == Carry(old(videoTimestamp), timestamp)
    {
      var format := FormatFor(chunkTypes, Video);
      SentSinceSnoc(log, clearedAt, Media(Video, format, id, WireTimestamp(videoTimestamp), payload));
      log := log + [Media(Video, format, id, WireTimestamp(videoTimestamp), payload)];
      chunkTypes := chunkTypes[Video := true];
      videoTimestamp := Carry(videoTimestamp, timestamp);
    }

    /** Connect success resets the state to Initilized and asks for a new
        stream; publish start moves to Publishing (sending metadata and
        binding the callbacks); every other notification is ignored. */
    method HandleStatus(code: Option<string>)
      requires Valid()
      modifies this`state, this`log, this`delegatesBound, this`createStreamRequests
      ensures Valid()
      ensures code == Some(ConnectSuccess) ==>
        && state == Initilized
        && createStreamRequests == old(createStreamRequests) + 1
        && log == old(log)
        && delegatesBound == old(delegatesBound)
      ensures code == Some(PublishStart) ==>
        && state == Publishing
        && delegatesBound
        && createStreamRequests == old(createStreamRequests)
        && log == old(log) + [MetadataMessage(id, objectEncoding)]
      ensures code != Some(ConnectSuccess) && code != Some(PublishStart) ==> unchanged(this)
    {
      match ReactionTo(code)
      case Reconnect =>
        SetState(Initilized);
        createStreamRequests := createStreamRequests + 1;
      case PublishStarted =>
        SetState(Publishing);
      case Ignore =>
    }
  }

  /** Closing twice writes what closing once writes. */
  method CloseTwice(s: Stream)
    requires s.Valid()
    modifies s`state, s`log, s`delegatesBound
    ensures s.Valid() && s.state == Closed
    ensures old(s.state) == Closed ==> unchanged(s)
    ensures old(s.state) != Closed ==> && !s.delegatesBound
                                       && s.log == old(s.log) + [Command(ZeroOnAudioChunkStream, old(s.id), old(s.objectEncoding), "deleteStream", [UInt(old(s.id))])]
  {
    s.Close();
    s.Close();
  }

  /** The sample output of the given kind, for one sample. */
  method EmitOne(s: Stream, kind: MediaType, payload: Bytes, t: real)
    requires s.Valid() && SampleTimestamp(t)
    modifies s`log, s`chunkTypes, s`audioTimestamp, s`videoTimestamp
    ensures s.Valid()
    ensures s.log == old(s.log) + [Media(kind, FormatFor(old(s.chunkTypes), kind), s.id,
                                         WireTimestamp(if kind == Audio then old(s.audioTimestamp) else old(s.videoTimestamp)),
                                         payload)]
    ensures s.chunkTypes == old(s.chunkTypes)[kind := true]
    ensures (if kind == Audio then s.audioTimestamp else s.videoTimestamp)
            == Carry(if kind == Audio then old(s.audioTimestamp) else old(s.videoTimestamp), t)
    ensures (if kind == Audio then s.videoTimestamp else s.audioTimestamp)
            == (if kind == Audio then old(s.videoTimestamp) else old(s.audioTimestamp))
  {
    if kind == Audio {
      s.SampleAudio(payload, t);
    } else {
      s.SampleVideo(payload, t);
    }
  }

  /** The media chunks a run of samples of one kind produces, one per
      sample, from the given table and accumulator of that kind. */
  function MediaRun(kind: MediaType, id: nat, table: ChunkTable, acc: real, payloads: seq<Bytes>, ts: seq<real>): (chunks: seq<Msg>)
    requires InWireRange(acc) && SampleTimestamps(ts) && |payloads| == |ts|
    ensures |chunks| == |ts|
    decreases |ts|
  {
    if ts == [] then []
    else [Media(kind, FormatFor(table, kind), id, WireTimestamp(acc), payloads[0])]
         + MediaRun(kind, id, table[kind := true], Carry(acc, ts[0]), payloads[1..], ts[1..])
  }

  /** The j-th chunk of a run has the format FormatRun gives and the
      timestamp EmittedRun gives. */
  lemma {:induction false} MediaRunAt(kind: MediaType, id: nat, table: ChunkTable, acc: real, payloads: seq<Bytes>, ts: seq<real>, j: nat)
    requires InWireRange(acc) && SampleTimestamps(ts) && |payloads| == |ts| && j < |ts|
    ensures MediaRun(kind, id, table, acc, payloads, ts)[j]
            == Media(kind, FormatRun(table, Repeat(kind, |ts|))[j], id, EmittedRun(acc, ts)[j], payloads[j])
    decreases j
  {
    if j > 0 {
      MediaRunAt(kind, id, table[kind := true], Carry(acc, ts[0]), payloads[1..], ts[1..], j - 1);
    }
  }

  /** A run of samples of one kind, emitted one after another: the chunks
      written are those MediaRun gives, the table ends as TableAfter says,
      that kind's accumulator ends as AccumulatorAfter says, and the other
      kind's accumulator is untouched. */
  method EmitSamples(s: Stream, kind: MediaType, payloads: seq<Bytes>, ts: seq<real>)
    requires s.Valid() && SampleTimestamps(ts) && |payloads| == |ts|
    modifies s`log, s`chunkTypes, s`audioTimestamp, s`videoTimestamp
    ensures s.Valid()
    ensures s.log == old(s.log) + MediaRun(kind, s.id, old(s.chunkTypes),
                                           if kind == Audio then old(s.audioTimestamp) else old(s.videoTimestamp),
                                           payloads, ts)
    ensures s.chunkTypes == TableAfter(old(s.chunkTypes), Repeat(kind, |ts|))
    ensures kind == Audio ==> s.audioTimestamp == AccumulatorAfter(old(s.audioTimestamp), ts)
                              && s.videoTimestamp == old(s.videoTimestamp)
    ensures kind == Video ==> s.videoTimestamp == AccumulatorAfter(old(s.videoTimestamp), ts)
                              && s.audioTimestamp == old(s.audioTimestamp)
    decreases |ts|
  {
    if ts != [] {
      EmitOne(s, kind, payloads[0], ts[0]);
      EmitSamples(s, kind, payloads[1..], ts[1..]);
    }
  }

  /** A stream the connection has opened: if the connection was not yet up
      it reports success first; then it assigns stream id 1 and opens the
      stream. Exactly one createStream request was made either way. */
  method OpenStream(connected: bool) returns (s: Stream)
    ensures fresh(s) && s.Valid()
    ensures s.state == Open && !s.delegatesBound && s.id == 1 && s.objectEncoding == 0 && s.createStreamRequests == 1
    ensures s.log == [] && s.chunkTypes == map[] && s.audioTimestamp == 0.0 && s.videoTimestamp == 0.0
  {
    s := new Stream(connected, 0);
    if !connected {
      s.HandleStatus(Some(ConnectSuccess));
    }
    s.AssignId(1);
    s.SetState(Open);
  }

  /** A publishing session from connection to publish start: the connection
      reports success, obtains stream id 1 and opens the stream; the caller
      publishes "cam1"; the server reports publish start. */
  method PublishSession() returns (log: seq<Msg>, state: ReadyState, bound: bool, requests: nat)
    ensures state == Publishing && bound && requests == 1
    ensures log == [ Command(ZeroOnAudioChunkStream, 1, 0, "publish", [Str("cam1"), Str("live")])
                   , Data(1, 0, "@setDataFrame", [Str("onMetaData"), MuxerMetadata]) ]
  {
    var s := OpenStream(false);
    s.PublishLive(Some("cam1"));
    s.HandleStatus(Some(PublishStart));
    log, state, bound, requests := s.log, s.state, s.delegatesBound, s.createStreamRequests;
  }

  /** A fresh stream taken to Publishing: the connection is up, assigns
      stream id 1 and opens the stream; the caller publishes "cam1"; the
      server reports publish start. */
  method StartPublishing() returns (s: Stream)
    ensures fresh(s) && s.Valid()
    ensures s.state == Publishing && s.delegatesBound && s.id == 1
    ensures s.chunkTypes == map[] && s.audioTimestamp == 0.0 && s.videoTimestamp == 0.0
  {
    s := OpenStream(true);
    s.PublishLive(Some("cam1"));
    s.HandleStatus(Some(PublishStart));
  }

  /** Media after a publish: two audio samples of 23.5 and one video sample
      of 33.3. The first chunk of each kind has format Zero and carries the
      fresh accumulator's 0; the second audio chunk has format One and carries
      23, and the dropped half is carried into the audio accumulator. */
  method PublishedMediaSession(audio: Bytes, video: Bytes) returns (media: seq<Msg>, audioAcc: real, videoAcc: real)
    ensures media == [ Media(Audio, Zero, 1, 0, audio)
                     , Media(Audio, One, 1, 23, audio)
                     , Media(Video, Zero, 1, 0, video) ]
    ensures audioAcc == 24.0 && videoAcc == 33.3
  {
    var s := StartPublishing();
    var before := |s.log|;
    s.SampleAudio(audio, 23.5);
    s.SampleAudio(audio, 23.5);
    assert WireTimestamp(23.5) == 23;
    s.SampleVideo(video, 33.3);
    media, audioAcc, videoAcc := s.log[before..], s.audioTimestamp, s.videoTimestamp;
  }
}
