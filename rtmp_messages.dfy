/** Values and messages that an RTMP stream session hands to its connection.
    A message is kept as the record the session builds; its wire encoding
    belongs to the connection and is not modelled. */
module RtmpMessages {

  datatype Option<T> = None | Some(value: T)

  /** Lifecycle of a stream. The first state keeps the Swift enum's spelling. */
  datatype ReadyState = Initilized | Open | Play | Playing | Publish | Publishing | Closed

  /** The two media kinds a stream emits (the audio and video FLV tag types). */
  datatype MediaType = Audio | Video

  /** Chunk message header formats of section 5.3.1.2 of the Adobe RTMP
      specification: Type 0 carries the full header, Type 1 reuses the
      message stream id of the previous chunk on the same chunk stream. */
  datatype ChunkFormat = Zero | One

  /** How a command is framed: with the chunk defaults, or explicitly as a
      Type 0 chunk on the audio chunk stream (what publish and deleteStream use). */
  datatype Framing = DefaultFraming | ZeroOnAudioChunkStream

  /** Arguments of commands and data messages. */
  datatype Value =
    | Null
    | Bool(b: bool)
    | Number(x: real)      // a Double argument
    | UInt(n: nat)         // a UInt32 argument
    | Str(s: string)
    | MuxerMetadata        // the object the muxer's metadata builder returns; the muxer is not part of this model

  type Bytes = seq<bv8>

  /** One write to the connection. */
  datatype Msg =
    | Command(framing: Framing, streamId: nat, objectEncoding: nat, name: string, args: seq<Value>)
    | Data(streamId: nat, objectEncoding: nat, handler: string, args: seq<Value>)
    | Media(kind: MediaType, format: ChunkFormat, streamId: nat, timestamp: nat, payload: Bytes)

  /** 2^32: stream ids and wire timestamps are UInt32. */
  const Uint32Limit: int := 0x1_0000_0000

  /** Handler and arguments of the data message written when a stream
      enters Publishing. */
  const MetadataHandler: string := "@setDataFrame"
  const MetadataArgs: seq<Value> := [Str("onMetaData"), MuxerMetadata]

  function MetadataMessage(streamId: nat, objectEncoding: nat): Msg
  {
    Data(streamId, objectEncoding, MetadataHandler, MetadataArgs)
  }

  /** The media kinds of the chunks written at or after position `from`. */
  ghost function SentSince(log: seq<Msg>, from: nat): set<MediaType>
    decreases |log|
  {
    if |log| <= from then {}
    else
      var last := log[|log| - 1];
      SentSince(log[..|log| - 1], from) + (if last.Media? then {last.kind} else {})
  }

  /** Writing one more message adds its kind exactly when it is a media chunk. */
  lemma SentSinceSnoc(log: seq<Msg>, from: nat, m: Msg)
    requires from <= |log|
    ensures SentSince(log + [m], from) == SentSince(log, from) + (if m.Media? then {m.kind} else {})
  {
  }
}
