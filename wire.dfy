/**
 * The protocol-buffer messages the client core builds, and the protobuf
 * library seen from outside: a writer that may fail and a parser.
 */
module Wire {
  import opened Wrappers

  type Byte = bv8
  type Bytes = seq<Byte>

  /** Kinds of outer envelope produced by this core (the protocol has others). */
  datatype PacketType = MEDIA_MANDATORY | MEDIA_MANAGEMENT

  /** The outer envelope; fields left at their protobuf defaults are not modelled. */
  datatype PacketWrapper = PacketWrapper(data: Bytes, email: string, packetType: PacketType)

  datatype EventType = SUBSCRIBE | UNSUBSCRIBE | ONGOING_STREAM

  /** Inner message of a media-management packet. */
  datatype MediaManagementPacket = MediaManagementPacket(eventType: EventType, email: string)

  /** Only HEARTBEAT is produced here; the encoders send the other kinds. */
  datatype MediaType = VIDEO | AUDIO | SCREEN | HEARTBEAT

  /** Inner message of a heartbeat; `timestamp` is a wall-clock reading, left unconstrained. */
  datatype MediaPacket = MediaPacket(mediaType: MediaType, email: string, timestamp: real)

  /** Serialisation of one message type: `write_to_bytes` (fallible) and its parser. */
  datatype Codec<!M(!new)> = Codec(write: M -> Option<Bytes>, parse: Bytes -> Option<M>) {

    /** Parsing what was written gives the message back. */
    ghost predicate RoundTrips() {
      forall m :: write(m).Some? ==> parse(write(m).value) == Some(m)
    }
  }

  /** The generated protobuf code for the two inner messages. */
  datatype Protobuf = Protobuf(management: Codec<MediaManagementPacket>, media: Codec<MediaPacket>)
}
