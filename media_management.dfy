/**
 * Media-management commands: the dispatch from a command to the addressee
 * and event of the inner message, the construction of the encrypted
 * envelope, and the hand-over of exactly one envelope to a packet sender.
 */
module MediaManagement {
  import opened Wrappers
  import opened Wire
  import opened Crypto
  import opened Transport

  datatype ManagementCommand =
    | SubscribeTo(peer: string)
    | UnsubscribeFrom(peer: string)
    | NotifyOngoingStream

  /** The dispatch table of `send_command`: whom the inner message names, and with which event. */
  function Dispatch(userid: string, cmd: ManagementCommand): (r: (string, EventType))
    ensures cmd.SubscribeTo? ==> r == (cmd.peer, SUBSCRIBE)
    ensures cmd.UnsubscribeFrom? ==> r == (cmd.peer, UNSUBSCRIBE)
    ensures cmd.NotifyOngoingStream? ==> r == (userid, ONGOING_STREAM)
  {
    match cmd
    case SubscribeTo(peer) => (peer, SUBSCRIBE)
    case UnsubscribeFrom(peer) => (peer, UNSUBSCRIBE)
    case NotifyOngoingStream => (userid, ONGOING_STREAM)
  }

  /**
   * `prepare_media_management_packet`: the envelope is addressed from `userid`,
   * is of kind MEDIA_MANAGEMENT, and carries the cipher's output over the
   * serialised inner message; a failure of either step aborts.
   */
  function PrepareManagementPacket(aes: Cipher, proto: Protobuf, userid: string,
                                   email: string, event: EventType): (r: Result<PacketWrapper, Panic>)
    ensures var inner := MediaManagementPacket(event, email);
      && (r.Success? <==> Seal(aes, proto.management, inner).Success?)
      && (r.Success? ==> r.value.email == userid && r.value.packetType == MEDIA_MANAGEMENT)
      && (r.Success? ==> r.value.data == aes.encrypt(proto.management.write(inner).value).value)
      && (r.Failure? ==> r.error == Seal(aes, proto.management, inner).error)
  {
    match Seal(aes, proto.management, MediaManagementPacket(event, email))
    case Success(data) => Success(PacketWrapper(data, userid, MEDIA_MANAGEMENT))
    case Failure(e) => Failure(e)
  }

  /** The envelope `send_command` builds for `cmd`. */
  function CommandPacket(aes: Cipher, proto: Protobuf, userid: string,
                         cmd: ManagementCommand): Result<PacketWrapper, Panic>
  {
    PrepareManagementPacket(aes, proto, userid, Dispatch(userid, cmd).0, Dispatch(userid, cmd).1)
  }

  /**
   * Whatever the command, the envelope is from the sender and of kind
   * MEDIA_MANAGEMENT, and a receiver with the same cipher recovers the inner
   * message the dispatch table prescribes.
   */
  lemma CommandRoundTrip(aes: Cipher, proto: Protobuf, userid: string, cmd: ManagementCommand)
    requires aes.RoundTrips() && proto.management.RoundTrips()
    ensures var r := CommandPacket(aes, proto, userid, cmd);
      && (r.Success? ==> r.value.email == userid && r.value.packetType == MEDIA_MANAGEMENT)
      && (r.Success? && cmd.SubscribeTo? ==>
            Open(aes, proto.management, r.value.data) == Some(MediaManagementPacket(SUBSCRIBE, cmd.peer)))
      && (r.Success? && cmd.UnsubscribeFrom? ==>
            Open(aes, proto.management, r.value.data) == Some(MediaManagementPacket(UNSUBSCRIBE, cmd.peer)))
      && (r.Success? && cmd.NotifyOngoingStream? ==>
            Open(aes, proto.management, r.value.data) == Some(MediaManagementPacket(ONGOING_STREAM, userid)))
  {
    var (email, event) := Dispatch(userid, cmd);
    SealThenOpen(aes, proto.management, MediaManagementPacket(event, email));
  }

  /** `send_media_management_packet`: build the envelope, then hand it to the sender. */
  method SendMediaManagementPacket(sender: PacketSender, aes: Cipher, proto: Protobuf,
                                   userid: string, peer: string, event: EventType)
    returns (outcome: Outcome)
    modifies sender
    ensures match PrepareManagementPacket(aes, proto, userid, peer, event)
      case Success(packet) => outcome == Completed && sender.sent == old(sender.sent) + [packet]
      case Failure(e) => outcome == Panicked(e) && sender.sent == old(sender.sent)
  {
    var packet := PrepareManagementPacket(aes, proto, userid, peer, event);
    match packet
    case Success(p) =>
      sender.SendPacket(p);
      outcome := Completed;
    case Failure(e) =>
      outcome := Panicked(e);
  }

  /** `send_command`: every call hands exactly one packet to the sender, unless packet construction panics. */
  method SendCommand(sender: PacketSender, aes: Cipher, proto: Protobuf, userid: string,
                     cmd: ManagementCommand)
    returns (outcome: Outcome)
    modifies sender
    ensures outcome.Completed? <==> CommandPacket(aes, proto, userid, cmd).Success?
    ensures outcome.Completed? ==>
      sender.sent == old(sender.sent) + [CommandPacket(aes, proto, userid, cmd).value]
    ensures outcome.Panicked? ==>
      outcome.reason == CommandPacket(aes, proto, userid, cmd).error && sender.sent == old(sender.sent)
  {
    match cmd
    case SubscribeTo(peer) =>
      outcome := SendMediaManagementPacket(sender, aes, proto, userid, peer, SUBSCRIBE);
    case UnsubscribeFrom(peer) =>
      outcome := SendMediaManagementPacket(sender, aes, proto, userid, peer, UNSUBSCRIBE);
    case NotifyOngoingStream =>
      outcome := SendMediaManagementPacket(sender, aes, proto, userid, userid, ONGOING_STREAM);
  }
}
