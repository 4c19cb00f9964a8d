/**
 * Objects the core hands packets and notifications to. Each keeps a
 * log of what it received; nothing else about them is modelled.
 */
module Transport {
  import opened Wire

  /** The transport handle (`Task`): accepts wire packets, fire-and-forget. */
  class Task {
    var outbox: seq<PacketWrapper>

    constructor ()
      ensures outbox == []
    {
      outbox := [];
    }

    method SendPacket(packet: PacketWrapper)
      modifies this
      ensures outbox == old(outbox) + [packet]
    {
      outbox := outbox + [packet];
    }
  }

  /** The `SendPacket` capability: accepts one packet per call. */
  class PacketSender {
    var sent: seq<PacketWrapper>

    constructor ()
      ensures sent == []
    {
      sent := [];
    }

    method SendPacket(packet: PacketWrapper)
      modifies this
      ensures sent == old(sent) + [packet]
    {
      sent := sent + [packet];
    }
  }

  /** The zero-argument peer-monitor callback; counts its invocations. */
  class Callback {
    var emitted: nat

    constructor ()
      ensures emitted == 0
    {
      emitted := 0;
    }

    method Emit()
      modifies this
      ensures emitted == old(emitted) + 1
    {
      emitted := emitted + 1;
    }
  }
}
