/** RTP packets as the pacer sees them: only the fields that decide order and size. */
module Packets {

  datatype MediaType = Audio | Video | Retransmission | ForwardErrorCorrection | Padding

  datatype RtpPacket = RtpPacket(
    ssrc: nat,
    mediaType: MediaType,
    payloadSize: nat,
    paddingSize: nat,
    headersSize: nat)

  /** Bytes a packet counts for, with or without header and transport overhead. */
  function WireSize(packet: RtpPacket, includeOverhead: bool, transportOverhead: nat): nat {
    packet.payloadSize + packet.paddingSize +
    if includeOverhead then packet.headersSize + transportOverhead else 0
  }
}
