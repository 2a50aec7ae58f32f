/** The fixed RTP header (dave_voice/rtp.py; RFC 3550, section 5.1). */
module Rtp {
  import opened Bytes
  import opened Wrappers

  const HEADER_LEN := 12

  datatype RtpPacket = RtpPacket(versionFlags: Byte, payloadType: Byte, sequence: nat, timestamp: nat, ssrc: nat,
                                 header: seq<Byte>, body: seq<Byte>)

  /** `parse_rtp_header`; fewer than twelve bytes raise. */
  function ParseRtpHeader(data: seq<Byte>): Option<RtpPacket> {
    if |data| < HEADER_LEN then None
    else Some(RtpPacket(data[0], data[1], U16(data[2..4]), U32(data[4..8]), U32(data[8..12]),
                        data[..HEADER_LEN], data[HEADER_LEN..]))
  }

  /** The header a sender writes. */
  function PutHeader(flags: Byte, payloadType: Byte, sequence: nat, timestamp: nat, ssrc: nat): seq<Byte>
    requires sequence < 65536 && timestamp < 0x1_0000_0000 && ssrc < 0x1_0000_0000
  {
    [flags, payloadType] + PutU16(sequence) + PutU32(timestamp) + PutU32(ssrc)
  }

  /** Every header parses back to the fields it was written from, whatever follows it. */
  lemma ParsePut(flags: Byte, payloadType: Byte, sequence: nat, timestamp: nat, ssrc: nat, body: seq<Byte>)
    requires sequence < 65536 && timestamp < 0x1_0000_0000 && ssrc < 0x1_0000_0000
    ensures var header := PutHeader(flags, payloadType, sequence, timestamp, ssrc);
      ParseRtpHeader(header + body) == Some(RtpPacket(flags, payloadType, sequence, timestamp, ssrc, header, body))
  {
    var header := PutHeader(flags, payloadType, sequence, timestamp, ssrc);
    var data := header + body;
    U16RoundTrip(sequence);
    U32RoundTrip(timestamp);
    U32RoundTrip(ssrc);
    assert data[2..4] == PutU16(sequence) && data[4..8] == PutU32(timestamp) && data[8..12] == PutU32(ssrc);
    assert data[..12] == header && data[12..] == body;
  }

  /** Parsing needs twelve bytes, reads the fields in network byte order, and loses nothing. */
  lemma PutParse(data: seq<Byte>)
    requires |data| >= 12
    ensures ParseRtpHeader(data).Some?
    ensures var p := ParseRtpHeader(data).value;
      && p.versionFlags == data[0] && p.payloadType == data[1] && p.sequence == data[2] as int * 0x100 + data[3]
      && p.timestamp == data[4] as int * 0x100_0000 + data[5] as int * 0x1_0000 + data[6] as int * 0x100 + data[7]
      && p.ssrc == data[8] as int * 0x100_0000 + data[9] as int * 0x1_0000 + data[10] as int * 0x100 + data[11]
    ensures var p := ParseRtpHeader(data).value;
      && p.sequence < 65536 && p.timestamp < 0x1_0000_0000 && p.ssrc < 0x1_0000_0000
      && PutHeader(p.versionFlags, p.payloadType, p.sequence, p.timestamp, p.ssrc) == p.header
      && p.header + p.body == data
  {
    NetworkOrder(data[4..8]);
    NetworkOrder(data[8..12]);
    PutU16RoundTrip(data[2..4]);
    PutU32RoundTrip(data[4..8]);
    PutU32RoundTrip(data[8..12]);
  }
}
