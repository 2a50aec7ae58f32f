/**
 How `_handle_packet` cuts a datagram, against what a sender builds: the fixed header and the CSRC list of RFC 3550,
 section 5.1, the header extension of section 5.3.1, then the AEAD ciphertext and a 4-byte nonce.
 */
module Framing {
  import opened Bytes
  import opened Wrappers
  import Rtp

  datatype Slices = Slices(header: seq<Byte>, ciphertext: seq<Byte>, nonce: seq<Byte>, extBodyLen: nat)

  function CsrcCount(flags: Byte): nat { flags % 16 }

  predicate Extended(flags: Byte) { flags / 16 % 2 == 1 }

  /** `data[HEADER_LEN + cc * 4 :]`, which Python clamps. */
  function Payload(data: seq<Byte>): seq<Byte>
    requires |data| >= Rtp.HEADER_LEN
  {
    var from := Rtp.HEADER_LEN + CsrcCount(data[0]) * 4;
    if from <= |data| then data[from..] else []
  }

  /** The slicing of `_handle_packet`; `None` when it drops the datagram before decrypting. */
  function Cut(data: seq<Byte>): Option<Slices> {
    if |data| < Rtp.HEADER_LEN + 4 then None
    else
      var header, payload := data[..Rtp.HEADER_LEN], Payload(data);
      var n := |payload|;
      if n < 4 then None
      else if Extended(data[0]) then
        Some(Slices(header + payload[..4], if n < 8 then [] else payload[4..n - 4], payload[n - 4..],
                    U16(payload[2..4]) * 4))
      else Some(Slices(header, payload[..n - 4], payload[n - 4..], 0))
  }

  /** A 20-byte datagram whose one CSRC word repeats its last four bytes, which are read both as extension preamble
      and as nonce: a partition by coincidence. */
  predicate Coincidence(data: seq<Byte>) {
    |data| == 20 && data[0] % 16 == 1 && data[0] / 16 % 2 == 1 && data[12..16] == data[16..]
  }

  /** The three slices, put together again. */
  function Joined(data: seq<Byte>): seq<Byte>
    requires Cut(data).Some?
  {
    var s := Cut(data).value;
    s.header + s.ciphertext + s.nonce
  }

  /** Without an extension, or with one and enough payload, the slices are all but the CSRC words. */
  lemma JoinedLong(data: seq<Byte>)
    requires Cut(data).Some? && (Extended(data[0]) ==> |Payload(data)| >= 8)
    ensures Joined(data) == data[..Rtp.HEADER_LEN] + Payload(data)
  {
    var payload := Payload(data);
    var n := |payload|;
    if Extended(data[0]) {
      assert payload == payload[..4] + payload[4..n - 4] + payload[n - 4..];
    } else {
      assert payload == payload[..n - 4] + payload[n - 4..];
    }
  }

  lemma LongPartition(data: seq<Byte>)
    requires Cut(data).Some? && (Extended(data[0]) ==> |Payload(data)| >= 8)
    ensures Joined(data) == data <==> CsrcCount(data[0]) == 0
  {
    JoinedLong(data);
    if CsrcCount(data[0]) == 0 {
      assert data[..Rtp.HEADER_LEN] + data[Rtp.HEADER_LEN..] == data;
    } else {
      assert |Joined(data)| < |data|;
    }
  }

  /** With an extension and a short payload, preamble and nonce overlap: the slices are always twenty bytes. */
  lemma JoinedShort(data: seq<Byte>)
    requires Cut(data).Some? && Extended(data[0]) && |Payload(data)| < 8
    ensures |Joined(data)| == 20
    ensures |data| == 20 <==> CsrcCount(data[0]) == 1 && |Payload(data)| == 4
  {}

  lemma ShortPartition(data: seq<Byte>)
    requires Cut(data).Some? && Extended(data[0]) && |Payload(data)| < 8
    ensures Joined(data) == data <==> Coincidence(data)
  {
    JoinedShort(data);
    if |data| == 20 {
      var last := data[16..];
      assert Payload(data) == last && last[..4] == last && last[0..] == last;
      assert Joined(data) == data[..12] + last + last;
      assert data == data[..12] + data[12..16] + last;
      if Joined(data) == data {
        assert data[12..16] == Joined(data)[12..16];
      }
    }
  }

  /** A datagram is cut, and not dropped, if and only if it has room for header, CSRC words and nonce. */
  lemma CutExists(data: seq<Byte>)
    ensures Cut(data).Some? <==> data != [] && |data| >= 16 + data[0] % 16 * 4
  {}

  /** The conditions under which header, ciphertext and nonce partition a datagram that is not dropped, and the only
      ones, one coincidence apart: no CSRC words, and at least eight bytes after the header if bit X announces an
      extension. */
  lemma PartitionExact(data: seq<Byte>)
    requires data != [] && |data| >= 16 + data[0] % 16 * 4
    ensures Cut(data).Some?
    ensures Joined(data) == data <==>
      (data[0] % 16 == 0 && (data[0] / 16 % 2 == 1 ==> |data| >= 20)) || Coincidence(data)
  {
    CutExists(data);
    if Extended(data[0]) && |Payload(data)| < 8 {
      ShortPartition(data);
    } else {
      LongPartition(data);
      NoCoincidence(data);
    }
  }

  lemma NoCoincidence(data: seq<Byte>)
    requires Cut(data).Some? && (Extended(data[0]) ==> |Payload(data)| >= 8)
    ensures !Coincidence(data)
  {}

  /** An authenticated cipher under one key: `open` inverts `seal` for the same nonce and associated data. */
  ghost predicate Inverts(seal: (seq<Byte>, seq<Byte>, seq<Byte>) -> seq<Byte>,
                          open: (seq<Byte>, seq<Byte>, seq<Byte>) -> Option<seq<Byte>>)
  {
    forall aad, plain, nonce :: open(aad, seal(aad, plain, nonce), nonce) == Some(plain)
  }

  /** From datagram to the frame handed to the DAVE decryptor. */
  function Receive(open: (seq<Byte>, seq<Byte>, seq<Byte>) -> Option<seq<Byte>>, data: seq<Byte>): Option<seq<Byte>> {
    match Cut(data)
    case None => None
    case Some(s) =>
      match open(s.header, s.ciphertext, s.nonce)
      case None => None
      case Some(plain) => Some(if s.extBodyLen <= |plain| then plain[s.extBodyLen..] else [])
  }

  datatype Extension = Extension(profile: seq<Byte>, body: seq<Byte>)

  /** The fields of a packet; `payloadType` has the marker bit with it. */
  datatype Sent = Sent(version: nat, padding: bool, payloadType: Byte, sequence: nat, timestamp: nat, ssrc: nat,
                       csrcs: seq<Byte>, extension: Option<Extension>, nonce: seq<Byte>, frame: seq<Byte>)

  predicate WellFormed(p: Sent) {
    && p.version < 4 && p.sequence < 65536 && p.timestamp < 0x1_0000_0000 && p.ssrc < 0x1_0000_0000
    && |p.csrcs| % 4 == 0 && |p.csrcs| / 4 < 16 && |p.nonce| == 4
    && (p.extension.Some? ==>
          |p.extension.value.profile| == 2 && |p.extension.value.body| % 4 == 0 && |p.extension.value.body| / 4 < 65536)
  }

  /** The first byte of RFC 3550, section 5.1: two bits of version, the padding bit, the extension bit, and the number
      of CSRC words in four bits. */
  function FirstByte(p: Sent): Byte
    requires WellFormed(p)
  {
    p.version * 64 + (if p.padding then 32 else 0) + (if p.extension.Some? then 16 else 0) + |p.csrcs| / 4
  }

  /** What the receiver reads off it. */
  lemma FlagsRead(p: Sent)
    requires WellFormed(p)
    ensures Extended(FirstByte(p)) == p.extension.Some? && CsrcCount(FirstByte(p)) * 4 == |p.csrcs|
  {}

  function FixedHeader(p: Sent): seq<Byte>
    requires WellFormed(p)
  {
    Rtp.PutHeader(FirstByte(p), p.payloadType, p.sequence, p.timestamp, p.ssrc)
  }

  /** The profile and length words of the extension. */
  function Preamble(p: Sent): seq<Byte>
    requires WellFormed(p)
  {
    match p.extension
    case None => []
    case Some(x) => x.profile + PutU16(|x.body| / 4)
  }

  function ExtensionBody(p: Sent): seq<Byte> { if p.extension.Some? then p.extension.value.body else [] }

  /** The datagram for a given ciphertext. */
  function Datagram(p: Sent, ciphertext: seq<Byte>): seq<Byte>
    requires WellFormed(p)
  {
    FixedHeader(p) + p.csrcs + Preamble(p) + ciphertext + p.nonce
  }

  /** The whole datagram of a sender that authenticates the fixed header and the extension preamble. */
  function SealedDatagram(seal: (seq<Byte>, seq<Byte>, seq<Byte>) -> seq<Byte>, p: Sent): seq<Byte>
    requires WellFormed(p)
  {
    Datagram(p, seal(FixedHeader(p) + Preamble(p), ExtensionBody(p) + p.frame, p.nonce))
  }

  lemma DatagramHeader(p: Sent, ciphertext: seq<Byte>)
    requires WellFormed(p)
    ensures Rtp.ParseRtpHeader(Datagram(p, ciphertext)).Some?
    ensures Rtp.ParseRtpHeader(Datagram(p, ciphertext)).value.ssrc == p.ssrc
  {
    var tail := p.csrcs + Preamble(p) + ciphertext + p.nonce;
    assert Datagram(p, ciphertext) == FixedHeader(p) + tail;
    Rtp.ParsePut(FirstByte(p), p.payloadType, p.sequence, p.timestamp, p.ssrc, tail);
  }

  /** What follows the CSRC list. */
  function Tail(p: Sent, ciphertext: seq<Byte>): seq<Byte>
    requires WellFormed(p)
  {
    Preamble(p) + ciphertext + p.nonce
  }

  lemma DatagramParts(p: Sent, ciphertext: seq<Byte>)
    requires WellFormed(p)
    ensures var data := Datagram(p, ciphertext);
      |data| >= 16 && data[0] == FirstByte(p) && data[..12] == FixedHeader(p) && Payload(data) == Tail(p, ciphertext)
  {
    var data, tail := Datagram(p, ciphertext), Tail(p, ciphertext);
    FlagsRead(p);
    assert |FixedHeader(p)| == 12 && FixedHeader(p)[0] == FirstByte(p);
    assert data == FixedHeader(p) + (p.csrcs + tail);
    assert data[12..] == p.csrcs + tail;
    assert data[12 + |p.csrcs|..] == tail;
  }

  lemma TailParts(p: Sent, ciphertext: seq<Byte>)
    requires WellFormed(p)
    ensures var tail, k := Tail(p, ciphertext), |Preamble(p)|;
      |tail| == k + |ciphertext| + 4 && tail[..k] == Preamble(p) && tail[k..|tail| - 4] == ciphertext
      && tail[|tail| - 4..] == p.nonce
  {}

  lemma PreambleLength(p: Sent)
    requires WellFormed(p) && p.extension.Some?
    ensures |Preamble(p)| == 4 && U16(Preamble(p)[2..4]) * 4 == |ExtensionBody(p)|
  {
    var x := p.extension.value;
    U16RoundTrip(|x.body| / 4);
    assert Preamble(p)[2..4] == PutU16(|x.body| / 4);
  }

  lemma CutDatagram(p: Sent, ciphertext: seq<Byte>)
    requires WellFormed(p)
    ensures Cut(Datagram(p, ciphertext)) ==
      Some(Slices(FixedHeader(p) + Preamble(p), ciphertext, p.nonce, |ExtensionBody(p)|))
  {
    DatagramParts(p, ciphertext);
    TailParts(p, ciphertext);
    FlagsRead(p);
    if p.extension.Some? {
      PreambleLength(p);
      var tail := Tail(p, ciphertext);
      assert tail[2..4] == tail[..4][2..4];
    } else {
      assert FixedHeader(p) + Preamble(p) == FixedHeader(p);
    }
  }

  /** The framing round trip: for every packet, with or without extension and whatever its CSRC list, the DAVE
      decryptor gets exactly the frame that was sent. */
  lemma ReceiveSent(seal: (seq<Byte>, seq<Byte>, seq<Byte>) -> seq<Byte>,
                    open: (seq<Byte>, seq<Byte>, seq<Byte>) -> Option<seq<Byte>>, p: Sent)
    requires WellFormed(p) && Inverts(seal, open)
    ensures Receive(open, SealedDatagram(seal, p)) == Some(p.frame)
  {
    var aad, plain := FixedHeader(p) + Preamble(p), ExtensionBody(p) + p.frame;
    CutDatagram(p, seal(aad, plain, p.nonce));
    assert plain[|ExtensionBody(p)|..] == p.frame;
  }

  lemma SealedHeader(seal: (seq<Byte>, seq<Byte>, seq<Byte>) -> seq<Byte>, p: Sent)
    requires WellFormed(p)
    ensures |SealedDatagram(seal, p)| >= 12
    ensures Rtp.ParseRtpHeader(SealedDatagram(seal, p)).value.ssrc == p.ssrc
  {
    DatagramHeader(p, seal(FixedHeader(p) + Preamble(p), ExtensionBody(p) + p.frame, p.nonce));
  }

  /** Nothing gets through that the cipher does not open: a frame is the end of some plaintext. */
  lemma ReceivedIsOpened(open: (seq<Byte>, seq<Byte>, seq<Byte>) -> Option<seq<Byte>>, data: seq<Byte>)
    requires Receive(open, data).Some?
    ensures exists aad, ciphertext, nonce ::
      open(aad, ciphertext, nonce).Some? && EndsWith(open(aad, ciphertext, nonce).value, Receive(open, data).value)
  {
    var s := Cut(data).value;
    var plain, frame := open(s.header, s.ciphertext, s.nonce).value, Receive(open, data).value;
    assert plain[|plain| - |frame|..] == frame;
  }

  predicate EndsWith(s: seq<Byte>, end: seq<Byte>) { |end| <= |s| && s[|s| - |end|..] == end }

  /** A sender that authenticates everything it sends in clear uses the receiver's associated data if and only if the
      packet has no CSRC list. */
  lemma AssociatedDataExact(p: Sent, ciphertext: seq<Byte>)
    requires WellFormed(p)
    ensures Cut(Datagram(p, ciphertext)).Some?
    ensures Cut(Datagram(p, ciphertext)).value.header == FixedHeader(p) + p.csrcs + Preamble(p) <==> p.csrcs == []
  {
    CutDatagram(p, ciphertext);
    if p.csrcs != [] {
      assert |FixedHeader(p) + p.csrcs + Preamble(p)| != |FixedHeader(p) + Preamble(p)|;
    } else {
      assert FixedHeader(p) + p.csrcs + Preamble(p) == FixedHeader(p) + Preamble(p);
    }
  }
}
