/** Voice gateway opcodes and the framing of binary messages (dave_voice/opcodes.py). */
module Opcodes {
  import opened Bytes
  import opened Wrappers

  const TRANSITION_READY := 23
  const EXTERNAL_SENDER := 25
  const KEY_PACKAGE := 26
  const PROPOSALS := 27
  const COMMIT_WELCOME := 28
  const ANNOUNCE_COMMIT := 29
  const WELCOME := 30
  const INVALID_COMMIT_WELCOME := 31

  datatype ServerFrame = ServerFrame(seqNo: nat, opcode: nat, payload: seq<Byte>)

  /** `decode_binary`; a message shorter than its three-byte prefix raises. */
  function DecodeBinary(data: seq<Byte>): Option<ServerFrame> {
    if |data| < 3 then None else Some(ServerFrame(U16(data[..2]), data[2], data[3..]))
  }

  /** `encode_binary`: client messages carry no sequence number. */
  function EncodeBinary(opcode: Byte, payload: seq<Byte>): seq<Byte> { [opcode] + payload }

  /** What the server sends. */
  function EncodeServer(f: ServerFrame): seq<Byte>
    requires f.seqNo < 65536 && f.opcode < 256
  {
    PutU16(f.seqNo) + EncodeBinary(f.opcode, f.payload)
  }

  lemma DecodeEncode(f: ServerFrame)
    requires f.seqNo < 65536 && f.opcode < 256
    ensures DecodeBinary(EncodeServer(f)) == Some(f)
  {
    U16RoundTrip(f.seqNo);
    var data := EncodeServer(f);
    assert data[..2] == PutU16(f.seqNo) && data[3..] == f.payload;
  }

  /** A message of at least three bytes decodes to a sequence number in network byte order, an op and the rest; whatever
      decodes is the encoding of what it decodes to. */
  lemma EncodeDecode(data: seq<Byte>)
    ensures DecodeBinary(data).Some? <==> |data| >= 3
    ensures |data| >= 3 ==> DecodeBinary(data) == Some(ServerFrame(data[0] as int * 256 + data[1], data[2], data[3..]))
    ensures DecodeBinary(data).Some? ==>
      var f := DecodeBinary(data).value;
      f.seqNo < 65536 && f.opcode < 256 && EncodeServer(f) == data
  {
    if |data| >= 3 {
      PutU16RoundTrip(data[..2]);
      assert data == data[..2] + ([data[2]] + data[3..]);
    }
  }
}
