/** The MCP2515 SPI instruction set as the driver's header defines it:
    nine one-byte opcodes, named as a closed set. */
module Opcodes {

  import opened Wrappers

  datatype Opcode =
    | Reset          // SPI_RESET
    | Read           // SPI_READ
    | ReadRx         // SPI_READ_RX
    | Write          // SPI_WRITE
    | WriteRx        // SPI_WRITE_RX
    | RequestToSend  // SPI_RTS
    | ReadStatus     // SPI_READ_STATUS
    | RxStatus       // SPI_RX_STATUS
    | BitModify      // SPI_BIT_MODIFY

  /** The instruction byte sent for an opcode. Every opcode is recovered from
      its byte, so no two opcodes share a byte. */
  function Encode(op: Opcode): (b: bv8)
    ensures Decode(b) == Some(op)
  {
    match op
    case Reset => 0xC0
    case Read => 0x03
    case ReadRx => 0x90
    case Write => 0x02
    case WriteRx => 0x40
    case RequestToSend => 0x80
    case ReadStatus => 0xA0
    case RxStatus => 0xB0
    case BitModify => 0x05
  }

  /** The opcode an instruction byte stands for, if any. */
  function Decode(b: bv8): Option<Opcode>
  {
    if b == 0xC0 then Some(Reset)
    else if b == 0x03 then Some(Read)
    else if b == 0x90 then Some(ReadRx)
    else if b == 0x02 then Some(Write)
    else if b == 0x40 then Some(WriteRx)
    else if b == 0x80 then Some(RequestToSend)
    else if b == 0xA0 then Some(ReadStatus)
    else if b == 0xB0 then Some(RxStatus)
    else if b == 0x05 then Some(BitModify)
    else None
  }

  /** Decoding accepts exactly the nine instruction bytes, and each byte it
      accepts is the encoding of the opcode it returns. */
  lemma DecodeExact(b: bv8)
    ensures Decode(b).Some? <==> exists op :: Encode(op) == b
    ensures Decode(b).Some? ==> Encode(Decode(b).value) == b
  {
    if Decode(b).Some? {
      assert Encode(Decode(b).value) == b;
    } else {
      forall op ensures Encode(op) != b {
        assert Decode(Encode(op)) == Some(op);
      }
    }
  }

  /** The encoding is one-to-one. */
  lemma EncodeInjective(p: Opcode, q: Opcode)
    ensures Encode(p) == Encode(q) ==> p == q
  {
    assert Decode(Encode(p)) == Some(p);
    assert Decode(Encode(q)) == Some(q);
  }

  /** The two status instructions that `readStatus` is meant to be given. */
  predicate IsStatusOpcode(op: Opcode)
  {
    op == ReadStatus || op == RxStatus
  }

  /** The status instruction bytes are 0xA0 and 0xB0 and no other byte
      decodes to a status instruction. */
  lemma StatusBytes(b: bv8)
    ensures (Decode(b).Some? && IsStatusOpcode(Decode(b).value)) <==> (b == 0xA0 || b == 0xB0)
  {
  }
}
