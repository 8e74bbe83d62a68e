/** The bus framing: the device's 7-bit address and the command code that
    precedes every transfer (Table 7-8 of the CDCE913 datasheet), whose bit 7
    selects byte (1) or block (0) access and whose bits 6..0 are the register
    offset. */
module I2c {
  import opened Bitfield

  /** The fixed 7-bit bus address, 0b110_0101. */
  const ADDRESS: bv8 := 0x65

  datatype OpCode = Block | Byte

  const MODE: BitIndex := 7
  const OFFSET: Field8 := Field(6, 0)

  /** `mode()`: bit 7. */
  function Mode(c: bv8): (byte: bool)
    ensures byte <==> BitAt(c, 7)
  {
    Bit(c, MODE)
  }

  /** `set_mode`: bits 6..0 are kept. */
  function SetMode(c: bv8, byte: bool): (r: bv8)
    ensures Mode(r) == byte
    ensures r & 0x7F == c & 0x7F
  {
    SetBit(c, MODE, byte)
  }

  /** `offset()`: bits 6..0. */
  function Offset(c: bv8): (o: bv8)
    ensures o == c & 0x7F
  {
    Get(c, OFFSET)
  }

  /** `set_offset`: the offset is truncated to seven bits and bit 7 is kept. */
  function SetOffset(c: bv8, offset: bv8): (r: bv8)
    ensures Offset(r) == offset & 0x7F
    ensures r & 0x80 == c & 0x80
  {
    Set(c, OFFSET, offset)
  }

  /** The command byte for an access, as the datasheet defines it. */
  function CommandByte(op: OpCode, offset: bv8): bv8
  {
    (if op == Byte then 0x80 else 0x00) | (offset & 0x7F)
  }

  /** `CommandCode::new`: start from zero, set the mode, then the offset. */
  method NewCommandCode(op: OpCode, offset: bv8) returns (c: bv8)
    ensures c == CommandByte(op, offset)
    ensures Mode(c) <==> op == Byte
    ensures Offset(c) == offset & 0x7F
  {
    c := 0;
    c := SetMode(c, op == Byte);
    c := SetOffset(c, offset);
  }

  /** A valid register offset comes back unchanged from the command byte, and
      the mode bit never disturbs it. */
  lemma CommandByteOffset(op: OpCode, offset: bv8)
    requires offset < 0x80
    ensures Offset(CommandByte(op, offset)) == offset
    ensures Mode(CommandByte(op, offset)) <==> op == Byte
  {
  }
}
