/** The generic configuration bank, registers 0x00 to 0x06.

    Each register is a byte; its layout is a set of `Field8` constants taken
    from the `bitfield!` declarations, and its semantic accessors are functions
    of the byte. A setter that takes `&mut self` on the byte newtype is a
    function from the old byte to the new one. Every getter's contract states
    the datasheet meaning with an explicit shift and mask, independent of the
    generic `Get`/`Set` it is built from; every setter's contract states that
    its getter then returns the value written and which bits stay as they were. */
module GenericConfiguration {
  import opened Bitfield
  import opened Registers

  datatype DeviceIdentification = CDCEL913 | CDCE913
  {
    function Code(): U1
    {
      match this
      case CDCEL913 => 0
      case CDCE913 => 1
    }
  }

  datatype EepromProgrammingStatus = Completed | InProgress

  datatype InputClockSelection = Xtal | Vcxo | LvCmos
  {
    function Code(): U2
    {
      match this
      case Xtal => 0
      case Vcxo => 1
      case LvCmos => 2
    }
  }

  datatype Y1ClockSource = InputClock | Pll1Clock
  {
    function Code(): U1
    {
      match this
      case InputClock => 0
      case Pll1Clock => 1
    }
  }

  datatype SerialInterfacePinMode = SerialProgrammingInterface | ControlS1S2
  {
    function Code(): U1
    {
      match this
      case SerialProgrammingInterface => 0
      case ControlS1S2 => 1
    }
  }

  // ----- register 0: identification (read only) -----
  const E_EL: BitIndex := 7
  const RID: Field8 := Field(6, 4)
  const VID: Field8 := Field(3, 0)

  // ----- register 1 -----
  const EEPIP: BitIndex := 6
  const EELOCK: BitIndex := 5
  const PWDN: BitIndex := 4
  const INCLK: Field8 := Field(3, 2)
  const TARGET_ADR: Field8 := Field(1, 0)

  // ----- register 2 -----
  const M1: BitIndex := 7
  const SPICON: BitIndex := 6
  const Y1_ST1: Field8 := Field(5, 4)
  const Y1_ST0: Field8 := Field(3, 2)
  const PDIV1_9_8: Field8 := Field(1, 0)

  // ----- register 3 -----
  const PDIV1_7_0: Field8 := Field(7, 0)

  // ----- register 5 -----
  const XCSEL: Field8 := Field(7, 3)

  // ----- register 6 -----
  const BCOUNT: Field8 := Field(7, 1)

  /** The masks the crate's formula produces for register 1 are the datasheet's,
      and the five fields of the register share no bit. */
  lemma Register1Layout()
    ensures Mask(INCLK) == 0x0C && Mask(TARGET_ADR) == 0x03
    ensures MaskRange(EEPIP, EEPIP) == 0x40 && MaskRange(EELOCK, EELOCK) == 0x20
    ensures MaskRange(PWDN, PWDN) == 0x10 && Disjoint(INCLK, TARGET_ADR)
  {
  }

  // ----- register 0 -----

  /** E_EL set identifies a CDCE913, clear a CDCEL913. */
  function DeviceIdentificationOf(r0: bv8): (d: DeviceIdentification)
    ensures d == CDCE913 <==> BitAt(r0, 7)
  {
    if Bit(r0, E_EL) then CDCE913 else CDCEL913
  }

  /** The revision number in bits 6..4; `u3::new` on it cannot fail. */
  function RevisionNumber(r0: bv8): (v: U3)
    ensures v == (r0 >> 4) & 0x07
  {
    Get(r0, RID)
  }

  /** The vendor identification in bits 3..0; `u4::new` on it cannot fail. */
  function VendorIdentification(r0: bv8): (v: U4)
    ensures v == r0 & 0x0F
  {
    Get(r0, VID)
  }

  // ----- register 1 -----

  /** EEPIP set means an EEPROM write is in progress. */
  function EepromProgrammingStatusOf(r1: bv8): (s: EepromProgrammingStatus)
    ensures s == InProgress <==> BitAt(r1, 6)
  {
    if Bit(r1, EEPIP) then InProgress else Completed
  }

  /** EELOCK, bit 5. */
  function EepromLocked(r1: bv8): (locked: bool)
    ensures locked <==> BitAt(r1, 5)
  {
    Bit(r1, EELOCK)
  }

  function SetEepromLocked(r1: bv8, locked: bool): (r: bv8)
    ensures EepromLocked(r) == locked
    ensures r & 0xDF == r1 & 0xDF
  {
    SetBit(r1, EELOCK, locked)
  }

  /** PWDN, bit 4. */
  function PowerDown(r1: bv8): (down: bool)
    ensures down <==> BitAt(r1, 4)
  {
    Bit(r1, PWDN)
  }

  function SetPowerDown(r1: bv8, down: bool): (r: bv8)
    ensures PowerDown(r) == down
    ensures r & 0xEF == r1 & 0xEF
  {
    SetBit(r1, PWDN, down)
  }

  /** INCLK, bits 3..2; the reserved code 3 reads as the crystal input. */
  function InputClockSelectionOf(r1: bv8): (s: InputClockSelection)
    ensures (r1 >> 2) & 0x03 == 0x03 ==> s == Xtal
    ensures (r1 >> 2) & 0x03 != 0x03 ==> s.Code() == (r1 >> 2) & 0x03
  {
    var code := Get(r1, INCLK);
    if code == 0 then Xtal
    else if code == 1 then Vcxo
    else if code == 2 then LvCmos
    else Xtal
  }

  /** Writes the selection's code into INCLK; nothing outside bits 3..2 changes. */
  function SetInputClockSelection(r1: bv8, s: InputClockSelection): (r: bv8)
    ensures InputClockSelectionOf(r) == s
    ensures r & 0xF3 == r1 & 0xF3
  {
    Set(r1, INCLK, s.Code())
  }

  /** TARGET_ADR, bits 1..0: the two programmable bits of the bus address. */
  function TargetAddress(r1: bv8): (v: U2)
    ensures v == r1 & 0x03
  {
    Get(r1, TARGET_ADR)
  }

  function SetTargetAddress(r1: bv8, v: U2): (r: bv8)
    ensures TargetAddress(r) == v
    ensures r & 0xFC == r1 & 0xFC
  {
    Set(r1, TARGET_ADR, v)
  }

  // ----- register 2 -----

  /** M1, bit 7: Y1 is driven by the input clock when clear, by PLL1 when set. */
  function Y1ClockSourceOf(r2: bv8): (s: Y1ClockSource)
    ensures s == Pll1Clock <==> BitAt(r2, 7)
  {
    if !Bit(r2, M1) then InputClock else Pll1Clock
  }

  function SetY1ClockSource(r2: bv8, s: Y1ClockSource): (r: bv8)
    ensures Y1ClockSourceOf(r) == s
    ensures r & 0x7F == r2 & 0x7F
  {
    SetBit(r2, M1, s.Code() != 0)
  }

  /** SPICON, bit 6. */
  function SerialInterfacePinModeOf(r2: bv8): (m: SerialInterfacePinMode)
    ensures m == ControlS1S2 <==> BitAt(r2, 6)
  {
    if !Bit(r2, SPICON) then SerialProgrammingInterface else ControlS1S2
  }

  function SetSerialInterfacePinMode(r2: bv8, m: SerialInterfacePinMode): (r: bv8)
    ensures SerialInterfacePinModeOf(r) == m
    ensures r & 0xBF == r2 & 0xBF
  {
    SetBit(r2, SPICON, m.Code() != 0)
  }

  /** Y1_ST1, bits 5..4, decoded by `OutputStateDefinition::from`. */
  function Y1State1Definition(r2: bv8): (s: OutputStateDefinition)
    ensures s.Code() == (r2 >> 4) & 0x03
  {
    OutputStateDefinitionFrom(Get(r2, Y1_ST1))
  }

  function SetY1State1Definition(r2: bv8, s: OutputStateDefinition): (r: bv8)
    ensures Y1State1Definition(r) == s
    ensures r & 0xCF == r2 & 0xCF
  {
    OutputStateDefinitionRoundTrip(s);
    Set(r2, Y1_ST1, s.Code())
  }

  /** Y1_ST0, bits 3..2. */
  function Y1State0Definition(r2: bv8): (s: OutputStateDefinition)
    ensures s.Code() == (r2 >> 2) & 0x03
  {
    OutputStateDefinitionFrom(Get(r2, Y1_ST0))
  }

  function SetY1State0Definition(r2: bv8, s: OutputStateDefinition): (r: bv8)
    ensures Y1State0Definition(r) == s
    ensures r & 0xF3 == r2 & 0xF3
  {
    OutputStateDefinitionRoundTrip(s);
    Set(r2, Y1_ST0, s.Code())
  }

  // ----- registers 2 and 3: the 10-bit Y1 output divider -----

  /** `pdiv1_full_value`: PDIV1[9:8] from register 2 above PDIV1[7:0] from
      register 3, so the divider always fits in ten bits. */
  function Pdiv1FullValue(r3: bv8, r2: bv8): (v: bv16)
    ensures v < 1024
    ensures (v >> 8) as bv8 == r2 & 0x03
    ensures (v & 0xFF) as bv8 == r3
  {
    ((Get(r2, PDIV1_9_8) as bv16) << 8) | (Get(r3, PDIV1_7_0) as bv16)
  }

  /** `set_pdiv1_9_8(v >> 8)` on register 2: only bits 1..0 change. */
  function SetPdiv1High(r2: bv8, v: U10): (r: bv8)
    ensures r & 0x03 == ((v >> 8) as bv8)
    ensures r & 0xFC == r2 & 0xFC
  {
    Set(r2, PDIV1_9_8, (v >> 8) as bv8)
  }

  /** `set_pdiv1_7_0(v & 0xFF)` on register 3: the whole byte is the low part. */
  function SetPdiv1Low(r3: bv8, v: U10): (r: bv8)
    ensures r == (v & 0xFF) as bv8
  {
    Set(r3, PDIV1_7_0, (v & 0xFF) as bv8)
  }

  /** Writing both halves and reading the divider back gives the divider. */
  lemma Pdiv1RoundTrip(r2: bv8, r3: bv8, v: U10)
    ensures Pdiv1FullValue(SetPdiv1Low(r3, v), SetPdiv1High(r2, v)) == v
  {
  }

  // ----- register 5: crystal load capacitance -----

  /** XCSEL, bits 7..3, in pF: codes 20 and above all mean 20 pF. */
  function CrystalLoadCapacitancePf(r5: bv8): (pf: bv8)
    ensures pf <= 20
    ensures r5 >> 3 < 20 ==> pf == r5 >> 3
    ensures r5 >> 3 >= 20 ==> pf == 20
  {
    var x := Get(r5, XCSEL);
    if x < 0x14 then x else 20
  }

  /** Writes `pf` clamped to 20 into XCSEL; the reserved bits 2..0 are kept. */
  function SetCrystalLoadCapacitancePf(r5: bv8, pf: bv8): (r: bv8)
    ensures CrystalLoadCapacitancePf(r) == if pf < 20 then pf else 20
    ensures r & 0x07 == r5 & 0x07
  {
    var value := if pf < 0x14 then pf else 20;
    Set(r5, XCSEL, value)
  }

  /** The clamp saturates: every value from 20 up writes the same byte as 20,
      so 25 reads back as 20 while 19 reads back as 19. */
  lemma CrystalLoadCapacitanceSaturates(r5: bv8, pf: bv8)
    requires pf >= 20
    ensures SetCrystalLoadCapacitancePf(r5, pf) == SetCrystalLoadCapacitancePf(r5, 20)
    ensures CrystalLoadCapacitancePf(SetCrystalLoadCapacitancePf(r5, 25)) == 20
    ensures CrystalLoadCapacitancePf(SetCrystalLoadCapacitancePf(r5, 19)) == 19
  {
  }

  // ----- register 6: block read/write byte count -----

  /** BCOUNT, bits 7..1; `u7::new` on it cannot fail. */
  function BlockByteCount(r6: bv8): (v: U7)
    ensures v == r6 >> 1
  {
    Get(r6, BCOUNT)
  }

  function SetBlockByteCount(r6: bv8, v: U7): (r: bv8)
    ensures BlockByteCount(r) == v
    ensures r & 0x01 == r6 & 0x01
  {
    Set(r6, BCOUNT, v)
  }
}
