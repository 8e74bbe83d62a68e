/** The device facade `CDCx913`, over an in-memory register file.

    The I2C bus is represented by the device's 128 byte-wide registers (the
    offsets the 7-bit offset field of a command byte can name) and by the
    log of transactions put on the bus, in order. Every access is a byte access: a write sends the
    command byte and the value, a read sends the command byte and reads one
    byte back. The facade's operations are compositions of those two, and
    the functions and lemmas of this module state what each composition does
    to the register file as a whole. */
module Driver {
  import opened Bitfield
  import opened Registers
  import opened I2c
  import GC = GenericConfiguration
  import PC = Pll1Configuration

  /** `Register`: the base offsets of the two banks. */
  const GENERIC_CONFIGURATION: bv8 := 0x00
  const PLL1_CONFIGURATION: bv8 := 0x10

  /** The contents of the 128 register offsets a command byte can address. */
  type RegisterFile = s: seq<bv8> | |s| == 128 witness seq(128, _ => 0 as bv8)

  /** One bus transaction addressed to the device. */
  datatype Transaction =
    | Write(address: bv8, command: bv8, value: bv8)
    | WriteRead(address: bv8, command: bv8)

  /** The transaction `read_byte_unchecked(offset)` performs: a byte-mode
      command carrying the offset's low seven bits, sent to the device. */
  function ByteRead(offset: bv8): (t: Transaction)
    ensures t.WriteRead? && t.address == ADDRESS
    ensures Mode(t.command) && Offset(t.command) == offset & 0x7F
  {
    WriteRead(ADDRESS, CommandByte(Byte, offset))
  }

  /** The transaction `write_byte_unchecked(offset, value)` performs: a
      byte-mode command carrying the offset's low seven bits, then the value. */
  function ByteWrite(offset: bv8, value: bv8): (t: Transaction)
    ensures t.Write? && t.address == ADDRESS && t.value == value
    ensures Mode(t.command) && Offset(t.command) == offset & 0x7F
  {
    Write(ADDRESS, CommandByte(Byte, offset), value)
  }

  /** The transactions of one `modify_byte_unchecked` that stores `value`. */
  function ReadModifyWrite(offset: bv8, value: bv8): seq<Transaction>
  {
    [ByteRead(offset), ByteWrite(offset, value)]
  }

  /** A transaction names the register by the offset's low seven bits and
      nothing else: two offsets give the same read (or the same write of a
      value) exactly when they agree below bit 7, so `o` and `o | 0x80` reach
      the same register. */
  lemma TransactionsNameSevenBitOffset(o1: bv8, o2: bv8, value: bv8)
    ensures ByteRead(o1) == ByteRead(o2) <==> o1 & 0x7F == o2 & 0x7F
    ensures ByteWrite(o1, value) == ByteWrite(o2, value) <==> o1 & 0x7F == o2 & 0x7F
    ensures ByteRead(o1) == ByteRead(o1 & 0x7F) && ByteWrite(o1, value) == ByteWrite(o1 & 0x7F, value)
  {
  }

  // ----- the Y1 output divider, split over registers 0x02 and 0x03 -----

  /** `y1_output_divider`: PDIV1 assembled from the two registers. */
  function Y1OutputDividerOf(s: RegisterFile): (v: U10)
    ensures (v >> 8) as bv8 == s[0x02] & 0x03 && (v & 0xFF) as bv8 == s[0x03]
  {
    GC.Pdiv1FullValue(s[0x03], s[0x02])
  }

  /** `set_y1_output_divider`: register 0x02 gets the top two bits, then
      register 0x03 the low eight; no other register changes, and within 0x02
      only bits 1..0 change. */
  function WithY1OutputDivider(s: RegisterFile, v: U10): (r: RegisterFile)
    ensures Y1OutputDividerOf(r) == v
    ensures r[0x02] & 0xFC == s[0x02] & 0xFC
    ensures forall k :: 0 <= k < 128 && k != 0x02 && k != 0x03 ==> r[k] == s[k]
  {
    GC.Pdiv1RoundTrip(s[0x02], s[0x03], v);
    var t := s[0x02 := GC.SetPdiv1High(s[0x02], v)];
    t[0x03 := GC.SetPdiv1Low(t[0x03], v)]
  }

  /** Two dividers written out: 2 (the value the board example programs)
      leaves bits 1..0 of 0x02 clear and 0x03 holding 2; 0x2AB puts 2 into
      bits 1..0 of 0x02 and 0xAB into 0x03. */
  lemma Y1OutputDividerExamples(s: RegisterFile)
    ensures WithY1OutputDivider(s, 2)[0x02] & 0x03 == 0x00
    ensures WithY1OutputDivider(s, 2)[0x03] == 0x02
    ensures WithY1OutputDivider(s, 0x2AB)[0x02] & 0x03 == 0x02
    ensures WithY1OutputDivider(s, 0x2AB)[0x03] == 0xAB
  {
  }

  // ----- the SSC1 selectors, split over registers 0x10..0x12 -----

  /** Which declaration of `ssc1_1` a computation uses: the one the code has
      (bits 6..3) or the datasheet's (bits 5..3). */
  datatype SscLayout = Declared | Intended

  const R2_SSC1_1_INTENDED: Field8 := Field(5, 3)

  function Ssc11Field(layout: SscLayout): Field8
  {
    if layout == Declared then PC.R2_SSC1_1 else R2_SSC1_1_INTENDED
  }

  /** The value `spread_spectrum_clocking_selection_raw(i)` computes before
      `u3::new` checks it. Selectors 5 and 2 are assembled from two registers.
      Every selector's bits make at most a 3-bit value, except declared
      selector 1, whose four bits make at most a 4-bit one. */
  function SscRawValue(s: RegisterFile, i: U3, layout: SscLayout): (v: bv8)
    ensures v < 16
    ensures (layout == Intended || i != 1) ==> v < 8
  {
    if i == 7 then Get(s[0x10], PC.R0_SSC1_7)
    else if i == 6 then Get(s[0x10], PC.R0_SSC1_6)
    else if i == 5 then (Get(s[0x10], PC.R0_SSC1_5) << 1) | BoolByte(Bit(s[0x11], PC.R1_SSC1_5))
    else if i == 4 then Get(s[0x11], PC.R1_SSC1_4)
    else if i == 3 then Get(s[0x11], PC.R1_SSC1_3)
    else if i == 2 then (BoolByte(Bit(s[0x11], PC.R1_SSC1_2)) << 2) | Get(s[0x12], PC.R2_SSC1_2)
    else if i == 1 then Get(s[0x12], Ssc11Field(layout))
    else Get(s[0x12], PC.R2_SSC1_0)
  }

  /** The selector read at control input `i`, or None where `u3::new` panics:
      with the declared layout that is selector 1 with bit 6 of 0x12 set, and
      nowhere else; with the intended layout it never happens. */
  function SscRaw(s: RegisterFile, i: U3, layout: SscLayout): (r: Option<U3>)
    ensures r.None? <==> layout == Declared && i == 1 && BitAt(s[0x12], 6)
  {
    NewU3(SscRawValue(s, i, layout))
  }

  /** The registers selector `i` occupies, in the order the driver accesses them. */
  function SscOffsets(i: U3): (offsets: seq<bv8>)
    ensures 1 <= |offsets| <= 2
    ensures forall k :: 0 <= k < |offsets| ==> 0x10 <= offsets[k] <= 0x12
  {
    if i == 7 || i == 6 then [0x10]
    else if i == 5 then [0x10, 0x11]
    else if i == 4 || i == 3 then [0x11]
    else if i == 2 then [0x11, 0x12]
    else [0x12]
  }

  /** `set_spread_spectrum_clocking_selection_raw(i, v)` on the register file.
      Selector 5 puts `v >> 1` into bits 1..0 of 0x10 and then `v & 1` into
      bit 7 of 0x11; selector 2 puts `v >> 2` into bit 0 of 0x11 and then
      `v & 3` into bits 7..6 of 0x12. Only the selector's registers change. */
  function SetSscRawIn(s: RegisterFile, i: U3, v: U3, layout: SscLayout): (r: RegisterFile)
    ensures forall k :: 0 <= k < 128 && k != 0x10 && k != 0x11 && k != 0x12 ==> r[k] == s[k]
    ensures i < 5 ==> r[0x10] == s[0x10]
    ensures (i < 2 || 5 < i) ==> r[0x11] == s[0x11]
    ensures 2 < i ==> r[0x12] == s[0x12]
  {
    if i == 7 then s[0x10 := Set(s[0x10], PC.R0_SSC1_7, v)]
    else if i == 6 then s[0x10 := Set(s[0x10], PC.R0_SSC1_6, v)]
    else if i == 5 then
      var t := s[0x10 := Set(s[0x10], PC.R0_SSC1_5, v >> 1)];
      t[0x11 := SetBit(t[0x11], PC.R1_SSC1_5, v & 1 != 0)]
    else if i == 4 then s[0x11 := Set(s[0x11], PC.R1_SSC1_4, v)]
    else if i == 3 then s[0x11 := Set(s[0x11], PC.R1_SSC1_3, v)]
    else if i == 2 then
      var t := s[0x11 := SetBit(s[0x11], PC.R1_SSC1_2, v >> 2 != 0)];
      t[0x12 := Set(t[0x12], PC.R2_SSC1_2, v & 3)]
    else if i == 1 then s[0x12 := Set(s[0x12], Ssc11Field(layout), v)]
    else s[0x12 := Set(s[0x12], PC.R2_SSC1_0, v)]
  }

  /** The transactions of writing selector `i`, leaving the register file as
      `r`: each of its registers is read, then written with its final value. */
  function SscWrites(i: U3, r: RegisterFile): seq<Transaction>
  {
    if i == 7 || i == 6 then ReadModifyWrite(0x10, r[0x10])
    else if i == 5 then ReadModifyWrite(0x10, r[0x10]) + ReadModifyWrite(0x11, r[0x11])
    else if i == 4 || i == 3 then ReadModifyWrite(0x11, r[0x11])
    else if i == 2 then ReadModifyWrite(0x11, r[0x11]) + ReadModifyWrite(0x12, r[0x12])
    else ReadModifyWrite(0x12, r[0x12])
  }

  /** The transactions of reading selector `i`. */
  function SscReads(i: U3): seq<Transaction>
  {
    var offsets := SscOffsets(i);
    if |offsets| == 1 then [ByteRead(offsets[0])] else [ByteRead(offsets[0]), ByteRead(offsets[1])]
  }

  /** Every selector reads back what was written to it, under either layout. */
  lemma SscRoundTrip(s: RegisterFile, i: U3, v: U3, layout: SscLayout)
    ensures SscRaw(SetSscRawIn(s, i, v, layout), i, layout) == Some(v)
  {
  }

  /** Writing selector 7, 6 or 5 (register 0x10, and bit 7 of 0x11 for 5)
      leaves every other selector as it was. */
  lemma SscIndependentHigh(s: RegisterFile, i: U3, v: U3, j: U3, layout: SscLayout)
    requires 5 <= i && i != j
    ensures SscRawValue(SetSscRawIn(s, i, v, layout), j, layout) == SscRawValue(s, j, layout)
  {
    PC.SscRegister0Layout();
  }

  /** Writing selector 4 or 3 (register 0x11 alone) leaves every other
      selector as it was. */
  lemma SscIndependentMiddle(s: RegisterFile, i: U3, v: U3, j: U3, layout: SscLayout)
    requires (i == 4 || i == 3) && i != j
    ensures SscRawValue(SetSscRawIn(s, i, v, layout), j, layout) == SscRawValue(s, j, layout)
  {
  }

  /** Writing selector 2 (bit 0 of 0x11 and bits 7..6 of 0x12) leaves every
      other selector as it was, except selector 1 under the declared layout. */
  lemma SscIndependentSelector2(s: RegisterFile, v: U3, j: U3, layout: SscLayout)
    requires j != 2 && !(layout == Declared && j == 1)
    ensures SscRawValue(SetSscRawIn(s, 2, v, layout), j, layout) == SscRawValue(s, j, layout)
  {
  }

  /** Writing selector 1 or 0 (register 0x12 alone) leaves every other
      selector as it was, except selector 2 after a write to selector 1 under
      the declared layout. */
  lemma SscIndependentLow(s: RegisterFile, i: U3, v: U3, j: U3, layout: SscLayout)
    requires i <= 1 && i != j && !(layout == Declared && i == 1 && j == 2)
    ensures SscRawValue(SetSscRawIn(s, i, v, layout), j, layout) == SscRawValue(s, j, layout)
  {
  }

  /** Writing a selector leaves every other selector as it was, except for the
      pair {1, 2} under the declared layout. */
  lemma SscIndependent(s: RegisterFile, i: U3, v: U3, j: U3, layout: SscLayout)
    requires i != j && !(layout == Declared && ((i == 1 && j == 2) || (i == 2 && j == 1)))
    ensures SscRawValue(SetSscRawIn(s, i, v, layout), j, layout) == SscRawValue(s, j, layout)
  {
    if 5 <= i {
      SscIndependentHigh(s, i, v, j, layout);
    } else if 3 <= i {
      SscIndependentMiddle(s, i, v, j, layout);
    } else if i == 2 {
      SscIndependentSelector2(s, v, j, layout);
    } else {
      SscIndependentLow(s, i, v, j, layout);
    }
  }

  /** As declared: writing selector 2 with an odd value sets bit 6 of 0x12,
      after which reading selector 1 panics in `u3::new`. */
  lemma SscWrite2BreaksRead1(s: RegisterFile, v: U3)
    requires v & 1 == 1
    ensures SscRaw(SetSscRawIn(s, 2, v, Declared), 1, Declared).None?
  {
  }

  /** As declared: writing selector 1 clears the low bit of selector 2. */
  lemma SscWrite1ClearsSelector2Bit0(s: RegisterFile, v: U3)
    ensures SscRawValue(SetSscRawIn(s, 1, v, Declared), 2, Declared) == SscRawValue(s, 2, Declared) & 0x06
  {
    PC.Ssc11WriteClearsBit6(s[0x12], v);
  }

  /** A concrete instance of the defect: on a cleared register file, setting
      selector 2 to 1 and then reading selector 1 panics, and setting selector
      1 to 0 turns a selector 2 of 1 into 0. */
  lemma SscInterferenceExample()
    ensures var zero: RegisterFile := seq(128, _ => 0 as bv8);
      && SscRaw(SetSscRawIn(zero, 2, 1, Declared), 1, Declared) == None
      && SscRawValue(SetSscRawIn(SetSscRawIn(zero, 2, 1, Declared), 1, 0, Declared), 2, Declared) == 0
  {
    var zero: RegisterFile := seq(128, _ => 0 as bv8);
    SscWrite2BreaksRead1(zero, 1);
    var t := SetSscRawIn(zero, 2, 1, Declared);
    SscWrite1ClearsSelector2Bit0(t, 0);
    assert SscRawValue(t, 2, Declared) == 1;
  }

  /** With the datasheet layout every pair of distinct selectors is independent
      and no read fails. */
  lemma SscIntendedIndependent(s: RegisterFile, i: U3, v: U3, j: U3)
    requires i != j
    ensures SscRaw(SetSscRawIn(s, i, v, Intended), j, Intended) == SscRaw(s, j, Intended)
    ensures SscRaw(s, j, Intended).Some?
  {
    SscIndependent(s, i, v, j, Intended);
  }

  // ----- configuring the whole selector table -----

  /** Writes `table[k]` to selector `k` for each `k < n`, in ascending
      order, the way a caller fills in the SSC table one control input at a
      time. Only registers 0x10..0x12 change. */
  function ConfigureSelectors(s: RegisterFile, table: seq<U3>, n: bv8, layout: SscLayout): (r: RegisterFile)
    requires |table| == 8 && n <= 8
    ensures forall k :: 0 <= k < 128 && k != 0x10 && k != 0x11 && k != 0x12 ==> r[k] == s[k]
    decreases n as int
  {
    if n == 0 then s
    else SetSscRawIn(ConfigureSelectors(s, table, n - 1, layout), n - 1, table[n - 1], layout)
  }

  /** As declared, writing selector 2 moves its low bit into bit 3 of the
      value selector 1 reads and keeps selector 1's own three bits. */
  lemma SscWrite2SetsSelector1Bit3(s: RegisterFile, v: U3)
    ensures SscRawValue(SetSscRawIn(s, 2, v, Declared), 1, Declared)
         == (SscRawValue(s, 1, Declared) & 0x07) | ((v & 1) << 3)
  {
  }

  /** With the datasheet layout, filling in the selectors in ascending order
      leaves every one of them reading back the value written to it. */
  lemma {:induction false} ConfigureSelectorsIntended(s: RegisterFile, table: seq<U3>, n: bv8)
    requires |table| == 8 && n <= 8
    ensures forall j: U3 :: j < n ==> SscRaw(ConfigureSelectors(s, table, n, Intended), j, Intended) == Some(table[j])
    decreases n as int
  {
    if n != 0 {
      var t := ConfigureSelectors(s, table, n - 1, Intended);
      ConfigureSelectorsIntended(s, table, n - 1);
      SscRoundTrip(t, n - 1, table[n - 1], Intended);
      forall j: U3 | j < n - 1
        ensures SscRaw(ConfigureSelectors(s, table, n, Intended), j, Intended) == Some(table[j])
      {
        SscIntendedIndependent(t, n - 1, table[n - 1], j);
      }
    }
  }

  /** As declared, filling in the selectors in ascending order leaves every
      selector but 1 reading back its value. Once selector 2 is written,
      selector 1 carries selector 2's low bit in bit 3, so it reads back
      exactly when selector 2 was given an even value and otherwise panics. */
  lemma {:induction false} ConfigureSelectorsDeclared(s: RegisterFile, table: seq<U3>, n: bv8)
    requires |table| == 8 && n <= 8
    ensures forall j: U3 :: j < n && j != 1 ==> SscRaw(ConfigureSelectors(s, table, n, Declared), j, Declared) == Some(table[j])
    ensures n == 2 ==> SscRaw(ConfigureSelectors(s, table, n, Declared), 1, Declared) == Some(table[1])
    ensures 3 <= n ==> SscRawValue(ConfigureSelectors(s, table, n, Declared), 1, Declared) == table[1] | ((table[2] & 1) << 3)
    ensures 3 <= n ==> (SscRaw(ConfigureSelectors(s, table, n, Declared), 1, Declared) == Some(table[1]) <==> table[2] & 1 == 0)
    decreases n as int
  {
    if n != 0 {
      var t := ConfigureSelectors(s, table, n - 1, Declared);
      ConfigureSelectorsDeclared(s, table, n - 1);
      SscRoundTrip(t, n - 1, table[n - 1], Declared);
      forall j: U3 | j < n - 1 && j != 1
        ensures SscRaw(ConfigureSelectors(s, table, n, Declared), j, Declared) == Some(table[j])
      {
        SscIndependent(t, n - 1, table[n - 1], j, Declared);
      }
      if n == 3 {
        SscWrite2SetsSelector1Bit3(t, table[2]);
      } else if n > 3 {
        SscIndependent(t, n - 1, table[n - 1], 1, Declared);
      }
    }
  }

  // ----- the PLL words at 0x18..0x1B and 0x1C..0x1F -----

  const PLL1_0: bv8 := 0x18
  const PLL1_1: bv8 := 0x1C

  /** The word held big-endian in the four registers from `base`. */
  function PllSettingsAt(s: RegisterFile, base: bv8): (w: PC.PllSettings)
    requires base == PLL1_0 || base == PLL1_1
    ensures ToBeBytes(w) == s[base..base as int + 4]
  {
    BeBytesRoundTrip(s[base..base as int + 4]);
    FromBeBytes(s[base..base as int + 4])
  }

  /** `set_pll1_{0,1}_settings` on the register file: the word's bytes replace
      the four registers from `base`, most significant first, and nothing else
      changes. */
  function WithPllSettings(s: RegisterFile, base: bv8, w: PC.PllSettings): (r: RegisterFile)
    requires base == PLL1_0 || base == PLL1_1
    ensures PllSettingsAt(r, base) == w
    ensures forall k :: 0 <= k < 128 && !(base as int <= k < base as int + 4) ==> r[k] == s[k]
  {
    var b := ToBeBytes(w);
    var r := s[base as int := b[0]][base as int + 1 := b[1]][base as int + 2 := b[2]][base as int + 3 := b[3]];
    assert r[base..base as int + 4] == b;
    r
  }

  /** Writing one PLL's word leaves the other PLL's word as it was. */
  lemma PllSettingsIndependent(s: RegisterFile, w: PC.PllSettings)
    ensures PllSettingsAt(WithPllSettings(s, PLL1_0, w), PLL1_1) == PllSettingsAt(s, PLL1_1)
    ensures PllSettingsAt(WithPllSettings(s, PLL1_1, w), PLL1_0) == PllSettingsAt(s, PLL1_0)
  {
    var r0 := WithPllSettings(s, PLL1_0, w);
    assert r0[PLL1_1..PLL1_1 as int + 4] == s[PLL1_1..PLL1_1 as int + 4];
    var r1 := WithPllSettings(s, PLL1_1, w);
    assert r1[PLL1_0..PLL1_0 as int + 4] == s[PLL1_0..PLL1_0 as int + 4];
  }

  // ----- the device -----

  class Cdcx913 {
    /** The device's registers, one byte per offset. */
    const regs: array<bv8>
    /** Every transaction sent so far, oldest first. */
    var sent: seq<Transaction>

    predicate Valid()
    {
      regs.Length == 128
    }

    constructor (initial: RegisterFile)
      ensures Valid() && regs[..] == initial && sent == []
      ensures fresh(regs)
    {
      regs := new bv8[128](k requires 0 <= k < 128 => initial[k]);
      sent := [];
    }

    /** `write_byte_unchecked`: the register the command byte names, at
        `offset & 0x7F`, becomes `value`. */
    method WriteByteUnchecked(offset: bv8, value: bv8)
      requires Valid()
      modifies this, regs
      ensures regs[..] == old(regs[..])[(offset & 0x7F) as int := value]
      ensures sent == old(sent) + [ByteWrite(offset, value)]
    {
      var command := NewCommandCode(Byte, offset);
      regs[Offset(command) as int] := value;
      sent := sent + [Write(ADDRESS, command, value)];
    }

    /** `read_byte_unchecked`: the register the command byte names, at
        `offset & 0x7F`. */
    method ReadByteUnchecked(offset: bv8) returns (value: bv8)
      requires Valid()
      modifies this
      ensures value == regs[(offset & 0x7F) as int]
      ensures sent == old(sent) + [ByteRead(offset)]
    {
      var command := NewCommandCode(Byte, offset);
      value := regs[Offset(command) as int];
      sent := sent + [WriteRead(ADDRESS, command)];
    }

    /** `with`: read the register at `offset & 0x7F` and decode it with `f`. */
    method With<R>(offset: bv8, f: bv8 -> R) returns (r: R)
      requires Valid()
      modifies this
      ensures r == f(regs[(offset & 0x7F) as int])
      ensures sent == old(sent) + [ByteRead(offset)]
    {
      var reg := ReadByteUnchecked(offset);
      r := f(reg);
    }

    /** `modify_byte_unchecked`: read the register at `offset & 0x7F`, update
        it with `f` and write it back; no other register changes. */
    method ModifyByteUnchecked(offset: bv8, f: bv8 -> bv8)
      requires Valid()
      modifies this, regs
      ensures regs[..] == old(regs[..])[(offset & 0x7F) as int := f(old(regs[(offset & 0x7F) as int]))]
      ensures sent == old(sent) + ReadModifyWrite(offset, f(old(regs[(offset & 0x7F) as int])))
    {
      var reg := ReadByteUnchecked(offset);
      WriteByteUnchecked(offset, f(reg));
    }

    // ----- generic configuration -----

    method DeviceIdentification() returns (d: GC.DeviceIdentification)
      requires Valid()
      modifies this
      ensures d == GC.DeviceIdentificationOf(regs[0x00])
      ensures sent == old(sent) + [ByteRead(0x00)]
    {
      d := With(GENERIC_CONFIGURATION + 0x0, GC.DeviceIdentificationOf);
    }

    method RevisionNumber() returns (v: U3)
      requires Valid()
      modifies this
      ensures v == GC.RevisionNumber(regs[0x00])
      ensures sent == old(sent) + [ByteRead(0x00)]
    {
      v := With(GENERIC_CONFIGURATION + 0x0, GC.RevisionNumber);
    }

    method VendorIdentification() returns (v: U4)
      requires Valid()
      modifies this
      ensures v == GC.VendorIdentification(regs[0x00])
      ensures sent == old(sent) + [ByteRead(0x00)]
    {
      v := With(GENERIC_CONFIGURATION + 0x0, GC.VendorIdentification);
    }

    method EepromProgrammingStatus() returns (s: GC.EepromProgrammingStatus)
      requires Valid()
      modifies this
      ensures s == GC.EepromProgrammingStatusOf(regs[0x01])
      ensures sent == old(sent) + [ByteRead(0x01)]
    {
      s := With(GENERIC_CONFIGURATION + 0x1, GC.EepromProgrammingStatusOf);
    }

    method EepromPermanentlyLocked() returns (locked: bool)
      requires Valid()
      modifies this
      ensures locked == GC.EepromLocked(regs[0x01])
      ensures sent == old(sent) + [ByteRead(0x01)]
    {
      locked := With(GENERIC_CONFIGURATION + 0x1, GC.EepromLocked);
    }

    method SetEepromPermanentlyLocked(locked: bool)
      requires Valid()
      modifies this, regs
      ensures regs[..] == old(regs[..])[0x01 := GC.SetEepromLocked(old(regs[0x01]), locked)]
      ensures sent == old(sent) + ReadModifyWrite(0x01, GC.SetEepromLocked(old(regs[0x01]), locked))
    {
      ModifyByteUnchecked(GENERIC_CONFIGURATION + 0x1, r => GC.SetEepromLocked(r, locked));
    }

    method PowerDown() returns (down: bool)
      requires Valid()
      modifies this
      ensures down == GC.PowerDown(regs[0x01])
      ensures sent == old(sent) + [ByteRead(0x01)]
    {
      down := With(GENERIC_CONFIGURATION + 0x1, GC.PowerDown);
    }

    method SetPowerDown(down: bool)
      requires Valid()
      modifies this, regs
      ensures regs[..] == old(regs[..])[0x01 := GC.SetPowerDown(old(regs[0x01]), down)]
      ensures sent == old(sent) + ReadModifyWrite(0x01, GC.SetPowerDown(old(regs[0x01]), down))
    {
      ModifyByteUnchecked(GENERIC_CONFIGURATION + 0x1, r => GC.SetPowerDown(r, down));
    }

    method InputClock() returns (s: GC.InputClockSelection)
      requires Valid()
      modifies this
      ensures s == GC.InputClockSelectionOf(regs[0x01])
      ensures sent == old(sent) + [ByteRead(0x01)]
    {
      s := With(GENERIC_CONFIGURATION + 0x1, GC.InputClockSelectionOf);
    }

    method SetInputClock(s: GC.InputClockSelection)
      requires Valid()
      modifies this, regs
      ensures regs[..] == old(regs[..])[0x01 := GC.SetInputClockSelection(old(regs[0x01]), s)]
      ensures sent == old(sent) + ReadModifyWrite(0x01, GC.SetInputClockSelection(old(regs[0x01]), s))
    {
      ModifyByteUnchecked(GENERIC_CONFIGURATION + 0x1, r => GC.SetInputClockSelection(r, s));
    }

    method TargetAddress() returns (v: U2)
      requires Valid()
      modifies this
      ensures v == GC.TargetAddress(regs[0x01])
      ensures sent == old(sent) + [ByteRead(0x01)]
    {
      v := With(GENERIC_CONFIGURATION + 0x1, GC.TargetAddress);
    }

    method SetTargetAddress(v: U2)
      requires Valid()
      modifies this, regs
      ensures regs[..] == old(regs[..])[0x01 := GC.SetTargetAddress(old(regs[0x01]), v)]
      ensures sent == old(sent) + ReadModifyWrite(0x01, GC.SetTargetAddress(old(regs[0x01]), v))
    {
      ModifyByteUnchecked(GENERIC_CONFIGURATION + 0x1, r => GC.SetTargetAddress(r, v));
    }

    method Y1ClockSource() returns (s: GC.Y1ClockSource)
      requires Valid()
      modifies this
      ensures s == GC.Y1ClockSourceOf(regs[0x02])
      ensures sent == old(sent) + [ByteRead(0x02)]
    {
      s := With(GENERIC_CONFIGURATION + 0x2, GC.Y1ClockSourceOf);
    }

    method SetY1ClockSource(s: GC.Y1ClockSource)
      requires Valid()
      modifies this, regs
      ensures regs[..] == old(regs[..])[0x02 := GC.SetY1ClockSource(old(regs[0x02]), s)]
      ensures sent == old(sent) + ReadModifyWrite(0x02, GC.SetY1ClockSource(old(regs[0x02]), s))
    {
      ModifyByteUnchecked(GENERIC_CONFIGURATION + 0x2, r => GC.SetY1ClockSource(r, s));
    }

    method SerialPinsOperatingMode() returns (m: GC.SerialInterfacePinMode)
      requires Valid()
      modifies this
      ensures m == GC.SerialInterfacePinModeOf(regs[0x02])
      ensures sent == old(sent) + [ByteRead(0x02)]
    {
      m := With(GENERIC_CONFIGURATION + 0x2, GC.SerialInterfacePinModeOf);
    }

    method SetSerialPinsOperatingMode(m: GC.SerialInterfacePinMode)
      requires Valid()
      modifies this, regs
      ensures regs[..] == old(regs[..])[0x02 := GC.SetSerialInterfacePinMode(old(regs[0x02]), m)]
      ensures sent == old(sent) + ReadModifyWrite(0x02, GC.SetSerialInterfacePinMode(old(regs[0x02]), m))
    {
      ModifyByteUnchecked(GENERIC_CONFIGURATION + 0x2, r => GC.SetSerialInterfacePinMode(r, m));
    }

    method Y1State1() returns (s: OutputStateDefinition)
      requires Valid()
      modifies this
      ensures s == GC.Y1State1Definition(regs[0x02])
      ensures sent == old(sent) + [ByteRead(0x02)]
    {
      s := With(GENERIC_CONFIGURATION + 0x2, GC.Y1State1Definition);
    }

    method SetY1State1(s: OutputStateDefinition)
      requires Valid()
      modifies this, regs
      ensures regs[..] == old(regs[..])[0x02 := GC.SetY1State1Definition(old(regs[0x02]), s)]
      ensures sent == old(sent) + ReadModifyWrite(0x02, GC.SetY1State1Definition(old(regs[0x02]), s))
    {
      ModifyByteUnchecked(GENERIC_CONFIGURATION + 0x2, r => GC.SetY1State1Definition(r, s));
    }

    method Y1State0() returns (s: OutputStateDefinition)
      requires Valid()
      modifies this
      ensures s == GC.Y1State0Definition(regs[0x02])
      ensures sent == old(sent) + [ByteRead(0x02)]
    {
      s := With(GENERIC_CONFIGURATION + 0x2, GC.Y1State0Definition);
    }

    method SetY1State0(s: OutputStateDefinition)
      requires Valid()
      modifies this, regs
      ensures regs[..] == old(regs[..])[0x02 := GC.SetY1State0Definition(old(regs[0x02]), s)]
      ensures sent == old(sent) + ReadModifyWrite(0x02, GC.SetY1State0Definition(old(regs[0x02]), s))
    {
      ModifyByteUnchecked(GENERIC_CONFIGURATION + 0x2, r => GC.SetY1State0Definition(r, s));
    }

    /** Reads 0x02, then 0x03; `u10::new` on the result cannot fail. */
    method Y1OutputDivider() returns (v: U10)
      requires Valid()
      modifies this
      ensures v == Y1OutputDividerOf(regs[..])
      ensures sent == old(sent) + [ByteRead(0x02), ByteRead(0x03)]
    {
      var reg2 := With(GENERIC_CONFIGURATION + 0x2, r => r);
      var reg3 := With(GENERIC_CONFIGURATION + 0x3, r => r);
      v := GC.Pdiv1FullValue(reg3, reg2);
    }

    /** Modifies 0x02, then 0x03. */
    method SetY1OutputDivider(v: U10)
      requires Valid()
      modifies this, regs
      ensures regs[..] == WithY1OutputDivider(old(regs[..]), v)
      ensures sent == old(sent) + ReadModifyWrite(0x02, regs[0x02]) + ReadModifyWrite(0x03, regs[0x03])
    {
      ModifyByteUnchecked(GENERIC_CONFIGURATION + 0x2, r => GC.SetPdiv1High(r, v));
      ModifyByteUnchecked(GENERIC_CONFIGURATION + 0x3, r => GC.SetPdiv1Low(r, v));
    }

    method Y1StateSelection(controlInput: U3) returns (s: OutputStateSelection)
      requires Valid()
      modifies this
      ensures s == SelectedState(regs[0x04], controlInput)
      ensures sent == old(sent) + [ByteRead(0x04)]
    {
      s := With(GENERIC_CONFIGURATION + 0x4, r => SelectedState(r, controlInput));
    }

    method SetY1StateSelection(controlInput: U3, s: OutputStateSelection)
      requires Valid()
      modifies this, regs
      ensures regs[..] == old(regs[..])[0x04 := WithSelectedState(old(regs[0x04]), controlInput, s)]
      ensures sent == old(sent) + ReadModifyWrite(0x04, WithSelectedState(old(regs[0x04]), controlInput, s))
    {
      ModifyByteUnchecked(GENERIC_CONFIGURATION + 0x4, r => WithSelectedState(r, controlInput, s));
    }

    /** The capacitance in pF, not the raw field. */
    method CrystalLoadCapacitancePf() returns (pf: bv8)
      requires Valid()
      modifies this
      ensures pf == GC.CrystalLoadCapacitancePf(regs[0x05])
      ensures sent == old(sent) + [ByteRead(0x05)]
    {
      pf := With(GENERIC_CONFIGURATION + 0x5, GC.CrystalLoadCapacitancePf);
    }

    method SetCrystalLoadCapacitor(pf: bv8)
      requires Valid()
      modifies this, regs
      ensures regs[..] == old(regs[..])[0x05 := GC.SetCrystalLoadCapacitancePf(old(regs[0x05]), pf)]
      ensures sent == old(sent) + ReadModifyWrite(0x05, GC.SetCrystalLoadCapacitancePf(old(regs[0x05]), pf))
    {
      ModifyByteUnchecked(GENERIC_CONFIGURATION + 0x5, r => GC.SetCrystalLoadCapacitancePf(r, pf));
    }

    method BlockByteCount() returns (v: U7)
      requires Valid()
      modifies this
      ensures v == GC.BlockByteCount(regs[0x06])
      ensures sent == old(sent) + [ByteRead(0x06)]
    {
      v := With(GENERIC_CONFIGURATION + 0x6, GC.BlockByteCount);
    }

    method SetBlockByteCount(v: U7)
      requires Valid()
      modifies this, regs
      ensures regs[..] == old(regs[..])[0x06 := GC.SetBlockByteCount(old(regs[0x06]), v)]
      ensures sent == old(sent) + ReadModifyWrite(0x06, GC.SetBlockByteCount(old(regs[0x06]), v))
    {
      ModifyByteUnchecked(GENERIC_CONFIGURATION + 0x6, r => GC.SetBlockByteCount(r, v));
    }

    // ----- PLL1 configuration -----

    /** Reads the selector's registers in order; None where `u3::new` panics. */
    method SpreadSpectrumClockingSelectionRaw(controlInput: U3) returns (r: Option<U3>)
      requires Valid()
      modifies this
      ensures r == SscRaw(regs[..], controlInput, Declared)
      ensures sent == old(sent) + SscReads(controlInput)
    {
      var raw: bv8;
      if controlInput == 7 {
        raw := With(PLL1_CONFIGURATION + 0x0, r0 => Get(r0, PC.R0_SSC1_7));
      } else if controlInput == 6 {
        raw := With(PLL1_CONFIGURATION + 0x0, r0 => Get(r0, PC.R0_SSC1_6));
      } else if controlInput == 5 {
        var hi := With(PLL1_CONFIGURATION + 0x0, r0 => Get(r0, PC.R0_SSC1_5));
        var lo := With(PLL1_CONFIGURATION + 0x1, r1 => BoolByte(Bit(r1, PC.R1_SSC1_5)));
        raw := (hi << 1) | lo;
      } else if controlInput == 4 {
        raw := With(PLL1_CONFIGURATION + 0x1, r1 => Get(r1, PC.R1_SSC1_4));
      } else if controlInput == 3 {
        raw := With(PLL1_CONFIGURATION + 0x1, r1 => Get(r1, PC.R1_SSC1_3));
      } else if controlInput == 2 {
        var hi := With(PLL1_CONFIGURATION + 0x1, r1 => BoolByte(Bit(r1, PC.R1_SSC1_2)));
        var lo := With(PLL1_CONFIGURATION + 0x2, r2 => Get(r2, PC.R2_SSC1_2));
        raw := (hi << 2) | lo;
      } else if controlInput == 1 {
        raw := With(PLL1_CONFIGURATION + 0x2, r2 => Get(r2, PC.R2_SSC1_1));
      } else {
        raw := With(PLL1_CONFIGURATION + 0x2, r2 => Get(r2, PC.R2_SSC1_0));
      }
      r := NewU3(raw);
    }

    method SpreadSpectrumClockingSelectionAsDown(controlInput: U3) returns (r: Option<PC.SscModulationAmountDown>)
      requires Valid()
      modifies this
      ensures r.None? <==> SscRaw(regs[..], controlInput, Declared).None?
      ensures r.Some? ==> r.value.Code() == SscRaw(regs[..], controlInput, Declared).value
      ensures sent == old(sent) + SscReads(controlInput)
    {
      var raw := SpreadSpectrumClockingSelectionRaw(controlInput);
      r := if raw.None? then None else Some(PC.SscModulationAmountDownFrom(raw.value));
    }

    method SpreadSpectrumClockingSelectionAsCenter(controlInput: U3) returns (r: Option<PC.SscModulationAmountCenter>)
      requires Valid()
      modifies this
      ensures r.None? <==> SscRaw(regs[..], controlInput, Declared).None?
      ensures r.Some? ==> r.value.Code() == SscRaw(regs[..], controlInput, Declared).value
      ensures sent == old(sent) + SscReads(controlInput)
    {
      var raw := SpreadSpectrumClockingSelectionRaw(controlInput);
      r := if raw.None? then None else Some(PC.SscModulationAmountCenterFrom(raw.value));
    }

    /** Modifies the selector's registers in order, the lower offset first. */
    method SetSpreadSpectrumClockingSelectionRaw(controlInput: U3, value: U3)
      requires Valid()
      modifies this, regs
      ensures regs[..] == SetSscRawIn(old(regs[..]), controlInput, value, Declared)
      ensures sent == old(sent) + SscWrites(controlInput, regs[..])
    {
      if controlInput == 7 {
        ModifyByteUnchecked(PLL1_CONFIGURATION + 0x0, r0 => Set(r0, PC.R0_SSC1_7, value));
      } else if controlInput == 6 {
        ModifyByteUnchecked(PLL1_CONFIGURATION + 0x0, r0 => Set(r0, PC.R0_SSC1_6, value));
      } else if controlInput == 5 {
        var hi := value >> 1;
        var lo := value & 1;
        ModifyByteUnchecked(PLL1_CONFIGURATION + 0x0, r0 => Set(r0, PC.R0_SSC1_5, hi));
        ModifyByteUnchecked(PLL1_CONFIGURATION + 0x1, r1 => SetBit(r1, PC.R1_SSC1_5, lo != 0));
      } else if controlInput == 4 {
        ModifyByteUnchecked(PLL1_CONFIGURATION + 0x1, r1 => Set(r1, PC.R1_SSC1_4, value));
      } else if controlInput == 3 {
        ModifyByteUnchecked(PLL1_CONFIGURATION + 0x1, r1 => Set(r1, PC.R1_SSC1_3, value));
      } else if controlInput == 2 {
        var hi := value >> 2;
        var lo := value & 3;
        ModifyByteUnchecked(PLL1_CONFIGURATION + 0x1, r1 => SetBit(r1, PC.R1_SSC1_2, hi != 0));
        ModifyByteUnchecked(PLL1_CONFIGURATION + 0x2, r2 => Set(r2, PC.R2_SSC1_2, lo));
      } else if controlInput == 1 {
        ModifyByteUnchecked(PLL1_CONFIGURATION + 0x2, r2 => Set(r2, PC.R2_SSC1_1, value));
      } else {
        ModifyByteUnchecked(PLL1_CONFIGURATION + 0x2, r2 => Set(r2, PC.R2_SSC1_0, value));
      }
    }

    method SetSpreadSpectrumClockingSelectionAsDown(controlInput: U3, value: PC.SscModulationAmountDown)
      requires Valid()
      modifies this, regs
      ensures regs[..] == SetSscRawIn(old(regs[..]), controlInput, value.Code(), Declared)
      ensures sent == old(sent) + SscWrites(controlInput, regs[..])
    {
      SetSpreadSpectrumClockingSelectionRaw(controlInput, value.Code());
    }

    method SetSpreadSpectrumClockingSelectionAsCenter(controlInput: U3, value: PC.SscModulationAmountCenter)
      requires Valid()
      modifies this, regs
      ensures regs[..] == SetSscRawIn(old(regs[..]), controlInput, value.Code(), Declared)
      ensures sent == old(sent) + SscWrites(controlInput, regs[..])
    {
      SetSpreadSpectrumClockingSelectionRaw(controlInput, value.Code());
    }

    method Pll1FrequencySelection(controlInput: U3) returns (s: PC.Fs1Selection)
      requires Valid()
      modifies this
      ensures s == PC.Fs1SelectionOf(regs[0x13], controlInput)
      ensures sent == old(sent) + [ByteRead(0x13)]
    {
      s := With(PLL1_CONFIGURATION + 0x3, r => PC.Fs1SelectionOf(r, controlInput));
    }

    method SetPll1FrequencySelection(controlInput: U3, s: PC.Fs1Selection)
      requires Valid()
      modifies this, regs
      ensures regs[..] == old(regs[..])[0x13 := PC.SetFs1Selection(old(regs[0x13]), controlInput, s)]
      ensures sent == old(sent) + ReadModifyWrite(0x13, PC.SetFs1Selection(old(regs[0x13]), controlInput, s))
    {
      ModifyByteUnchecked(PLL1_CONFIGURATION + 0x3, r => PC.SetFs1Selection(r, controlInput, s));
    }

    method Pll1Multiplexer() returns (m: PC.Pll1Multiplexer)
      requires Valid()
      modifies this
      ensures m == PC.Pll1MultiplexerOf(regs[0x14])
      ensures sent == old(sent) + [ByteRead(0x14)]
    {
      m := With(PLL1_CONFIGURATION + 0x4, PC.Pll1MultiplexerOf);
    }

    method SetPll1Multiplexer(m: PC.Pll1Multiplexer)
      requires Valid()
      modifies this, regs
      ensures regs[..] == old(regs[..])[0x14 := PC.SetPll1Multiplexer(old(regs[0x14]), m)]
      ensures sent == old(sent) + ReadModifyWrite(0x14, PC.SetPll1Multiplexer(old(regs[0x14]), m))
    {
      ModifyByteUnchecked(PLL1_CONFIGURATION + 0x4, r => PC.SetPll1Multiplexer(r, m));
    }

    method Y2Multiplexer() returns (m: PC.OutputY2Multiplexer)
      requires Valid()
      modifies this
      ensures m == PC.OutputY2MultiplexerOf(regs[0x14])
      ensures sent == old(sent) + [ByteRead(0x14)]
    {
      m := With(PLL1_CONFIGURATION + 0x4, PC.OutputY2MultiplexerOf);
    }

    method SetY2Multiplexer(m: PC.OutputY2Multiplexer)
      requires Valid()
      modifies this, regs
      ensures regs[..] == old(regs[..])[0x14 := PC.SetOutputY2Multiplexer(old(regs[0x14]), m)]
      ensures sent == old(sent) + ReadModifyWrite(0x14, PC.SetOutputY2Multiplexer(old(regs[0x14]), m))
    {
      ModifyByteUnchecked(PLL1_CONFIGURATION + 0x4, r => PC.SetOutputY2Multiplexer(r, m));
    }

    method Y3Multiplexer() returns (m: PC.OutputY3Multiplexer)
      requires Valid()
      modifies this
      ensures m == PC.OutputY3MultiplexerOf(regs[0x14])
      ensures sent == old(sent) + [ByteRead(0x14)]
    {
      m := With(PLL1_CONFIGURATION + 0x4, PC.OutputY3MultiplexerOf);
    }

    method SetY3Multiplexer(m: PC.OutputY3Multiplexer)
      requires Valid()
      modifies this, regs
      ensures regs[..] == old(regs[..])[0x14 := PC.SetOutputY3Multiplexer(old(regs[0x14]), m)]
      ensures sent == old(sent) + ReadModifyWrite(0x14, PC.SetOutputY3Multiplexer(old(regs[0x14]), m))
    {
      ModifyByteUnchecked(PLL1_CONFIGURATION + 0x4, r => PC.SetOutputY3Multiplexer(r, m));
    }

    method Y2Y3State1Definition() returns (s: OutputStateDefinition)
      requires Valid()
      modifies this
      ensures s == PC.Y2Y3State1Definition(regs[0x14])
      ensures sent == old(sent) + [ByteRead(0x14)]
    {
      s := With(PLL1_CONFIGURATION + 0x4, PC.Y2Y3State1Definition);
    }

    method SetY2Y3State1Definition(s: OutputStateDefinition)
      requires Valid()
      modifies this, regs
      ensures regs[..] == old(regs[..])[0x14 := PC.SetY2Y3State1Definition(old(regs[0x14]), s)]
      ensures sent == old(sent) + ReadModifyWrite(0x14, PC.SetY2Y3State1Definition(old(regs[0x14]), s))
    {
      ModifyByteUnchecked(PLL1_CONFIGURATION + 0x4, r => PC.SetY2Y3State1Definition(r, s));
    }

    method Y2Y3State0Definition() returns (s: OutputStateDefinition)
      requires Valid()
      modifies this
      ensures s == PC.Y2Y3State0Definition(regs[0x14])
      ensures sent == old(sent) + [ByteRead(0x14)]
    {
      s := With(PLL1_CONFIGURATION + 0x4, PC.Y2Y3State0Definition);
    }

    method SetY2Y3State0Definition(s: OutputStateDefinition)
      requires Valid()
      modifies this, regs
      ensures regs[..] == old(regs[..])[0x14 := PC.SetY2Y3State0Definition(old(regs[0x14]), s)]
      ensures sent == old(sent) + ReadModifyWrite(0x14, PC.SetY2Y3State0Definition(old(regs[0x14]), s))
    {
      ModifyByteUnchecked(PLL1_CONFIGURATION + 0x4, r => PC.SetY2Y3State0Definition(r, s));
    }

    method Y2Y3StateSelection(controlInput: U3) returns (s: OutputStateSelection)
      requires Valid()
      modifies this
      ensures s == SelectedState(regs[0x15], controlInput)
      ensures sent == old(sent) + [ByteRead(0x15)]
    {
      s := With(PLL1_CONFIGURATION + 0x5, r => SelectedState(r, controlInput));
    }

    method SetY2Y3StateSelection(controlInput: U3, s: OutputStateSelection)
      requires Valid()
      modifies this, regs
      ensures regs[..] == old(regs[..])[0x15 := WithSelectedState(old(regs[0x15]), controlInput, s)]
      ensures sent == old(sent) + ReadModifyWrite(0x15, WithSelectedState(old(regs[0x15]), controlInput, s))
    {
      ModifyByteUnchecked(PLL1_CONFIGURATION + 0x5, r => WithSelectedState(r, controlInput, s));
    }

    method Pll1SscDownCenterSelection() returns (s: PC.SscDownCenterSelection)
      requires Valid()
      modifies this
      ensures s == PC.SscDownCenterSelectionOf(regs[0x16])
      ensures sent == old(sent) + [ByteRead(0x16)]
    {
      s := With(PLL1_CONFIGURATION + 0x6, PC.SscDownCenterSelectionOf);
    }

    method SetPll1SscDownCenterSelection(s: PC.SscDownCenterSelection)
      requires Valid()
      modifies this, regs
      ensures regs[..] == old(regs[..])[0x16 := PC.SetSscDownCenterSelection(old(regs[0x16]), s)]
      ensures sent == old(sent) + ReadModifyWrite(0x16, PC.SetSscDownCenterSelection(old(regs[0x16]), s))
    {
      ModifyByteUnchecked(PLL1_CONFIGURATION + 0x6, r => PC.SetSscDownCenterSelection(r, s));
    }

    method Y2OutputDivider() returns (v: U7)
      requires Valid()
      modifies this
      ensures v == PC.Pdiv2(regs[0x16])
      ensures sent == old(sent) + [ByteRead(0x16)]
    {
      v := With(PLL1_CONFIGURATION + 0x6, PC.Pdiv2);
    }

    method SetY2OutputDivider(v: U7)
      requires Valid()
      modifies this, regs
      ensures regs[..] == old(regs[..])[0x16 := PC.SetPdiv2(old(regs[0x16]), v)]
      ensures sent == old(sent) + ReadModifyWrite(0x16, PC.SetPdiv2(old(regs[0x16]), v))
    {
      ModifyByteUnchecked(PLL1_CONFIGURATION + 0x6, r => PC.SetPdiv2(r, v));
    }

    method Y3OutputDivider() returns (v: U7)
      requires Valid()
      modifies this
      ensures v == PC.Pdiv3(regs[0x17])
      ensures sent == old(sent) + [ByteRead(0x17)]
    {
      v := With(PLL1_CONFIGURATION + 0x7, PC.Pdiv3);
    }

    method SetY3OutputDivider(v: U7)
      requires Valid()
      modifies this, regs
      ensures regs[..] == old(regs[..])[0x17 := PC.SetPdiv3(old(regs[0x17]), v)]
      ensures sent == old(sent) + ReadModifyWrite(0x17, PC.SetPdiv3(old(regs[0x17]), v))
    {
      ModifyByteUnchecked(PLL1_CONFIGURATION + 0x7, r => PC.SetPdiv3(r, v));
    }

    /** The body `pll1_0_settings` and `pll1_1_settings` share: four reads
        from `base` up, assembled most significant first. */
    method ReadPllSettings(base: bv8) returns (w: PC.PllSettings)
      requires Valid() && (base == PLL1_0 || base == PLL1_1)
      modifies this
      ensures w == PllSettingsAt(regs[..], base)
      ensures sent == old(sent) + [ByteRead(base), ByteRead(base + 1), ByteRead(base + 2), ByteRead(base + 3)]
    {
      var b0 := ReadByteUnchecked(base);
      var b1 := ReadByteUnchecked(base + 1);
      var b2 := ReadByteUnchecked(base + 2);
      var b3 := ReadByteUnchecked(base + 3);
      assert regs[base..base as int + 4] == [b0, b1, b2, b3];
      w := FromBeBytes([b0, b1, b2, b3]);
    }

    /** The body `set_pll1_0_settings` and `set_pll1_1_settings` share: four
        writes from `base` up, most significant byte first, with no reads. */
    method WritePllSettings(base: bv8, w: PC.PllSettings)
      requires Valid() && (base == PLL1_0 || base == PLL1_1)
      modifies this, regs
      ensures regs[..] == WithPllSettings(old(regs[..]), base, w)
      ensures var b := ToBeBytes(w); sent == old(sent) + [ByteWrite(base, b[0]), ByteWrite(base + 1, b[1]),
                                   ByteWrite(base + 2, b[2]), ByteWrite(base + 3, b[3])]
    {
      var bytes := ToBeBytes(w);
      WriteByteUnchecked(base, bytes[0]);
      WriteByteUnchecked(base + 1, bytes[1]);
      WriteByteUnchecked(base + 2, bytes[2]);
      WriteByteUnchecked(base + 3, bytes[3]);
    }

    method Pll10Settings() returns (w: PC.PllSettings)
      requires Valid()
      modifies this
      ensures w == PllSettingsAt(regs[..], PLL1_0)
      ensures sent == old(sent) + [ByteRead(0x18), ByteRead(0x19), ByteRead(0x1A), ByteRead(0x1B)]
    {
      w := ReadPllSettings(PLL1_CONFIGURATION + 0x8);
    }

    method SetPll10Settings(w: PC.PllSettings)
      requires Valid()
      modifies this, regs
      ensures regs[..] == WithPllSettings(old(regs[..]), PLL1_0, w)
      ensures var b := ToBeBytes(w);
        sent == old(sent) + [ByteWrite(0x18, b[0]), ByteWrite(0x19, b[1]), ByteWrite(0x1A, b[2]), ByteWrite(0x1B, b[3])]
    {
      WritePllSettings(PLL1_CONFIGURATION + 0x8, w);
    }

    method Pll11Settings() returns (w: PC.PllSettings)
      requires Valid()
      modifies this
      ensures w == PllSettingsAt(regs[..], PLL1_1)
      ensures sent == old(sent) + [ByteRead(0x1C), ByteRead(0x1D), ByteRead(0x1E), ByteRead(0x1F)]
    {
      w := ReadPllSettings(PLL1_CONFIGURATION + 0xC);
    }

    method SetPll11Settings(w: PC.PllSettings)
      requires Valid()
      modifies this, regs
      ensures regs[..] == WithPllSettings(old(regs[..]), PLL1_1, w)
      ensures var b := ToBeBytes(w);
        sent == old(sent) + [ByteWrite(0x1C, b[0]), ByteWrite(0x1D, b[1]), ByteWrite(0x1E, b[2]), ByteWrite(0x1F, b[3])]
    {
      WritePllSettings(PLL1_CONFIGURATION + 0xC, w);
    }
  }
}
