/** The PLL1 configuration bank, registers 0x10 to 0x1F, and the 32-bit
    `PllSettings` word that registers 0x18..0x1B and 0x1C..0x1F hold.

    The layouts are the ones declared in `registers.rs`, including that of
    register 0x12, where `ssc1_1` is declared over bits 6..3 and so shares
    bit 6 with `ssc1_2` (bits 7..6); the lemmas in the SSC section make the
    consequences explicit. */
module Pll1Configuration {
  import opened Bitfield
  import opened Registers

  // ----- enums -----

  /** Down-spread modulation amount of an SSC selector. */
  datatype SscModulationAmountDown =
    | DownOff | Minus025Percent | Minus05Percent | Minus075Percent
    | Minus1Percent | Minus125Percent | Minus15Percent | Minus2Percent
  {
    function Code(): U3
    {
      match this
      case DownOff => 0
      case Minus025Percent => 1
      case Minus05Percent => 2
      case Minus075Percent => 3
      case Minus1Percent => 4
      case Minus125Percent => 5
      case Minus15Percent => 6
      case Minus2Percent => 7
    }
  }

  /** Center-spread modulation amount of an SSC selector. */
  datatype SscModulationAmountCenter =
    | CenterOff | PlusMinus025Percent | PlusMinus05Percent | PlusMinus075Percent
    | PlusMinus1Percent | PlusMinus125Percent | PlusMinus15Percent | PlusMinus2Percent
  {
    function Code(): U3
    {
      match this
      case CenterOff => 0
      case PlusMinus025Percent => 1
      case PlusMinus05Percent => 2
      case PlusMinus075Percent => 3
      case PlusMinus1Percent => 4
      case PlusMinus125Percent => 5
      case PlusMinus15Percent => 6
      case PlusMinus2Percent => 7
    }
  }

  datatype Fs1Selection = Fvcxo0 | Fvcxo1
  {
    function Code(): U1
    {
      match this
      case Fvcxo0 => 0
      case Fvcxo1 => 1
    }
  }

  datatype Pll1Multiplexer = Pll1 | Pll1Bypass
  {
    function Code(): U1
    {
      match this
      case Pll1 => 0
      case Pll1Bypass => 1
    }
  }

  datatype OutputY2Multiplexer = Y2Pdiv1 | Y2Pdiv2
  {
    function Code(): U1
    {
      match this
      case Y2Pdiv1 => 0
      case Y2Pdiv2 => 1
    }
  }

  datatype OutputY3Multiplexer = Y3Pdiv1 | Y3Pdiv2 | Y3Pdiv3 | Y3Reserved
  {
    function Code(): U2
    {
      match this
      case Y3Pdiv1 => 0
      case Y3Pdiv2 => 1
      case Y3Pdiv3 => 2
      case Y3Reserved => 3
    }
  }

  datatype SscDownCenterSelection = Down | Center
  {
    function Code(): U1
    {
      match this
      case Down => 0
      case Center => 1
    }
  }

  datatype VcoRangeSelection = LessThan125MHz | From125To150MHz | From150To175MHz | GreaterOrEqual175MHz
  {
    function Code(): U2
    {
      match this
      case LessThan125MHz => 0
      case From125To150MHz => 1
      case From150To175MHz => 2
      case GreaterOrEqual175MHz => 3
    }
  }

  /** `SscModulationAmountDown::from(u3)`: the amount whose code `v` is. */
  function SscModulationAmountDownFrom(v: U3): (a: SscModulationAmountDown)
    ensures a.Code() == v
  {
    if v == 0 then DownOff
    else if v == 1 then Minus025Percent
    else if v == 2 then Minus05Percent
    else if v == 3 then Minus075Percent
    else if v == 4 then Minus1Percent
    else if v == 5 then Minus125Percent
    else if v == 6 then Minus15Percent
    else Minus2Percent
  }

  lemma SscModulationAmountDownRoundTrip(a: SscModulationAmountDown)
    ensures SscModulationAmountDownFrom(a.Code()) == a
  {
  }

  /** `SscModulationAmountCenter::from(u3)`. */
  function SscModulationAmountCenterFrom(v: U3): (a: SscModulationAmountCenter)
    ensures a.Code() == v
  {
    if v == 0 then CenterOff
    else if v == 1 then PlusMinus025Percent
    else if v == 2 then PlusMinus05Percent
    else if v == 3 then PlusMinus075Percent
    else if v == 4 then PlusMinus1Percent
    else if v == 5 then PlusMinus125Percent
    else if v == 6 then PlusMinus15Percent
    else PlusMinus2Percent
  }

  lemma SscModulationAmountCenterRoundTrip(a: SscModulationAmountCenter)
    ensures SscModulationAmountCenterFrom(a.Code()) == a
  {
  }

  /** `VcoRangeSelection::from(u2)`. */
  function VcoRangeSelectionFrom(v: U2): (s: VcoRangeSelection)
    ensures s.Code() == v
  {
    if v == 0 then LessThan125MHz
    else if v == 1 then From125To150MHz
    else if v == 2 then From150To175MHz
    else GreaterOrEqual175MHz
  }

  lemma VcoRangeSelectionRoundTrip(s: VcoRangeSelection)
    ensures VcoRangeSelectionFrom(s.Code()) == s
  {
  }

  // ----- registers 0x10..0x12: the SSC1 selectors, three bits per control input -----

  const R0_SSC1_7: Field8 := Field(7, 5)
  const R0_SSC1_6: Field8 := Field(4, 2)
  const R0_SSC1_5: Field8 := Field(1, 0)   // bits 2..1 of selector 5

  const R1_SSC1_5: BitIndex := 7           // bit 0 of selector 5
  const R1_SSC1_4: Field8 := Field(6, 4)
  const R1_SSC1_3: Field8 := Field(3, 1)
  const R1_SSC1_2: BitIndex := 0           // bit 2 of selector 2

  const R2_SSC1_2: Field8 := Field(7, 6)   // bits 1..0 of selector 2
  const R2_SSC1_1: Field8 := Field(6, 3)   // as declared: four bits, one too many
  const R2_SSC1_0: Field8 := Field(2, 0)

  /** The three fields of register 0x10 share no bit and together fill it. */
  lemma SscRegister0Layout()
    ensures Disjoint(R0_SSC1_7, R0_SSC1_6) && Disjoint(R0_SSC1_7, R0_SSC1_5)
    ensures Disjoint(R0_SSC1_6, R0_SSC1_5)
    ensures Mask(R0_SSC1_7) | Mask(R0_SSC1_6) | Mask(R0_SSC1_5) == 0xFF
  {
  }

  /** The four fields of register 0x11 share no bit and together fill it. */
  lemma SscRegister1Layout()
    ensures MaskRange(R1_SSC1_5, R1_SSC1_5) == 0x80 && MaskRange(R1_SSC1_2, R1_SSC1_2) == 0x01
    ensures Mask(R1_SSC1_4) == 0x70 && Mask(R1_SSC1_3) == 0x0E
    ensures MaskRange(R1_SSC1_5, R1_SSC1_5) | Mask(R1_SSC1_4) | Mask(R1_SSC1_3) | MaskRange(R1_SSC1_2, R1_SSC1_2) == 0xFF
  {
  }

  /** In register 0x12 `ssc1_1` and `ssc1_2` overlap in exactly bit 6. */
  lemma SscRegister2Overlap()
    ensures Mask(R2_SSC1_1) & Mask(R2_SSC1_2) == 0x40
    ensures Disjoint(R2_SSC1_0, R2_SSC1_1) && Disjoint(R2_SSC1_0, R2_SSC1_2)
  {
  }

  /** Read through the declared range, selector 1 takes a value above 7
      exactly when bit 6 (the low bit of `ssc1_2`) is set; for example 0x78
      reads as 15. */
  lemma Ssc11ReadsBit6(r2: bv8)
    ensures Get(r2, R2_SSC1_1) > 7 <==> BitAt(r2, 6)
    ensures Get(0x78, R2_SSC1_1) == 15
  {
  }

  /** Written with any 3-bit value, the declared range clears bit 6, and so
      the low bit of `ssc1_2`. */
  lemma Ssc11WriteClearsBit6(r2: bv8, v: U3)
    ensures !BitAt(Set(r2, R2_SSC1_1, v), 6)
    ensures Get(Set(r2, R2_SSC1_1, v), R2_SSC1_2) == Get(r2, R2_SSC1_2) & 0x02
  {
  }

  // ----- register 0x13: frequency selection per control input -----

  /** FS1_x: which VCXO frequency control input `index` selects. */
  function Fs1SelectionOf(r3: bv8, index: U3): (s: Fs1Selection)
    ensures s == Fvcxo1 <==> BitAt(r3, index)
  {
    if !IndexedBit(r3, index) then Fvcxo0 else Fvcxo1
  }

  /** The in-place `self.0 = ...` update: only the bit at `index` changes. */
  function SetFs1Selection(r3: bv8, index: U3, s: Fs1Selection): (r: bv8)
    ensures Fs1SelectionOf(r, index) == s
    ensures r & !(1 << index) == r3 & !(1 << index)
  {
    WithIndexedBit(r3, index, s.Code())
  }

  lemma Fs1SelectionKeepsOthers(r3: bv8, index: U3, s: Fs1Selection, j: U3)
    requires j != index
    ensures Fs1SelectionOf(SetFs1Selection(r3, index, s), j) == Fs1SelectionOf(r3, j)
  {
    WithIndexedBitKeepsOthers(r3, index, s.Code(), j);
  }

  // ----- register 0x14: multiplexers and Y2/Y3 state definitions -----

  const MUX1: BitIndex := 7
  const M2: BitIndex := 6
  const M3: Field8 := Field(5, 4)
  const Y2Y3_ST1: Field8 := Field(3, 2)
  const Y2Y3_ST0: Field8 := Field(1, 0)

  /** The five fields of register 0x14 share no bit and together fill it:
      their masks are five distinct, non-overlapping groups of bits. */
  lemma Register4Layout()
    ensures MaskRange(MUX1, MUX1) == 0x80 && MaskRange(M2, M2) == 0x40
    ensures Mask(M3) == 0x30 && Mask(Y2Y3_ST1) == 0x0C && Mask(Y2Y3_ST0) == 0x03
    ensures MaskRange(MUX1, MUX1) | MaskRange(M2, M2) | Mask(M3) | Mask(Y2Y3_ST1) | Mask(Y2Y3_ST0) == 0xFF
    ensures Disjoint(M3, Y2Y3_ST1) && Disjoint(M3, Y2Y3_ST0) && Disjoint(Y2Y3_ST1, Y2Y3_ST0)
  {
  }

  /** MUX1, bit 7: PLL1 is bypassed when set. */
  function Pll1MultiplexerOf(r4: bv8): (m: Pll1Multiplexer)
    ensures m == Pll1Bypass <==> BitAt(r4, 7)
  {
    if !Bit(r4, MUX1) then Pll1 else Pll1Bypass
  }

  function SetPll1Multiplexer(r4: bv8, m: Pll1Multiplexer): (r: bv8)
    ensures Pll1MultiplexerOf(r) == m
    ensures r & 0x7F == r4 & 0x7F
  {
    SetBit(r4, MUX1, m.Code() != 0)
  }

  /** M2, bit 6: Y2 is driven by PDIV2 when set, by PDIV1 when clear. */
  function OutputY2MultiplexerOf(r4: bv8): (m: OutputY2Multiplexer)
    ensures m == Y2Pdiv2 <==> BitAt(r4, 6)
  {
    if !Bit(r4, M2) then Y2Pdiv1 else Y2Pdiv2
  }

  function SetOutputY2Multiplexer(r4: bv8, m: OutputY2Multiplexer): (r: bv8)
    ensures OutputY2MultiplexerOf(r) == m
    ensures r & 0xBF == r4 & 0xBF
  {
    SetBit(r4, M2, m.Code() != 0)
  }

  /** M3, bits 5..4: every code names a source, 3 the reserved one. */
  function OutputY3MultiplexerOf(r4: bv8): (m: OutputY3Multiplexer)
    ensures m.Code() == (r4 >> 4) & 0x03
  {
    var code := Get(r4, M3);
    if code == 0 then Y3Pdiv1
    else if code == 1 then Y3Pdiv2
    else if code == 2 then Y3Pdiv3
    else Y3Reserved
  }

  function SetOutputY3Multiplexer(r4: bv8, m: OutputY3Multiplexer): (r: bv8)
    ensures OutputY3MultiplexerOf(r) == m
    ensures r & 0xCF == r4 & 0xCF
  {
    Set(r4, M3, m.Code())
  }

  /** Y2Y3_ST1, bits 3..2. */
  function Y2Y3State1Definition(r4: bv8): (s: OutputStateDefinition)
    ensures s.Code() == (r4 >> 2) & 0x03
  {
    OutputStateDefinitionFrom(Get(r4, Y2Y3_ST1))
  }

  function SetY2Y3State1Definition(r4: bv8, s: OutputStateDefinition): (r: bv8)
    ensures Y2Y3State1Definition(r) == s
    ensures r & 0xF3 == r4 & 0xF3
  {
    OutputStateDefinitionRoundTrip(s);
    Set(r4, Y2Y3_ST1, s.Code())
  }

  /** Y2Y3_ST0, bits 1..0. */
  function Y2Y3State0Definition(r4: bv8): (s: OutputStateDefinition)
    ensures s.Code() == r4 & 0x03
  {
    OutputStateDefinitionFrom(Get(r4, Y2Y3_ST0))
  }

  function SetY2Y3State0Definition(r4: bv8, s: OutputStateDefinition): (r: bv8)
    ensures Y2Y3State0Definition(r) == s
    ensures r & 0xFC == r4 & 0xFC
  {
    OutputStateDefinitionRoundTrip(s);
    Set(r4, Y2Y3_ST0, s.Code())
  }


  // ----- registers 0x16 and 0x17: SSC mode and the Y2, Y3 dividers -----

  const SSC1DC: BitIndex := 7
  const PDIV2: Field8 := Field(6, 0)
  const PDIV3: Field8 := Field(6, 0)   // bit 7 of register 0x17 is reserved

  /** SSC1DC, bit 7 of register 0x16: center spread when set. */
  function SscDownCenterSelectionOf(r6: bv8): (s: SscDownCenterSelection)
    ensures s == Center <==> BitAt(r6, 7)
  {
    if !Bit(r6, SSC1DC) then Down else Center
  }

  function SetSscDownCenterSelection(r6: bv8, s: SscDownCenterSelection): (r: bv8)
    ensures SscDownCenterSelectionOf(r) == s
    ensures r & 0x7F == r6 & 0x7F
  {
    SetBit(r6, SSC1DC, s.Code() != 0)
  }

  /** PDIV2, bits 6..0 of register 0x16; `u7::new` on it cannot fail. */
  function Pdiv2(r6: bv8): (v: U7)
    ensures v == r6 & 0x7F
  {
    Get(r6, PDIV2)
  }

  function SetPdiv2(r6: bv8, v: U7): (r: bv8)
    ensures Pdiv2(r) == v
    ensures r & 0x80 == r6 & 0x80
  {
    Set(r6, PDIV2, v)
  }

  /** PDIV3, bits 6..0 of register 0x17. */
  function Pdiv3(r7: bv8): (v: U7)
    ensures v == r7 & 0x7F
  {
    Get(r7, PDIV3)
  }

  function SetPdiv3(r7: bv8, v: U7): (r: bv8)
    ensures Pdiv3(r) == v
    ensures r & 0x80 == r7 & 0x80
  {
    Set(r7, PDIV3, v)
  }

  // ----- registers 0x18..0x1B (PLL1_0) and 0x1C..0x1F (PLL1_1) -----
  // Both groups declare the same layout, register by register.

  const N_11_4: Field8 := Field(7, 0)   // first register
  const N_3_0: Field8 := Field(7, 4)    // second register
  const R_8_5: Field8 := Field(3, 0)
  const R_4_0: Field8 := Field(7, 3)    // third register
  const Q_5_3: Field8 := Field(2, 0)
  const Q_2_0: Field8 := Field(7, 5)    // fourth register
  const P_2_0: Field8 := Field(4, 2)
  const VCO_RANGE: Field8 := Field(1, 0)

  /** The VCO range in bits 1..0 of register 0x1B. */
  function Vco10RangeSelection(rb: bv8): (s: VcoRangeSelection)
    ensures s.Code() == rb & 0x03
  {
    VcoRangeSelectionFrom(Get(rb, VCO_RANGE))
  }

  function SetVco10RangeSelection(rb: bv8, s: VcoRangeSelection): (r: bv8)
    ensures Vco10RangeSelection(r) == s
    ensures r & 0xFC == rb & 0xFC
  {
    VcoRangeSelectionRoundTrip(s);
    Set(rb, VCO_RANGE, s.Code())
  }

  // ----- the PllSettings word -----

  /** One PLL's coefficients packed into a word: N in 31..20, R in 19..11,
      Q in 10..5, P in 4..2 and the VCO range in 1..0. */
  type PllSettings = bv32

  const PLL_N: Field32 := Field(31, 20)
  const PLL_R: Field32 := Field(19, 11)
  const PLL_Q: Field32 := Field(10, 5)
  const PLL_P: Field32 := Field(4, 2)
  const PLL_VCO: Field32 := Field(1, 0)

  /** The five fields share no bit and together cover the word. */
  lemma PllSettingsPartition()
    ensures Mask32(PLL_N) == 0xFFF0_0000 && Mask32(PLL_R) == 0x000F_F800
    ensures Mask32(PLL_Q) == 0x0000_07E0 && Mask32(PLL_P) == 0x0000_001C
    ensures Mask32(PLL_VCO) == 0x0000_0003
    ensures Mask32(PLL_N) | Mask32(PLL_R) | Mask32(PLL_Q) | Mask32(PLL_P) | Mask32(PLL_VCO) == 0xFFFF_FFFF
  {
  }

  /** N, read as a `u16`. */
  function PllN(w: PllSettings): (n: bv16)
    ensures n as bv32 == w >> 20
  {
    (Get32(w, PLL_N) & 0xFFFF) as bv16
  }

  /** R, read as a `u16`. */
  function PllR(w: PllSettings): (r: bv16)
    ensures r as bv32 == (w >> 11) & 0x1FF
  {
    (Get32(w, PLL_R) & 0xFFFF) as bv16
  }

  /** Q, read as a `u8`. */
  function PllQ(w: PllSettings): (q: bv8)
    ensures q as bv32 == (w >> 5) & 0x3F
  {
    (Get32(w, PLL_Q) & 0xFF) as bv8
  }

  /** P, read as a `u8`. */
  function PllP(w: PllSettings): (p: bv8)
    ensures p as bv32 == (w >> 2) & 0x07
  {
    (Get32(w, PLL_P) & 0xFF) as bv8
  }

  /** The raw VCO range code. */
  function PllVcoRange(w: PllSettings): (v: U2)
    ensures v as bv32 == w & 0x03
  {
    (Get32(w, PLL_VCO) & 0xFF) as bv8
  }

  /** Writes the low 12 bits of `n`; nothing outside N changes. */
  function SetPllN(w: PllSettings, n: bv16): (r: PllSettings)
    ensures PllN(r) == n & 0x0FFF
    ensures r & 0x000F_FFFF == w & 0x000F_FFFF
  {
    Set32(w, PLL_N, n as bv32)
  }

  /** Writes the low 9 bits of `v`; nothing outside R changes. */
  function SetPllR(w: PllSettings, v: bv16): (r: PllSettings)
    ensures PllR(r) == v & 0x01FF
    ensures r & 0xFFF0_07FF == w & 0xFFF0_07FF
  {
    Set32(w, PLL_R, v as bv32)
  }

  /** Writes the low 6 bits of `q`; nothing outside Q changes. */
  function SetPllQ(w: PllSettings, q: bv8): (r: PllSettings)
    ensures PllQ(r) == q & 0x3F
    ensures r & 0xFFFF_F81F == w & 0xFFFF_F81F
  {
    Set32(w, PLL_Q, q as bv32)
  }

  /** Writes the low 3 bits of `p`; nothing outside P changes. */
  function SetPllP(w: PllSettings, p: bv8): (r: PllSettings)
    ensures PllP(r) == p & 0x07
    ensures r & 0xFFFF_FFE3 == w & 0xFFFF_FFE3
  {
    Set32(w, PLL_P, p as bv32)
  }

  /** `vco_range_selection`: the VCO range of the word. */
  function VcoRangeSelectionOf(w: PllSettings): (s: VcoRangeSelection)
    ensures s.Code() as bv32 == w & 0x03
  {
    VcoRangeSelectionFrom(PllVcoRange(w))
  }

  /** `set_vco_range_selection`: nothing outside bits 1..0 changes. */
  function SetVcoRangeSelection(w: PllSettings, s: VcoRangeSelection): (r: PllSettings)
    ensures VcoRangeSelectionOf(r) == s
    ensures r & 0xFFFF_FFFC == w & 0xFFFF_FFFC
  {
    VcoRangeSelectionRoundTrip(s);
    Set32(w, PLL_VCO, s.Code() as bv32)
  }

  /** N spans the first two registers of a PLL: bits 11..4 fill the first
      byte of the big-endian word, bits 3..0 the top of the second. */
  lemma PllNRegisters(w: PllSettings)
    ensures var b := ToBeBytes(w);
      PllN(w) == ((Get(b[0], N_11_4) as bv16) << 4) | (Get(b[1], N_3_0) as bv16)
  {
  }

  /** R spans the second and third registers. */
  lemma PllRRegisters(w: PllSettings)
    ensures var b := ToBeBytes(w);
      PllR(w) == ((Get(b[1], R_8_5) as bv16) << 5) | (Get(b[2], R_4_0) as bv16)
  {
  }

  /** Q spans the third and fourth registers. */
  lemma PllQRegisters(w: PllSettings)
    ensures var b := ToBeBytes(w);
      PllQ(w) == (Get(b[2], Q_5_3) << 3) | Get(b[3], Q_2_0)
  {
  }

  /** P and the VCO range lie in the fourth register. */
  lemma PllPVcoRegisters(w: PllSettings)
    ensures var b := ToBeBytes(w);
      PllP(w) == Get(b[3], P_2_0) && PllVcoRange(w) == Get(b[3], VCO_RANGE)
  {
  }
}
