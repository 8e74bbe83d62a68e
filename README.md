# cdcx913 register driver, modelled in Dafny

A model of the `cdcx913` Rust crate, a register-level driver for the TI
CDCE913 / CDCEL913 programmable clock generator. The device is programmed
over I2C by reading and writing single bytes at register offsets. The driver
has three parts:

- **Register bitfields**: the byte layouts of the generic configuration bank
  (0x00–0x06) and the PLL1 configuration bank (0x10–0x1F), with semantic
  getters and setters over them.
- **Command code**: the command byte that precedes every bus transfer.
- **`CDCx913` facade**: every accessor is a byte read, or a read-modify-write,
  of one or more registers.

| file | module | models |
|---|---|---|
| `bitfield.dfy` | `Bitfield` | bit-range get and set on a byte. The formulas are those `bitfield!` generates. Also the per-index bit access, `u3::new`, and big-endian word conversion. |
| `registers.dfy` | `Registers` | `OutputStateDefinition`, `OutputStateSelection`, the decoder, and the per-index state selection that registers 0x04 and 0x15 share |
| `generic_configuration.dfy` | `GenericConfiguration` | registers 0x00–0x06 and their accessors |
| `pll1_configuration.dfy` | `Pll1Configuration` | registers 0x10–0x1F, the SSC modulation enums and the 32-bit `PllSettings` word |
| `i2c.dfy` | `I2c` | `ADDRESS`, `OpCode` and `CommandCode::new` |
| `device.dfy` | `Driver` | the `Cdcx913` class, described below |

**Shape of the model.**

- `Cdcx913` holds, as an array, the device's 128 registers: the offsets that
  the 7-bit offset field of a command byte can name. It also holds the
  log of bus transactions sent so far, so the order of reads and writes is
  part of each method's contract.
- A register type's `&mut self` setter becomes a function from the old byte
  to the new one. Each setter's contract says two things: its getter then
  returns the value written, and a stated mask of bits keeps its old value.
- Each facade method's contract states:
  - the new register file, as a function of the old one;
  - the transactions it sends.
- The composite fields have spec functions on the register file, with
  round-trip and independence lemmas:
  - the Y1 divider, split over 0x02/0x03;
  - the SSC selectors, split over 0x10–0x12;
  - the two PLL words.
- A Rust panic (`u3::new` on a value above 7) is modelled as `None`.

## Model

Paths are relative to the repository root.

| member | source | states |
|---|---|---|
| Bitfield.NewU3 | src/lib.rs:327 | `u3::new` succeeds exactly when the value is below 8, and then yields that value. |
| Bitfield.MaskRangeBits | src/registers.rs:91-100 | The mask of a declared range `msb, lsb` has a one exactly at the positions lsb..msb. |
| Bitfield.Get | src/registers.rs:91-100 | The generated range getter. The value it reads never exceeds the field's width mask: bits msb..lsb, shifted down to the bottom. |
| Bitfield.GetBits | src/registers.rs:91-100 | Bit i of a read field is bit i + lsb of the register. |
| Bitfield.Set | src/registers.rs:91-100 | The generated range setter. Every bit outside the range keeps its old value. |
| Bitfield.GetSet | src/registers.rs:91-100 | After writing v into a range, reading it gives v truncated to the range's width. |
| Bitfield.SetOwnGet | src/registers.rs:91-100 | Writing back the value just read leaves the register unchanged. |
| Bitfield.Bit | src/registers.rs:96-97 | The generated single-bit getter (`eelock: 5`) is true exactly when that bit of the register is set. |
| Bitfield.SetBit | src/registers.rs:96-97 | The generated single-bit setter: the bit then reads back as the flag written, and the other seven bits are unchanged. |
| Bitfield.BoolByte | src/lib.rs:332 | `bool as u8` is 1 exactly for `true`. |
| Bitfield.WithIndexedBit | src/registers.rs:220-223 | After writing the bit at a runtime index, that bit reads back as the value written and every other bit is kept. |
| Bitfield.WithIndexedBitKeepsOthers | src/registers.rs:208-223 | Writing the bit at one index leaves what every other index reads unchanged. |
| Bitfield.Get32 | src/registers.rs:644-655 | The `PllSettings` range getter. The value read never exceeds the field's width mask. |
| Bitfield.Set32 | src/registers.rs:644-655 | The `PllSettings` range setter. Every bit of the word outside the range keeps its old value. |
| Bitfield.FromBeBytes | src/lib.rs:588 | `u32::from_be_bytes`: each of the four bytes occupies its own byte position of the word, the first byte most significant. |
| Bitfield.ToBeBytes | src/lib.rs:593 | `u32::to_be_bytes` gives four bytes, and assembling them gives the word back. |
| Bitfield.BeBytesRoundTrip | src/lib.rs:576-605 | Assembling four bytes into a word and splitting it gives back the same four bytes. |
| Registers.OutputStateDefinitionFrom | src/registers.rs:19-29 | Every 2-bit code decodes to the definition whose discriminant it is. |
| Registers.OutputStateDefinitionRoundTrip | src/registers.rs:5-29 | Decoding a definition's discriminant gives the definition back. |
| GenericConfiguration.Register1Layout | src/registers.rs:91-100 | The masks of register 1's fields are the datasheet's, and INCLK and TARGET_ADR share no bit. |
| GenericConfiguration.DeviceIdentificationOf | src/registers.rs:82-88 | The device is a CDCE913 exactly when E_EL (bit 7) is set. |
| GenericConfiguration.RevisionNumber | src/registers.rs:77 | The revision is bits 6..4 of register 0. |
| GenericConfiguration.VendorIdentification | src/registers.rs:78 | The vendor identification is bits 3..0 of register 0. |
| GenericConfiguration.EepromProgrammingStatusOf | src/registers.rs:103-109 | EEPROM programming is in progress exactly when EEPIP (bit 6) is set. |
| GenericConfiguration.EepromLocked | src/registers.rs:96 | The lock flag is bit 5. |
| GenericConfiguration.SetEepromLocked | src/registers.rs:96 | Writing the lock flag sets bit 5 to it and keeps the other bits. |
| GenericConfiguration.PowerDown | src/registers.rs:97 | The power-down flag is bit 4. |
| GenericConfiguration.SetPowerDown | src/registers.rs:97 | Writing the power-down flag sets bit 4 to it and keeps the other bits. |
| GenericConfiguration.InputClockSelectionOf | src/registers.rs:111-118 | Codes 0, 1 and 2 of bits 3..2 decode to the selection with that discriminant. The reserved code 3 falls back to Xtal. |
| GenericConfiguration.SetInputClockSelection | src/registers.rs:120-122 | Writing a selection makes it read back, and keeps bits outside 3..2. |
| GenericConfiguration.TargetAddress | src/registers.rs:99 | The target address bits are bits 1..0. |
| GenericConfiguration.SetTargetAddress | src/registers.rs:99 | The written address bits read back, and bits 7..2 are kept. |
| GenericConfiguration.Y1ClockSourceOf | src/registers.rs:137-143 | Y1 is driven by PLL1 exactly when M1 (bit 7) is set. |
| GenericConfiguration.SetY1ClockSource | src/registers.rs:145-147 | The written source reads back, and bits 6..0 are kept. |
| GenericConfiguration.SerialInterfacePinModeOf | src/registers.rs:149-155 | The pins act as S1/S2 control inputs exactly when SPICON (bit 6) is set. |
| GenericConfiguration.SetSerialInterfacePinMode | src/registers.rs:157-159 | The written mode reads back, and every bit but 6 is kept. |
| GenericConfiguration.Y1State1Definition | src/registers.rs:161-163 | The decoded definition's code is bits 5..4. |
| GenericConfiguration.SetY1State1Definition | src/registers.rs:165-167 | The written definition reads back, and bits outside 5..4 are kept. |
| GenericConfiguration.Y1State0Definition | src/registers.rs:169-171 | The decoded definition's code is bits 3..2. |
| GenericConfiguration.SetY1State0Definition | src/registers.rs:173-175 | The written definition reads back, and bits outside 3..2 are kept. |
| GenericConfiguration.Pdiv1FullValue | src/registers.rs:186-190 | PDIV1 is below 1024. Its upper two bits are bits 1..0 of register 2, and its low byte is register 3. |
| GenericConfiguration.SetPdiv1High | src/lib.rs:266-267 | `value >> 8` goes into bits 1..0 of register 2, and bits 7..2 are kept. |
| GenericConfiguration.SetPdiv1Low | src/lib.rs:268-269 | Register 3 becomes `value & 0xFF`. |
| GenericConfiguration.Pdiv1RoundTrip | src/lib.rs:257-270 | Writing a 10-bit divider into the two registers and reading it back gives the divider. |
| Registers.SelectedState | src/registers.rs:208-218 | Control input `index` selects state 1 exactly when bit `index` of the selection register is set; register 0x15 at src/registers.rs:522-532 is read the same way. |
| Registers.WithSelectedState | src/registers.rs:220-223 | The written state reads back at `index`, and every other bit is kept; register 0x15 at src/registers.rs:534-537 is written the same way. |
| Registers.SelectedStateKeepsOthers | src/registers.rs:208-223 | Writing one control input's state leaves every other input's state unchanged. |
| GenericConfiguration.CrystalLoadCapacitancePf | src/registers.rs:235-240 | The capacitance is at most 20 pF. It is XCSEL when XCSEL is below 20, and 20 otherwise. |
| GenericConfiguration.SetCrystalLoadCapacitancePf | src/registers.rs:242-248 | The written capacitance, clamped to 20, reads back, and the reserved bits 2..0 are kept. |
| GenericConfiguration.CrystalLoadCapacitanceSaturates | src/registers.rs:242-248 | Every value from 20 up writes the same byte as 20. 25 reads back as 20 and 19 as 19. |
| GenericConfiguration.BlockByteCount | src/registers.rs:255 | BCOUNT is bits 7..1 of register 6. |
| GenericConfiguration.SetBlockByteCount | src/registers.rs:255 | The written count reads back, and EEWRITE (bit 0) is kept. |
| Pll1Configuration.SscModulationAmountDownFrom | src/registers.rs:277-291 | Every 3-bit code decodes to the down-spread amount with that discriminant. |
| Pll1Configuration.SscModulationAmountDownRoundTrip | src/registers.rs:266-291 | Decoding an amount's discriminant gives the amount back. |
| Pll1Configuration.SscModulationAmountCenterFrom | src/registers.rs:305-319 | Every 3-bit code decodes to the center-spread amount with that discriminant. |
| Pll1Configuration.SscModulationAmountCenterRoundTrip | src/registers.rs:293-319 | Decoding an amount's discriminant gives the amount back. |
| Pll1Configuration.VcoRangeSelectionFrom | src/registers.rs:367-377 | Every 2-bit code decodes to the VCO range with that discriminant. |
| Pll1Configuration.VcoRangeSelectionRoundTrip | src/registers.rs:360-377 | Decoding a range's discriminant gives the range back. |
| Pll1Configuration.SscRegister0Layout | src/registers.rs:379-386 | The three selector fields of 0x10 share no bit and together fill the byte. |
| Pll1Configuration.SscRegister1Layout | src/registers.rs:388-396 | The four selector fields of 0x11 have masks 0x80, 0x70, 0x0E and 0x01, which fill the byte. |
| Pll1Configuration.SscRegister2Overlap | src/registers.rs:398-405 | In 0x12, the declared `ssc1_1` and `ssc1_2` overlap in exactly bit 6, and `ssc1_0` overlaps neither. |
| Pll1Configuration.Ssc11ReadsBit6 | src/registers.rs:402-403 | Read through its declared range, selector 1 exceeds 7 exactly when bit 6 is set. For example, 0x78 reads as 15. |
| Pll1Configuration.Ssc11WriteClearsBit6 | src/registers.rs:402-403 | Writing selector 1 through its declared range clears bit 6, which is the low bit of `ssc1_2`, and keeps its bit 7. |
| Pll1Configuration.Fs1SelectionOf | src/registers.rs:422-432 | Control input `index` selects fVCXO_1 exactly when bit `index` of 0x13 is set. |
| Pll1Configuration.SetFs1Selection | src/registers.rs:434-437 | The written selection reads back at `index`, and every other bit is kept. |
| Pll1Configuration.Fs1SelectionKeepsOthers | src/registers.rs:422-437 | Writing one control input's selection leaves every other input's selection unchanged. |
| Pll1Configuration.Register4Layout | src/registers.rs:440-448 | The masks of 0x14's five fields are 0x80, 0x40, 0x30, 0x0C and 0x03. They share no bit and fill the byte. |
| Pll1Configuration.Pll1MultiplexerOf | src/registers.rs:452-458 | PLL1 is bypassed exactly when MUX1 (bit 7) is set. |
| Pll1Configuration.SetPll1Multiplexer | src/registers.rs:460-462 | The written multiplexer setting reads back, and bits 6..0 are kept. |
| Pll1Configuration.OutputY2MultiplexerOf | src/registers.rs:464-470 | Y2 is driven by PDIV2 exactly when M2 (bit 6) is set. |
| Pll1Configuration.SetOutputY2Multiplexer | src/registers.rs:472-474 | The written setting reads back, and every bit but 6 is kept. |
| Pll1Configuration.OutputY3MultiplexerOf | src/registers.rs:476-484 | The decoded source's code is bits 5..4, with 3 the reserved source. |
| Pll1Configuration.SetOutputY3Multiplexer | src/registers.rs:486-488 | The written source reads back, and bits outside 5..4 are kept. |
| Pll1Configuration.Y2Y3State1Definition | src/registers.rs:490-492 | The decoded definition's code is bits 3..2 of 0x14. |
| Pll1Configuration.SetY2Y3State1Definition | src/registers.rs:494-496 | The written definition reads back, and bits outside 3..2 are kept. |
| Pll1Configuration.Y2Y3State0Definition | src/registers.rs:498-500 | The decoded definition's code is bits 1..0 of 0x14. |
| Pll1Configuration.SetY2Y3State0Definition | src/registers.rs:502-504 | The written definition reads back, and bits 7..2 are kept. |
| Pll1Configuration.SscDownCenterSelectionOf | src/registers.rs:549-555 | Center spread is selected exactly when SSC1DC (bit 7 of 0x16) is set. |
| Pll1Configuration.SetSscDownCenterSelection | src/registers.rs:557-559 | The written mode reads back, and bits 6..0 are kept. |
| Pll1Configuration.Pdiv2 | src/registers.rs:545 | PDIV2 is bits 6..0 of 0x16. |
| Pll1Configuration.SetPdiv2 | src/registers.rs:545 | The written divider reads back, and SSC1DC (bit 7) is kept. |
| Pll1Configuration.Pdiv3 | src/registers.rs:567 | PDIV3 is bits 6..0 of 0x17. |
| Pll1Configuration.SetPdiv3 | src/registers.rs:567 | The written divider reads back, and bit 7 is kept. |
| Pll1Configuration.Vco10RangeSelection | src/registers.rs:603-605 | The decoded range's code is bits 1..0 of 0x1B. |
| Pll1Configuration.SetVco10RangeSelection | src/registers.rs:607-609 | The written range reads back, and bits 7..2 are kept. |
| Pll1Configuration.PllSettingsPartition | src/registers.rs:644-655 | N, R, Q, P and the VCO range occupy 31..20, 19..11, 10..5, 4..2 and 1..0, and together cover the word. |
| Pll1Configuration.PllN | src/registers.rs:649 | N is the top 12 bits of the word. |
| Pll1Configuration.PllR | src/registers.rs:650 | R is bits 19..11 of the word. |
| Pll1Configuration.PllQ | src/registers.rs:652 | Q is bits 10..5 of the word. |
| Pll1Configuration.PllP | src/registers.rs:653 | P is bits 4..2 of the word. |
| Pll1Configuration.PllVcoRange | src/registers.rs:654 | The VCO range code is bits 1..0 of the word. |
| Pll1Configuration.SetPllN | src/registers.rs:649 | N reads back as the low 12 bits of the value written, and bits 19..0 are kept. |
| Pll1Configuration.SetPllR | src/registers.rs:650 | R reads back as the low 9 bits of the value written, and every bit outside 19..11 is kept. |
| Pll1Configuration.SetPllQ | src/registers.rs:652 | Q reads back as the low 6 bits of the value written, and every bit outside 10..5 is kept. |
| Pll1Configuration.SetPllP | src/registers.rs:653 | P reads back as the low 3 bits of the value written, and every bit outside 4..2 is kept. |
| Pll1Configuration.VcoRangeSelectionOf | src/registers.rs:658-660 | The decoded range's code is bits 1..0 of the word. |
| Pll1Configuration.SetVcoRangeSelection | src/registers.rs:662-664 | The written range reads back, and bits 31..2 are kept. |
| Pll1Configuration.PllNRegisters | src/registers.rs:570-583 | N is the first register's PLLx_yN[11:4] followed by the second register's PLLx_yN[3:0]. |
| Pll1Configuration.PllRRegisters | src/registers.rs:577-591 | R is the second register's R[8:5] followed by the third register's R[4:0]. |
| Pll1Configuration.PllQRegisters | src/registers.rs:585-600 | Q is the third register's Q[5:3] followed by the fourth register's Q[2:0]. |
| Pll1Configuration.PllPVcoRegisters | src/registers.rs:593-600 | P and the VCO range are the fourth register's bits 4..2 and 1..0. |
| I2c.Mode | src/i2c.rs:11 | Byte mode is selected exactly when bit 7 of the command is set. |
| I2c.SetMode | src/i2c.rs:11 | The written mode reads back, and the offset bits are kept. |
| I2c.Offset | src/i2c.rs:12 | The offset is bits 6..0 of the command. |
| I2c.SetOffset | src/i2c.rs:12 | The offset reads back truncated to 7 bits, and the mode bit is kept. |
| I2c.NewCommandCode | src/i2c.rs:21-29 | Starting from zero and setting the mode, then the offset, gives the datasheet command byte: mode in bit 7, offset in bits 6..0. |
| I2c.CommandByteOffset | src/i2c.rs:5-13 | For an offset below 0x80, the command byte carries the offset unchanged, and the mode reads as byte exactly for `OpCode::Byte`. |
| Driver.ByteRead | src/lib.rs:91-103 | The read transaction is a write-read to address 0x65. Its command has the byte-mode bit set and carries the offset's low seven bits. |
| Driver.ByteWrite | src/lib.rs:79-86 | The write transaction goes to address 0x65 with the value written. Its command has the byte-mode bit set and carries the offset's low seven bits. |
| Driver.TransactionsNameSevenBitOffset | src/lib.rs:79-103 | Two offsets produce the same read, or the same write of a value, exactly when their low seven bits agree. So an offset and the same offset with bit 7 set address the same register. |
| Driver.Y1OutputDividerOf | src/lib.rs:257-262 | The divider's upper two bits are bits 1..0 of 0x02, and its low byte is 0x03. |
| Driver.WithY1OutputDivider | src/lib.rs:265-270 | After `set_y1_output_divider`, the divider reads back as written. Only 0x02 and 0x03 change, and 0x02 only in bits 1..0. |
| Driver.Y1OutputDividerExamples | src/lib.rs:265-270 | Divider 2 leaves 0x03 holding 2 and bits 1..0 of 0x02 clear. 0x2AB puts 2 into those bits and 0xAB into 0x03. |
| Driver.SscRawValue | src/lib.rs:327-347 | The value assembled for a selector before `u3::new`. It is below 8 for every selector except declared selector 1, whose four bits give a value below 16. |
| Driver.SscRaw | src/lib.rs:323-348 | An SSC selector read panics in `u3::new` exactly when the selector is 1, the declared layout is used and bit 6 of 0x12 is set. |
| Driver.SetSscRawIn | src/lib.rs:375-405 | Writing a selector changes only the registers it occupies. Only selectors 7..5 touch 0x10, only 5..2 touch 0x11, and only 2..0 touch 0x12. |
| Driver.SscRoundTrip | src/lib.rs:323-405 | Every selector, including the two split across registers, reads back the 3-bit value written. |
| Driver.SscIndependentHigh | src/lib.rs:383-391 | Writing selector 7, 6 or 5 leaves every other selector unchanged. |
| Driver.SscIndependentMiddle | src/lib.rs:392-393 | Writing selector 4 or 3 leaves every other selector unchanged. |
| Driver.SscIndependentSelector2 | src/lib.rs:394-400 | Writing selector 2 leaves every other selector unchanged, except selector 1 under the declared layout. |
| Driver.SscIndependentLow | src/lib.rs:401-402 | Writing selector 1 or 0 leaves every other selector unchanged, except selector 2 after a write to 1 under the declared layout. |
| Driver.SscIndependent | src/lib.rs:375-405 | Writing a selector leaves every other selector unchanged, except the pair {1, 2} under the declared layout. |
| Driver.SscWrite2BreaksRead1 | src/registers.rs:402-403 | With the declared layout, writing an odd value to selector 2 makes the next read of selector 1 panic. |
| Driver.SscWrite1ClearsSelector2Bit0 | src/registers.rs:402-403 | With the declared layout, writing selector 1 clears the low bit of selector 2. |
| Driver.SscInterferenceExample | src/lib.rs:327-344 | On a cleared register file, setting selector 2 to 1 makes a read of selector 1 panic. Setting selector 1 to 0 afterwards turns selector 2 from 1 into 0. |
| Driver.SscIntendedIndependent | src/registers.rs:403 | With `ssc1_1` over bits 5..3, every pair of distinct selectors is independent and no read panics. |
| Driver.ConfigureSelectors | src/lib.rs:375-405 | A sequence of `set_spread_spectrum_clocking_selection_raw` calls as a caller would issue them, filling in the first `n` selectors in ascending order. It is not a source function. It changes no register outside 0x10..0x12. The read-back properties are stated by the two lemmas that follow. |
| Driver.SscWrite2SetsSelector1Bit3 | src/registers.rs:402-403 | With the declared layout, writing selector 2 copies its low bit into bit 3 of the value selector 1 reads, and keeps selector 1's own three bits. |
| Driver.ConfigureSelectorsIntended | src/registers.rs:403 | With `ssc1_1` over bits 5..3, after the table is filled in ascending order every selector written reads back its own value. |
| Driver.ConfigureSelectorsDeclared | src/registers.rs:402-403 | With the declared layout, after the table is filled in ascending order, every selector except 1 reads back its own value. Selector 1 reads back if selector 2 has not been written. Once it has, selector 1 equals its value plus 8 times selector 2's low bit, so it reads back exactly when selector 2 is even and panics otherwise. |
| Driver.PllSettingsAt | src/lib.rs:576-588 | The PLL word held big-endian in the four registers from the base. Splitting it back into bytes gives exactly those four registers. |
| Driver.WithPllSettings | src/lib.rs:592-605 | After writing a PLL word, it reads back from its four registers, and no other register changes. |
| Driver.PllSettingsIndependent | src/lib.rs:576-637 | Writing one PLL's word leaves the other PLL's word unchanged. |
| Driver.Cdcx913.constructor | src/lib.rs:70-72 | A fresh device holds the given register contents and has sent nothing. |
| Driver.Cdcx913.WriteByteUnchecked | src/lib.rs:79-86 | Exactly the register the command byte names, `offset & 0x7F`, becomes `value`, and one byte-mode write transaction is sent. |
| Driver.Cdcx913.ReadByteUnchecked | src/lib.rs:91-103 | Returns the register the command byte names, `offset & 0x7F`. It changes no register and sends one byte-mode write-read. |
| Driver.Cdcx913.With | src/lib.rs:105-115 | Returns `f` of the register at `offset & 0x7F` and changes nothing; one read is sent. |
| Driver.Cdcx913.ModifyByteUnchecked | src/lib.rs:117-129 | Only the register at `offset & 0x7F` changes, to `f` of its old value. The register is read, then written. |
| Driver.Cdcx913.DeviceIdentification | src/lib.rs:132-135 | Returns the identification decoded from 0x00, with one read of 0x00. |
| Driver.Cdcx913.RevisionNumber | src/lib.rs:138-140 | Returns the revision from 0x00, with one read of 0x00. |
| Driver.Cdcx913.VendorIdentification | src/lib.rs:143-145 | Returns the vendor identification from 0x00, with one read of 0x00. |
| Driver.Cdcx913.EepromProgrammingStatus | src/lib.rs:148-153 | Returns the EEPIP status from 0x01, with one read. |
| Driver.Cdcx913.EepromPermanentlyLocked | src/lib.rs:156-158 | Returns EELOCK from 0x01, with one read. |
| Driver.Cdcx913.SetEepromPermanentlyLocked | src/lib.rs:165-167 | Only 0x01 changes, by the EELOCK setter, through one read-modify-write. |
| Driver.Cdcx913.PowerDown | src/lib.rs:170-172 | Returns PWDN from 0x01, with one read. |
| Driver.Cdcx913.SetPowerDown | src/lib.rs:175-177 | Only 0x01 changes, by the PWDN setter, through one read-modify-write. |
| Driver.Cdcx913.InputClock | src/lib.rs:180-183 | Returns the input clock decoded from 0x01, with one read. |
| Driver.Cdcx913.SetInputClock | src/lib.rs:186-189 | Only 0x01 changes, by the INCLK setter, through one read-modify-write. |
| Driver.Cdcx913.TargetAddress | src/lib.rs:192-196 | Returns the target address bits of 0x01, with one read. |
| Driver.Cdcx913.SetTargetAddress | src/lib.rs:199-202 | Only 0x01 changes, by the TARGET_ADR setter, through one read-modify-write. |
| Driver.Cdcx913.Y1ClockSource | src/lib.rs:205-207 | Returns the Y1 source decoded from 0x02, with one read. |
| Driver.Cdcx913.SetY1ClockSource | src/lib.rs:210-213 | Only 0x02 changes, by the M1 setter, through one read-modify-write. |
| Driver.Cdcx913.SerialPinsOperatingMode | src/lib.rs:216-221 | Returns the pin mode decoded from 0x02, with one read. |
| Driver.Cdcx913.SetSerialPinsOperatingMode | src/lib.rs:224-230 | Only 0x02 changes, by the SPICON setter, through one read-modify-write. |
| Driver.Cdcx913.Y1State1 | src/lib.rs:233-236 | Returns Y1_ST1 decoded from 0x02, with one read. |
| Driver.Cdcx913.SetY1State1 | src/lib.rs:239-242 | Only 0x02 changes, by the Y1_ST1 setter, through one read-modify-write. |
| Driver.Cdcx913.Y1State0 | src/lib.rs:245-248 | Returns Y1_ST0 decoded from 0x02, with one read. |
| Driver.Cdcx913.SetY1State0 | src/lib.rs:251-254 | Only 0x02 changes, by the Y1_ST0 setter, through one read-modify-write. |
| Driver.Cdcx913.Y1OutputDivider | src/lib.rs:257-262 | Returns PDIV1 assembled from 0x02 and 0x03, reading 0x02 first. |
| Driver.Cdcx913.SetY1OutputDivider | src/lib.rs:265-270 | The register file becomes `WithY1OutputDivider` of the old one. 0x02 is read and written, then 0x03. |
| Driver.Cdcx913.Y1StateSelection | src/lib.rs:273-279 | Returns the control input's state from 0x04, with one read. |
| Driver.Cdcx913.SetY1StateSelection | src/lib.rs:282-289 | Only 0x04 changes, by the per-index setter, through one read-modify-write. |
| Driver.Cdcx913.CrystalLoadCapacitancePf | src/lib.rs:293-296 | Returns the clamped capacitance from 0x05, with one read. |
| Driver.Cdcx913.SetCrystalLoadCapacitor | src/lib.rs:299-302 | Only 0x05 changes, by the clamping setter, through one read-modify-write. |
| Driver.Cdcx913.BlockByteCount | src/lib.rs:305-307 | Returns BCOUNT from 0x06, with one read. |
| Driver.Cdcx913.SetBlockByteCount | src/lib.rs:310-313 | Only 0x06 changes, by the BCOUNT setter, through one read-modify-write. |
| Driver.Cdcx913.SpreadSpectrumClockingSelectionRaw | src/lib.rs:323-348 | Returns `SscRaw` of the register file, so it panics exactly as `SscRaw` says. The selector's registers are read in offset order. |
| Driver.Cdcx913.SpreadSpectrumClockingSelectionAsDown | src/lib.rs:351-360 | Panics exactly when the raw read does. Otherwise returns the down-spread amount whose code the raw read gives. |
| Driver.Cdcx913.SpreadSpectrumClockingSelectionAsCenter | src/lib.rs:363-372 | Panics exactly when the raw read does. Otherwise returns the center-spread amount whose code the raw read gives. |
| Driver.Cdcx913.SetSpreadSpectrumClockingSelectionRaw | src/lib.rs:375-405 | The register file becomes `SetSscRawIn` of the old one. Each register the selector occupies is read and written, the lower offset first. |
| Driver.Cdcx913.SetSpreadSpectrumClockingSelectionAsDown | src/lib.rs:408-415 | Writes the amount's discriminant as the raw selector. |
| Driver.Cdcx913.SetSpreadSpectrumClockingSelectionAsCenter | src/lib.rs:418-425 | Writes the amount's discriminant as the raw selector. |
| Driver.Cdcx913.Pll1FrequencySelection | src/lib.rs:428-434 | Returns the control input's FS1 selection from 0x13, with one read. |
| Driver.Cdcx913.SetPll1FrequencySelection | src/lib.rs:437-444 | Only 0x13 changes, by the per-index setter, through one read-modify-write. |
| Driver.Cdcx913.Pll1Multiplexer | src/lib.rs:447-449 | Returns MUX1 decoded from 0x14, with one read. |
| Driver.Cdcx913.SetPll1Multiplexer | src/lib.rs:452-455 | Only 0x14 changes, by the MUX1 setter, through one read-modify-write. |
| Driver.Cdcx913.Y2Multiplexer | src/lib.rs:458-461 | Returns M2 decoded from 0x14, with one read. |
| Driver.Cdcx913.SetY2Multiplexer | src/lib.rs:464-470 | Only 0x14 changes, by the M2 setter, through one read-modify-write. |
| Driver.Cdcx913.Y3Multiplexer | src/lib.rs:473-476 | Returns M3 decoded from 0x14, with one read. |
| Driver.Cdcx913.SetY3Multiplexer | src/lib.rs:479-485 | Only 0x14 changes, by the M3 setter, through one read-modify-write. |
| Driver.Cdcx913.Y2Y3State1Definition | src/lib.rs:488-491 | Returns Y2Y3_ST1 decoded from 0x14, with one read. |
| Driver.Cdcx913.SetY2Y3State1Definition | src/lib.rs:494-500 | Only 0x14 changes, by the Y2Y3_ST1 setter, through one read-modify-write. |
| Driver.Cdcx913.Y2Y3State0Definition | src/lib.rs:503-506 | Returns Y2Y3_ST0 decoded from 0x14, with one read. |
| Driver.Cdcx913.SetY2Y3State0Definition | src/lib.rs:509-515 | Only 0x14 changes, by the Y2Y3_ST0 setter, through one read-modify-write. |
| Driver.Cdcx913.Y2Y3StateSelection | src/lib.rs:518-524 | Returns the control input's state from 0x15, with one read. |
| Driver.Cdcx913.SetY2Y3StateSelection | src/lib.rs:527-534 | Only 0x15 changes, by the per-index setter, through one read-modify-write. |
| Driver.Cdcx913.Pll1SscDownCenterSelection | src/lib.rs:537-542 | Returns SSC1DC decoded from 0x16, with one read. |
| Driver.Cdcx913.SetPll1SscDownCenterSelection | src/lib.rs:545-551 | Only 0x16 changes, by the SSC1DC setter, through one read-modify-write. |
| Driver.Cdcx913.Y2OutputDivider | src/lib.rs:554-556 | Returns PDIV2 from 0x16, with one read. |
| Driver.Cdcx913.SetY2OutputDivider | src/lib.rs:559-562 | Only 0x16 changes, by the PDIV2 setter, through one read-modify-write. |
| Driver.Cdcx913.Y3OutputDivider | src/lib.rs:565-567 | Returns PDIV3 from 0x17, with one read. |
| Driver.Cdcx913.SetY3OutputDivider | src/lib.rs:570-573 | Only 0x17 changes, by the PDIV3 setter, through one read-modify-write. |
| Driver.Cdcx913.ReadPllSettings | src/lib.rs:576-589 | Returns the big-endian word in the four registers from `base`, read in ascending order. |
| Driver.Cdcx913.WritePllSettings | src/lib.rs:592-605 | The four registers from `base` take the word's bytes, most significant first, by four writes and no reads. |
| Driver.Cdcx913.Pll10Settings | src/lib.rs:576-589 | Returns the word in 0x18..0x1B, reading 0x18 to 0x1B in order. |
| Driver.Cdcx913.SetPll10Settings | src/lib.rs:592-605 | The register file becomes `WithPllSettings` at 0x18. 0x18 to 0x1B are written in order. |
| Driver.Cdcx913.Pll11Settings | src/lib.rs:608-621 | Returns the word in 0x1C..0x1F, reading 0x1C to 0x1F in order. |
| Driver.Cdcx913.SetPll11Settings | src/lib.rs:624-637 | The register file becomes `WithPllSettings` at 0x1C. 0x1C to 0x1F are written in order. |

## Left out

- I2C transport and `async`: the bus is the register array plus a log of the
  transactions sent. Waiting, timing and the other devices on the bus are
  not modelled.
- Bus errors: the `I2C::Error` path, and the early return that `?` takes on
  it, are not modelled. Every operation is modelled as succeeding on the bus.
- `initiate_eeprom_write`: the source body is `todo!()`.
- The stm32f4 example program, and the derives (`Debug`, `defmt::Format`,
  `From`/`Into`, `Clone`/`Copy`, `PartialEq`): these are not driver logic.
- `Y2Y3State` (src/registers.rs:348-351): declared, but no accessor uses it.
- Register setters: `&mut self` is modelled as a function from the old byte
  to the new one. The register types are `Copy` newtypes over `u8`, so
  nothing else can observe the update.
- Driver.Cdcx913.ModifyByteUnchecked: the closure is a function from the old
  byte to the new one. It does not return a separate `R`, because every
  caller's closure returns `()`.
- Offsets are not validated, just as the source does not validate them.
  `CommandCode::new` keeps only an offset's low seven bits, so the register
  file has the 128 offsets a command byte can name, and `o` and `o | 0x80`
  reach the same register. The device's behaviour at offsets beyond 0x20 is
  not modelled.
- Register 0x1F's VCO range has no accessor in the source. The shared layout
  constants cover it, but no function is named for it.
- Field disjointness is stated per register, by concrete masks in the layout
  lemmas. There is no general law for arbitrary pairs of ranges.
- Panics: `u3::new` failing is modelled as `None`. Nothing models unwinding.
- Table-driven selectors: the source reads and writes selectors with an
  explicit `match` per index. The model does the same, rather than driving
  them from a table of register and bit positions.
- Composite-field decoding: decoding is described as never failing, but the
  code can panic when selector 1 is read (see Findings). The model follows
  the code.

## Findings

| source | as written | input that shows it | evidently intended | confidence | as-written member | corrected member |
|---|---|---|---|---|---|---|
| src/registers.rs:403 | `ssc1_1` is declared over bits 6..3 of register 0x12: four bits, one of them shared with `ssc1_2` (bits 7..6). | On a cleared register file, set selector 2 to 1, which sets bit 6 of 0x12. Reading selector 1 then gives 8, and `u3::new` panics (src/lib.rs:327, on the value read at line 344). Conversely, setting selector 1 to 0 afterwards changes selector 2 from 1 to 0. | `ssc1_1` over bits 5..3, three bits like the other selectors. That leaves every selector independent of the others. | high; not executed | Driver.SscInterferenceExample | Driver.SscIntendedIndependent |

The `SscRaw` and `SetSscRawIn` spec functions are parameterised by `SscLayout`:

- `Declared` is the layout the code has.
- `Intended` is bits 5..3 for `ssc1_1`.

`SscRoundTrip` and `SscIndependent` are proved for both layouts. The facade
methods use `Declared`, because that is the behaviour of the shipped code.
