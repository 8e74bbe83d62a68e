/** Bit-range access on register bytes and on the 32-bit PLL word.

    Every register of the device is a byte with named bit ranges, declared as
    `msb, lsb` (inclusive) in a `bitfield!` block. This module defines the two
    primitives those declarations generate, once:

      get  = (b >> lsb) & width mask
      set  = (b & !mask) | ((v << lsb) & mask)      (v is silently truncated)

    where `mask` has ones exactly at msb..lsb. Single-bit fields (`eelock: 5`)
    read as "the one-bit range is not zero" and write a 0 or a 1.
    The bounded integer types of the `arbitrary_int` crate (u2, u3, ...) are
    subset types, with `new` modelled as a checked conversion. */
module Bitfield {

  /** A bit range `msb, lsb` as written in a `bitfield!` declaration. */
  datatype Field = Field(msb: bv8, lsb: bv8)

  /** A range inside one byte. */
  type Field8 = f: Field | f.lsb <= f.msb < 8 witness Field(0, 0)

  /** A range inside a 32-bit word. */
  type Field32 = f: Field | f.lsb <= f.msb < 32 witness Field(0, 0)

  /** The position of a single-bit field in a byte. */
  type BitIndex = i: bv8 | i < 8

  type U1 = x: bv8 | x < 2
  type U2 = x: bv8 | x < 4
  type U3 = x: bv8 | x < 8
  type U4 = x: bv8 | x < 16
  type U7 = x: bv8 | x < 128
  type U10 = x: bv16 | x < 1024

  datatype Option<T> = None | Some(value: T)

  /** `u3::new`: the conversion panics (here: None) when the value does not fit. */
  function NewU3(x: bv8): (r: Option<U3>)
    ensures r.Some? <==> x < 8
    ensures r.Some? ==> r.value == x
  {
    if x < 8 then Some(x) else None
  }

  /** Bit `i` of `b`, as a truth value. */
  predicate BitAt(b: bv8, i: BitIndex)
  {
    (b >> i) & 1 == 1
  }

  // ----- byte-wide ranges -----

  /** Ones exactly at msb..lsb, computed as the `bitfield` crate does:
      all ones, shifted up to drop the bits above msb, then down and up
      again to drop the bits below lsb. */
  function MaskRange(msb: bv8, lsb: bv8): bv8
    requires lsb <= msb < 8
  {
    (0xFF as bv8) << (7 - msb) >> (7 - msb + lsb) << lsb
  }

  /** The mask has bit `i` set exactly when `i` lies in the range. */
  lemma MaskRangeBits(msb: bv8, lsb: bv8, i: BitIndex)
    requires lsb <= msb < 8
    ensures BitAt(MaskRange(msb, lsb), i) <==> lsb <= i <= msb
  {
  }

  /** The mask has no bit below `lsb`, and shifted down it is as many low
      ones as the range is wide. */
  lemma MaskRangeShape(msb: bv8, lsb: bv8)
    requires lsb <= msb < 8
    ensures (MaskRange(msb, lsb) >> lsb) << lsb == MaskRange(msb, lsb)
    ensures MaskRange(msb, lsb) >> lsb == (0xFF as bv8) >> (7 - msb + lsb)
  {
  }

  /** Putting back the bits taken out under an aligned mask restores the byte. */
  lemma AlignedRestore(b: bv8, m: bv8, lsb: bv8)
    requires lsb < 8 && (m >> lsb) << lsb == m
    ensures (b & !m) | ((((b & m) >> lsb) << lsb) & m) == b
  {
  }

  /** The crate's `bit_range(msb, lsb)` on a byte. */
  function BitRange(b: bv8, msb: bv8, lsb: bv8): bv8
    requires lsb <= msb < 8
  {
    (b & MaskRange(msb, lsb)) >> lsb
  }

  /** The crate's `set_bit_range(msb, lsb, v)` on a byte. */
  function SetBitRange(b: bv8, msb: bv8, lsb: bv8, v: bv8): bv8
    requires lsb <= msb < 8
  {
    (b & !MaskRange(msb, lsb)) | ((v << lsb) & MaskRange(msb, lsb))
  }

  /** The mask of a declared field. */
  function Mask(f: Field8): bv8
  {
    MaskRange(f.msb, f.lsb)
  }

  /** As many low ones as the range is wide: the largest value the field holds. */
  function WidthMask(f: Field8): bv8
  {
    Mask(f) >> f.lsb
  }

  /** The bits of `b` that lie outside the range: what a write to `f` must keep. */
  function Outside(b: bv8, f: Field8): bv8
  {
    b & !Mask(f)
  }

  /** Two ranges that share no bit. */
  predicate Disjoint(f: Field8, g: Field8)
  {
    Mask(f) & Mask(g) == 0
  }

  /** The generated getter of a declared field: the value read never exceeds
      what the field holds. */
  function Get(b: bv8, f: Field8): (v: bv8)
    ensures v <= WidthMask(f)
  {
    BitRange(b, f.msb, f.lsb)
  }

  /** Bit `i` of the value read is bit `lsb + i` of the byte. */
  lemma GetBits(b: bv8, f: Field8, i: BitIndex)
    requires i <= f.msb - f.lsb
    ensures BitAt(Get(b, f), i) <==> BitAt(b, i + f.lsb)
  {
    MaskRangeBits(f.msb, f.lsb, i + f.lsb);
  }

  /** The generated setter of a declared field: every bit outside the field
      keeps its value. */
  function Set(b: bv8, f: Field8, v: bv8): (r: bv8)
    ensures Outside(r, f) == Outside(b, f)
  {
    SetBitRange(b, f.msb, f.lsb, v)
  }

  /** Reading a field after writing `v` gives the low bits of `v`: the value
      truncated to the field's width. */
  lemma GetSet(b: bv8, f: Field8, v: bv8)
    ensures Get(Set(b, f, v), f) == v & WidthMask(f)
  {
    MaskRangeShape(f.msb, f.lsb);
  }

  /** The generated single-bit getter: the one-bit range is not zero, which
      is exactly when bit `i` is set. */
  function Bit(b: bv8, i: BitIndex): (on: bool)
    ensures on <==> BitAt(b, i)
  {
    BitRange(b, i, i) != 0
  }

  /** The generated single-bit setter: the one-bit range gets 0 or 1, so the
      bit then reads as written and every other bit keeps its value. */
  function SetBit(b: bv8, i: BitIndex, x: bool): (r: bv8)
    ensures Bit(r, i) == x
    ensures r & !MaskRange(i, i) == b & !MaskRange(i, i)
  {
    SetBitRange(b, i, i, BoolByte(x))
  }

  /** A bool as the 0 or 1 that `as u8` gives. */
  function BoolByte(x: bool): (v: U1)
    ensures (v == 1) == x
  {
    if x then 1 else 0
  }

  /** Writing back what was read changes nothing. */
  lemma SetOwnGet(b: bv8, f: Field8)
    ensures Set(b, f, Get(b, f)) == b
  {
    MaskRangeShape(f.msb, f.lsb);
    AlignedRestore(b, Mask(f), f.lsb);
  }

  // ----- bits selected by a runtime index -----

  /** `self.0 & (1 << index) != 0`: the index-selected bit, as the per-index
      state selectors read it. */
  predicate IndexedBit(b: bv8, index: U3)
  {
    b & (1 << index) != 0
  }

  /** `(self.0 & !(1 << index)) | (bit << index)`: the per-index selectors' write. */
  function WithIndexedBit(b: bv8, index: U3, bit: U1): (r: bv8)
    ensures IndexedBit(r, index) == (bit == 1)
    ensures r & !(1 << index) == b & !(1 << index)
  {
    (b & !(1 << index)) | (bit << index)
  }

  /** Writing the bit at one index leaves the bit at every other index as it was. */
  lemma WithIndexedBitKeepsOthers(b: bv8, index: U3, bit: U1, j: U3)
    requires j != index
    ensures IndexedBit(WithIndexedBit(b, index, bit), j) == IndexedBit(b, j)
  {
  }

  // ----- word-wide ranges (the PLL coefficient word) -----

  /** Ones exactly at msb..lsb of a 32-bit word, by the same formula as `Mask`. */
  function Mask32(f: Field32): bv32
  {
    (0xFFFF_FFFF as bv32) << (31 - f.msb) >> (31 - f.msb + f.lsb) << f.lsb
  }

  /** The generated getter on a word: the value read never exceeds what the
      field holds. */
  function Get32(w: bv32, f: Field32): (v: bv32)
    ensures v <= Mask32(f) >> f.lsb
  {
    (w >> f.lsb) & (Mask32(f) >> f.lsb)
  }

  /** The generated setter on a word: every bit outside the field keeps its
      value. */
  function Set32(w: bv32, f: Field32, v: bv32): (r: bv32)
    ensures r & !Mask32(f) == w & !Mask32(f)
  {
    (w & !Mask32(f)) | ((v << f.lsb) & Mask32(f))
  }

  // ----- big-endian byte order -----

  /** `u32::from_be_bytes`: the first byte is the most significant. */
  function FromBeBytes(b: seq<bv8>): (w: bv32)
    requires |b| == 4
    ensures (w >> 24) as bv8 == b[0] && ((w >> 16) & 0xFF) as bv8 == b[1]
    ensures ((w >> 8) & 0xFF) as bv8 == b[2] && (w & 0xFF) as bv8 == b[3]
  {
    ((b[0] as bv32) << 24) | ((b[1] as bv32) << 16) | ((b[2] as bv32) << 8) | (b[3] as bv32)
  }

  /** `u32::to_be_bytes`. */
  function ToBeBytes(w: bv32): (b: seq<bv8>)
    ensures |b| == 4
    ensures FromBeBytes(b) == w
  {
    [(w >> 24) as bv8, ((w >> 16) & 0xFF) as bv8, ((w >> 8) & 0xFF) as bv8, (w & 0xFF) as bv8]
  }

  /** Splitting four bytes into a word and back gives the same four bytes. */
  lemma BeBytesRoundTrip(b: seq<bv8>)
    requires |b| == 4
    ensures ToBeBytes(FromBeBytes(b)) == b
  {
  }
}
