/** The value types shared by both register banks: the output-state
    definitions (a 2-bit code) and the one-bit state selection. Each enum's
    `Code` is its `#[repr(u8)]` discriminant, which is what `as u8` yields. */
module Registers {
  import opened Bitfield

  /** What an output does in a given state. */
  datatype OutputStateDefinition = DevicePowerDown | Disabled3State | DisabledLow | Enabled
  {
    function Code(): U2
    {
      match this
      case DevicePowerDown => 0
      case Disabled3State => 1
      case DisabledLow => 2
      case Enabled => 3
    }
  }

  /** Which of the two output states a control input selects. */
  datatype OutputStateSelection = State0 | State1
  {
    function Code(): U1
    {
      match this
      case State0 => 0
      case State1 => 1
    }
  }

  /** `OutputStateDefinition::from(u2)`: every 2-bit code names a definition,
      and the one whose discriminant it is. */
  function OutputStateDefinitionFrom(v: U2): (s: OutputStateDefinition)
    ensures s.Code() == v
  {
    if v == 0 then DevicePowerDown
    else if v == 1 then Disabled3State
    else if v == 2 then DisabledLow
    else Enabled
  }

  /** Decoding a definition's own code gives the definition back, so the
      decoder is a bijection between 2-bit codes and definitions. */
  lemma OutputStateDefinitionRoundTrip(s: OutputStateDefinition)
    ensures OutputStateDefinitionFrom(s.Code()) == s
  {
  }

  /** The state a control input selects in a per-index selection register
      (0x04 for Y1, 0x15 for Y2/Y3): control input `index` selects state 1
      exactly when bit `index` is set. */
  function SelectedState(reg: bv8, index: U3): (s: OutputStateSelection)
    ensures s == State1 <==> BitAt(reg, index)
  {
    if !IndexedBit(reg, index) then State0 else State1
  }

  /** The in-place `self.0 = ...` update: only the bit at `index` changes. */
  function WithSelectedState(reg: bv8, index: U3, s: OutputStateSelection): (r: bv8)
    ensures SelectedState(r, index) == s
    ensures r & !(1 << index) == reg & !(1 << index)
  {
    WithIndexedBit(reg, index, s.Code())
  }

  /** Selecting the state at one control input leaves every other input's state. */
  lemma SelectedStateKeepsOthers(reg: bv8, index: U3, s: OutputStateSelection, j: U3)
    requires j != index
    ensures SelectedState(WithSelectedState(reg, index, s), j) == SelectedState(reg, j)
  {
    WithIndexedBitKeepsOthers(reg, index, s.Code(), j);
  }
}
