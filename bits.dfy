/** Single-bit updates of the byte-wide register caches the I2C drivers keep. */
module Bits {

  /** Bit j of a register byte. */
  function Bit(r: bv8, j: nat): (b: bv8)
    requires j < 8
    ensures b == 0 || b == 1
  {
    (r >> j) & 1
  }

  /** The cache after writing `value` to channel `ch`: the bit is set for a non-zero value, cleared for zero. */
  function Written(r: bv8, ch: nat, value: nat): bv8
    requires ch < 8
  {
    if value != 0 then r | ((1 as bv8) << ch) else r & !((1 as bv8) << ch)
  }

  /** A write sets the channel's bit to the value written and leaves every other bit as it was. */
  lemma WrittenChangesOnlyItsBit(r: bv8, ch: nat, value: nat, j: nat)
    requires ch < 8 && j < 8
    ensures j == ch ==> Bit(Written(r, ch, value), j) == (if value != 0 then 1 else 0)
    ensures j != ch ==> Bit(Written(r, ch, value), j) == Bit(r, j)
  {
  }
}
