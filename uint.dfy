/** The fixed-width unsigned integers of the host: `u8` and `U256`, with the checked and saturating
    operations the ledger uses. A checked operation yields `None` where the Rust one yields `None`
    (and the caller aborts); a saturating one clamps to the range. */
module Uint {
  import opened Wrappers

  const U256_MAX: nat := 0xFFFF_FFFF_FFFF_FFFF_FFFF_FFFF_FFFF_FFFF_FFFF_FFFF_FFFF_FFFF_FFFF_FFFF_FFFF_FFFF

  type u256 = x: int | 0 <= x <= U256_MAX
  type u8 = x: int | 0 <= x < 256

  function CheckedAdd(a: u256, b: u256): (r: Option<u256>)
    ensures r.Some? <==> a + b <= U256_MAX
    ensures r.Some? ==> r.value == a + b
  {
    if a + b <= U256_MAX then Some(a + b) else None
  }

  function CheckedSub(a: u256, b: u256): (r: Option<u256>)
    ensures r.Some? <==> b <= a
    ensures r.Some? ==> r.value == a - b
  {
    if b <= a then Some(a - b) else None
  }

  function SaturatingAdd(a: u256, b: u256): (r: u256)
    ensures a <= r
    ensures r == a + b || (r == U256_MAX && a + b > U256_MAX)
  {
    if a + b <= U256_MAX then a + b else U256_MAX
  }

  function SaturatingSub(a: u256, b: u256): (r: u256)
    ensures r <= a
    ensures r == a - b || (r == 0 && a < b)
  {
    if b <= a then a - b else 0
  }
}
