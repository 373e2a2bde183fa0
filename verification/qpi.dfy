/** The few primitives the contract takes from its execution environment:
    identities, 16-bit epochs, and the zero-safe division and remainder
    helpers `div` and `mod`. */
module Qpi {

  /** A 32-byte public key. Only equality is ever used on it, so it is
      abstracted to a number; the all-zero key is `ZERO_ID`. */
  type Id = nat

  const ZERO_ID: Id := 0

  const EPOCH_MODULUS: nat := 0x1_0000

  /** An epoch as the ledger reports it: an unsigned 16-bit value. */
  type Epoch = e: int | 0 <= e < EPOCH_MODULUS

  const UINT64_MAX: nat := 0xFFFF_FFFF_FFFF_FFFF

  /** `div(a, b)`: integer division that yields 0 instead of trapping when
      the divisor is 0. */
  function Div(a: nat, b: nat): (q: nat)
    ensures b == 0 ==> q == 0
    ensures b > 0 ==> q * b <= a < q * b + b
  {
    if b == 0 then 0 else a / b
  }

  /** `mod(a, b)`: remainder that yields 0 when the divisor is 0. */
  function Mod(a: nat, b: nat): (r: nat)
    ensures b == 0 ==> r == 0
    ensures b > 0 ==> r < b && Div(a, b) * b + r == a
  {
    if b == 0 then 0 else a % b
  }

  /** `(uint16)(now - last)`: the number of epochs elapsed since `last`,
      reduced modulo 2^16 as the cast of the subtraction does. */
  function EpochsSince(now: Epoch, last: Epoch): (d: nat)
    ensures d < EPOCH_MODULUS
    ensures last <= now ==> d == now - last
    ensures now < last ==> d == now - last + EPOCH_MODULUS
  {
    (now - last) % EPOCH_MODULUS
  }

  /** `x -= 1` on an unsigned 64-bit counter: wraps to the maximum at 0. */
  function DecrementU64(n: nat): (r: nat)
    ensures n > 0 ==> r + 1 == n
    ensures n == 0 ==> r == UINT64_MAX
  {
    if n == 0 then UINT64_MAX else n - 1
  }
}
