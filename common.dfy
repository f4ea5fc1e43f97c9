/** Failure-carrying wrappers and the unit arithmetic shared by the market,
    the trade reconciliation and the provisioning helpers.

    Token amounts travel on chain as integers in the token's smallest unit;
    the library shows them as decimals.  `FromUnits(raw, d)` is `raw / 10^d`,
    computed exactly (rational arithmetic). */
module Common {

  datatype Option<+T> = None | Some(value: T)

  /** A thrown error becomes `Err` with the message the source throws. */
  datatype Result<+T> = Ok(value: T) | Err(msg: string)

  /** A call that either completes or throws, for calls with no result. */
  datatype Outcome = Pass | Fail(msg: string)

  type Address = string

  /** The native token (ether) has 18 decimals; bounties and fees use it. */
  const NATIVE_DECIMALS: nat := 18

  function Pow10(d: nat): (p: nat)
    ensures p >= 1
    ensures d > 0 ==> p >= 10
  {
    if d == 0 then 1 else 10 * Pow10(d - 1)
  }

  lemma {:induction false} Pow10Add(a: nat, b: nat)
    ensures Pow10(a + b) == Pow10(a) * Pow10(b)
  {
    if a > 0 {
      Pow10Add(a - 1, b);
      assert Pow10(a + b) == 10 * Pow10(a - 1 + b);
    }
  }

  /** Raw integer units to display units. */
  function FromUnits(raw: int, d: nat): (x: real)
    ensures x * (Pow10(d) as real) == raw as real
    ensures raw >= 0 ==> x >= 0.0
  {
    raw as real / Pow10(d) as real
  }

  /** Display units back to raw units, defined on the amounts that are
      exact in `d` decimals. */
  function ToUnits(x: real, d: nat): real
  {
    x * Pow10(d) as real
  }

  /** Converting raw amounts to display units and back loses nothing. */
  lemma UnitsRoundTrip(raw: int, d: nat)
    ensures ToUnits(FromUnits(raw, d), d) == raw as real
  {
  }

  /** FromUnits is injective: distinct raw amounts stay distinct. */
  lemma FromUnitsInjective(a: int, b: int, d: nat)
    requires FromUnits(a, d) == FromUnits(b, d)
    ensures a == b
  {
    UnitsRoundTrip(a, d);
    UnitsRoundTrip(b, d);
  }
}
