/** Shared vocabulary of the staking contract: addresses, reward assets,
    the contract's error cases and the result types its handlers return. */
module Common {

  /** An account or contract address (validation is not modelled). */
  type Addr = string

  /** An unbonding period, in seconds. */
  type Period = nat

  /** A block time, in seconds. */
  type Time = nat

  /** A reward asset: a native denomination or a cw20 token contract. */
  datatype Asset = Native(denom: string) | Token(contract: Addr)

  /** `Decimal` is 18-digit fixed point: a multiplier m stands for m / 10^18. */
  const DECIMAL_FRACTIONAL: nat := 1_000_000_000_000_000_000

  /** The error cases the handlers can end in. */
  datatype Error =
    | NoRebondAmount
    | SameUnbondingRebond
    | NoUnbondingPeriodFound(period: Period)
    | Cw20AddressesNotMatch(got: Addr, expected: Addr)
    | MassDelegateTooMuch(total: nat, amountSent: nat)
    // the checked subtraction inside `BondingInfo::release_stake`
    | NotEnoughStake
    // checked arithmetic on the per-period totals
    | Overflow
    | NothingToClaim
    // `ADMIN.assert_admin` refused the sender
    | NotAdmin
    | InvalidAsset
    | InvalidRewards
    | TooManyDistributions(max: nat)
    | DistributionAlreadyExists(asset: Asset)
    // `REWARD_CURVE.load` found no curve for the asset
    | NoRewardCurve(asset: Asset)
    // `validate_monotonic_decreasing` refused the combined curve
    | CurveNotMonotonic

  /** The outcome of a handler that returns no value. */
  datatype Outcome = Pass | Fail(error: Error)

  /** The outcome of an operation that returns a value on success. */
  datatype Result<T> = Ok(value: T) | Err(error: Error)

  datatype Option<T> = None | Some(value: T)

  /** The unbonding periods of a list keyed by period (the per-period
      totals, a flow's multipliers), in list order. */
  function PeriodsOf<T>(s: seq<(Period, T)>): (r: seq<Period>)
    ensures |r| == |s|
    ensures forall i :: 0 <= i < |r| ==> r[i] == s[i].0
  {
    if s == [] then [] else [s[0].0] + PeriodsOf(s[1..])
  }

  /** `saturating_sub` on unsigned integers. */
  function SatSub(a: nat, b: nat): nat
  {
    if a >= b then a - b else 0
  }
}
