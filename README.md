# Stake contract model

This project is a Dafny model of the staking contract in
`contracts/stake/src/contract.rs`. The contract is a CosmWasm contract.

- Holders of one cw20 token bond tokens into one of several configured
  unbonding periods.
- Their bonded stake earns reward power in distribution flows. A flow is one
  reward asset, funded by an emission curve, with one multiplier per period.
- Unbonding moves stake into a queue of claims that mature after the period.
- Rebonding moves stake between periods. Stake moved into a shorter period
  stays locked for the difference.

The stored state is modelled: `CONFIG`, `ADMIN`, `TOTAL_STAKED`,
`TOTAL_PER_PERIOD`, `STAKE`, `CLAIMS`, `DISTRIBUTION`, `WITHDRAW_ADJUSTMENT`
and `REWARD_CURVE`. So are the handlers that change that state: instantiate,
bond, mass bond, rebond, unbond, claim, create a distribution flow, and fund a
flow with native coins or with a cw20 `Fund` message.

Modules:

- `Common`: addresses, periods, assets, the `Decimal` scale, and the error
  cases.
- `Arith`: floor-division facts.
- `Sums`: sums over maps.
- `Bonding`: the per-(staker, period) `BondingInfo` record. It has
  `add_unlocked_tokens`, `add_locked_tokens` and `release_stake`.
- `Claims`: the claims queue, with `create_claim` and `claim_tokens`.
- `Totals`: the per-period totals and the four-case rule of
  `update_total_stake`.
- `Rewards`: reward power, and the points correction that `update_rewards`
  applies.
- `Curves`: reward curves, as piecewise-linear emission schedules with
  `value`, `range`, `shift`, `combine` and `validate_monotonic_decreasing`.
- `Ledger`: the stored items as values, the checks each handler makes, the
  invariants tying the aggregates to the records, and the queries.
- `Handlers`: each handler as a transition of the whole state, with lemmas
  about what it does.
- `Stake`: class `Contract`, whose fields are the stored items. Each handler is
  a method on the class. The method computes on a snapshot of the state and
  stores the result only when the whole message succeeds, which matches how
  the host reverts a failed message. Each method is proved to produce exactly
  the state its `Handlers` transition gives, and to keep the invariant.

The invariant `Handlers.StateValid` has four parts:

- The configuration is valid: `min_bond` is at least 1 and the unbonding
  periods are sorted.
- Each configured period's total equals the aggregate of that period's
  records, in both `staked` and `powered_stake`.
- `unbonding` equals the sum of all queued claims, and `staked` covers every
  record.
- Every flow's multipliers list exactly the configured periods, in
  non-decreasing order. Every flow has a reward curve and every curve is
  monotonic decreasing. No flow exists for the staked token. There are at
  most `max_distributions` flows.

About integer and clock inputs:

- Amounts are unbounded naturals.
- `Decimal` multipliers are naturals over 10^18.
- The block time is a parameter of every handler that reads it.

## Model

| member | source | states |
|---|---|---|
| Ledger.SortPeriods | contracts/stake/src/contract.rs:59 | the stored periods are sorted and are a permutation of the message's periods |
| Ledger.InitialConfig | contracts/stake/src/contract.rs:41-84 | with the cw20 correction under Findings: min_bond is at least 1 and equals the message's value when that is at least 1; the periods are sorted and are a permutation of the message's; the cw20 contract (corrected), tokens_per_power and max_distributions come from the message; the instantiator is the sender |
| Ledger.InitialConfigAsWritten | contracts/stake/src/contract.rs:70-80 | as the code is written, the stored cw20 address is always the hard-coded one, whatever the message says |
| Ledger.AsWrittenRefusesConfiguredToken | contracts/stake/src/contract.rs:72-74 | as written, a contract instantiated for any other cw20 token refuses every bond of that token with Cw20AddressesNotMatch |
| Ledger.AsWrittenRefusesExample | contracts/stake/src/contract.rs:72-74 | as written, a concrete instantiation for token "wasm1234567890" refuses a bond of that token |
| Ledger.ConfiguredTokenAccepted | contracts/stake/src/contract.rs:389-411 | with the corrected configuration, bonding the configured token into a configured period, with delegations that sum to at most the amount sent, passes every mass-bond check |
| Ledger.InitialTotals | contracts/stake/src/contract.rs:62-68 | one zero total is seeded per configured period, in configuration order |
| Ledger.InitialTotalsMatch | contracts/stake/src/contract.rs:62-68 | the seeded totals agree with a ledger that has no records |
| Handlers.InitialState | contracts/stake/src/contract.rs:41-84 | with the cw20 correction under Findings: the stored configuration is valid (min_bond at least 1, sorted periods), the admin is the message's, and the totals list exactly the configured periods in order |
| Handlers.InitialStateValid | contracts/stake/src/contract.rs:41-84 | with the cw20 correction under Findings: a freshly instantiated contract satisfies the invariant, stores the message's cw20 contract, holds no stake, no claims, no flows, no reward curves and no corrections, and has one zero total per configured period, in configuration order |
| Stake.Contract.Instantiate | contracts/stake/src/contract.rs:41-84 | with the cw20 correction under Findings: the contract's fields become the instantiated state, which satisfies the invariant |
| Totals.Powered | contracts/stake/src/contract.rs:503-529 | a stake counts towards powered_stake in full if it is at least min_bond, and not at all otherwise |
| Totals.ZeroNeverPowered | contracts/stake/src/contract.rs:52-53 | with min_bond at least 1, a zero stake is never powered and a stake of exactly min_bond is |
| Totals.NextTotal | contracts/stake/src/contract.rs:496-529 | one period's total update succeeds exactly when neither staked nor powered_stake would drop below zero; any failure is an Overflow; on success both totals move by exactly the change in stake and in powered stake |
| Totals.NextTotalSame | contracts/stake/src/contract.rs:496-529 | an update that leaves the stake unchanged leaves the total unchanged |
| Totals.FindPeriod | contracts/stake/src/contract.rs:488-494 | the lookup finds an entry exactly when the period is listed, and the entry it finds is the first one for that period |
| Totals.UpdateTotals | contracts/stake/src/contract.rs:482-532 | a period that is not listed fails with NoUnbondingPeriodFound |
| Totals.UpdateTotalsEffect | contracts/stake/src/contract.rs:482-532 | for a listed period, the update fails exactly when the period total's update fails, with the same error; on success only that period's first entry changes, and every other entry and the period order stay as they were |
| Totals.AggregatePoweredWithinStaked | contracts/stake/src/contract.rs:503-529 | in the aggregate of any set of records, powered_stake never exceeds staked |
| Totals.NextTotalBalanced | contracts/stake/src/contract.rs:496-529 | a period total's update lands on any total that balances the stake change |
| Totals.NextTotalOfAggregate | contracts/stake/src/contract.rs:496-529 | applied to a total that is the aggregate of its records, a one-record change never fails and yields the aggregate of the changed records |
| Stake.Contract.UpdateTotalStake | contracts/stake/src/contract.rs:482-532 | the stored totals become UpdateTotals' result on success; on failure the method returns its error and the totals are unchanged |
| Ledger.PoweredWithinStaked | contracts/stake/src/contract.rs:503-529 | under the totals invariant, every period total keeps powered_stake at or below staked |
| Ledger.TotalsStep | contracts/stake/src/contract.rs:482-532 | when the totals match the records, replacing one record in a listed period and running the total update succeeds, and the totals again match the records |
| Ledger.TotalsEntryStep | contracts/stake/src/contract.rs:482-532 | after one record changes, each entry of the updated totals holds the aggregate of its period's new records where the entry is the first for its period, and zero otherwise |
| Ledger.RecordStepTotals | contracts/stake/src/contract.rs:482-532 | under the totals invariant, replacing one record in a configured period and running the total update succeeds and keeps the invariant |
| Ledger.PeriodStakesUpdate | contracts/stake/src/contract.rs:482-532 | changing one record changes only its own period's set of stakes, and only at that record |
| Bonding.LockSumPartition | contracts/stake/src/contract.rs:603-614 | splitting the locked tranches into expired and unexpired at a given time loses no tokens |
| Bonding.LockedWithinTotal | contracts/stake/src/contract.rs:867-892 | the tokens still locked are part of the total stake |
| Bonding.AddUnlockedTokens | contracts/stake/src/contract.rs:430-436 | adding unlocked tokens raises the total stake by the amount and leaves the locked part unchanged at every time |
| Bonding.AddLockedTokens | contracts/stake/src/contract.rs:312-318 | adding locked tokens raises the total stake by the amount |
| Bonding.AddLockedLockedUntil | contracts/stake/src/contract.rs:312-318 | a tranche added as locked counts as locked exactly before its release time |
| Bonding.FreeUnlockedTokens | contracts/stake/src/contract.rs:603-614 | freeing the expired tranches keeps the total stake and the locked part, and leaves only unexpired tranches |
| Bonding.UnexpiredIdempotent | contracts/stake/src/contract.rs:603-614 | filtering the unexpired tranches a second time at the same time changes nothing |
| Bonding.ReleaseStake | contracts/stake/src/contract.rs:603-614 | a release succeeds exactly when the amount is at most the stake that is not locked; otherwise it fails with NotEnoughStake; on success the total stake drops by exactly the amount and the locked part is unchanged |
| Bonding.UnbondExample | contracts/stake/src/contract.rs:1248-1254 | releasing 7,900 of a free 20,000 leaves 12,100, and releasing 12,101 of those 12,100 fails |
| Claims.Matured | contracts/stake/src/contract.rs:702 | the claims released are exactly the matured claims of the queue, each as often as it is queued, and nothing else |
| Claims.Waiting | contracts/stake/src/contract.rs:702 | the claims kept are exactly the unmatured claims of the queue, each as often as it is queued, and nothing else |
| Claims.CreateClaim | contracts/stake/src/contract.rs:644-649 | a new claim is appended at the end of the queue, the earlier claims are kept in order, and the queued sum grows by the amount |
| Claims.ClaimTokens | contracts/stake/src/contract.rs:697-705 | the amount released plus what stays queued equals what was queued; the queue keeps exactly the unmatured claims, each as often as before; nothing is released exactly when every matured claim is for zero tokens |
| Claims.ClaimPartition | contracts/stake/src/contract.rs:697-705 | released and waiting claims together hold exactly the queued sum |
| Claims.WaitingKeepsUnmatured | contracts/stake/src/contract.rs:697-705 | no unmatured claim is dropped |
| Claims.MaturedSumZero | contracts/stake/src/contract.rs:702-705 | the release is zero exactly when every matured claim is for zero tokens |
| Claims.WaitingConcat | contracts/stake/src/contract.rs:644-649 | the queue keeps its order: the waiting claims of two queues joined are their waiting claims joined |
| Claims.ClaimTwiceReleasesNothing | contracts/stake/src/contract.rs:697-705 | a second claim at the same time releases nothing |
| Claims.LaterReleasesMore | contracts/stake/src/contract.rs:697-705 | claiming later never releases less |
| Claims.AllMatured | contracts/stake/src/contract.rs:697-705 | when every claim has matured, all are released and none stays |
| Claims.NewClaimWaits | contracts/stake/src/contract.rs:644-649 | a claim created for after an unbonding period of at least one second is still waiting at the time of the unbond |
| Claims.ClaimWorkflowExample | contracts/stake/src/contract.rs:1380-1395 | the last step of the unbond and claim workflow releases all three claims together, 2,950 tokens, and leaves the queue empty |
| Rewards.NewDistribution | contracts/stake/src/contract.rs:237-250 | a new flow stores the manager and the multipliers, with no shares and nothing distributed or withdrawable |
| Rewards.PeriodPower | contracts/stake/src/contract.rs:1501-1518 | stake below min_bond gives no power; otherwise the power is the largest whole number of power units worth no more than the stake times the multiplier, with the multiplier scaled by 10^18 |
| Rewards.RewardPower | contracts/stake/src/contract.rs:659-674 | a staker's power in a flow is zero when tokens_per_power is 0, and is at least the power of each of the flow's periods |
| Rewards.RewardPowerBelowMinBond | contracts/stake/src/contract.rs:1514-1518 | stake below min_bond in every period of a flow earns no power in it |
| Rewards.RewardPowerFrame | contracts/stake/src/contract.rs:659-674 | power in a flow depends only on the stake in the flow's periods |
| Rewards.PeriodPowerMono | contracts/stake/src/contract.rs:1501-1545 | more stake never gives less power |
| Rewards.PeriodPowerMonoMultiplier | contracts/stake/src/contract.rs:218-220 | a larger multiplier never gives the same stake less power |
| Rewards.MultipliersSorted | contracts/stake/src/contract.rs:218-220 | the neighbour check on multipliers orders every pair, not just neighbours |
| Rewards.LaterPeriodEarnsMore | contracts/stake/src/contract.rs:209-220 | in an accepted flow the same stake earns at least as much in a later period as in an earlier one |
| Rewards.FloorPerPeriodAtMostPooled | contracts/stake/src/contract.rs:1541-1545 | rounding down per period gives at most what rounding the pooled sum once would give |
| Rewards.PerPeriodFloorExample | contracts/stake/src/contract.rs:1514-1545 | 10,000 at 1% plus 9,000 at 10%, with tokens_per_power 1,000, earn no power, while a single pooled division would give 1 |
| Rewards.ApplyCorrection | contracts/stake/src/contract.rs:692 | the correction offsets a power change exactly, so the points earned so far are unchanged, and the withdrawn rewards are kept |
| Rewards.UpdateRewards | contracts/stake/src/contract.rs:676-695 | a correction record is written exactly when the power changed; the new record keeps the staker's points at the new power equal to their points at the old power, and keeps the withdrawn rewards |
| Rewards.PointsRaised | contracts/stake/src/contract.rs:676-695 | a payout of d shares per point credits power times d points |
| Rewards.CorrectionMatchesHistory | contracts/stake/src/contract.rs:676-695 | over any sequence of payouts and power changes, the correction scheme credits exactly what crediting each payout at the power held at that time gives |
| Rewards.FreshStakerEarnsHistory | contracts/stake/src/contract.rs:676-695 | a staker who starts with no power has exactly the points of the history |
| Common.PeriodsOf | contracts/stake/src/contract.rs:209-215 | the periods of a list keyed by period (a flow's multipliers, the per-period totals) are taken in list order, one per entry |
| Ledger.CalcRewardsPowers | contracts/stake/src/contract.rs:659-674 | there is one power per flow, and it is the staker's power in that flow |
| Ledger.PowerFrame | contracts/stake/src/contract.rs:659-674 | a staker's power in a flow depends only on that staker's own records |
| Ledger.RewardsUpdated | contracts/stake/src/contract.rs:676-695 | when the power is unchanged nothing is written; otherwise only the (staker, asset) record changes, and it keeps the staker's points and withdrawn rewards |
| Ledger.CorrectedEffect | contracts/stake/src/contract.rs:336-352 | after the correction pass, exactly the staker's records in the visited flows whose power changed are written, each with update_rewards' result; all other records stay |
| Ledger.CorrectedAt | contracts/stake/src/contract.rs:336-352 | the correction pass, described one key at a time |
| Ledger.CorrectedNone | contracts/stake/src/contract.rs:336-352 | before any flow is visited, nothing has changed |
| Ledger.CorrectedStep | contracts/stake/src/contract.rs:336-352 | visiting one more flow applies that flow's update_rewards to the records so far |
| Ledger.UpdateAllRewards | contracts/stake/src/contract.rs:619-634 | the loop over all flows yields the correction records of the whole pass |
| Ledger.CorrectionKeepsPoints | contracts/stake/src/contract.rs:619-634 | when only one staker's stake changes and the correction pass runs, no staker's points change in any flow |
| Ledger.MassBondCheck | contracts/stake/src/contract.rs:389-411 | the mass bond passes exactly when the sender is the configured cw20 contract, the period is configured and the delegations sum to at most the amount sent; each failure carries its own error, checked in the code's order |
| Ledger.RebondCheck | contracts/stake/src/contract.rs:263-279 | the rebond passes exactly when the amount is positive, the two periods differ and both are configured; each failure carries its own error, checked in the code's order |
| Ledger.FlowCheck | contracts/stake/src/contract.rs:192-235 | flow creation passes exactly when the sender is admin, the asset is not the staked token, the multipliers list exactly the configured periods, the multipliers do not decrease, there is room below max_distributions and the asset has no flow yet; each failure carries its own error, checked in the code's order |
| Ledger.RewardConfigUpdate | contracts/stake/src/contract.rs:154-182 | the asset must have a curve, and the schedule's range must start at 0 and end at most at the amount; the combined curve must be decreasing; on success the asset's curve is replaced by exactly the old curve combined with the schedule shifted to the block time, and no other curve changes; the saved curve is decreasing and, at each shifted schedule point, is the old value plus the schedule's |
| Ledger.ZeroAmountFundRejected | contracts/stake/src/contract.rs:1735-1763 | funding 0 tokens for a schedule that starts at 1 is rejected with InvalidRewards |
| Ledger.FundAllKeepsOthers | contracts/stake/src/contract.rs:130-151 | a successful native fund keeps the set of flows, and leaves the curve of every flow whose coin was not attached unchanged |
| Ledger.FundAllCovers | contracts/stake/src/contract.rs:130-151 | a successful native fund needs every attached amount to cover the schedule, and the schedule to end at zero |
| Ledger.FundAll | contracts/stake/src/contract.rs:130-151 | a successful fund with several coins keeps the set of flows |
| Ledger.FundKeepsFlows | contracts/stake/src/contract.rs:154-182 | a successful reward-config update keeps the flows invariant, and the staked token, which has no flow, cannot be funded |
| Ledger.FundAllKeepsFlows | contracts/stake/src/contract.rs:130-151 | a successful multi-coin fund keeps the flows invariant |
| Ledger.NewFlowValid | contracts/stake/src/contract.rs:237-250 | adding an accepted flow with a decreasing curve keeps the flows invariant |
| Ledger.UnbondLedger | contracts/stake/src/contract.rs:636-649 | staked covers any unbonded amount, so the saturating subtraction does not saturate, and the token info again matches the records and claims |
| Ledger.RebondLedger | contracts/stake/src/contract.rs:289-325 | moving an amount between two records of one staker keeps the sum of all records |
| Ledger.MassBondLedger | contracts/stake/src/contract.rs:466-473 | adding the whole amount sent to staked keeps it covering every record |
| Ledger.ClaimLedger | contracts/stake/src/contract.rs:719-724 | a claim pays out at most what unbonding holds, so the saturating subtraction does not saturate, and unbonding stays equal to the claims |
| Ledger.Delegated | contracts/stake/src/contract.rs:419-460 | the loop only touches records in the bonded period |
| Ledger.DelegatedEffect | contracts/stake/src/contract.rs:419-460 | each recipient's free stake in the period grows by the sum delegated to it; locked tranches and other periods are untouched |
| Ledger.RebondTarget | contracts/stake/src/contract.rs:305-325 | the target record gains the amount; moved into a shorter period it stays locked until now plus the period difference, and otherwise nothing more is locked |
| Ledger.BondUnbondRoundTrip | contracts/stake/src/contract.rs:430-436 | bonding then unbonding the same amount with no time passing succeeds and restores the total and locked stake |
| Bonding.TotalStake | contracts/stake/src/contract.rs:867-892 | a record's total stake is at least its free stake and at least its locked part at any time |
| Bonding.TotalLocked | contracts/stake/src/contract.rs:867-892 | the part of a record still locked is at most all of its locked tokens |
| Ledger.Staked | contracts/stake/src/contract.rs:867-892 | the response holds the record's total stake, its locked part at the given time, the queried period and the given cw20 address, and the locked part never exceeds the stake |
| Ledger.AllStaked | contracts/stake/src/contract.rs:894-915 | there is one response per configured period in which the staker has a record, each equal to that period's single query; with Ledger.AllStakedInOrder, the responses follow configuration order without repeats |
| Ledger.AllStakedInOrder | contracts/stake/src/contract.rs:894-915 | the responses are the staker's records taken at strictly increasing positions of the configured periods, and every configured period with a record appears |
| Stake.Contract.QueryStaked | contracts/stake/src/contract.rs:867-892 | an unknown period fails (the code's generic "No unbonding period found" error, modelled as NoUnbondingPeriodFound); otherwise the response holds the record's stake and locked part, the period and the stored cw20 address |
| Stake.Contract.QueryAllStaked | contracts/stake/src/contract.rs:894-915 | the responses cover exactly the configured periods in which the staker has a record, once each and in configuration order; each holds that record's total stake, its locked part (within the stake), its period and the stored cw20 address |
| Curves.Constant | contracts/stake/src/contract.rs:237 | the constant curve has the same value at every time |
| Curves.ValueAt | contracts/stake/src/contract.rs:163-178 | a curve is flat at its first value before its first breakpoint and at its last value after its last one |
| Curves.Range | contracts/stake/src/contract.rs:163-167 | the range's low end is at most, and its high end at least, the curve's first value |
| Curves.ValueInRange | contracts/stake/src/contract.rs:163-167 | every value of a curve lies within its range |
| Curves.RangeAttained | contracts/stake/src/contract.rs:163-167 | the ends of the range are values the curve takes at its breakpoints |
| Curves.ValueAtBreakpoint | contracts/stake/src/contract.rs:175-177 | at a breakpoint the curve takes that breakpoint's value |
| Curves.RangeOfDecreasing | contracts/stake/src/contract.rs:178 | a decreasing curve starts at its maximum and ends at its minimum |
| Curves.ValueMonotone | contracts/stake/src/contract.rs:178 | the value of a decreasing curve never rises over time |
| Curves.Shift | contracts/stake/src/contract.rs:175 | shifting moves every breakpoint later by the same time and keeps its value |
| Curves.ShiftValue | contracts/stake/src/contract.rs:175 | the shifted curve takes at t plus the shift the value the original took at t, and holds its first value until then |
| Curves.ShiftRange | contracts/stake/src/contract.rs:175 | shifting keeps the range, and keeps whether the curve is decreasing |
| Curves.Merge | contracts/stake/src/contract.rs:177 | the breakpoint times of the combination are the sorted union of both curves' times |
| Curves.Combine | contracts/stake/src/contract.rs:177 | at every breakpoint the combined curve is the sum of both curves, and its breakpoints are the union of theirs |
| Curves.CombineValue | contracts/stake/src/contract.rs:177 | at any breakpoint of either curve, the combination's value is the sum of their values |
| Curves.CombineDecreasing | contracts/stake/src/contract.rs:177-178 | two decreasing curves combine into a decreasing curve |
| Curves.FundedScheduleBounded | contracts/stake/src/contract.rs:163-175 | a schedule that passes the range check never commits more than the amount funded, at any time after the shift |
| Curves.FundedScheduleReachesZero | contracts/stake/src/contract.rs:163-175 | such a schedule reaches zero at one of its shifted breakpoints |
| Handlers.RestakedKeepsPoints | contracts/stake/src/contract.rs:619-634 | changing one staker's records and correcting that staker's rewards leaves every staker's points as they were |
| Handlers.ValidFromParts | contracts/stake/src/contract.rs:578-655 | the invariant survives a change that keeps valid totals, keeps the token info matching the records and claims, and changes nothing else |
| Handlers.RestakedValid | contracts/stake/src/contract.rs:327-334 | replacing the records and totals keeps the invariant when they agree and staked still covers the records |
| Handlers.RestakedLedger | contracts/stake/src/contract.rs:327-334 | replacing the records keeps the ledger invariant when staked still covers them |
| Handlers.UnbondedLedger | contracts/stake/src/contract.rs:636-649 | the unbonded state's token info again matches its records and claims |
| Handlers.UnbondedValid | contracts/stake/src/contract.rs:578-655 | the unbonded state satisfies the invariant |
| Handlers.UnbondOutcome | contracts/stake/src/contract.rs:587-614 | on a valid state, an unbond fails exactly for an unknown period or a shortage of releasable stake, with those errors |
| Handlers.UnbondSpec | contracts/stake/src/contract.rs:578-655 | an unbond for an unconfigured period fails with NoUnbondingPeriodFound before anything else; a success keeps the configuration, the admin, the flows and the curves |
| Handlers.UnbondEffect | contracts/stake/src/contract.rs:578-655 | a successful unbond lowers the record's stake and staked by exactly the amount, raises unbonding by it, appends one claim for it maturing after the period, and leaves config, admin, flows and curves unchanged |
| Handlers.UnbondKeepsInvariant | contracts/stake/src/contract.rs:578-655 | a successful unbond keeps the invariant |
| Handlers.UnbondKeepsPoints | contracts/stake/src/contract.rs:616-634 | an unbond leaves every staker's points in every flow unchanged |
| Stake.Contract.Unbond | contracts/stake/src/contract.rs:578-655 | the stored state becomes the unbond transition's result on success; on failure the method returns its error and the state is unchanged; the invariant is kept |
| Handlers.RebondTotals | contracts/stake/src/contract.rs:327-334 | on valid totals, both period updates of a rebond succeed and the totals again match the records |
| Handlers.RebondOutcome | contracts/stake/src/contract.rs:264-302 | on a valid state, a rebond fails exactly when its checks fail, with their error, or when the source record lacks releasable stake |
| Handlers.RebondSpec | contracts/stake/src/contract.rs:255-359 | a rebond whose checks fail returns their error; a success keeps the configuration, the admin, the flows, the curves, the token info and the claims |
| Handlers.RebondEffect | contracts/stake/src/contract.rs:255-359 | a successful rebond takes the amount from the source record and puts it into the target, locked for the difference when the target period is shorter; the sum of all records, the token info and the claims are unchanged |
| Handlers.RebondKeepsInvariant | contracts/stake/src/contract.rs:255-359 | a successful rebond keeps the invariant |
| Handlers.RebondKeepsPoints | contracts/stake/src/contract.rs:337-352 | a rebond leaves every staker's points in every flow unchanged |
| Handlers.MovedKeepsPoints | contracts/stake/src/contract.rs:337-352 | changing two records of one staker, then correcting, keeps every staker's points |
| Stake.Contract.Rebond | contracts/stake/src/contract.rs:255-359 | the stored state becomes the rebond transition's result on success; on failure the method returns its error and the state is unchanged; the invariant is kept |
| Handlers.DelegateLoop | contracts/stake/src/contract.rs:419-460 | the loop over the delegations gives the same result as the delegation transition, including its first failure |
| Handlers.BondOne | contracts/stake/src/contract.rs:419-460 | one delegation to a period without a total fails with NoUnbondingPeriodFound; a success adds exactly the delegated amount to the recipient's total stake in that period and keeps the configuration, the admin, the flows, the curves, the token info and the claims |
| Handlers.DelegateAll | contracts/stake/src/contract.rs:419-460 | a successful delegation loop changes only records, totals and corrections |
| Handlers.DelegateAllTotals | contracts/stake/src/contract.rs:419-460 | in a configured period the loop always succeeds: the records are the delegated ones, their sum grows by the delegation total, the totals keep matching the records, and nothing else changes |
| Handlers.DelegateAllPoints | contracts/stake/src/contract.rs:419-460 | the loop leaves every staker's points in every flow unchanged |
| Handlers.MassBondEffect | contracts/stake/src/contract.rs:381-478 | a mass bond fails exactly when its checks fail, with their error; on success every recipient's free stake grows by the sum delegated to it, staked grows by the amount sent, and the invariant holds |
| Handlers.MassBondSpec | contracts/stake/src/contract.rs:381-478 | a mass bond whose checks fail returns their error; a success keeps the configuration, the admin, the flows, the curves and the claims, and raises staked by exactly the amount sent |
| Stake.Contract.MassBond | contracts/stake/src/contract.rs:381-478 | the stored state becomes the mass-bond transition's result on success; on failure the method returns its error and the state is unchanged; the invariant is kept |
| Handlers.BondEffect | contracts/stake/src/contract.rs:361-379 | a bond of the configured token into a configured period succeeds, and changes exactly the staker's record in that period, adding the amount as free stake |
| Stake.Contract.Bond | contracts/stake/src/contract.rs:361-379 | a bond behaves as a mass bond of the whole amount to one staker, and keeps the invariant |
| Handlers.ClaimEffect | contracts/stake/src/contract.rs:697-731 | a claim fails with NothingToClaim exactly when no matured claim holds tokens; otherwise it pays every matured claim out in one transfer of the staked token to the sender, keeps each unmatured claim queued as often as it was, lowers unbonding by exactly the sum paid, and keeps the invariant |
| Handlers.ClaimSpec | contracts/stake/src/contract.rs:697-731 | a claim fails only with NothingToClaim; a success pays a positive amount of the configured cw20 token to the sender and keeps the records, totals, configuration, admin, flows and curves |
| Stake.Contract.Claim | contracts/stake/src/contract.rs:697-731 | on success the method returns the transfer and stores the claim transition's state; on failure it returns the error and changes nothing; the invariant is kept |
| Handlers.CreateFlowEffect | contracts/stake/src/contract.rs:185-253 | creating a flow fails exactly when its checks fail; on success exactly the new asset's flow is added, equal to a fresh distribution with the given manager and multipliers and a curve that is zero at every time, every other flow and curve, and every other stored item, is unchanged, and the invariant holds, so the staked token never gets a flow and the count stays within max_distributions |
| Handlers.CreateFlowSpec | contracts/stake/src/contract.rs:185-253 | creating a flow whose checks fail returns their error; a success changes only the flows and the reward curves |
| Stake.Contract.CreateDistributionFlow | contracts/stake/src/contract.rs:185-253 | the stored state becomes the flow-creation transition's result on success; on failure the method returns its error and the state is unchanged; the invariant is kept |
| Handlers.FundEffect | contracts/stake/src/contract.rs:130-151 | a successful native fund keeps the invariant and changes nothing but the reward curves |
| Handlers.FundSpec | contracts/stake/src/contract.rs:130-151 | a successful fund changes only reward curves, and keeps their set |
| Stake.Contract.FundDistribution | contracts/stake/src/contract.rs:130-151 | the loop over the attached coins stores the curves of the fund transition only when every coin succeeds; on failure the state is unchanged; the invariant is kept |
| Handlers.ReceiveFundEffect | contracts/stake/src/contract.rs:570-574 | funding with the staked token always fails; any successful fund keeps the invariant and changes nothing but the reward curves |
| Handlers.ReceiveFundSpec | contracts/stake/src/contract.rs:570-574 | a cw20 fund from a token without a flow fails with NoRewardCurve; a success changes only reward curves, and only the sending token's, which becomes its old curve combined with the schedule shifted to the block time |
| Stake.Contract.ReceiveFund | contracts/stake/src/contract.rs:570-574 | the stored state becomes the cw20-fund transition's result on success; on failure the state is unchanged; the invariant is kept |

## Left out

- Ledger.InitialConfig, Handlers.InitialState, Handlers.InitialStateValid and Stake.Contract.Instantiate: they model `instantiate` with the correction under Findings, storing the message's cw20 contract. The code as written stores a hard-coded address; that is modelled by Ledger.InitialConfigAsWritten.
- Message decoding, dispatch (`execute`, `receive`, `query`) and response attributes are not modelled; each handler takes its decoded arguments.
- `addr_validate` and `AssetInfo::validate` are not modelled; addresses and native denominations are taken as valid.
- The admin check is `admin == Some(sender)`. The internals of the cw_controllers admin item, and `UpdateAdmin`, are not modelled.
- `execute_distribute_rewards`, `execute_withdraw_rewards` and `execute_delegate_withdrawal` are not modelled. Their code lives outside `contract.rs`, so `shares_per_point` only grows in the `Rewards.Event` history model.
- `query_annualized_rewards`, `query_rewards`, `query_total_rewards`, `query_bonding_info`, `query_total_staked`, `query_total_unbonding`, and the claim and distribution queries are not modelled; only `query_staked` and `query_all_staked` are.
- `BondingInfo`, the claims store, the `Curve` type and `calc_rewards_power` come from other crates. `BondingInfo`, the claims store and `Curve` are modelled here as simple concrete definitions that follow the behaviour the contract relies on; `calc_rewards_power` is modelled as per-period `Decimal` products rounded down and divided by `tokens_per_power`.
- Rewards.PeriodPower: with `tokens_per_power` = 0 it gives 0; the code it stands for is not part of this model.
- Curves.Combine: curves are piecewise linear with non-negative integer values and round down between breakpoints. Saturating-linear and other curve kinds, and their exact rounding, are not modelled.
- Ledger.RewardConfigUpdate: a combined curve that is not decreasing fails here with `CurveNotMonotonic`, standing for the error `validate_monotonic_decreasing` returns; a failing range check is `InvalidRewards`, as in the code.
- Rewards.ApplyCorrection: the correction is stored as `shares_correction += shares_per_point * (new - old)` with points = power * shares_per_point - correction. This sign convention is an assumption; the function's code is not part of this model.
- Integer widths: `Uint128` and `u64` are unbounded naturals, so checked additions never overflow here. A checked subtraction in `update_total_stake` that would go below zero is modelled as `Overflow`, and saturating subtractions as `SatSub`.
- Bonding.ReleaseStake: releasing more than the free stake fails with the separate error `NotEnoughStake`; in the code that checked subtraction raises the same overflow error as `update_total_stake`, so the model distinguishes two errors the code does not.
- Stake.Contract.QueryStaked: an unknown period is reported as `NoUnbondingPeriodFound`; the code returns a generic standard error with the text "No unbonding period found".
- Totals.FindPeriod: for a period listed twice, the model takes the first entry; the binary search in the code may land on either. With duplicates, the later entry is never updated.
- Stake.Contract: a handler loads at the start and commits at the end, so the order of the intermediate `save` calls inside a handler is not modelled. A failed message stores nothing, matching how the host reverts it.
- Ledger.UpdateAllRewards: the loop visits the flows in set order rather than ascending key order. The result does not depend on the order, since each visit writes only its own key.
- Stake.Contract.Unbond and Stake.Contract.Rebond: the rewards are corrected before the totals are updated, while the code updates the totals first. Power does not read the totals, so the result is the same.
- In the receive-delegation `Delegate` message, the choice between `delegate_as` and the wrapper sender is not modelled; `Stake.Contract.Bond` takes the staker address.
- The cw20 transfer a claim emits is modelled as a `Ledger.Transfer` value; submessages and their execution are not modelled.
- Claims.ClaimTokens: `claim_tokens` is modelled without a cap (the code passes `None`).
- Block time is a parameter; block height and chain identity are not modelled.

## Findings

| source | as written | input that shows it | evidently intended | confidence | as-written member | corrected member |
|---|---|---|---|---|---|---|
| contracts/stake/src/contract.rs:72-74 | `instantiate` ignores the message's `cw20_contract` and stores a hard-coded address (marked "TODO: remove this"); the validated line above it is commented out | instantiate with cw20 contract "wasm1234567890", then bond tokens sent by that contract: the bond fails with Cw20AddressesNotMatch | store the message's cw20 contract, so bonds of the configured token are accepted | high that it is unintended (left behind with a TODO); not executed | Ledger.AsWrittenRefusesConfiguredToken | Ledger.ConfiguredTokenAccepted |
