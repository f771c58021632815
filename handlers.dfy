/** The staking contract's handlers as transitions of its whole stored
    state: each function gives the state after the message, or the error
    the message ends in (the transaction is then reverted, so the state is
    unchanged). The lemmas state what each handler promises, for every state
    that satisfies the invariant. */
module Handlers {
  import opened Common
  import opened Sums
  import Bonding
  import Claims
  import opened Totals
  import opened Rewards
  import opened Curves
  import opened Ledger

  /** Everything the contract stores. */
  datatype State = State(
    config: Config,
    admin: Option<Addr>,
    tokenInfo: TokenInfo,
    totals: seq<(Period, TotalStake)>,
    stake: StakeMap,
    claims: ClaimMap,
    distributions: map<Asset, Distribution>,
    adjustments: AdjustmentMap,
    rewardCurves: map<Asset, Curve>)

  /** The invariant every handler keeps. */
  ghost predicate StateValid(s: State)
  {
    ConfigValid(s.config)
    && TotalsValid(s.config, s.totals, s.stake)
    && FlowsValid(s.config, s.distributions, s.rewardCurves)
    && LedgerValid(s.tokenInfo, s.stake, s.claims)
  }

  /** The state `instantiate` stores: the configuration with `min_bond` at
      least 1 and sorted periods, the message's admin, and one entry in the
      totals per configured period. */
  function InitialState(msg: InstantiateMsg, sender: Addr): (r: State)
    ensures ConfigValid(r.config) && r.admin == msg.admin
    ensures PeriodsOf(r.totals) == r.config.unbondingPeriods
  {
    var cfg := InitialConfig(msg, sender);
    State(cfg, msg.admin, TokenInfo(0, 0), InitialTotals(cfg.unbondingPeriods),
          map[], map[], map[], map[], map[])
  }

  /** A freshly instantiated contract satisfies the invariant, holds no
      stake, no claims, no flows, no reward curves and no corrections, and
      has one zero total per configured period. */
  lemma InitialStateValid(msg: InstantiateMsg, sender: Addr)
    ensures var s := InitialState(msg, sender);
            StateValid(s) && s.tokenInfo == TokenInfo(0, 0) && s.stake == map[] && s.claims == map[]
            && s.distributions == map[] && s.rewardCurves == map[] && s.adjustments == map[]
            && PeriodsOf(s.totals) == s.config.unbondingPeriods
            && s.config.cw20Contract == msg.cw20Contract
            && forall i :: 0 <= i < |s.totals| ==> s.totals[i].1 == ZeroTotal
  {
    var s := InitialState(msg, sender);
    InitialTotalsMatch(s.config.unbondingPeriods, s.config.minBond);
    var none: map<Addr, nat> := map[];
    assert ClaimTotals(map[]) == none;
    var noStakes: map<(Addr, Period), nat> := map[];
    assert AllStakes(map[]) == noStakes;
  }

  // ---------------------------------------------------------------- the common step

  /** `update_rewards` in every flow for `staker`, whose records went from
      `s.stake` to `stake1`: the powers before and after, and the corrections
      they call for. */
  function Adjusted(s: State, staker: Addr, stake1: StakeMap): AdjustmentMap
  {
    Corrected(s.adjustments, s.distributions, staker,
              CalcRewardsPowers(s.config, s.distributions, s.stake, staker),
              CalcRewardsPowers(s.config, s.distributions, stake1, staker), s.distributions.Keys)
  }

  /** The records replaced by `stake1`, the totals by `totals` and the
      correction records by `adj` (a handler passes `Adjusted`). */
  function Restaked(s: State, stake1: StakeMap, totals: seq<(Period, TotalStake)>, adj: AdjustmentMap): State
  {
    s.(stake := stake1, totals := totals, adjustments := adj)
  }

  /** Nothing but the records, the totals, the corrections, the token info
      and the claims changed. */
  predicate SameElsewhere(s: State, t: State)
  {
    t.config == s.config && t.admin == s.admin && t.distributions == s.distributions
    && t.rewardCurves == s.rewardCurves
  }

  /** A change of one staker's records leaves every staker's points in every
      flow as they were. */
  lemma RestakedKeepsPoints(s: State, staker: Addr, stake1: StakeMap)
    requires forall a, p :: a != staker && p in s.config.unbondingPeriods ==> Get(stake1, a, p) == Get(s.stake, a, p)
    ensures PointsKept(s.config, s.distributions, s.stake, s.adjustments, stake1, Adjusted(s, staker, stake1))
  {
    CorrectionKeepsPoints(s.config, s.distributions, s.stake, stake1, s.adjustments, staker);
  }

  /** The invariant survives when the records and totals are valid together
      and the token info and claims still match them. */
  lemma ValidFromParts(s: State, t: State)
    requires StateValid(s) && SameElsewhere(s, t)
    requires TotalsValid(t.config, t.totals, t.stake) && LedgerValid(t.tokenInfo, t.stake, t.claims)
    ensures StateValid(t)
  {
  }

  /** Replacing the records and totals keeps the invariant when the new
      records and totals agree and `staked` still covers the records. */
  lemma RestakedValid(s: State, stake1: StakeMap, totals: seq<(Period, TotalStake)>, adj: AdjustmentMap)
    requires StateValid(s) && TotalsValid(s.config, totals, stake1)
    requires MapSum(AllStakes(stake1)) <= s.tokenInfo.staked
    ensures StateValid(Restaked(s, stake1, totals, adj))
  {
    RestakedLedger(s, stake1, totals, adj);
  }

  lemma RestakedLedger(s: State, stake1: StakeMap, totals: seq<(Period, TotalStake)>, adj: AdjustmentMap)
    requires LedgerValid(s.tokenInfo, s.stake, s.claims)
    requires MapSum(AllStakes(stake1)) <= s.tokenInfo.staked
    ensures var t := Restaked(s, stake1, totals, adj);
            LedgerValid(t.tokenInfo, t.stake, t.claims)
  {
  }

  // ---------------------------------------------------------------- unbond

  /** The state a successful unbond leaves: the released record, the new
      totals, the corrections, `staked` lowered and `unbonding` raised by
      `amount`, and a claim maturing once the period has passed. */
  function Unbonded(s: State, sender: Addr, amount: nat, period: Period, now: Time,
                    b: Bonding.BondingInfo, totals: seq<(Period, TotalStake)>, adj: AdjustmentMap): State
  {
    State(s.config, s.admin, TokenInfo(SatSub(s.tokenInfo.staked, amount), s.tokenInfo.unbonding + amount),
          totals, s.stake[(sender, period) := b],
          s.claims[sender := Claims.CreateClaim(ClaimsOf(s.claims, sender), amount, now + period)],
          s.distributions, adj, s.rewardCurves)
  }

  /** `execute_unbond`: an unknown period is refused before anything else;
      a success changes neither the configuration, the admin, the flows nor
      the reward curves. */
  function UnbondSpec(s: State, sender: Addr, amount: nat, period: Period, now: Time): (r: Result<State>)
    ensures period !in s.config.unbondingPeriods ==> r == Err(NoUnbondingPeriodFound(period))
    ensures r.Ok? ==> SameElsewhere(s, r.value)
  {
    if period !in s.config.unbondingPeriods then Err(NoUnbondingPeriodFound(period))
    else
      match Bonding.ReleaseStake(Get(s.stake, sender, period), now, amount)
      case Err(e) => Err(e)
      case Ok(b) =>
        match UpdateTotals(s.totals, s.config.minBond, period,
                           Bonding.TotalStake(Get(s.stake, sender, period)), Bonding.TotalStake(b))
        case Err(e) => Err(e)
        case Ok(totals) =>
          Ok(Unbonded(s, sender, amount, period, now, b, totals, Adjusted(s, sender, s.stake[(sender, period) := b])))
  }

  lemma UnbondedLedger(s: State, sender: Addr, amount: nat, period: Period, now: Time,
                       b: Bonding.BondingInfo, totals: seq<(Period, TotalStake)>, adj: AdjustmentMap)
    requires LedgerValid(s.tokenInfo, s.stake, s.claims)
    requires Bonding.TotalStake(b) + amount == Bonding.TotalStake(Get(s.stake, sender, period))
    ensures var t := Unbonded(s, sender, amount, period, now, b, totals, adj);
            LedgerValid(t.tokenInfo, t.stake, t.claims) && t.tokenInfo.staked + amount == s.tokenInfo.staked
  {
    var info := TokenInfo(SatSub(s.tokenInfo.staked, amount), s.tokenInfo.unbonding + amount);
    var cs := Claims.CreateClaim(ClaimsOf(s.claims, sender), amount, now + period);
    UnbondLedger(s.tokenInfo, s.stake, s.claims, sender, period, b, amount, now + period);
    assert LedgerValid(info, s.stake[(sender, period) := b], s.claims[sender := cs]);
  }

  lemma UnbondedValid(s: State, sender: Addr, amount: nat, period: Period, now: Time,
                      b: Bonding.BondingInfo, totals: seq<(Period, TotalStake)>, adj: AdjustmentMap)
    requires StateValid(s) && TotalsValid(s.config, totals, s.stake[(sender, period) := b])
    requires Bonding.TotalStake(b) + amount == Bonding.TotalStake(Get(s.stake, sender, period))
    ensures var t := Unbonded(s, sender, amount, period, now, b, totals, adj);
            StateValid(t) && t.tokenInfo.staked + amount == s.tokenInfo.staked
  {
    UnbondedLedger(s, sender, amount, period, now, b, totals, adj);
  }

  /** An unbond fails exactly on an unknown period or a shortage of
      releasable stake, with those errors. */
  lemma UnbondOutcome(s: State, sender: Addr, amount: nat, period: Period, now: Time)
    requires StateValid(s)
    ensures var r := UnbondSpec(s, sender, amount, period, now);
            var rec := Get(s.stake, sender, period);
            (period !in s.config.unbondingPeriods ==> r == Err(NoUnbondingPeriodFound(period)))
            && ((period in s.config.unbondingPeriods && amount > Bonding.TotalStake(rec) - Bonding.TotalLocked(rec, now))
                ==> r == Err(NotEnoughStake))
            && (r.Ok? <==> period in s.config.unbondingPeriods
                           && amount <= Bonding.TotalStake(rec) - Bonding.TotalLocked(rec, now))
  {
    if period in s.config.unbondingPeriods {
      var rel := Bonding.ReleaseStake(Get(s.stake, sender, period), now, amount);
      if rel.Ok? {
        RecordStepTotals(s.config, s.totals, s.stake, sender, period, rel.value);
      }
    }
  }

  /** A successful unbond lowers the record's total stake by `amount`,
      lowers `staked` by exactly `amount` (the saturating subtraction never
      saturates), raises `unbonding` by it, and appends one claim of `amount`
      maturing after the period. */
  lemma UnbondEffect(s: State, sender: Addr, amount: nat, period: Period, now: Time)
    requires StateValid(s)
    requires UnbondSpec(s, sender, amount, period, now).Ok?
    ensures var t := UnbondSpec(s, sender, amount, period, now).value;
            var b := Bonding.ReleaseStake(Get(s.stake, sender, period), now, amount).value;
            SameElsewhere(s, t)
            && t.stake == s.stake[(sender, period) := b]
            && Bonding.TotalStake(b) + amount == Bonding.TotalStake(Get(s.stake, sender, period))
            && t.tokenInfo.staked + amount == s.tokenInfo.staked
            && t.tokenInfo.unbonding == s.tokenInfo.unbonding + amount
            && t.claims == s.claims[sender := Claims.CreateClaim(ClaimsOf(s.claims, sender), amount, now + period)]
  {
    var b := Bonding.ReleaseStake(Get(s.stake, sender, period), now, amount).value;
    UnbondLedger(s.tokenInfo, s.stake, s.claims, sender, period, b, amount, now + period);
  }

  /** A successful unbond keeps the invariant. */
  lemma UnbondKeepsInvariant(s: State, sender: Addr, amount: nat, period: Period, now: Time)
    requires StateValid(s)
    requires UnbondSpec(s, sender, amount, period, now).Ok?
    ensures StateValid(UnbondSpec(s, sender, amount, period, now).value)
  {
    var b := Bonding.ReleaseStake(Get(s.stake, sender, period), now, amount).value;
    RecordStepTotals(s.config, s.totals, s.stake, sender, period, b);
    var totals := UpdateTotals(s.totals, s.config.minBond, period,
                               Bonding.TotalStake(Get(s.stake, sender, period)), Bonding.TotalStake(b)).value;
    UnbondedValid(s, sender, amount, period, now, b, totals, Adjusted(s, sender, s.stake[(sender, period) := b]));
  }

  /** An unbond leaves every staker's points in every flow as they were. */
  lemma UnbondKeepsPoints(s: State, sender: Addr, amount: nat, period: Period, now: Time)
    requires UnbondSpec(s, sender, amount, period, now).Ok?
    ensures var t := UnbondSpec(s, sender, amount, period, now).value;
            PointsKept(s.config, s.distributions, s.stake, s.adjustments, t.stake, t.adjustments)
  {
    var b := Bonding.ReleaseStake(Get(s.stake, sender, period), now, amount).value;
    RestakedKeepsPoints(s, sender, s.stake[(sender, period) := b]);
  }

  // ---------------------------------------------------------------- rebond

  /** `execute_rebond`: the source record released, the target record
      credited, then the totals of both periods updated in that order. */
  function RebondSpec(s: State, sender: Addr, amount: nat, bondFrom: Period, bondTo: Period, now: Time)
    : (r: Result<State>)
    ensures RebondCheck(s.config, amount, bondFrom, bondTo).Fail? ==>
              r == Err(RebondCheck(s.config, amount, bondFrom, bondTo).error)
    ensures r.Ok? ==> SameElsewhere(s, r.value) && r.value.tokenInfo == s.tokenInfo && r.value.claims == s.claims
  {
    match RebondCheck(s.config, amount, bondFrom, bondTo)
    case Fail(e) => Err(e)
    case Pass =>
      match Bonding.ReleaseStake(Get(s.stake, sender, bondFrom), now, amount)
      case Err(e) => Err(e)
      case Ok(from) =>
        var to := RebondTarget(Get(s.stake, sender, bondTo), bondFrom, bondTo, now, amount);
        match UpdateTotals(s.totals, s.config.minBond, bondFrom,
                           Bonding.TotalStake(Get(s.stake, sender, bondFrom)), Bonding.TotalStake(from))
        case Err(e) => Err(e)
        case Ok(totals1) =>
          match UpdateTotals(totals1, s.config.minBond, bondTo,
                             Bonding.TotalStake(Get(s.stake, sender, bondTo)), Bonding.TotalStake(to))
          case Err(e) => Err(e)
          case Ok(totals2) =>
            var stake1 := s.stake[(sender, bondFrom) := from][(sender, bondTo) := to];
            Ok(Restaked(s, stake1, totals2, Adjusted(s, sender, stake1)))
  }

  /** Both totals updates succeed on a valid state. */
  lemma RebondTotals(s: State, sender: Addr, bondFrom: Period, bondTo: Period,
                     from: Bonding.BondingInfo, to: Bonding.BondingInfo)
    requires TotalsValid(s.config, s.totals, s.stake)
    requires bondFrom != bondTo && bondFrom in s.config.unbondingPeriods && bondTo in s.config.unbondingPeriods
    ensures var r1 := UpdateTotals(s.totals, s.config.minBond, bondFrom,
                                   Bonding.TotalStake(Get(s.stake, sender, bondFrom)), Bonding.TotalStake(from));
            r1.Ok? &&
            var r2 := UpdateTotals(r1.value, s.config.minBond, bondTo,
                                   Bonding.TotalStake(Get(s.stake, sender, bondTo)), Bonding.TotalStake(to));
            r2.Ok? && TotalsValid(s.config, r2.value, s.stake[(sender, bondFrom) := from][(sender, bondTo) := to])
  {
    RecordStepTotals(s.config, s.totals, s.stake, sender, bondFrom, from);
    var stake1 := s.stake[(sender, bondFrom) := from];
    var totals1 := UpdateTotals(s.totals, s.config.minBond, bondFrom,
                                Bonding.TotalStake(Get(s.stake, sender, bondFrom)), Bonding.TotalStake(from)).value;
    assert Get(stake1, sender, bondTo) == Get(s.stake, sender, bondTo);
    RecordStepTotals(s.config, totals1, stake1, sender, bondTo, to);
  }

  /** A rebond fails exactly when its checks fail (with their error) or the
      source record lacks releasable stake. */
  lemma RebondOutcome(s: State, sender: Addr, amount: nat, bondFrom: Period, bondTo: Period, now: Time)
    requires StateValid(s)
    ensures var r := RebondSpec(s, sender, amount, bondFrom, bondTo, now);
            var check := RebondCheck(s.config, amount, bondFrom, bondTo);
            var rec := Get(s.stake, sender, bondFrom);
            (check.Fail? ==> r == Err(check.error))
            && ((check.Pass? && amount > Bonding.TotalStake(rec) - Bonding.TotalLocked(rec, now)) ==>
                  r == Err(NotEnoughStake))
            && (r.Ok? <==> check.Pass? && amount <= Bonding.TotalStake(rec) - Bonding.TotalLocked(rec, now))
  {
    if RebondCheck(s.config, amount, bondFrom, bondTo).Pass? {
      var rel := Bonding.ReleaseStake(Get(s.stake, sender, bondFrom), now, amount);
      if rel.Ok? {
        RebondTotals(s, sender, bondFrom, bondTo, rel.value,
                     RebondTarget(Get(s.stake, sender, bondTo), bondFrom, bondTo, now, amount));
      }
    }
  }

  /** A successful rebond takes `amount` out of the source record and puts it
      into the target record (locked until now + (from - to) when the target
      period is shorter); the sum of all records, the token info and the
      claims are unchanged. */
  lemma RebondEffect(s: State, sender: Addr, amount: nat, bondFrom: Period, bondTo: Period, now: Time)
    requires RebondSpec(s, sender, amount, bondFrom, bondTo, now).Ok?
    ensures var t := RebondSpec(s, sender, amount, bondFrom, bondTo, now).value;
            var from := Bonding.ReleaseStake(Get(s.stake, sender, bondFrom), now, amount).value;
            var to := RebondTarget(Get(s.stake, sender, bondTo), bondFrom, bondTo, now, amount);
            SameElsewhere(s, t)
            && t.stake == s.stake[(sender, bondFrom) := from][(sender, bondTo) := to]
            && MapSum(AllStakes(t.stake)) == MapSum(AllStakes(s.stake))
            && t.tokenInfo == s.tokenInfo && t.claims == s.claims
  {
    var from := Bonding.ReleaseStake(Get(s.stake, sender, bondFrom), now, amount).value;
    var to := RebondTarget(Get(s.stake, sender, bondTo), bondFrom, bondTo, now, amount);
    RebondLedger(s.stake, sender, bondFrom, bondTo, from, to, amount);
  }

  /** A successful rebond keeps the invariant. */
  lemma RebondKeepsInvariant(s: State, sender: Addr, amount: nat, bondFrom: Period, bondTo: Period, now: Time)
    requires StateValid(s)
    requires RebondSpec(s, sender, amount, bondFrom, bondTo, now).Ok?
    ensures StateValid(RebondSpec(s, sender, amount, bondFrom, bondTo, now).value)
  {
    var from := Bonding.ReleaseStake(Get(s.stake, sender, bondFrom), now, amount).value;
    var to := RebondTarget(Get(s.stake, sender, bondTo), bondFrom, bondTo, now, amount);
    var stake1 := s.stake[(sender, bondFrom) := from][(sender, bondTo) := to];
    RebondTotals(s, sender, bondFrom, bondTo, from, to);
    var totals1 := UpdateTotals(s.totals, s.config.minBond, bondFrom,
                                Bonding.TotalStake(Get(s.stake, sender, bondFrom)), Bonding.TotalStake(from)).value;
    var totals2 := UpdateTotals(totals1, s.config.minBond, bondTo,
                                Bonding.TotalStake(Get(s.stake, sender, bondTo)), Bonding.TotalStake(to)).value;
    RebondLedger(s.stake, sender, bondFrom, bondTo, from, to, amount);
    RestakedValid(s, stake1, totals2, Adjusted(s, sender, stake1));
  }

  /** A rebond leaves every staker's points in every flow as they were. */
  lemma RebondKeepsPoints(s: State, sender: Addr, amount: nat, bondFrom: Period, bondTo: Period, now: Time)
    requires RebondSpec(s, sender, amount, bondFrom, bondTo, now).Ok?
    ensures var t := RebondSpec(s, sender, amount, bondFrom, bondTo, now).value;
            PointsKept(s.config, s.distributions, s.stake, s.adjustments, t.stake, t.adjustments)
  {
    var from := Bonding.ReleaseStake(Get(s.stake, sender, bondFrom), now, amount).value;
    var to := RebondTarget(Get(s.stake, sender, bondTo), bondFrom, bondTo, now, amount);
    var stake1 := s.stake[(sender, bondFrom) := from][(sender, bondTo) := to];
    var t := RebondSpec(s, sender, amount, bondFrom, bondTo, now).value;
    assert t.stake == stake1 && t.adjustments == Adjusted(s, sender, stake1);
    MovedKeepsPoints(s, sender, bondFrom, bondTo, from, to);
  }

  /** Changing two records of one staker keeps every staker's points. */
  lemma MovedKeepsPoints(s: State, sender: Addr, p: Period, q: Period, from: Bonding.BondingInfo, to: Bonding.BondingInfo)
    ensures var stake1 := s.stake[(sender, p) := from][(sender, q) := to];
            PointsKept(s.config, s.distributions, s.stake, s.adjustments, stake1, Adjusted(s, sender, stake1))
  {
    RestakedKeepsPoints(s, sender, s.stake[(sender, p) := from][(sender, q) := to]);
  }

  // ---------------------------------------------------------------- bond

  /** One pass of `execute_mass_bond`'s loop: `amount` added to the free
      stake of `a`'s record, the period's total, the corrections. */
  function BondOne(s: State, p: Period, a: Addr, amount: nat): (r: Result<State>)
    ensures p !in PeriodsOf(s.totals) ==> r == Err(NoUnbondingPeriodFound(p))
    ensures r.Ok? ==> SameElsewhere(s, r.value) && r.value.tokenInfo == s.tokenInfo && r.value.claims == s.claims
    ensures r.Ok? ==> Bonding.TotalStake(Get(r.value.stake, a, p)) == Bonding.TotalStake(Get(s.stake, a, p)) + amount
  {
    var b := Bonding.AddUnlockedTokens(Get(s.stake, a, p), amount);
    match UpdateTotals(s.totals, s.config.minBond, p, Bonding.TotalStake(Get(s.stake, a, p)), Bonding.TotalStake(b))
    case Err(e) => Err(e)
    case Ok(totals) => Ok(Restaked(s, s.stake[(a, p) := b], totals, Adjusted(s, a, s.stake[(a, p) := b])))
  }

  /** The whole loop over the delegations; the first failure aborts. Only
      records, totals and corrections change. */
  function DelegateAll(s: State, p: Period, ds: seq<(Addr, nat)>): (r: Result<State>)
    ensures r.Ok? ==> SameElsewhere(s, r.value) && r.value.tokenInfo == s.tokenInfo && r.value.claims == s.claims
    decreases |ds|
  {
    if ds == [] then Ok(s)
    else
      match BondOne(s, p, ds[0].0, ds[0].1)
      case Err(e) => Err(e)
      case Ok(s1) => DelegateAll(s1, p, ds[1..])
  }

  /** The loop of `execute_mass_bond` over the delegations. */
  method DelegateLoop(s: State, p: Period, ds: seq<(Addr, nat)>) returns (r: Result<State>)
    ensures r == DelegateAll(s, p, ds)
  {
    var records, totals, adj := s.stake, s.totals, s.adjustments;
    var i := 0;
    while i < |ds|
      invariant 0 <= i <= |ds|
      invariant DelegateAll(s, p, ds) == DelegateAll(Restaked(s, records, totals, adj), p, ds[i..])
    {
      ghost var cur := Restaked(s, records, totals, adj);
      var (a, amount) := ds[i];
      assert ds[i..][0] == (a, amount) && ds[i..][1..] == ds[i + 1..];
      var b := Bonding.AddUnlockedTokens(Get(records, a, p), amount);
      var records1 := records[(a, p) := b];
      var adj1 := UpdateAllRewards(adj, s.distributions, a,
                                   CalcRewardsPowers(s.config, s.distributions, records, a),
                                   CalcRewardsPowers(s.config, s.distributions, records1, a));
      var totals1 := UpdateTotals(totals, s.config.minBond, p, Bonding.TotalStake(Get(records, a, p)), Bonding.TotalStake(b));
      if totals1.Err? {
        return Err(totals1.error);
      }
      records, totals, adj := records1, totals1.value, adj1;
      assert BondOne(cur, p, a, amount) == Ok(Restaked(s, records, totals, adj));
      i := i + 1;
    }
    assert ds[|ds|..] == [];
    r := Ok(Restaked(s, records, totals, adj));
  }

  /** In a configured period the loop always succeeds: the records are the
      delegated ones, their sum grows by the delegation total, the totals
      invariant holds, and nothing but records, totals and corrections
      changes. */
  lemma {:induction false} DelegateAllTotals(s: State, p: Period, ds: seq<(Addr, nat)>)
    requires TotalsValid(s.config, s.totals, s.stake) && p in s.config.unbondingPeriods
    ensures var r := DelegateAll(s, p, ds);
            r.Ok? && SameElsewhere(s, r.value)
            && r.value.stake == Delegated(s.stake, p, ds)
            && TotalsValid(s.config, r.value.totals, r.value.stake)
            && MapSum(AllStakes(r.value.stake)) == MapSum(AllStakes(s.stake)) + DelegationTotal(ds)
            && r.value.tokenInfo == s.tokenInfo && r.value.claims == s.claims
    decreases |ds|
  {
    if ds != [] {
      var (a, amount) := ds[0];
      var b := Bonding.AddUnlockedTokens(Get(s.stake, a, p), amount);
      RecordStepTotals(s.config, s.totals, s.stake, a, p, b);
      AllStakesUpdate(s.stake, a, p, b);
      var s1 := BondOne(s, p, a, amount).value;
      DelegateAllTotals(s1, p, ds[1..]);
    }
  }

  /** The loop keeps every staker's points in every flow. */
  lemma {:induction false} DelegateAllPoints(s: State, p: Period, ds: seq<(Addr, nat)>)
    requires DelegateAll(s, p, ds).Ok?
    ensures var t := DelegateAll(s, p, ds).value;
            PointsKept(s.config, s.distributions, s.stake, s.adjustments, t.stake, t.adjustments)
    decreases |ds|
  {
    if ds != [] {
      var (a, amount) := ds[0];
      var b := Bonding.AddUnlockedTokens(Get(s.stake, a, p), amount);
      var s1 := BondOne(s, p, a, amount).value;
      assert s1.stake == s.stake[(a, p) := b] && s1.adjustments == Adjusted(s, a, s1.stake);
      RestakedKeepsPoints(s, a, s1.stake);
      var t := DelegateAll(s1, p, ds[1..]).value;
      assert DelegateAll(s, p, ds).value == t;
      DelegateAllPoints(s1, p, ds[1..]);
      forall x, asset | asset in s.distributions
        ensures PointsOf(s.config, s.distributions, t.stake, t.adjustments, x, asset)
                == PointsOf(s.config, s.distributions, s.stake, s.adjustments, x, asset)
      {
        assert PointsOf(s1.config, s1.distributions, t.stake, t.adjustments, x, asset)
               == PointsOf(s1.config, s1.distributions, s1.stake, s1.adjustments, x, asset);
      }
    }
  }

  /** `execute_mass_bond`: the checks, the loop, then `staked` grows by the
      whole amount sent. */
  function MassBondSpec(s: State, senderToken: Addr, amountSent: nat, p: Period, ds: seq<(Addr, nat)>)
    : (r: Result<State>)
    ensures MassBondCheck(s.config, senderToken, amountSent, p, ds).Fail? ==>
              r == Err(MassBondCheck(s.config, senderToken, amountSent, p, ds).error)
    ensures r.Ok? ==> SameElsewhere(s, r.value) && r.value.claims == s.claims
                      && r.value.tokenInfo == TokenInfo(s.tokenInfo.staked + amountSent, s.tokenInfo.unbonding)
  {
    match MassBondCheck(s.config, senderToken, amountSent, p, ds)
    case Fail(e) => Err(e)
    case Pass =>
      match DelegateAll(s, p, ds)
      case Err(e) => Err(e)
      case Ok(s1) => Ok(s1.(tokenInfo := TokenInfo(s1.tokenInfo.staked + amountSent, s1.tokenInfo.unbonding)))
  }

  /** A mass bond fails exactly when its checks do, with their error; on
      success every recipient's free stake grows by what was delegated to it,
      `staked` grows by `amount_sent` (not by the delegation total), points
      are kept and the invariant holds. */
  lemma MassBondEffect(s: State, senderToken: Addr, amountSent: nat, p: Period, ds: seq<(Addr, nat)>)
    requires StateValid(s)
    ensures var r := MassBondSpec(s, senderToken, amountSent, p, ds);
            var check := MassBondCheck(s.config, senderToken, amountSent, p, ds);
            (check.Fail? ==> r == Err(check.error))
            && (check.Pass? ==>
                  r.Ok? && StateValid(r.value) && SameElsewhere(s, r.value)
                  && r.value.stake == Delegated(s.stake, p, ds)
                  && r.value.tokenInfo == TokenInfo(s.tokenInfo.staked + amountSent, s.tokenInfo.unbonding)
                  && r.value.claims == s.claims
                  && PointsKept(s.config, s.distributions, s.stake, s.adjustments, r.value.stake, r.value.adjustments))
  {
    if MassBondCheck(s.config, senderToken, amountSent, p, ds).Pass? {
      DelegateAllTotals(s, p, ds);
      DelegateAllPoints(s, p, ds);
      var t := MassBondSpec(s, senderToken, amountSent, p, ds).value;
      MassBondLedger(s.tokenInfo, s.stake, t.stake, s.claims, amountSent, DelegationTotal(ds));
      ValidFromParts(s, t);
    }
  }

  /** `execute_bond` is a mass bond of the whole amount to one staker: on
      success exactly that staker's free stake in the period grows by it. */
  lemma BondEffect(s: State, senderToken: Addr, amount: nat, p: Period, staker: Addr)
    requires TotalsValid(s.config, s.totals, s.stake)
    requires senderToken == s.config.cw20Contract && p in s.config.unbondingPeriods
    ensures var r := MassBondSpec(s, senderToken, amount, p, [(staker, amount)]);
            r.Ok? && r.value.stake == s.stake[(staker, p) := Bonding.AddUnlockedTokens(Get(s.stake, staker, p), amount)]
            && r.value.tokenInfo.staked == s.tokenInfo.staked + amount
  {
    var ds := [(staker, amount)];
    assert ds[1..] == [];
    assert DelegationTotal(ds) == amount;
    assert Delegated(s.stake, p, ds) == Delegated(s.stake[(staker, p) := Bonding.AddUnlockedTokens(Get(s.stake, staker, p), amount)], p, []);
    DelegateAllTotals(s, p, ds);
  }

  // ---------------------------------------------------------------- claim

  /** `execute_claim`: the released sum and the transfer paying it out. */
  function ClaimSpec(s: State, sender: Addr, now: Time): (r: Result<(State, Transfer)>)
    ensures r.Err? ==> r.error == NothingToClaim
    ensures r.Ok? ==> r.value.1.token == s.config.cw20Contract && r.value.1.recipient == sender
                      && r.value.1.amount > 0
                      && SameElsewhere(s, r.value.0) && r.value.0.stake == s.stake && r.value.0.totals == s.totals
  {
    var (release, waiting) := Claims.ClaimTokens(ClaimsOf(s.claims, sender), now);
    if release == 0 then Err(NothingToClaim)
    else
      Ok((s.(claims := s.claims[sender := waiting],
             tokenInfo := TokenInfo(s.tokenInfo.staked, SatSub(s.tokenInfo.unbonding, release))),
          Transfer(s.config.cw20Contract, sender, release)))
  }

  /** A claim fails with `NothingToClaim` exactly when no matured claim holds
      tokens; otherwise it pays every matured claim out in one transfer of
      the staked token, keeps the unmatured ones queued, lowers `unbonding`
      by exactly the sum paid out, and keeps the invariant. */
  lemma ClaimEffect(s: State, sender: Addr, now: Time)
    requires StateValid(s)
    ensures var r := ClaimSpec(s, sender, now);
            var cs := ClaimsOf(s.claims, sender);
            (r.Err? <==> forall c :: c in cs && Claims.IsMature(c, now) ==> c.amount == 0)
            && (r.Err? ==> r.error == NothingToClaim)
            && (r.Ok? ==>
                  var (t, transfer) := r.value;
                  StateValid(t) && SameElsewhere(s, t) && t.stake == s.stake
                  && transfer.token == s.config.cw20Contract && transfer.recipient == sender
                  && transfer.amount == Claims.ClaimSum(cs) - Claims.ClaimSum(t.claims[sender])
                  && (forall c :: c in t.claims[sender] <==> c in cs && !Claims.IsMature(c, now))
                  && (forall c :: multiset(t.claims[sender])[c]
                                 == if Claims.IsMature(c, now) then 0 else multiset(cs)[c])
                  && t.tokenInfo.staked == s.tokenInfo.staked
                  && t.tokenInfo.unbonding + transfer.amount == s.tokenInfo.unbonding)
  {
    ClaimLedger(s.tokenInfo, s.stake, s.claims, sender, now);
    var r := ClaimSpec(s, sender, now);
    if r.Ok? {
      ValidFromParts(s, r.value.0);
    }
  }

  // ---------------------------------------------------------------- flows

  /** `execute_create_distribution_flow`. */
  function CreateFlowSpec(s: State, sender: Addr, manager: Addr, asset: Asset, rewards: seq<(Period, nat)>)
    : (r: Result<State>)
    ensures FlowCheck(s.config, s.admin, sender, asset, rewards, s.distributions.Keys).Fail? ==>
              r == Err(FlowCheck(s.config, s.admin, sender, asset, rewards, s.distributions.Keys).error)
    ensures r.Ok? ==> r.value.(distributions := s.distributions, rewardCurves := s.rewardCurves) == s
  {
    match FlowCheck(s.config, s.admin, sender, asset, rewards, s.distributions.Keys)
    case Fail(e) => Err(e)
    case Pass =>
      Ok(s.(distributions := s.distributions[asset := NewDistribution(manager, rewards)],
            rewardCurves := s.rewardCurves[asset := Constant(0)]))
  }

  /** Creating a flow fails exactly when its checks do; on success the
      invariant holds (so the staked token never gets a flow and the flow
      count never exceeds `max_distributions`), exactly the flow for `asset`
      was added, with nothing paid in and a reward curve that is zero at
      every time, and nothing else changed. */
  lemma CreateFlowEffect(s: State, sender: Addr, manager: Addr, asset: Asset, rewards: seq<(Period, nat)>)
    requires StateValid(s)
    ensures var r := CreateFlowSpec(s, sender, manager, asset, rewards);
            var check := FlowCheck(s.config, s.admin, sender, asset, rewards, s.distributions.Keys);
            (check.Fail? ==> r == Err(check.error))
            && (check.Pass? ==> r.Ok? && StateValid(r.value)
                                && |r.value.distributions.Keys| == |s.distributions.Keys| + 1
                                && asset !in s.distributions
                                && r.value.distributions.Keys == s.distributions.Keys + {asset}
                                && r.value.distributions[asset] == NewDistribution(manager, rewards)
                                && (forall t :: ValueAt(r.value.rewardCurves[asset], t) == 0)
                                && (forall x :: x in s.distributions ==>
                                      r.value.distributions[x] == s.distributions[x]
                                      && r.value.rewardCurves[x] == s.rewardCurves[x])
                                && r.value.(distributions := s.distributions, rewardCurves := s.rewardCurves) == s)
  {
    if FlowCheck(s.config, s.admin, sender, asset, rewards, s.distributions.Keys).Pass? {
      NewFlowValid(s.config, s.distributions, s.rewardCurves, manager, asset, rewards, Constant(0));
      assert Decreasing(Constant(0));
      assert s.distributions[asset := NewDistribution(manager, rewards)].Keys == s.distributions.Keys + {asset};
    }
  }

  /** `execute_fund_distribution`. */
  function FundSpec(s: State, funds: seq<(string, nat)>, schedule: Curve, now: Time): (r: Result<State>)
    ensures r.Ok? ==> r.value == s.(rewardCurves := r.value.rewardCurves)
                      && r.value.rewardCurves.Keys == s.rewardCurves.Keys
  {
    match FundAll(s.rewardCurves, funds, schedule, now)
    case Err(e) => Err(e)
    case Ok(c) => Ok(s.(rewardCurves := c))
  }

  /** Funding keeps the invariant and changes nothing but reward curves. */
  lemma FundEffect(s: State, funds: seq<(string, nat)>, schedule: Curve, now: Time)
    requires StateValid(s)
    ensures var r := FundSpec(s, funds, schedule, now);
            r.Ok? ==> StateValid(r.value) && r.value == s.(rewardCurves := r.value.rewardCurves)
  {
    FundAllKeepsFlows(s.config, s.distributions, s.rewardCurves, funds, schedule, now);
  }

  /** The `Fund` receive message: `update_reward_config` for the sending
      token contract. */
  function ReceiveFundSpec(s: State, senderToken: Addr, amount: nat, schedule: Curve, now: Time): (r: Result<State>)
    ensures Token(senderToken) !in s.rewardCurves ==> r == Err(NoRewardCurve(Token(senderToken)))
    ensures r.Ok? ==> r.value == s.(rewardCurves := r.value.rewardCurves)
                      && r.value.rewardCurves.Keys == s.rewardCurves.Keys
    ensures r.Ok? ==> r.value.rewardCurves == s.rewardCurves[Token(senderToken) :=
                        Combine(s.rewardCurves[Token(senderToken)], Shift(schedule, now))]
  {
    match RewardConfigUpdate(s.rewardCurves, Token(senderToken), amount, schedule, now)
    case Err(e) => Err(e)
    case Ok(c) => Ok(s.(rewardCurves := c))
  }

  /** The staked token has no flow, so funding with it always fails; any
      successful fund keeps the invariant. */
  lemma ReceiveFundEffect(s: State, senderToken: Addr, amount: nat, schedule: Curve, now: Time)
    requires StateValid(s)
    ensures var r := ReceiveFundSpec(s, senderToken, amount, schedule, now);
            (senderToken == s.config.cw20Contract ==> r == Err(NoRewardCurve(Token(senderToken))))
            && (r.Ok? ==> StateValid(r.value) && r.value == s.(rewardCurves := r.value.rewardCurves))
  {
    FundKeepsFlows(s.config, s.distributions, s.rewardCurves, Token(senderToken), amount, schedule, now);
  }
}
