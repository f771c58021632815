/** The staking contract as an object: its stored items (`CONFIG`, `ADMIN`,
    `TOTAL_STAKED`, `TOTAL_PER_PERIOD`, `STAKE`, `CLAIMS`, `DISTRIBUTION`,
    `WITHDRAW_ADJUSTMENT`, `REWARD_CURVE`) are the fields of `Contract`, and
    each handler is a method that loads the items it needs, works through the
    handler's steps and stores the result. A handler that fails stores
    nothing, as the host discards the writes of a failed message. Every
    handler is proved against its transition in `Handlers`: on success the
    fields hold exactly the state the transition gives, on failure the method
    returns the transition's error and the state is unchanged, and a valid
    state stays valid. */
module Stake {
  import opened Common
  import Bonding
  import Claims
  import opened Totals
  import opened Rewards
  import opened Curves
  import opened Ledger
  import opened Handlers

  class Contract {
    var config: Config
    var admin: Option<Addr>
    var tokenInfo: TokenInfo
    var totals: seq<(Period, TotalStake)>
    var stake: StakeMap
    var claims: ClaimMap
    var distributions: map<Asset, Distribution>
    var adjustments: AdjustmentMap
    var rewardCurves: map<Asset, Curve>

    /** The fields as one value. */
    ghost function St(): State
      reads this
    {
      State(config, admin, tokenInfo, totals, stake, claims, distributions, adjustments, rewardCurves)
    }

    /** What every handler keeps. */
    ghost predicate Valid()
      reads this
    {
      StateValid(St())
    }

    /** `instantiate`: an empty ledger with one zero total per (sorted) period. */
    constructor Instantiate(msg: InstantiateMsg, sender: Addr)
      ensures St() == InitialState(msg, sender)
      ensures Valid()
    {
      var cfg := InitialConfig(msg, sender);
      config := cfg;
      admin := msg.admin;
      tokenInfo := TokenInfo(0, 0);
      totals := InitialTotals(cfg.unbondingPeriods);
      stake := map[];
      claims := map[];
      distributions := map[];
      adjustments := map[];
      rewardCurves := map[];
      InitialStateValid(msg, sender);
    }

    /** `update_total_stake`: the period's total follows the four-case rule;
        an unknown period or an underflow fails and changes nothing. */
    method UpdateTotalStake(period: Period, oldStake: nat, newStake: nat) returns (r: Outcome)
      modifies this`totals
      ensures match UpdateTotals(old(totals), config.minBond, period, oldStake, newStake)
              case Ok(t) => r == Pass && totals == t
              case Err(e) => r == Fail(e) && totals == old(totals)
    {
      var idx := FindPeriod(totals, period);
      if idx.None? {
        return Fail(NoUnbondingPeriodFound(period));
      }
      var i := idx.value;
      match NextTotal(totals[i].1, config.minBond, oldStake, newStake) {
        case Err(e) =>
          r := Fail(e);
        case Ok(t) =>
          totals := totals[i := (period, t)];
          r := Pass;
      }
    }

    /** Stores every item of `t`. */
    method Commit(t: State)
      modifies this
      ensures St() == t
    {
      config := t.config;
      admin := t.admin;
      tokenInfo := t.tokenInfo;
      totals := t.totals;
      stake := t.stake;
      claims := t.claims;
      distributions := t.distributions;
      adjustments := t.adjustments;
      rewardCurves := t.rewardCurves;
    }

    /** `execute_unbond`: takes `amount` of releasable stake out of the period,
        corrects the staker's rewards for the lost power, updates the period's
        total and queues a claim that matures after the unbonding period. */
    method Unbond(sender: Addr, amount: nat, period: Period, now: Time) returns (r: Outcome)
      modifies this
      ensures match UnbondSpec(old(St()), sender, amount, period, now)
              case Ok(t) => r == Pass && St() == t
              case Err(e) => r == Fail(e) && St() == old(St())
      ensures old(Valid()) ==> Valid()
    {
      var s := State(config, admin, tokenInfo, totals, stake, claims, distributions, adjustments, rewardCurves);
      if period !in s.config.unbondingPeriods {
        return Fail(NoUnbondingPeriodFound(period));
      }
      var rec := Get(s.stake, sender, period);
      var released := Bonding.ReleaseStake(rec, now, amount);
      if released.Err? {
        return Fail(released.error);
      }
      var b := released.value;
      var stake1 := s.stake[(sender, period) := b];
      var adj1 := Ledger.UpdateAllRewards(s.adjustments, s.distributions, sender,
                                          CalcRewardsPowers(s.config, s.distributions, s.stake, sender),
                                          CalcRewardsPowers(s.config, s.distributions, stake1, sender));
      r := UpdateTotalStake(period, Bonding.TotalStake(rec), Bonding.TotalStake(b));
      if r.Fail? {
        return;
      }
      Commit(Unbonded(s, sender, amount, period, now, b, totals, adj1));
      if StateValid(s) {
        UnbondKeepsInvariant(s, sender, amount, period, now);
      }
    }

    /** `execute_rebond`: moves releasable stake from one period to another;
        moved into a shorter period it stays locked for the difference. */
    method Rebond(sender: Addr, amount: nat, bondFrom: Period, bondTo: Period, now: Time) returns (r: Outcome)
      modifies this
      ensures match RebondSpec(old(St()), sender, amount, bondFrom, bondTo, now)
              case Ok(t) => r == Pass && St() == t
              case Err(e) => r == Fail(e) && St() == old(St())
      ensures old(Valid()) ==> Valid()
    {
      var s := State(config, admin, tokenInfo, totals, stake, claims, distributions, adjustments, rewardCurves);
      r := RebondCheck(s.config, amount, bondFrom, bondTo);
      if r.Fail? {
        return;
      }
      var released := Bonding.ReleaseStake(Get(s.stake, sender, bondFrom), now, amount);
      if released.Err? {
        return Fail(released.error);
      }
      var from := released.value;
      var to := RebondTarget(Get(s.stake, sender, bondTo), bondFrom, bondTo, now, amount);
      var stake1 := s.stake[(sender, bondFrom) := from][(sender, bondTo) := to];
      var adj1 := Ledger.UpdateAllRewards(s.adjustments, s.distributions, sender,
                                          CalcRewardsPowers(s.config, s.distributions, s.stake, sender),
                                          CalcRewardsPowers(s.config, s.distributions, stake1, sender));
      r := UpdateTotalStake(bondFrom, Bonding.TotalStake(Get(s.stake, sender, bondFrom)), Bonding.TotalStake(from));
      if r.Fail? {
        return;
      }
      r := UpdateTotalStake(bondTo, Bonding.TotalStake(Get(s.stake, sender, bondTo)), Bonding.TotalStake(to));
      if r.Fail? {
        // the first period's new total is discarded with the failed message
        totals := s.totals;
        return;
      }
      Commit(Restaked(s, stake1, totals, adj1));
      if StateValid(s) {
        RebondKeepsInvariant(s, sender, amount, bondFrom, bondTo, now);
      }
    }

    /** `execute_mass_bond`: after the three checks, each delegation in turn
        adds its amount to the recipient's free stake in the period, and
        `staked` grows by the whole amount sent. */
    method MassBond(senderToken: Addr, amountSent: nat, period: Period, delegateTo: seq<(Addr, nat)>)
      returns (r: Outcome)
      modifies this
      ensures match MassBondSpec(old(St()), senderToken, amountSent, period, delegateTo)
              case Ok(t) => r == Pass && St() == t
              case Err(e) => r == Fail(e) && St() == old(St())
      ensures old(Valid()) ==> Valid()
    {
      var s := State(config, admin, tokenInfo, totals, stake, claims, distributions, adjustments, rewardCurves);
      r := MassBondCheck(s.config, senderToken, amountSent, period, delegateTo);
      if r.Fail? {
        return;
      }
      var bonded := DelegateLoop(s, period, delegateTo);
      if bonded.Err? {
        return Fail(bonded.error);
      }
      var t := bonded.value;
      Commit(t.(tokenInfo := TokenInfo(t.tokenInfo.staked + amountSent, t.tokenInfo.unbonding)));
      if StateValid(s) {
        MassBondEffect(s, senderToken, amountSent, period, delegateTo);
      }
    }

    /** `execute_bond`: a mass bond of the whole amount to one staker. */
    method Bond(senderToken: Addr, amount: nat, period: Period, staker: Addr) returns (r: Outcome)
      modifies this
      ensures match MassBondSpec(old(St()), senderToken, amount, period, [(staker, amount)])
              case Ok(t) => r == Pass && St() == t
              case Err(e) => r == Fail(e) && St() == old(St())
      ensures old(Valid()) ==> Valid()
    {
      r := MassBond(senderToken, amount, period, [(staker, amount)]);
    }

    /** `execute_claim`: pays out every matured claim of the sender in one
        transfer of the staked token, or fails, changing nothing, when
        nothing has matured. */
    method Claim(sender: Addr, now: Time) returns (r: Result<Transfer>)
      modifies this
      ensures match ClaimSpec(old(St()), sender, now)
              case Ok(res) => r == Ok(res.1) && St() == res.0
              case Err(e) => r == Err(e) && St() == old(St())
      ensures old(Valid()) ==> Valid()
    {
      var s := State(config, admin, tokenInfo, totals, stake, claims, distributions, adjustments, rewardCurves);
      var (release, waiting) := Claims.ClaimTokens(ClaimsOf(s.claims, sender), now);
      if release == 0 {
        return Err(NothingToClaim);
      }
      Commit(s.(claims := s.claims[sender := waiting],
                tokenInfo := TokenInfo(s.tokenInfo.staked, SatSub(s.tokenInfo.unbonding, release))));
      r := Ok(Transfer(s.config.cw20Contract, sender, release));
      if StateValid(s) {
        ClaimEffect(s, sender, now);
      }
    }

    /** `execute_create_distribution_flow`: after its checks, a new flow with
        nothing paid in and a constant-zero reward curve. */
    method CreateDistributionFlow(sender: Addr, manager: Addr, asset: Asset, rewards: seq<(Period, nat)>)
      returns (r: Outcome)
      modifies this
      ensures match CreateFlowSpec(old(St()), sender, manager, asset, rewards)
              case Ok(t) => r == Pass && St() == t
              case Err(e) => r == Fail(e) && St() == old(St())
      ensures old(Valid()) ==> Valid()
    {
      var s := State(config, admin, tokenInfo, totals, stake, claims, distributions, adjustments, rewardCurves);
      r := FlowCheck(s.config, s.admin, sender, asset, rewards, s.distributions.Keys);
      if r.Fail? {
        return;
      }
      Commit(s.(rewardCurves := s.rewardCurves[asset := Constant(0)],
                distributions := s.distributions[asset := NewDistribution(manager, rewards)]));
      if StateValid(s) {
        CreateFlowEffect(s, sender, manager, asset, rewards);
      }
    }

    /** `execute_fund_distribution`: `update_reward_config` for each attached
        coin in turn; nothing is stored unless every one succeeds. */
    method FundDistribution(funds: seq<(string, nat)>, schedule: Curve, now: Time) returns (r: Outcome)
      modifies this
      ensures match FundSpec(old(St()), funds, schedule, now)
              case Ok(t) => r == Pass && St() == t
              case Err(e) => r == Fail(e) && St() == old(St())
      ensures old(Valid()) ==> Valid()
    {
      var s := State(config, admin, tokenInfo, totals, stake, claims, distributions, adjustments, rewardCurves);
      var curves := s.rewardCurves;
      var i := 0;
      while i < |funds|
        invariant 0 <= i <= |funds|
        invariant FundAll(s.rewardCurves, funds, schedule, now) == FundAll(curves, funds[i..], schedule, now)
      {
        assert funds[i..][0] == funds[i] && funds[i..][1..] == funds[i + 1..];
        match RewardConfigUpdate(curves, Native(funds[i].0), funds[i].1, schedule, now) {
          case Err(e) =>
            return Fail(e);
          case Ok(c) =>
            curves := c;
        }
        i := i + 1;
      }
      assert funds[|funds|..] == [];
      Commit(s.(rewardCurves := curves));
      r := Pass;
      if StateValid(s) {
        FundEffect(s, funds, schedule, now);
      }
    }

    /** The `Fund` receive message: `update_reward_config` for the sending
        cw20 contract's token. */
    method ReceiveFund(senderToken: Addr, amount: nat, schedule: Curve, now: Time) returns (r: Outcome)
      modifies this
      ensures match ReceiveFundSpec(old(St()), senderToken, amount, schedule, now)
              case Ok(t) => r == Pass && St() == t
              case Err(e) => r == Fail(e) && St() == old(St())
      ensures old(Valid()) ==> Valid()
    {
      var s := State(config, admin, tokenInfo, totals, stake, claims, distributions, adjustments, rewardCurves);
      match RewardConfigUpdate(s.rewardCurves, Token(senderToken), amount, schedule, now) {
        case Err(e) =>
          return Fail(e);
        case Ok(c) =>
          Commit(s.(rewardCurves := c));
          r := Pass;
      }
      if StateValid(s) {
        ReceiveFundEffect(s, senderToken, amount, schedule, now);
      }
    }

    /** `query_staked`: the staker's stake and locked part in a period; an
        unknown period is an error. */
    function QueryStaked(a: Addr, p: Period, now: Time): (r: Result<StakedResponse>)
      reads this
      ensures r.Err? <==> p !in PeriodsOf(totals)
      ensures r.Err? ==> r.error == NoUnbondingPeriodFound(p)
      ensures r.Ok? ==> r.value.stake == Bonding.TotalStake(Get(stake, a, p))
                        && r.value.totalLocked == Bonding.TotalLocked(Get(stake, a, p), now)
                        && r.value.totalLocked <= r.value.stake
                        && r.value.unbondingPeriod == p && r.value.cw20Contract == config.cw20Contract
    {
      if FindPeriod(totals, p).None? then Err(NoUnbondingPeriodFound(p))
      else Ok(Staked(stake, a, p, now, config.cw20Contract))
    }

    /** `query_all_staked`: one response per configured period the staker has
        a record in, in configuration order, each holding that record's stake,
        locked part and the stored cw20 address. */
    function QueryAllStaked(a: Addr, now: Time): (r: seq<StakedResponse>)
      reads this
      ensures |r| <= |config.unbondingPeriods|
      ensures forall i :: 0 <= i < |r| ==>
                (r[i].unbondingPeriod in config.unbondingPeriods && (a, r[i].unbondingPeriod) in stake
                 && r[i].totalLocked <= r[i].stake)
      ensures forall i :: 0 <= i < |r| ==> r[i] == Staked(stake, a, r[i].unbondingPeriod, now, config.cw20Contract)
      ensures forall p :: p in config.unbondingPeriods && (a, p) in stake ==>
                exists i :: 0 <= i < |r| && r[i].unbondingPeriod == p
      ensures exists idx :: AnswersInOrder(r, idx, config.unbondingPeriods, stake, a)
    {
      AllStakedInOrder(stake, config.unbondingPeriods, a, now, config.cw20Contract);
      AllStaked(stake, config.unbondingPeriods, a, now, config.cw20Contract)
    }
  }
}
