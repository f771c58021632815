/** The stored state of the staking contract as values, the validations its
    handlers run before changing anything, and the invariants that tie the
    stored aggregates to the per-staker records. */
module Ledger {
  import opened Common
  import opened Sums
  import Bonding
  import Claims
  import opened Totals
  import opened Rewards
  import opened Curves

  /** `Config`. */
  datatype Config = Config(
    instantiator: Addr,
    cw20Contract: Addr,
    cw721Contract: Addr,
    tokensPerPower: nat,
    minBond: nat,
    unbondingPeriods: seq<Period>,
    maxDistributions: nat)

  /** `TokenInfo`: all tokens bonded, and all tokens waiting in claims. */
  datatype TokenInfo = TokenInfo(staked: nat, unbonding: nat)

  datatype InstantiateMsg = InstantiateMsg(
    cw20Contract: Addr,
    cw721Contract: Addr,
    tokensPerPower: nat,
    minBond: nat,
    unbondingPeriods: seq<Period>,
    admin: Option<Addr>,
    maxDistributions: nat)

  /** The outbound cw20 `Transfer` a successful claim emits. */
  datatype Transfer = Transfer(token: Addr, recipient: Addr, amount: nat)

  /** `StakedResponse`. */
  datatype StakedResponse = StakedResponse(stake: nat, totalLocked: nat, unbondingPeriod: Period, cw20Contract: Addr)

  type StakeMap = map<(Addr, Period), Bonding.BondingInfo>
  type ClaimMap = map<Addr, seq<Claims.Claim>>
  type AdjustmentMap = map<(Addr, Asset), WithdrawAdjustment>

  // ---------------------------------------------------------------- instantiate

  predicate Sorted(s: seq<Period>)
  {
    forall i, j :: 0 <= i < j < |s| ==> s[i] <= s[j]
  }

  lemma ConsSorted(h: Period, rest: seq<Period>)
    requires Sorted(rest)
    requires forall z :: z in rest ==> h <= z
    ensures Sorted([h] + rest)
  {
    var r := [h] + rest;
    forall i, j | 0 <= i < j < |r|
      ensures r[i] <= r[j]
    {
      assert r[j] == rest[j - 1];
      if i > 0 {
        assert r[i] == rest[i - 1];
      } else {
        assert rest[j - 1] in rest;
      }
    }
  }

  function Insert(x: Period, s: seq<Period>): (r: seq<Period>)
    requires Sorted(s)
    ensures Sorted(r) && multiset(r) == multiset(s) + multiset{x}
    ensures forall z :: z in r <==> z == x || z in s
  {
    if s == [] then [x]
    else if x <= s[0] then
      ConsSorted(x, s);
      [x] + s
    else
      var rest := Insert(x, s[1..]);
      HeadBelowTail(s);
      ConsSorted(s[0], rest);
      assert s == [s[0]] + s[1..];
      [s[0]] + rest
  }

  lemma HeadBelowTail(s: seq<Period>)
    requires Sorted(s) && s != []
    ensures forall z :: z in s[1..] ==> s[0] <= z
    ensures forall z :: z in s <==> z == s[0] || z in s[1..]
  {
    assert s == [s[0]] + s[1..];
  }

  /** `sort_unstable` on the unbonding periods: the sorted permutation
      (duplicates are kept). */
  function SortPeriods(s: seq<Period>): (r: seq<Period>)
    ensures Sorted(r) && multiset(r) == multiset(s)
  {
    if s == [] then []
    else
      assert s == [s[0]] + s[1..];
      Insert(s[0], SortPeriods(s[1..]))
  }

  /** The cw20 address `instantiate` stores regardless of the message. */
  const HARDCODED_CW20: Addr := "terra1hzh9vpxhsk82503se0vv5jj6etdvxu3nv8x7zu"

  /** The configuration `instantiate` builds, as the code is written: the
      message's cw20 address is ignored for a hard-coded one. */
  function InitialConfigAsWritten(msg: InstantiateMsg, sender: Addr): (c: Config)
    ensures c.cw20Contract == HARDCODED_CW20
  {
    InitialConfig(msg, sender).(cw20Contract := HARDCODED_CW20)
  }

  /** The configuration `instantiate` evidently means to build:
      `min_bond` raised to at least 1, the periods sorted, and the cw20
      contract taken from the message. */
  function InitialConfig(msg: InstantiateMsg, sender: Addr): (c: Config)
    ensures c.minBond >= 1 && (msg.minBond >= 1 ==> c.minBond == msg.minBond)
    ensures Sorted(c.unbondingPeriods) && multiset(c.unbondingPeriods) == multiset(msg.unbondingPeriods)
    ensures c.cw20Contract == msg.cw20Contract && c.instantiator == sender
    ensures c.tokensPerPower == msg.tokensPerPower && c.maxDistributions == msg.maxDistributions
  {
    Config(sender, msg.cw20Contract, msg.cw721Contract, msg.tokensPerPower,
           if msg.minBond >= 1 then msg.minBond else 1,
           SortPeriods(msg.unbondingPeriods), msg.maxDistributions)
  }

  /** As written, a contract instantiated for any other cw20 token refuses
      every bond of that token: the sender check compares against the
      hard-coded address. */
  lemma AsWrittenRefusesConfiguredToken(msg: InstantiateMsg, sender: Addr, amountSent: nat,
                                        period: Period, ds: seq<(Addr, nat)>)
    requires msg.cw20Contract != HARDCODED_CW20
    ensures MassBondCheck(InitialConfigAsWritten(msg, sender), msg.cw20Contract, amountSent, period, ds)
            == Fail(Cw20AddressesNotMatch(msg.cw20Contract, HARDCODED_CW20))
  {
  }

  /** The same on a concrete message. */
  lemma AsWrittenRefusesExample()
    ensures var msg := InstantiateMsg("wasm1234567890", "wasm1nft", 1000, 5000, [100, 200], None, 10);
            MassBondCheck(InitialConfigAsWritten(msg, "admin"), "wasm1234567890", 100, 100, [])
            == Fail(Cw20AddressesNotMatch("wasm1234567890", HARDCODED_CW20))
  {
  }

  /** With the corrected configuration, a bond of the configured token into
      a configured period that delegates no more than was sent passes every
      check. */
  lemma ConfiguredTokenAccepted(msg: InstantiateMsg, sender: Addr, amountSent: nat,
                                period: Period, ds: seq<(Addr, nat)>)
    requires period in msg.unbondingPeriods && DelegationTotal(ds) <= amountSent
    ensures MassBondCheck(InitialConfig(msg, sender), msg.cw20Contract, amountSent, period, ds) == Pass
  {
    var cfg := InitialConfig(msg, sender);
    assert period in multiset(msg.unbondingPeriods);
    assert period in multiset(cfg.unbondingPeriods);
  }

  /** One zero total per configured period, in the same order. */
  function InitialTotals(periods: seq<Period>): (r: seq<(Period, TotalStake)>)
    ensures PeriodsOf(r) == periods
    ensures forall i :: 0 <= i < |r| ==> r[i].1 == ZeroTotal
  {
    var r := seq(|periods|, i requires 0 <= i < |periods| => (periods[i], ZeroTotal));
    assert PeriodsOf(r) == periods;
    r
  }

  // ---------------------------------------------------------------- validations

  function DelegationTotal(ds: seq<(Addr, nat)>): nat
  {
    if ds == [] then 0 else ds[0].1 + DelegationTotal(ds[1..])
  }

  /** The checks `execute_mass_bond` makes before touching any state, in
      the order it makes them. */
  function MassBondCheck(cfg: Config, senderToken: Addr, amountSent: nat, period: Period,
                         ds: seq<(Addr, nat)>): (r: Outcome)
    ensures r.Pass? <==> senderToken == cfg.cw20Contract && period in cfg.unbondingPeriods
                         && DelegationTotal(ds) <= amountSent
    ensures senderToken != cfg.cw20Contract ==> r == Fail(Cw20AddressesNotMatch(senderToken, cfg.cw20Contract))
    ensures senderToken == cfg.cw20Contract && period !in cfg.unbondingPeriods ==>
              r == Fail(NoUnbondingPeriodFound(period))
    ensures senderToken == cfg.cw20Contract && period in cfg.unbondingPeriods
            && DelegationTotal(ds) > amountSent ==>
              r == Fail(MassDelegateTooMuch(DelegationTotal(ds), amountSent))
  {
    if cfg.cw20Contract != senderToken then Fail(Cw20AddressesNotMatch(senderToken, cfg.cw20Contract))
    else if period !in cfg.unbondingPeriods then Fail(NoUnbondingPeriodFound(period))
    else if DelegationTotal(ds) > amountSent then Fail(MassDelegateTooMuch(DelegationTotal(ds), amountSent))
    else Pass
  }

  /** The checks `execute_rebond` makes before touching any state, in order. */
  function RebondCheck(cfg: Config, amount: nat, bondFrom: Period, bondTo: Period): (r: Outcome)
    ensures r.Pass? <==> amount > 0 && bondFrom != bondTo
                         && bondFrom in cfg.unbondingPeriods && bondTo in cfg.unbondingPeriods
    ensures amount == 0 ==> r == Fail(NoRebondAmount)
    ensures amount > 0 && bondFrom == bondTo ==> r == Fail(SameUnbondingRebond)
    ensures amount > 0 && bondFrom != bondTo && bondFrom !in cfg.unbondingPeriods ==>
              r == Fail(NoUnbondingPeriodFound(bondFrom))
    ensures (amount > 0 && bondFrom != bondTo && bondFrom in cfg.unbondingPeriods && bondTo !in cfg.unbondingPeriods)
            ==> r == Fail(NoUnbondingPeriodFound(bondTo))
  {
    if amount == 0 then Fail(NoRebondAmount)
    else if bondFrom == bondTo then Fail(SameUnbondingRebond)
    else if bondFrom !in cfg.unbondingPeriods then Fail(NoUnbondingPeriodFound(bondFrom))
    else if bondTo !in cfg.unbondingPeriods then Fail(NoUnbondingPeriodFound(bondTo))
    else Pass
  }

  /** The checks `execute_create_distribution_flow` makes, in order. */
  function FlowCheck(cfg: Config, admin: Option<Addr>, sender: Addr, asset: Asset,
                     rewards: seq<(Period, nat)>, existing: set<Asset>): (r: Outcome)
    ensures r.Pass? <==> admin == Some(sender) && asset != Token(cfg.cw20Contract)
                         && PeriodsOf(rewards) == cfg.unbondingPeriods
                         && WindowsNonDecreasing(rewards)
                         && |existing| < cfg.maxDistributions && asset !in existing
    ensures admin != Some(sender) ==> r == Fail(NotAdmin)
    ensures admin == Some(sender) && asset == Token(cfg.cw20Contract) ==> r == Fail(InvalidAsset)
    ensures admin == Some(sender) && asset != Token(cfg.cw20Contract)
            && (PeriodsOf(rewards) != cfg.unbondingPeriods || !WindowsNonDecreasing(rewards)) ==>
              r == Fail(InvalidRewards)
    ensures (admin == Some(sender) && asset != Token(cfg.cw20Contract)
             && PeriodsOf(rewards) == cfg.unbondingPeriods && WindowsNonDecreasing(rewards)
             && |existing| >= cfg.maxDistributions)
            ==> r == Fail(TooManyDistributions(cfg.maxDistributions))
    ensures (admin == Some(sender) && asset != Token(cfg.cw20Contract)
             && PeriodsOf(rewards) == cfg.unbondingPeriods && WindowsNonDecreasing(rewards)
             && |existing| < cfg.maxDistributions && asset in existing)
            ==> r == Fail(DistributionAlreadyExists(asset))
  {
    if admin != Some(sender) then Fail(NotAdmin)
    else if asset == Token(cfg.cw20Contract) then Fail(InvalidAsset)
    else if PeriodsOf(rewards) != cfg.unbondingPeriods then Fail(InvalidRewards)
    else if !WindowsNonDecreasing(rewards) then Fail(InvalidRewards)
    else if |existing| >= cfg.maxDistributions then Fail(TooManyDistributions(cfg.maxDistributions))
    else if asset in existing then Fail(DistributionAlreadyExists(asset))
    else Pass
  }

  // ---------------------------------------------------------------- funding

  /** `update_reward_config`: the asset's stored curve must exist, the
      schedule's range must be (0, at most the amount), and the stored curve
      plus the schedule shifted to `now` must still be decreasing; only then
      is that combination stored. */
  function RewardConfigUpdate(curves: map<Asset, Curve>, asset: Asset, amount: nat,
                              schedule: Curve, now: Time): (r: Result<map<Asset, Curve>>)
    ensures asset !in curves ==> r == Err(NoRewardCurve(asset))
    ensures asset in curves && (Range(schedule).0 != 0 || Range(schedule).1 > amount) ==>
              r == Err(InvalidRewards)
    ensures r.Ok? <==> asset in curves && Range(schedule).0 == 0 && Range(schedule).1 <= amount
                       && Decreasing(Combine(curves[asset], Shift(schedule, now)))
    ensures r.Err? && asset in curves && Range(schedule).0 == 0 && Range(schedule).1 <= amount ==>
              r == Err(CurveNotMonotonic)
    ensures r.Ok? ==> r.value.Keys == curves.Keys && Decreasing(r.value[asset])
                      && forall a :: a in curves && a != asset ==> r.value[a] == curves[a]
    ensures r.Ok? ==> forall i :: 0 <= i < |schedule| ==>
              ValueAt(r.value[asset], schedule[i].x + now)
              == ValueAt(curves[asset], schedule[i].x + now) + schedule[i].y
    ensures r.Ok? ==> r.value == curves[asset := Combine(curves[asset], Shift(schedule, now))]
  {
    if asset !in curves then Err(NoRewardCurve(asset))
    else
      var (lo, hi) := Range(schedule);
      if lo != 0 || hi > amount then Err(InvalidRewards)
      else
        var shifted := Shift(schedule, now);
        var c := Combine(curves[asset], shifted);
        if !Decreasing(c) then Err(CurveNotMonotonic)
        else
          assert forall i :: 0 <= i < |schedule| ==>
            ValueAt(c, schedule[i].x + now)
            == ValueAt(curves[asset], schedule[i].x + now) + schedule[i].y by {
            forall i | 0 <= i < |schedule|
              ensures ValueAt(c, schedule[i].x + now)
                      == ValueAt(curves[asset], schedule[i].x + now) + schedule[i].y
            {
              assert Times(shifted)[i] == schedule[i].x + now;
              CombineValue(curves[asset], shifted, schedule[i].x + now);
              ValueAtBreakpoint(shifted, i);
            }
          }
          Ok(curves[asset := c])
  }

  /** A zero-amount fund of a schedule that starts at 1 is refused. */
  lemma ZeroAmountFundRejected(curves: map<Asset, Curve>, asset: Asset, now: Time)
    requires asset in curves
    ensures RewardConfigUpdate(curves, asset, 0, [Point(0, 1), Point(100, 0)], now) == Err(InvalidRewards)
  {
    var s: Curve := [Point(0, 1), Point(100, 0)];
    assert s[1..] == [Point(100, 0)];
    assert MaxY(s) == 1;
  }

  /** `execute_fund_distribution`: `update_reward_config` for each attached
      native coin in turn; the first failure aborts the whole message. */
  function FundAll(curves: map<Asset, Curve>, funds: seq<(string, nat)>, schedule: Curve, now: Time)
    : (r: Result<map<Asset, Curve>>)
    ensures r.Ok? ==> r.value.Keys == curves.Keys
    decreases |funds|
  {
    if funds == [] then Ok(curves)
    else
      match RewardConfigUpdate(curves, Native(funds[0].0), funds[0].1, schedule, now)
      case Err(e) => Err(e)
      case Ok(c) => FundAll(c, funds[1..], schedule, now)
  }

  /** A successful fund keeps the set of flows and leaves every flow whose
      coin was not attached as it was. */
  lemma {:induction false} FundAllKeepsOthers(curves: map<Asset, Curve>, funds: seq<(string, nat)>,
                                              schedule: Curve, now: Time)
    ensures var r := FundAll(curves, funds, schedule, now);
            r.Ok? ==> r.value.Keys == curves.Keys
                      && forall a :: a in curves && (forall i :: 0 <= i < |funds| ==> a != Native(funds[i].0)) ==>
                           r.value[a] == curves[a]
    decreases |funds|
  {
    if funds != [] {
      var first := RewardConfigUpdate(curves, Native(funds[0].0), funds[0].1, schedule, now);
      if first.Ok? {
        var rest := funds[1..];
        FundAllKeepsOthers(first.value, rest, schedule, now);
        assert forall i :: 0 <= i < |rest| ==> rest[i] == funds[i + 1];
      }
    }
  }

  /** A successful fund needs every attached amount to cover the schedule,
      which must end at zero. */
  lemma {:induction false} FundAllCovers(curves: map<Asset, Curve>, funds: seq<(string, nat)>,
                                         schedule: Curve, now: Time)
    ensures var r := FundAll(curves, funds, schedule, now);
            r.Ok? ==> (forall i :: 0 <= i < |funds| ==> Range(schedule).1 <= funds[i].1)
                      && (0 < |funds| ==> Range(schedule).0 == 0)
    decreases |funds|
  {
    if funds != [] && FundAll(curves, funds, schedule, now).Ok? {
      FundAllHead(curves, funds, schedule, now);
      var rest := funds[1..];
      FundAllCovers(RewardConfigUpdate(curves, Native(funds[0].0), funds[0].1, schedule, now).value,
                    rest, schedule, now);
      forall i | 1 <= i < |funds|
        ensures Range(schedule).1 <= funds[i].1
      {
        assert funds[i] == rest[i - 1];
      }
    }
  }

  /** A successful fund passed the first coin's checks and goes on from the
      curves that coin produced. */
  lemma FundAllHead(curves: map<Asset, Curve>, funds: seq<(string, nat)>, schedule: Curve, now: Time)
    requires funds != [] && FundAll(curves, funds, schedule, now).Ok?
    ensures var first := RewardConfigUpdate(curves, Native(funds[0].0), funds[0].1, schedule, now);
            first.Ok? && Range(schedule).0 == 0 && Range(schedule).1 <= funds[0].1
            && FundAll(curves, funds, schedule, now) == FundAll(first.value, funds[1..], schedule, now)
  {
  }

  // ---------------------------------------------------------------- stakes

  /** A staker's record for a period; `unwrap_or_default()` when absent. */
  function Get(stake: StakeMap, a: Addr, p: Period): Bonding.BondingInfo
  {
    if (a, p) in stake then stake[(a, p)] else Bonding.EmptyBonding
  }

  /** Every record's total stake. */
  ghost function AllStakes(stake: StakeMap): (r: map<(Addr, Period), nat>)
    ensures r.Keys == stake.Keys
  {
    map k | k in stake :: Bonding.TotalStake(stake[k])
  }

  /** The records of one period, with their total stake. */
  ghost function PeriodStakes(stake: StakeMap, p: Period): map<(Addr, Period), nat>
  {
    map k | k in stake && k.1 == p :: Bonding.TotalStake(stake[k])
  }

  /** One staker's total stake per configured period. */
  function StakerStakes(stake: StakeMap, periods: seq<Period>, a: Addr): map<Period, nat>
  {
    map p | p in periods :: Bonding.TotalStake(Get(stake, a, p))
  }

  /** `Distribution::calc_rewards_power` for one staker. */
  function PowerOf(cfg: Config, d: Distribution, stake: StakeMap, a: Addr): nat
  {
    RewardPower(d.rewardMultipliers, StakerStakes(stake, cfg.unbondingPeriods, a), cfg.tokensPerPower, cfg.minBond)
  }

  /** `calc_rewards_powers`: the staker's power in every distribution. */
  function CalcRewardsPowers(cfg: Config, dists: map<Asset, Distribution>, stake: StakeMap, a: Addr)
    : (r: map<Asset, nat>)
    ensures r.Keys == dists.Keys
    ensures forall asset :: asset in r ==> r[asset] == PowerOf(cfg, dists[asset], stake, a)
  {
    map asset | asset in dists :: PowerOf(cfg, dists[asset], stake, a)
  }

  /** Power in a flow depends on nothing but the staker's own records. */
  lemma PowerFrame(cfg: Config, d: Distribution, s1: StakeMap, s2: StakeMap, a: Addr)
    requires forall p :: p in cfg.unbondingPeriods ==> Get(s1, a, p) == Get(s2, a, p)
    ensures PowerOf(cfg, d, s1, a) == PowerOf(cfg, d, s2, a)
  {
    assert StakerStakes(s1, cfg.unbondingPeriods, a) == StakerStakes(s2, cfg.unbondingPeriods, a);
  }

  // ---------------------------------------------------------------- rewards

  function AdjOf(adj: AdjustmentMap, a: Addr, asset: Asset): WithdrawAdjustment
  {
    if (a, asset) in adj then adj[(a, asset)] else DefaultAdjustment
  }

  /** The correction records after `update_rewards` ran for `staker` over the
      flows in `done`; powers before and after come from `oldP` and `newP`
      (see `CorrectedEffect`). */
  function Corrected(adj: AdjustmentMap, dists: map<Asset, Distribution>, staker: Addr,
                     oldP: map<Asset, nat>, newP: map<Asset, nat>, done: set<Asset>): AdjustmentMap
    requires done <= dists.Keys && oldP.Keys == dists.Keys && newP.Keys == dists.Keys
  {
    map k | k in adj.Keys + (set asset | asset in done && oldP[asset] != newP[asset] :: (staker, asset)) ::
      if k.0 == staker && k.1 in done && oldP[k.1] != newP[k.1]
      then UpdateRewards(AdjOf(adj, staker, k.1), dists[k.1].sharesPerPoint, oldP[k.1], newP[k.1]).value
      else AdjOf(adj, k.0, k.1)
  }

  /** Exactly the staker's records in the visited flows whose power changed
      are written, each with `update_rewards`' result; all others stay. */
  lemma CorrectedEffect(adj: AdjustmentMap, dists: map<Asset, Distribution>, staker: Addr,
                        oldP: map<Asset, nat>, newP: map<Asset, nat>, done: set<Asset>)
    requires done <= dists.Keys && oldP.Keys == dists.Keys && newP.Keys == dists.Keys
    ensures var r := Corrected(adj, dists, staker, oldP, newP, done);
            (forall k :: k in r <==> k in adj || (k.0 == staker && k.1 in done && oldP[k.1] != newP[k.1]))
            && (forall asset :: asset in done && oldP[asset] != newP[asset] ==>
                  r[(staker, asset)] == UpdateRewards(AdjOf(adj, staker, asset), dists[asset].sharesPerPoint,
                                                      oldP[asset], newP[asset]).value)
            && forall k :: k in adj && !(k.0 == staker && k.1 in done && oldP[k.1] != newP[k.1]) ==> r[k] == adj[k]
  {
  }

  /** One key of `Corrected`. */
  lemma CorrectedAt(adj: AdjustmentMap, dists: map<Asset, Distribution>, staker: Addr,
                    oldP: map<Asset, nat>, newP: map<Asset, nat>, done: set<Asset>, k: (Addr, Asset))
    requires done <= dists.Keys && oldP.Keys == dists.Keys && newP.Keys == dists.Keys
    ensures var r := Corrected(adj, dists, staker, oldP, newP, done);
            var hit := k.0 == staker && k.1 in done && oldP[k.1] != newP[k.1];
            (k in r <==> k in adj || hit)
            && (k in r ==> r[k] == if hit then UpdateRewards(AdjOf(adj, staker, k.1), dists[k.1].sharesPerPoint,
                                                             oldP[k.1], newP[k.1]).value
                                   else AdjOf(adj, k.0, k.1))
  {
  }

  /** `update_rewards` for one flow: when the power changed, the staker's
      correction record absorbs the change so that their points stay put;
      no other record changes. */
  function RewardsUpdated(adj: AdjustmentMap, d: Distribution, staker: Addr, asset: Asset,
                          oldPower: nat, newPower: nat): (r: AdjustmentMap)
    ensures oldPower == newPower ==> r == adj
    ensures Points(newPower, d.sharesPerPoint, AdjOf(r, staker, asset))
            == Points(oldPower, d.sharesPerPoint, AdjOf(adj, staker, asset))
    ensures AdjOf(r, staker, asset).withdrawnRewards == AdjOf(adj, staker, asset).withdrawnRewards
    ensures forall k :: k != (staker, asset) ==> (k in r <==> k in adj) && (k in adj ==> r[k] == adj[k])
  {
    match UpdateRewards(AdjOf(adj, staker, asset), d.sharesPerPoint, oldPower, newPower)
    case None => adj
    case Some(n) => adj[(staker, asset) := n]
  }

  /** Before any flow is visited nothing has changed. */
  lemma CorrectedNone(adj: AdjustmentMap, dists: map<Asset, Distribution>, staker: Addr,
                      oldP: map<Asset, nat>, newP: map<Asset, nat>)
    requires oldP.Keys == dists.Keys && newP.Keys == dists.Keys
    ensures Corrected(adj, dists, staker, oldP, newP, {}) == adj
  {
    var r := Corrected(adj, dists, staker, oldP, newP, {});
    CorrectedEffect(adj, dists, staker, oldP, newP, {});
    assert forall k :: k in r <==> k in adj;
  }

  /** Running `update_rewards` for one more flow. */
  lemma CorrectedStep(adj: AdjustmentMap, dists: map<Asset, Distribution>, staker: Addr,
                      oldP: map<Asset, nat>, newP: map<Asset, nat>, done: set<Asset>, asset: Asset)
    requires done <= dists.Keys && oldP.Keys == dists.Keys && newP.Keys == dists.Keys
    requires asset in dists && asset !in done
    ensures Corrected(adj, dists, staker, oldP, newP, done + {asset})
            == RewardsUpdated(Corrected(adj, dists, staker, oldP, newP, done), dists[asset], staker, asset,
                              oldP[asset], newP[asset])
  {
    var cur := Corrected(adj, dists, staker, oldP, newP, done);
    var next := Corrected(adj, dists, staker, oldP, newP, done + {asset});
    var r := RewardsUpdated(cur, dists[asset], staker, asset, oldP[asset], newP[asset]);
    forall k
      ensures (k in next <==> k in r) && (k in next ==> next[k] == r[k])
    {
      CorrectedAt(adj, dists, staker, oldP, newP, done, k);
      CorrectedAt(adj, dists, staker, oldP, newP, done + {asset}, k);
      if k == (staker, asset) {
        assert AdjOf(cur, staker, asset) == AdjOf(adj, staker, asset);
      }
    }
    assert next == r;
  }

  /** The loop of `update_rewards` calls a handler runs over every flow
      after the records of `staker` changed: `oldP` are the powers before
      the change, `newP` after. */
  method UpdateAllRewards(adj: AdjustmentMap, dists: map<Asset, Distribution>, staker: Addr,
                          oldP: map<Asset, nat>, newP: map<Asset, nat>) returns (r: AdjustmentMap)
    requires oldP.Keys == dists.Keys && newP.Keys == dists.Keys
    ensures r == Corrected(adj, dists, staker, oldP, newP, dists.Keys)
  {
    r := adj;
    var todo := dists.Keys;
    ghost var done: set<Asset> := {};
    CorrectedNone(adj, dists, staker, oldP, newP);
    while todo != {}
      invariant todo !! done && todo + done == dists.Keys
      invariant r == Corrected(adj, dists, staker, oldP, newP, done)
      decreases |todo|
    {
      var asset :| asset in todo;
      CorrectedStep(adj, dists, staker, oldP, newP, done, asset);
      r := RewardsUpdated(r, dists[asset], staker, asset, oldP[asset], newP[asset]);
      done := done + {asset};
      todo := todo - {asset};
    }
  }

  /** What a staker has earned in a flow, by the points formula. */
  function PointsOf(cfg: Config, dists: map<Asset, Distribution>, stake: StakeMap, adj: AdjustmentMap,
                    a: Addr, asset: Asset): int
    requires asset in dists
  {
    Points(PowerOf(cfg, dists[asset], stake, a), dists[asset].sharesPerPoint, AdjOf(adj, a, asset))
  }

  /** No staker's earned points change, in any flow. */
  ghost predicate PointsKept(cfg: Config, dists: map<Asset, Distribution>,
                             stake0: StakeMap, adj0: AdjustmentMap, stake1: StakeMap, adj1: AdjustmentMap)
  {
    forall a, asset :: asset in dists ==>
      PointsOf(cfg, dists, stake1, adj1, a, asset) == PointsOf(cfg, dists, stake0, adj0, a, asset)
  }

  /** A stake change of one staker followed by `update_rewards` in every flow
      leaves everyone's earned points as they were: the correction absorbs
      exactly the power change. */
  lemma CorrectionKeepsPoints(cfg: Config, dists: map<Asset, Distribution>, stake0: StakeMap,
                              stake1: StakeMap, adj: AdjustmentMap, staker: Addr)
    requires forall a, p :: a != staker && p in cfg.unbondingPeriods ==> Get(stake1, a, p) == Get(stake0, a, p)
    ensures var oldP := CalcRewardsPowers(cfg, dists, stake0, staker);
            var newP := CalcRewardsPowers(cfg, dists, stake1, staker);
            PointsKept(cfg, dists, stake0, adj, stake1, Corrected(adj, dists, staker, oldP, newP, dists.Keys))
  {
    var oldP := CalcRewardsPowers(cfg, dists, stake0, staker);
    var newP := CalcRewardsPowers(cfg, dists, stake1, staker);
    var adj1 := Corrected(adj, dists, staker, oldP, newP, dists.Keys);
    CorrectedEffect(adj, dists, staker, oldP, newP, dists.Keys);
    forall a, asset | asset in dists
      ensures PointsOf(cfg, dists, stake1, adj1, a, asset) == PointsOf(cfg, dists, stake0, adj, a, asset)
    {
      if a != staker {
        PowerFrame(cfg, dists[asset], stake1, stake0, a);
        assert AdjOf(adj1, a, asset) == AdjOf(adj, a, asset);
      } else if oldP[asset] == newP[asset] {
        assert AdjOf(adj1, a, asset) == AdjOf(adj, a, asset);
      }
    }
  }

  // ---------------------------------------------------------------- invariants

  predicate ConfigValid(cfg: Config)
  {
    cfg.minBond >= 1 && Sorted(cfg.unbondingPeriods)
  }

  /** Each period's first entry holds the aggregate of that period's records;
      an entry for a period listed twice never receives updates. */
  ghost predicate TotalsMatch(totals: seq<(Period, TotalStake)>, stake: StakeMap, minBond: nat)
  {
    forall i :: 0 <= i < |totals| ==>
      totals[i].1 == if IsFirst(totals, i) then Aggregate(PeriodStakes(stake, totals[i].0), minBond) else ZeroTotal
  }

  ghost predicate TotalsValid(cfg: Config, totals: seq<(Period, TotalStake)>, stake: StakeMap)
  {
    PeriodsOf(totals) == cfg.unbondingPeriods
    && TotalsMatch(totals, stake, cfg.minBond)
    && forall k :: k in stake ==> k.1 in cfg.unbondingPeriods
  }

  /** A flow's multipliers list exactly the configured periods, in
      non-decreasing order of multiplier. */
  predicate FlowShaped(cfg: Config, d: Distribution)
  {
    PeriodsOf(d.rewardMultipliers) == cfg.unbondingPeriods && WindowsNonDecreasing(d.rewardMultipliers)
  }

  ghost predicate FlowsValid(cfg: Config, dists: map<Asset, Distribution>, curves: map<Asset, Curve>)
  {
    (forall asset :: asset in dists <==> asset in curves)
    && |dists.Keys| <= cfg.maxDistributions
    && Token(cfg.cw20Contract) !in dists
    && (forall asset :: asset in dists ==> FlowShaped(cfg, dists[asset]))
    && forall asset :: asset in curves ==> Decreasing(curves[asset])
  }

  ghost function ClaimTotals(claims: ClaimMap): map<Addr, nat>
  {
    map a | a in claims :: Claims.ClaimSum(claims[a])
  }

  function ClaimsOf(claims: ClaimMap, a: Addr): seq<Claims.Claim>
  {
    if a in claims then claims[a] else []
  }

  /** `unbonding` is exactly what the claims hold; `staked` covers every
      record (it can exceed them by the undelegated rest of a mass bond). */
  ghost predicate LedgerValid(info: TokenInfo, stake: StakeMap, claims: ClaimMap)
  {
    info.unbonding == MapSum(ClaimTotals(claims))
    && MapSum(AllStakes(stake)) <= info.staked
  }

  /** Every period total keeps its powered stake within its stake. */
  lemma PoweredWithinStaked(totals: seq<(Period, TotalStake)>, stake: StakeMap, minBond: nat, i: nat)
    requires TotalsMatch(totals, stake, minBond)
    requires i < |totals|
    ensures totals[i].1.poweredStake <= totals[i].1.staked
  {
    if IsFirst(totals, i) {
      AggregatePoweredWithinStaked(PeriodStakes(stake, totals[i].0), minBond);
    }
  }

  /** The seeded totals match an empty ledger. */
  lemma InitialTotalsMatch(periods: seq<Period>, minBond: nat)
    ensures TotalsMatch(InitialTotals(periods), map[], minBond)
  {
    var t := InitialTotals(periods);
    forall i | 0 <= i < |t|
      ensures Aggregate(PeriodStakes(map[], t[i].0), minBond) == ZeroTotal
    {
      var none: map<(Addr, Period), nat> := map[];
      assert PeriodStakes(map[], t[i].0) == none;
      assert PoweredMap(none, minBond) == none;
    }
  }

  lemma PeriodStakesUpdate(stake: StakeMap, a: Addr, p: Period, b: Bonding.BondingInfo, q: Period)
    ensures q == p ==> PeriodStakes(stake[(a, p) := b], q) == PeriodStakes(stake, q)[(a, p) := Bonding.TotalStake(b)]
    ensures q != p ==> PeriodStakes(stake[(a, p) := b], q) == PeriodStakes(stake, q)
  {
  }

  /** One entry of the totals after the first entry for `p` (index `i`) took
      the aggregate of the changed records. */
  lemma TotalsEntryStep(totals: seq<(Period, TotalStake)>, r: seq<(Period, TotalStake)>, stake: StakeMap,
                        minBond: nat, a: Addr, p: Period, b: Bonding.BondingInfo, i: nat, j: nat)
    requires TotalsMatch(totals, stake, minBond)
    requires |r| == |totals| && PeriodsOf(r) == PeriodsOf(totals)
    requires i < |totals| && totals[i].0 == p && IsFirst(totals, i)
    requires r[i].1 == Aggregate(PeriodStakes(stake[(a, p) := b], p), minBond)
    requires forall k :: 0 <= k < |totals| && k != i ==> r[k] == totals[k]
    requires j < |r|
    ensures r[j].1 == if IsFirst(r, j) then Aggregate(PeriodStakes(stake[(a, p) := b], r[j].0), minBond) else ZeroTotal
  {
    assert forall k :: 0 <= k < |r| ==> r[k].0 == totals[k].0 by {
      forall k | 0 <= k < |r|
        ensures r[k].0 == totals[k].0
      {
        assert PeriodsOf(r)[k] == PeriodsOf(totals)[k];
      }
    }
    assert IsFirst(r, j) == IsFirst(totals, j);
    PeriodStakesUpdate(stake, a, p, b, totals[j].0);
    if j != i && IsFirst(totals, j) {
      if j < i {
        assert totals[j].0 != totals[i].0;
      } else {
        assert totals[i].0 != totals[j].0;
      }
    }
  }

  /** `update_total_stake` after one record changed: it succeeds and the
      totals again match the records. */
  lemma TotalsStep(totals: seq<(Period, TotalStake)>, stake: StakeMap, minBond: nat,
                   a: Addr, p: Period, b: Bonding.BondingInfo)
    requires TotalsMatch(totals, stake, minBond)
    requires p in PeriodsOf(totals)
    ensures var r := UpdateTotals(totals, minBond, p, Bonding.TotalStake(Get(stake, a, p)), Bonding.TotalStake(b));
            r.Ok? && PeriodsOf(r.value) == PeriodsOf(totals) && TotalsMatch(r.value, stake[(a, p) := b], minBond)
  {
    var oldS := Bonding.TotalStake(Get(stake, a, p));
    var newS := Bonding.TotalStake(b);
    var i := FindPeriod(totals, p).value;
    var m := PeriodStakes(stake, p);
    assert (a, p) in m ==> m[(a, p)] == oldS;
    assert (a, p) !in m ==> oldS == 0;
    assert totals[i].1 == Aggregate(m, minBond);
    NextTotalOfAggregate(m, minBond, (a, p), newS);
    PeriodStakesUpdate(stake, a, p, b, p);
    UpdateTotalsEffect(totals, minBond, p, oldS, newS);
    var r := UpdateTotals(totals, minBond, p, oldS, newS).value;
    forall j | 0 <= j < |r|
      ensures r[j].1 == if IsFirst(r, j) then Aggregate(PeriodStakes(stake[(a, p) := b], r[j].0), minBond) else ZeroTotal
    {
      TotalsEntryStep(totals, r, stake, minBond, a, p, b, i, j);
    }
  }

  lemma AllStakesUpdate(stake: StakeMap, a: Addr, p: Period, b: Bonding.BondingInfo)
    ensures MapSum(AllStakes(stake[(a, p) := b])) + Bonding.TotalStake(Get(stake, a, p))
            == MapSum(AllStakes(stake)) + Bonding.TotalStake(b)
  {
    assert AllStakes(stake[(a, p) := b]) == AllStakes(stake)[(a, p) := Bonding.TotalStake(b)];
    MapSumUpdate(AllStakes(stake), (a, p), Bonding.TotalStake(b));
  }

  lemma StakeWithinAll(stake: StakeMap, a: Addr, p: Period)
    ensures Bonding.TotalStake(Get(stake, a, p)) <= MapSum(AllStakes(stake))
  {
    if (a, p) in stake {
      MapSumAtLeastOne(AllStakes(stake), (a, p));
    }
  }

  lemma ClaimTotalsUpdate(claims: ClaimMap, a: Addr, cs: seq<Claims.Claim>)
    ensures MapSum(ClaimTotals(claims[a := cs])) + Claims.ClaimSum(ClaimsOf(claims, a))
            == MapSum(ClaimTotals(claims)) + Claims.ClaimSum(cs)
  {
    var before := ClaimTotals(claims);
    var after := ClaimTotals(claims[a := cs]);
    assert after.Keys == before.Keys + {a};
    assert forall c :: c in after ==> after[c] == before[a := Claims.ClaimSum(cs)][c];
    assert after == before[a := Claims.ClaimSum(cs)];
    MapSumUpdate(ClaimTotals(claims), a, Claims.ClaimSum(cs));
  }

  lemma ClaimsWithinTotal(claims: ClaimMap, a: Addr)
    ensures Claims.ClaimSum(ClaimsOf(claims, a)) <= MapSum(ClaimTotals(claims))
  {
    if a in claims {
      MapSumAtLeastOne(ClaimTotals(claims), a);
    }
  }

  // ---------------------------------------------------------------- steps

  /** Replacing one record in a configured period and running
      `update_total_stake` on its totals keeps the totals invariant. */
  lemma RecordStepTotals(cfg: Config, totals: seq<(Period, TotalStake)>, stake: StakeMap,
                         a: Addr, p: Period, b: Bonding.BondingInfo)
    requires TotalsValid(cfg, totals, stake) && p in cfg.unbondingPeriods
    ensures var r := UpdateTotals(totals, cfg.minBond, p, Bonding.TotalStake(Get(stake, a, p)), Bonding.TotalStake(b));
            r.Ok? && TotalsValid(cfg, r.value, stake[(a, p) := b])
  {
    TotalsStep(totals, stake, cfg.minBond, a, p, b);
  }

  /** An unbond of `amount` from one record: `staked` covers the amount (so
      its saturating subtraction never saturates) and the new claim keeps
      `unbonding` equal to the claims. */
  lemma UnbondLedger(info: TokenInfo, stake: StakeMap, claims: ClaimMap, a: Addr, p: Period,
                     b: Bonding.BondingInfo, amount: nat, releaseAt: Time)
    requires LedgerValid(info, stake, claims)
    requires Bonding.TotalStake(b) + amount == Bonding.TotalStake(Get(stake, a, p))
    ensures SatSub(info.staked, amount) + amount == info.staked
    ensures LedgerValid(TokenInfo(SatSub(info.staked, amount), info.unbonding + amount), stake[(a, p) := b],
                        claims[a := Claims.CreateClaim(ClaimsOf(claims, a), amount, releaseAt)])
  {
    AllStakesUpdate(stake, a, p, b);
    StakeWithinAll(stake, a, p);
    ClaimTotalsUpdate(claims, a, Claims.CreateClaim(ClaimsOf(claims, a), amount, releaseAt));
  }

  /** A rebond moves `amount` between two records of one staker: the sum of
      all records is unchanged. */
  lemma RebondLedger(stake: StakeMap, a: Addr, p: Period, q: Period,
                     from: Bonding.BondingInfo, to: Bonding.BondingInfo, amount: nat)
    requires p != q
    requires Bonding.TotalStake(from) + amount == Bonding.TotalStake(Get(stake, a, p))
    requires Bonding.TotalStake(to) == Bonding.TotalStake(Get(stake, a, q)) + amount
    ensures MapSum(AllStakes(stake[(a, p) := from][(a, q) := to])) == MapSum(AllStakes(stake))
  {
    AllStakesUpdate(stake, a, p, from);
    AllStakesUpdate(stake[(a, p) := from], a, q, to);
    assert Get(stake[(a, p) := from], a, q) == Get(stake, a, q);
  }

  /** A mass bond credits at most what was sent, so adding the whole amount
      sent to `staked` keeps it covering every record. */
  lemma MassBondLedger(info: TokenInfo, stake0: StakeMap, stake1: StakeMap, claims: ClaimMap,
                       amountSent: nat, total: nat)
    requires LedgerValid(info, stake0, claims)
    requires MapSum(AllStakes(stake1)) == MapSum(AllStakes(stake0)) + total && total <= amountSent
    ensures LedgerValid(TokenInfo(info.staked + amountSent, info.unbonding), stake1, claims)
  {
  }

  /** A claim pays out no more than `unbonding` holds (so its saturating
      subtraction never saturates), and the waiting claims keep `unbonding`
      equal to the claims. */
  lemma ClaimLedger(info: TokenInfo, stake: StakeMap, claims: ClaimMap, a: Addr, now: Time)
    requires LedgerValid(info, stake, claims)
    ensures var (release, waiting) := Claims.ClaimTokens(ClaimsOf(claims, a), now);
            SatSub(info.unbonding, release) + release == info.unbonding
            && LedgerValid(TokenInfo(info.staked, SatSub(info.unbonding, release)), stake, claims[a := waiting])
  {
    var (release, waiting) := Claims.ClaimTokens(ClaimsOf(claims, a), now);
    ClaimTotalsUpdate(claims, a, waiting);
    ClaimsWithinTotal(claims, a);
  }

  /** A new flow on an asset that is not the staked token, with no flow yet
      and room left, whose multipliers list exactly the configured periods
      (what `FlowCheck` admits), stored with a decreasing curve (the handler
      stores the constant zero), keeps the flows invariant. */
  lemma NewFlowValid(cfg: Config, dists: map<Asset, Distribution>, curves: map<Asset, Curve>,
                     manager: Addr, asset: Asset, rewards: seq<(Period, nat)>, zero: Curve)
    requires FlowsValid(cfg, dists, curves)
    requires asset !in dists && |dists.Keys| < cfg.maxDistributions && asset != Token(cfg.cw20Contract)
    requires PeriodsOf(rewards) == cfg.unbondingPeriods && WindowsNonDecreasing(rewards)
    requires Decreasing(zero)
    ensures FlowsValid(cfg, dists[asset := NewDistribution(manager, rewards)], curves[asset := zero])
  {
    NewFlowCount(cfg, dists, curves, manager, asset, rewards, zero);
    NewFlowKeys(cfg, dists, curves, manager, asset, rewards, zero);
    NewFlowShapes(cfg, dists, curves, manager, asset, rewards, zero);
    NewFlowCurves(cfg, dists, curves, manager, asset, rewards, zero);
    FlowsValidIntro(cfg, dists[asset := NewDistribution(manager, rewards)], curves[asset := zero]);
  }

  lemma NewFlowCount(cfg: Config, dists: map<Asset, Distribution>, curves: map<Asset, Curve>,
                     manager: Addr, asset: Asset, rewards: seq<(Period, nat)>, zero: Curve)
    requires FlowsValid(cfg, dists, curves)
    requires asset !in dists && |dists.Keys| < cfg.maxDistributions && asset != Token(cfg.cw20Contract)
    requires PeriodsOf(rewards) == cfg.unbondingPeriods && WindowsNonDecreasing(rewards)
    requires Decreasing(zero)
    ensures |dists[asset := NewDistribution(manager, rewards)].Keys| <= cfg.maxDistributions
  {
    assert dists[asset := NewDistribution(manager, rewards)].Keys == dists.Keys + {asset};
  }

  lemma NewFlowKeys(cfg: Config, dists: map<Asset, Distribution>, curves: map<Asset, Curve>,
                     manager: Addr, asset: Asset, rewards: seq<(Period, nat)>, zero: Curve)
    requires FlowsValid(cfg, dists, curves)
    requires asset !in dists && |dists.Keys| < cfg.maxDistributions && asset != Token(cfg.cw20Contract)
    requires PeriodsOf(rewards) == cfg.unbondingPeriods && WindowsNonDecreasing(rewards)
    requires Decreasing(zero)
    ensures var d := dists[asset := NewDistribution(manager, rewards)];
            (forall x :: x in d <==> x in curves[asset := zero]) && Token(cfg.cw20Contract) !in d
  {
  }

  lemma NewFlowShapes(cfg: Config, dists: map<Asset, Distribution>, curves: map<Asset, Curve>,
                     manager: Addr, asset: Asset, rewards: seq<(Period, nat)>, zero: Curve)
    requires FlowsValid(cfg, dists, curves)
    requires asset !in dists && |dists.Keys| < cfg.maxDistributions && asset != Token(cfg.cw20Contract)
    requires PeriodsOf(rewards) == cfg.unbondingPeriods && WindowsNonDecreasing(rewards)
    requires Decreasing(zero)
    ensures var d := dists[asset := NewDistribution(manager, rewards)];
            forall x :: x in d ==> FlowShaped(cfg, d[x])
  {
  }

  lemma NewFlowCurves(cfg: Config, dists: map<Asset, Distribution>, curves: map<Asset, Curve>,
                     manager: Addr, asset: Asset, rewards: seq<(Period, nat)>, zero: Curve)
    requires FlowsValid(cfg, dists, curves)
    requires asset !in dists && |dists.Keys| < cfg.maxDistributions && asset != Token(cfg.cw20Contract)
    requires PeriodsOf(rewards) == cfg.unbondingPeriods && WindowsNonDecreasing(rewards)
    requires Decreasing(zero)
    ensures var c := curves[asset := zero];
            forall x :: x in c ==> Decreasing(c[x])
  {
  }

  /** The flows invariant from its parts. */
  lemma FlowsValidIntro(cfg: Config, d: map<Asset, Distribution>, c: map<Asset, Curve>)
    requires (forall x :: x in d <==> x in c) && Token(cfg.cw20Contract) !in d
    requires |d.Keys| <= cfg.maxDistributions
    requires forall x :: x in d ==> FlowShaped(cfg, d[x])
    requires forall x :: x in c ==> Decreasing(c[x])
    ensures FlowsValid(cfg, d, c)
  {
  }

  /** A successful `update_reward_config` keeps the flows invariant, and the
      staked token, which never has a flow, cannot be funded. */
  lemma FundKeepsFlows(cfg: Config, dists: map<Asset, Distribution>, curves: map<Asset, Curve>,
                       asset: Asset, amount: nat, schedule: Curve, now: Time)
    requires FlowsValid(cfg, dists, curves)
    ensures RewardConfigUpdate(curves, asset, amount, schedule, now).Ok? ==>
              FlowsValid(cfg, dists, RewardConfigUpdate(curves, asset, amount, schedule, now).value)
    ensures asset == Token(cfg.cw20Contract) ==>
              RewardConfigUpdate(curves, asset, amount, schedule, now) == Err(NoRewardCurve(asset))
  {
  }

  /** Every step of a multi-coin fund keeps the flows valid, so the whole
      fund does. */
  lemma {:induction false} FundAllKeepsFlows(cfg: Config, dists: map<Asset, Distribution>, curves: map<Asset, Curve>,
                                             funds: seq<(string, nat)>, schedule: Curve, now: Time)
    requires FlowsValid(cfg, dists, curves)
    ensures FundAll(curves, funds, schedule, now).Ok? ==> FlowsValid(cfg, dists, FundAll(curves, funds, schedule, now).value)
    decreases |funds|
  {
    if funds != [] {
      var first := RewardConfigUpdate(curves, Native(funds[0].0), funds[0].1, schedule, now);
      FundKeepsFlows(cfg, dists, curves, Native(funds[0].0), funds[0].1, schedule, now);
      if first.Ok? {
        FundAllKeepsFlows(cfg, dists, first.value, funds[1..], schedule, now);
      }
    }
  }

  // ---------------------------------------------------------------- bond, rebond

  /** The records after `execute_mass_bond`'s loop: each delegation in turn
      adds its amount to the recipient's free stake in the period. */
  function Delegated(stake: StakeMap, p: Period, ds: seq<(Addr, nat)>): (r: StakeMap)
    ensures forall k :: k in r ==> k in stake || k.1 == p
    decreases |ds|
  {
    if ds == [] then stake
    else
      var a := ds[0].0;
      Delegated(stake[(a, p) := Bonding.AddUnlockedTokens(Get(stake, a, p), ds[0].1)], p, ds[1..])
  }

  /** What the delegations give one staker. */
  function AmountFor(ds: seq<(Addr, nat)>, a: Addr): nat
  {
    if ds == [] then 0
    else (if ds[0].0 == a then ds[0].1 else 0) + AmountFor(ds[1..], a)
  }

  /** A mass bond raises each recipient's free stake in the period by the sum
      of the amounts delegated to it; locked tranches and every other period
      are untouched. */
  lemma {:induction false} DelegatedEffect(stake: StakeMap, p: Period, ds: seq<(Addr, nat)>, a: Addr, q: Period)
    ensures Get(Delegated(stake, p, ds), a, q)
            == if q == p then Get(stake, a, p).(stake := Get(stake, a, p).stake + AmountFor(ds, a))
               else Get(stake, a, q)
    decreases |ds|
  {
    if ds != [] {
      var next := stake[(ds[0].0, p) := Bonding.AddUnlockedTokens(Get(stake, ds[0].0, p), ds[0].1)];
      DelegatedEffect(next, p, ds[1..], a, q);
    }
  }

  /** `add_locked_tokens` until now + (from - to) when moving to a shorter
      period, `add_unlocked_tokens` otherwise. */
  function RebondTarget(b: Bonding.BondingInfo, bondFrom: Period, bondTo: Period, now: Time, amount: nat)
    : (r: Bonding.BondingInfo)
    ensures Bonding.TotalStake(r) == Bonding.TotalStake(b) + amount
    ensures bondFrom > bondTo ==> forall t: Time ::
              (Bonding.TotalLocked(r, t) == Bonding.TotalLocked(b, t) + (if t < now + (bondFrom - bondTo) then amount else 0))
    ensures bondFrom <= bondTo ==> forall t: Time :: Bonding.TotalLocked(r, t) == Bonding.TotalLocked(b, t)
  {
    if bondFrom > bondTo then
      var r := Bonding.AddLockedTokens(b, now + (bondFrom - bondTo), amount);
      assert forall t: Time :: Bonding.TotalLocked(r, t)
               == Bonding.TotalLocked(b, t) + (if t < now + (bondFrom - bondTo) then amount else 0) by {
        forall t: Time {
          Bonding.AddLockedLockedUntil(b, now + (bondFrom - bondTo), amount, t);
        }
      }
      r
    else Bonding.AddUnlockedTokens(b, amount)
  }

  /** Bonding then unbonding the same amount in the same period, with no
      time passing, gives back a record with the old total stake. */
  lemma BondUnbondRoundTrip(b: Bonding.BondingInfo, amount: nat, now: Time)
    ensures var r := Bonding.ReleaseStake(Bonding.AddUnlockedTokens(b, amount), now, amount);
            r.Ok? && Bonding.TotalStake(r.value) == Bonding.TotalStake(b)
            && Bonding.TotalLocked(r.value, now) == Bonding.TotalLocked(b, now)
  {
    Bonding.LockedWithinTotal(b, now);
  }

  // ---------------------------------------------------------------- queries

  function Staked(stake: StakeMap, a: Addr, p: Period, now: Time, cw20: Addr): (r: StakedResponse)
    ensures r.totalLocked <= r.stake
    ensures r.stake == Bonding.TotalStake(Get(stake, a, p)) && r.totalLocked == Bonding.TotalLocked(Get(stake, a, p), now)
    ensures r.unbondingPeriod == p && r.cw20Contract == cw20
  {
    Bonding.LockedWithinTotal(Get(stake, a, p), now);
    StakedResponse(Bonding.TotalStake(Get(stake, a, p)), Bonding.TotalLocked(Get(stake, a, p), now), p, cw20)
  }

  /** `idx` lists, in increasing order, exactly the positions of `periods`
      whose period the staker has a record in, and `r` answers those
      positions in turn. */
  ghost predicate AnswersInOrder(r: seq<StakedResponse>, idx: seq<nat>, periods: seq<Period>,
                                 stake: StakeMap, a: Addr)
  {
    |idx| == |r|
    && (forall i :: 0 <= i < |idx| ==> idx[i] < |periods| && r[i].unbondingPeriod == periods[idx[i]])
    && (forall i, j :: 0 <= i < j < |idx| ==> idx[i] < idx[j])
    && (forall k :: 0 <= k < |periods| && (a, periods[k]) in stake ==> k in idx)
  }

  /** Every position one later. */
  function Later(idx: seq<nat>): (r: seq<nat>)
    ensures |r| == |idx| && forall i :: 0 <= i < |idx| ==> r[i] == idx[i] + 1
  {
    seq(|idx|, i requires 0 <= i < |idx| => idx[i] + 1)
  }

  /** Position 0 followed by every position one later. */
  function FirstAndLater(idx: seq<nat>): (r: seq<nat>)
    ensures |r| == |idx| + 1 && r[0] == 0 && forall i :: 1 <= i < |r| ==> r[i] == idx[i - 1] + 1
  {
    seq(|idx| + 1, i requires 0 <= i <= |idx| => if i == 0 then 0 else idx[i - 1] + 1)
  }

  /** The positions of `periods` whose period the staker has a record in. */
  function Positions(stake: StakeMap, periods: seq<Period>, a: Addr): seq<nat>
  {
    if periods == [] then []
    else if (a, periods[0]) in stake then FirstAndLater(Positions(stake, periods[1..], a))
    else Later(Positions(stake, periods[1..], a))
  }

  /** The order of the answers carries over from the periods after the first
      to all periods, when the first period has no record. */
  lemma AnswersInOrderSkip(rest: seq<StakedResponse>, idx0: seq<nat>, periods: seq<Period>,
                           stake: StakeMap, a: Addr)
    requires periods != [] && (a, periods[0]) !in stake
    requires AnswersInOrder(rest, idx0, periods[1..], stake, a)
    ensures AnswersInOrder(rest, Later(idx0), periods, stake, a)
  {
    var idx := Later(idx0);
    forall i | 0 <= i < |idx|
      ensures idx[i] < |periods| && rest[i].unbondingPeriod == periods[idx[i]]
    {
      assert periods[1..][idx0[i]] == periods[idx0[i] + 1];
    }
    forall k | 0 <= k < |periods| && (a, periods[k]) in stake
      ensures k in idx
    {
      assert periods[1..][k - 1] == periods[k];
      var i :| 0 <= i < |idx0| && idx0[i] == k - 1;
      assert idx[i] == k;
    }
  }

  /** The same when the first period has a record: its answer comes first. */
  lemma AnswersInOrderKeep(rest: seq<StakedResponse>, idx0: seq<nat>, periods: seq<Period>,
                           stake: StakeMap, a: Addr, first: StakedResponse)
    requires periods != [] && (a, periods[0]) in stake && first.unbondingPeriod == periods[0]
    requires AnswersInOrder(rest, idx0, periods[1..], stake, a)
    ensures AnswersInOrder([first] + rest, FirstAndLater(idx0), periods, stake, a)
  {
    var idx := FirstAndLater(idx0);
    var r := [first] + rest;
    forall i | 1 <= i < |idx|
      ensures idx[i] < |periods| && r[i].unbondingPeriod == periods[idx[i]]
    {
      assert r[i] == rest[i - 1];
      assert periods[1..][idx0[i - 1]] == periods[idx0[i - 1] + 1];
    }
    forall k | 0 <= k < |periods| && (a, periods[k]) in stake
      ensures k in idx
    {
      if k > 0 {
        assert periods[1..][k - 1] == periods[k];
        var i :| 0 <= i < |idx0| && idx0[i] == k - 1;
        assert idx[i + 1] == k;
      } else {
        assert idx[0] == 0;
      }
    }
  }

  /** `query_all_staked`: a response for each configured period in which the
      staker has a record, in configuration order. */
  function AllStaked(stake: StakeMap, periods: seq<Period>, a: Addr, now: Time, cw20: Addr)
    : (r: seq<StakedResponse>)
    ensures |r| <= |periods|
    ensures forall i :: 0 <= i < |r| ==> r[i].unbondingPeriod in periods && (a, r[i].unbondingPeriod) in stake
    ensures forall i :: 0 <= i < |r| ==> r[i] == Staked(stake, a, r[i].unbondingPeriod, now, cw20)
    ensures forall p :: p in periods && (a, p) in stake ==> exists i :: 0 <= i < |r| && r[i].unbondingPeriod == p
  {
    if periods == [] then []
    else
      var rest := AllStaked(stake, periods[1..], a, now, cw20);
      assert forall p :: p in periods <==> p == periods[0] || p in periods[1..] by {
        assert periods == [periods[0]] + periods[1..];
      }
      if (a, periods[0]) in stake then
        var r := [Staked(stake, a, periods[0], now, cw20)] + rest;
        assert forall i :: 1 <= i < |r| ==> r[i] == rest[i - 1];
        assert forall p :: p in periods && (a, p) in stake ==> exists i :: 0 <= i < |r| && r[i].unbondingPeriod == p by {
          forall p | p in periods && (a, p) in stake
            ensures exists i :: 0 <= i < |r| && r[i].unbondingPeriod == p
          {
            if p == periods[0] {
              assert r[0].unbondingPeriod == p;
            } else {
              var i :| 0 <= i < |rest| && rest[i].unbondingPeriod == p;
              assert r[i + 1].unbondingPeriod == p;
            }
          }
        }
        r
      else rest
  }

  /** The responses of `query_all_staked` come once per position of the
      configured periods that has a record, in configuration order. */
  lemma {:induction false} AllStakedInOrder(stake: StakeMap, periods: seq<Period>, a: Addr, now: Time, cw20: Addr)
    ensures AnswersInOrder(AllStaked(stake, periods, a, now, cw20), Positions(stake, periods, a), periods, stake, a)
  {
    if periods != [] {
      var rest := AllStaked(stake, periods[1..], a, now, cw20);
      AllStakedInOrder(stake, periods[1..], a, now, cw20);
      if (a, periods[0]) in stake {
        AnswersInOrderKeep(rest, Positions(stake, periods[1..], a), periods, stake, a,
                           Staked(stake, a, periods[0], now, cw20));
      } else {
        AnswersInOrderSkip(rest, Positions(stake, periods[1..], a), periods, stake, a);
      }
    }
  }
}
