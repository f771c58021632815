/** Reward power and the points-correction bookkeeping the staking contract
    applies to every distribution flow when a staker's stake changes
    (`calc_rewards_power`, `update_rewards`, `apply_points_correction`). */
module Rewards {
  import opened Common
  import opened Arith

  /** A reward distribution flow for one asset. `rewardMultipliers` pairs each
      unbonding period with a `Decimal` multiplier (atomics over 10^18). */
  datatype Distribution = Distribution(
    manager: Addr,
    rewardMultipliers: seq<(Period, nat)>,
    sharesPerPoint: nat,
    sharesLeftover: nat,
    distributedTotal: nat,
    withdrawableTotal: nat)

  /** The per-(staker, asset) correction record. */
  datatype WithdrawAdjustment = WithdrawAdjustment(sharesCorrection: int, withdrawnRewards: nat)

  const DefaultAdjustment: WithdrawAdjustment := WithdrawAdjustment(0, 0)

  /** The flow `execute_create_distribution_flow` stores: nothing paid in yet. */
  function NewDistribution(manager: Addr, rewards: seq<(Period, nat)>): (d: Distribution)
    ensures d.rewardMultipliers == rewards && d.manager == manager
    ensures d.sharesPerPoint == 0 && d.sharesLeftover == 0
    ensures d.distributedTotal == 0 && d.withdrawableTotal == 0
  {
    Distribution(manager, rewards, 0, 0, 0, 0)
  }

  /** Power of one period's stake: nothing below `min_bond`, else the stake
      times the multiplier (a `Decimal` product, rounded down), divided by
      `tokens_per_power` (rounded down). */
  function PeriodPower(stake: nat, multiplier: nat, tokensPerPower: nat, minBond: nat): (r: nat)
    ensures stake < minBond ==> r == 0
    ensures tokensPerPower > 0 && stake >= minBond ==>
      r * tokensPerPower * DECIMAL_FRACTIONAL <= stake * multiplier
      && stake * multiplier < (r + 1) * tokensPerPower * DECIMAL_FRACTIONAL
  {
    if stake < minBond || tokensPerPower == 0 then 0
    else
      var r := (stake * multiplier / DECIMAL_FRACTIONAL) / tokensPerPower;
      FloorTwice(stake * multiplier, DECIMAL_FRACTIONAL, tokensPerPower);
      r
  }

  /** A staker's stake in a period; absent entries stand for no stake. */
  function StakeIn(stakes: map<Period, nat>, p: Period): nat
  {
    if p in stakes then stakes[p] else 0
  }

  /** `calc_rewards_power`: the per-period powers summed over the flow's
      multiplier list. */
  function RewardPower(mults: seq<(Period, nat)>, stakes: map<Period, nat>,
                       tokensPerPower: nat, minBond: nat): (r: nat)
    ensures tokensPerPower == 0 ==> r == 0
    ensures forall i :: 0 <= i < |mults| ==>
              PeriodPower(StakeIn(stakes, mults[i].0), mults[i].1, tokensPerPower, minBond) <= r
  {
    if mults == [] then 0
    else
      var rest := RewardPower(mults[1..], stakes, tokensPerPower, minBond);
      assert forall i :: 1 <= i < |mults| ==> mults[1..][i - 1] == mults[i];
      PeriodPower(StakeIn(stakes, mults[0].0), mults[0].1, tokensPerPower, minBond) + rest
  }

  /** Stake below `min_bond` in every period earns no power at all. */
  lemma {:induction false} RewardPowerBelowMinBond(mults: seq<(Period, nat)>, stakes: map<Period, nat>,
                                                   tokensPerPower: nat, minBond: nat)
    requires forall i :: 0 <= i < |mults| ==> StakeIn(stakes, mults[i].0) < minBond
    ensures RewardPower(mults, stakes, tokensPerPower, minBond) == 0
  {
    if mults != [] {
      RewardPowerBelowMinBond(mults[1..], stakes, tokensPerPower, minBond);
    }
  }

  /** Power depends only on the stake in the flow's periods. */
  lemma {:induction false} RewardPowerFrame(mults: seq<(Period, nat)>, s1: map<Period, nat>, s2: map<Period, nat>,
                                            tokensPerPower: nat, minBond: nat)
    requires forall i :: 0 <= i < |mults| ==> StakeIn(s1, mults[i].0) == StakeIn(s2, mults[i].0)
    ensures RewardPower(mults, s1, tokensPerPower, minBond) == RewardPower(mults, s2, tokensPerPower, minBond)
  {
    if mults != [] {
      RewardPowerFrame(mults[1..], s1, s2, tokensPerPower, minBond);
    }
  }

  /** More stake in every period never gives less power once above `min_bond`. */
  lemma PeriodPowerMono(s1: nat, s2: nat, multiplier: nat, tokensPerPower: nat, minBond: nat)
    requires s1 <= s2
    ensures PeriodPower(s1, multiplier, tokensPerPower, minBond) <= PeriodPower(s2, multiplier, tokensPerPower, minBond)
  {
    if s1 >= minBond && tokensPerPower > 0 {
      MulLe(s1, s2, multiplier);
      DivMono(s1 * multiplier, s2 * multiplier, DECIMAL_FRACTIONAL);
      DivMono(s1 * multiplier / DECIMAL_FRACTIONAL, s2 * multiplier / DECIMAL_FRACTIONAL, tokensPerPower);
    }
  }

  /** The floor is taken per period, so the power is at most what the pooled
      per-period products would give in one division. */
  lemma {:induction false} FloorPerPeriodAtMostPooled(xs: seq<nat>, d: nat)
    requires d > 0
    ensures SumFloors(xs, d) <= Sum(xs) / d
  {
    if xs != [] {
      FloorPerPeriodAtMostPooled(xs[1..], d);
      FloorAddAtMost(xs[0], Sum(xs[1..]), d);
    }
  }

  function Sum(xs: seq<nat>): nat
  {
    if xs == [] then 0 else xs[0] + Sum(xs[1..])
  }

  function SumFloors(xs: seq<nat>, d: nat): nat
    requires d > 0
  {
    if xs == [] then 0 else xs[0] / d + SumFloors(xs[1..], d)
  }

  /** The rewards_rebonding example: 10_000 at 1% and 9_000 at 10% with
      tokens_per_power 1_000 earn nothing, while one pooled division of the
      same products would give 1. */
  lemma PerPeriodFloorExample()
    ensures var m1 := DECIMAL_FRACTIONAL / 100;
            var m10 := DECIMAL_FRACTIONAL / 10;
            RewardPower([(20, m1), (40, m10)], map[20 := 10_000, 40 := 9_000], 1_000, 1_000) == 0
            && (10_000 * m1 / DECIMAL_FRACTIONAL + 9_000 * m10 / DECIMAL_FRACTIONAL) / 1_000 == 1
  {
    var stakes: map<Period, nat> := map[20 := 10_000, 40 := 9_000];
    var mults: seq<(Period, nat)> := [(20, DECIMAL_FRACTIONAL / 100), (40, DECIMAL_FRACTIONAL / 10)];
    assert mults[1..] == [(40, DECIMAL_FRACTIONAL / 10)];
    assert |mults[1..][1..]| == 0;
    assert StakeIn(stakes, 20) == 10_000 && StakeIn(stakes, 40) == 9_000;
    assert PeriodPower(10_000, DECIMAL_FRACTIONAL / 100, 1_000, 1_000) == 0;
    assert PeriodPower(9_000, DECIMAL_FRACTIONAL / 10, 1_000, 1_000) == 0;
    assert RewardPower(mults[1..], stakes, 1_000, 1_000) == 0;
  }

  /** The points a staker earned so far in a flow: power times the shares per
      point, offset by the accumulated correction. */
  function Points(power: nat, sharesPerPoint: nat, adj: WithdrawAdjustment): int
  {
    power * sharesPerPoint - adj.sharesCorrection
  }

  /** `apply_points_correction`: the correction moves with the power change
      scaled by the current shares per point; withdrawn rewards stay. */
  function ApplyCorrection(adj: WithdrawAdjustment, sharesPerPoint: nat, diff: int): (r: WithdrawAdjustment)
    ensures r.withdrawnRewards == adj.withdrawnRewards
    ensures forall p: nat :: p + diff >= 0 ==>
      Points(p + diff, sharesPerPoint, r) == Points(p, sharesPerPoint, adj)
  {
    var r := WithdrawAdjustment(adj.sharesCorrection + sharesPerPoint * diff, adj.withdrawnRewards);
    assert forall p: nat :: (p + diff) * sharesPerPoint == p * sharesPerPoint + diff * sharesPerPoint;
    r
  }

  /** `update_rewards`: nothing when the power did not change, otherwise the
      correction for the signed difference new - old. `shares_per_point` is
      only read. A changed power hands back the updated record. */
  function UpdateRewards(adj: WithdrawAdjustment, sharesPerPoint: nat, oldPower: nat, newPower: nat)
    : (r: Option<WithdrawAdjustment>)
    ensures r.None? <==> oldPower == newPower
    ensures r.Some? ==> r.value.withdrawnRewards == adj.withdrawnRewards
    ensures r.Some? ==> Points(newPower, sharesPerPoint, r.value) == Points(oldPower, sharesPerPoint, adj)
  {
    if oldPower == newPower then None
    else
      var r := ApplyCorrection(adj, sharesPerPoint, newPower - oldPower);
      assert oldPower + (newPower - oldPower) == newPower;
      Some(r)
  }

  /** What happens to one staker's share of a flow, over time: the flow pays
      out and raises `shares_per_point`, or the staker's power changes. */
  datatype Event = Distribute(sharesAdded: nat) | ChangePower(newPower: nat)

  /** The bookkeeping the contract keeps for one (staker, flow). */
  datatype Account = Account(power: nat, sharesPerPoint: nat, adj: WithdrawAdjustment)

  /** Replays the events on the bookkeeping: a payout raises the shares per
      point, a power change goes through `update_rewards`. */
  function Replay(l: Account, events: seq<Event>): Account
    decreases events
  {
    if events == [] then l
    else
      var l' := match events[0]
        case Distribute(d) => l.(sharesPerPoint := l.sharesPerPoint + d)
        case ChangePower(p) =>
          match UpdateRewards(l.adj, l.sharesPerPoint, l.power, p)
          case None => l
          case Some(a) => Account(p, l.sharesPerPoint, a);
      Replay(l', events[1..])
  }

  /** The naive account: every payout credits the power held at its time. */
  function Earned(power: nat, events: seq<Event>): nat
    decreases events
  {
    if events == [] then 0
    else match events[0]
      case Distribute(d) => power * d + Earned(power, events[1..])
      case ChangePower(p) => Earned(p, events[1..])
  }

  /** A payout of `d` shares per point credits `power * d` points. */
  lemma PointsRaised(power: nat, sharesPerPoint: nat, d: nat, adj: WithdrawAdjustment)
    ensures Points(power, sharesPerPoint + d, adj) == Points(power, sharesPerPoint, adj) + power * d
  {
    assert power * (sharesPerPoint + d) == power * sharesPerPoint + power * d;
  }

  /** The correction scheme credits exactly what replaying the history with
      the power held at each payout credits. */
  lemma {:induction false} CorrectionMatchesHistory(l: Account, events: seq<Event>)
    ensures var l' := Replay(l, events);
            Points(l'.power, l'.sharesPerPoint, l'.adj)
            == Points(l.power, l.sharesPerPoint, l.adj) + Earned(l.power, events)
    decreases events
  {
    if events != [] {
      var rest := events[1..];
      match events[0]
      case Distribute(d) =>
        var l1 := l.(sharesPerPoint := l.sharesPerPoint + d);
        assert Replay(l, events) == Replay(l1, rest);
        assert Earned(l.power, events) == l.power * d + Earned(l.power, rest);
        CorrectionMatchesHistory(l1, rest);
        PointsRaised(l.power, l.sharesPerPoint, d, l.adj);
      case ChangePower(p) =>
        assert Earned(l.power, events) == Earned(p, rest);
        match UpdateRewards(l.adj, l.sharesPerPoint, l.power, p)
        case None =>
          assert Replay(l, events) == Replay(l, rest);
          CorrectionMatchesHistory(l, rest);
        case Some(a) =>
          var l1 := Account(p, l.sharesPerPoint, a);
          assert Replay(l, events) == Replay(l1, rest);
          CorrectionMatchesHistory(l1, rest);
    }
  }

  /** A staker who starts with no power and no correction has earned exactly
      the naive history account. */
  lemma FreshStakerEarnsHistory(sharesPerPoint: nat, events: seq<Event>)
    ensures var l' := Replay(Account(0, sharesPerPoint, DefaultAdjustment), events);
            Points(l'.power, l'.sharesPerPoint, l'.adj) == Earned(0, events)
  {
    CorrectionMatchesHistory(Account(0, sharesPerPoint, DefaultAdjustment), events);
  }

  /** No window of two neighbours where the multiplier drops. */
  predicate WindowsNonDecreasing(rewards: seq<(Period, nat)>)
  {
    forall i :: 0 <= i < |rewards| - 1 ==> rewards[i].1 <= rewards[i + 1].1
  }

  /** The neighbour check orders every pair of multipliers. */
  lemma {:induction false} MultipliersSorted(rewards: seq<(Period, nat)>, i: nat, j: nat)
    requires WindowsNonDecreasing(rewards)
    requires i <= j < |rewards|
    ensures rewards[i].1 <= rewards[j].1
    decreases j - i
  {
    if i < j {
      MultipliersSorted(rewards, i + 1, j);
    }
  }

  /** A larger multiplier never gives less power to the same stake. */
  lemma PeriodPowerMonoMultiplier(stake: nat, m1: nat, m2: nat, tokensPerPower: nat, minBond: nat)
    requires m1 <= m2
    ensures PeriodPower(stake, m1, tokensPerPower, minBond) <= PeriodPower(stake, m2, tokensPerPower, minBond)
  {
    if stake >= minBond && tokensPerPower > 0 {
      MulLe(m1, m2, stake);
      assert m1 * stake == stake * m1 && m2 * stake == stake * m2;
      DivMono(stake * m1, stake * m2, DECIMAL_FRACTIONAL);
      DivMono(stake * m1 / DECIMAL_FRACTIONAL, stake * m2 / DECIMAL_FRACTIONAL, tokensPerPower);
    }
  }

  /** In an accepted flow the same stake earns at least as much power in a
      later (longer) unbonding period as in an earlier one. */
  lemma LaterPeriodEarnsMore(rewards: seq<(Period, nat)>, i: nat, j: nat, stake: nat,
                             tokensPerPower: nat, minBond: nat)
    requires WindowsNonDecreasing(rewards)
    requires i <= j < |rewards|
    ensures PeriodPower(stake, rewards[i].1, tokensPerPower, minBond)
            <= PeriodPower(stake, rewards[j].1, tokensPerPower, minBond)
  {
    MultipliersSorted(rewards, i, j);
    PeriodPowerMonoMultiplier(stake, rewards[i].1, rewards[j].1, tokensPerPower, minBond);
  }
}
