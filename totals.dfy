/** The per-unbonding-period totals `TOTAL_PER_PERIOD` of the staking
    contract and the transition `update_total_stake` applies to them. */
module Totals {
  import opened Common
  import opened Sums

  /** `staked` is all stake in the period; `poweredStake` counts only the
      stakers whose stake there is at least `min_bond`. */
  datatype TotalStake = TotalStake(staked: nat, poweredStake: nat)

  const ZeroTotal: TotalStake := TotalStake(0, 0)

  /** The part of one staker's stake that counts towards `powered_stake`. */
  function Powered(stake: nat, minBond: nat): (r: nat)
    ensures r <= stake
    ensures r == stake || r == 0
    ensures r == stake <==> stake >= minBond || stake == 0
  {
    if stake >= minBond then stake else 0
  }

  /** With `min_bond >= 1` a zero stake is never powered. */
  lemma ZeroNeverPowered(minBond: nat)
    requires minBond >= 1
    ensures Powered(0, minBond) == 0 && Powered(minBond, minBond) == minBond
  {
  }

  /** The change `update_total_stake` applies to one period's total when a
      staker's full stake there goes from `oldStake` to `newStake`: the checked
      add/sub on `staked`, then the four-case rule on `powered_stake` (whose
      underflowing `-=` aborts the transaction like the checked subtraction). */
  function NextTotal(t: TotalStake, minBond: nat, oldStake: nat, newStake: nat): (r: Result<TotalStake>)
    ensures r.Ok? <==> oldStake <= t.staked + newStake
                       && Powered(oldStake, minBond) <= t.poweredStake + Powered(newStake, minBond)
    ensures r.Err? ==> r.error == Overflow
    ensures r.Ok? ==> r.value.staked + oldStake == t.staked + newStake
    ensures r.Ok? ==> r.value.poweredStake + Powered(oldStake, minBond)
                      == t.poweredStake + Powered(newStake, minBond)
  {
    var staked: int :=
      if oldStake <= newStake then t.staked + (newStake - oldStake)
      else t.staked - (oldStake - newStake);
    if staked < 0 then Err(Overflow)
    else
      var wasAbove := oldStake >= minBond;
      var isAbove := newStake >= minBond;
      var powered: int :=
        if !wasAbove && !isAbove then t.poweredStake
        else if !wasAbove && isAbove then t.poweredStake + newStake
        else if wasAbove && !isAbove then t.poweredStake - oldStake
        else if newStake >= oldStake then t.poweredStake + (newStake - oldStake)
        else t.poweredStake - (oldStake - newStake);
      if powered < 0 then Err(Overflow)
      else Ok(TotalStake(staked, powered))
  }

  /** A change that does not change the stake leaves the total as it is. */
  lemma NextTotalSame(t: TotalStake, minBond: nat, s: nat)
    ensures NextTotal(t, minBond, s, s) == Ok(t)
  {
  }

  /** Index i holds the first entry for its period. */
  predicate IsFirst(totals: seq<(Period, TotalStake)>, i: nat)
    requires i < |totals|
  {
    forall j :: 0 <= j < i ==> totals[j].0 != totals[i].0
  }

  /** The entry the lookup of `update_total_stake` lands on: the first one for
      the period, or none when the period is not configured. */
  function FindPeriod(totals: seq<(Period, TotalStake)>, period: Period): (r: Option<nat>)
    ensures r.None? <==> period !in PeriodsOf(totals)
    ensures r.Some? ==> r.value < |totals| && totals[r.value].0 == period && IsFirst(totals, r.value)
  {
    if totals == [] then None
    else if totals[0].0 == period then Some(0)
    else match FindPeriod(totals[1..], period)
      case None => None
      case Some(i) => Some(i + 1)
  }

  /** `update_total_stake`: applies `NextTotal` to the period's first entry
      and leaves every other entry as it was (see `UpdateTotalsEffect`). */
  function UpdateTotals(totals: seq<(Period, TotalStake)>, minBond: nat, period: Period,
                        oldStake: nat, newStake: nat): (r: Result<seq<(Period, TotalStake)>>)
    ensures period !in PeriodsOf(totals) ==> r == Err(NoUnbondingPeriodFound(period))
  {
    match FindPeriod(totals, period)
    case None => Err(NoUnbondingPeriodFound(period))
    case Some(i) =>
      match NextTotal(totals[i].1, minBond, oldStake, newStake)
      case Err(e) => Err(e)
      case Ok(t) => Ok(totals[i := (period, t)])
  }

  /** A configured period fails exactly when `NextTotal` does; otherwise only
      the period's first entry changes, to `NextTotal`'s result. */
  lemma UpdateTotalsEffect(totals: seq<(Period, TotalStake)>, minBond: nat, period: Period,
                           oldStake: nat, newStake: nat)
    requires period in PeriodsOf(totals)
    ensures var r := UpdateTotals(totals, minBond, period, oldStake, newStake);
            var i := FindPeriod(totals, period).value;
            match NextTotal(totals[i].1, minBond, oldStake, newStake)
            case Err(e) => r == Err(e)
            case Ok(t) => r.Ok? && |r.value| == |totals| && PeriodsOf(r.value) == PeriodsOf(totals)
                          && r.value[i].1 == t
                          && forall j :: 0 <= j < |totals| && j != i ==> r.value[j] == totals[j]
  {
    var i := FindPeriod(totals, period).value;
    match NextTotal(totals[i].1, minBond, oldStake, newStake)
    case Err(e) =>
    case Ok(t) =>
      var r := totals[i := (period, t)];
      assert PeriodsOf(r) == PeriodsOf(totals);
  }

  /** The powered part of every stake in a map. */
  ghost function PoweredMap<K>(m: map<K, nat>, minBond: nat): (r: map<K, nat>)
    ensures r.Keys == m.Keys
  {
    map k | k in m :: Powered(m[k], minBond)
  }

  /** The total a period must hold for the stakes `m` of its stakers. */
  ghost function Aggregate<K>(m: map<K, nat>, minBond: nat): TotalStake
  {
    TotalStake(MapSum(m), MapSum(PoweredMap(m, minBond)))
  }

  /** Invariant of every period total: powered stake never exceeds the stake. */
  lemma AggregatePoweredWithinStaked<K>(m: map<K, nat>, minBond: nat)
    ensures Aggregate(m, minBond).poweredStake <= Aggregate(m, minBond).staked
  {
    MapSumMono(PoweredMap(m, minBond), m);
  }

  /** `NextTotal` lands on any total that balances the change. */
  lemma NextTotalBalanced(t: TotalStake, minBond: nat, oldStake: nat, newStake: nat, staked: nat, powered: nat)
    requires staked + oldStake == t.staked + newStake
    requires powered + Powered(oldStake, minBond) == t.poweredStake + Powered(newStake, minBond)
    ensures NextTotal(t, minBond, oldStake, newStake) == Ok(TotalStake(staked, powered))
  {
  }

  /** The four-case rule keeps a total equal to the aggregate of its
      stakers: updating one staker from its recorded stake to any new stake
      never fails and yields the aggregate of the updated stakes. */
  lemma NextTotalOfAggregate<K>(m: map<K, nat>, minBond: nat, k: K, newStake: nat)
    ensures NextTotal(Aggregate(m, minBond), minBond, if k in m then m[k] else 0, newStake)
            == Ok(Aggregate(m[k := newStake], minBond))
  {
    var oldStake := if k in m then m[k] else 0;
    MapSumUpdate(m, k, newStake);
    var pm := PoweredMap(m, minBond);
    var pm' := PoweredMap(m[k := newStake], minBond);
    assert pm' == pm[k := Powered(newStake, minBond)];
    MapSumUpdate(pm, k, Powered(newStake, minBond));
    if k in m {
      assert pm[k] == Powered(oldStake, minBond);
    } else {
      assert Powered(0, minBond) == 0;
    }
    NextTotalBalanced(Aggregate(m, minBond), minBond, oldStake, newStake, MapSum(m[k := newStake]), MapSum(pm'));
  }
}
