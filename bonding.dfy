/** The per-(staker, unbonding period) bonding record `BondingInfo` that the
    handlers of the staking contract read and update: a free balance plus
    tranches of tokens that stay locked until a release time (tokens moved
    into a shorter unbonding period by a rebond). */
module Bonding {
  import opened Common

  /** A tranche of tokens locked until `releaseAt`. */
  datatype Lock = Lock(releaseAt: Time, amount: nat)

  /** `stake` is the free balance; `lockedTokens` are the locked tranches. */
  datatype BondingInfo = BondingInfo(stake: nat, lockedTokens: seq<Lock>)

  /** `unwrap_or_default()`: the record of a staker who never bonded there. */
  const EmptyBonding: BondingInfo := BondingInfo(0, [])

  /** A lock expires once the block time reaches its release time. */
  predicate IsExpired(l: Lock, now: Time)
  {
    l.releaseAt <= now
  }

  function LockSum(ls: seq<Lock>): nat
  {
    if ls == [] then 0 else ls[0].amount + LockSum(ls[1..])
  }

  /** The tranches whose lock has run out, in their original order. */
  function Expired(ls: seq<Lock>, now: Time): (r: seq<Lock>)
    ensures forall l :: l in r ==> l in ls && IsExpired(l, now)
  {
    if ls == [] then []
    else if IsExpired(ls[0], now) then [ls[0]] + Expired(ls[1..], now)
    else Expired(ls[1..], now)
  }

  /** The tranches still locked, in their original order. */
  function Unexpired(ls: seq<Lock>, now: Time): (r: seq<Lock>)
    ensures forall l :: l in r ==> l in ls && !IsExpired(l, now)
  {
    if ls == [] then []
    else if IsExpired(ls[0], now) then Unexpired(ls[1..], now)
    else [ls[0]] + Unexpired(ls[1..], now)
  }

  /** `total_stake`: free balance plus every tranche. */
  function TotalStake(b: BondingInfo): (r: nat)
    ensures r >= b.stake
    ensures forall now: Time :: TotalLocked(b, now) <= r
  {
    b.stake + LockSum(b.lockedTokens)
  }

  /** `total_locked`: the tranches not yet released at `now`. */
  function TotalLocked(b: BondingInfo, now: Time): (r: nat)
    ensures r <= LockSum(b.lockedTokens)
  {
    LockSumPartition(b.lockedTokens, now);
    LockSum(Unexpired(b.lockedTokens, now))
  }

  lemma {:induction false} LockSumAppend(ls: seq<Lock>, l: Lock)
    ensures LockSum(ls + [l]) == LockSum(ls) + l.amount
  {
    if ls != [] {
      assert (ls + [l])[1..] == ls[1..] + [l];
      LockSumAppend(ls[1..], l);
    }
  }

  /** Splitting the tranches at `now` loses no tokens. */
  lemma {:induction false} LockSumPartition(ls: seq<Lock>, now: Time)
    ensures LockSum(ls) == LockSum(Expired(ls, now)) + LockSum(Unexpired(ls, now))
  {
    if ls != [] {
      LockSumPartition(ls[1..], now);
      if IsExpired(ls[0], now) {
        assert ([ls[0]] + Expired(ls[1..], now))[1..] == Expired(ls[1..], now);
      } else {
        assert ([ls[0]] + Unexpired(ls[1..], now))[1..] == Unexpired(ls[1..], now);
      }
    }
  }

  /** Tokens still locked are part of the total stake. */
  lemma LockedWithinTotal(b: BondingInfo, now: Time)
    ensures TotalLocked(b, now) <= TotalStake(b)
  {
    LockSumPartition(b.lockedTokens, now);
  }

  /** `add_unlocked_tokens`: the amount is free at once. */
  function AddUnlockedTokens(b: BondingInfo, amount: nat): (r: BondingInfo)
    ensures TotalStake(r) == TotalStake(b) + amount
    ensures forall now: Time :: TotalLocked(r, now) == TotalLocked(b, now)
  {
    b.(stake := b.stake + amount)
  }

  /** `add_locked_tokens`: the amount counts as stake but stays locked until `releaseAt`. */
  function AddLockedTokens(b: BondingInfo, releaseAt: Time, amount: nat): (r: BondingInfo)
    ensures TotalStake(r) == TotalStake(b) + amount
  {
    LockSumAppend(b.lockedTokens, Lock(releaseAt, amount));
    b.(lockedTokens := b.lockedTokens + [Lock(releaseAt, amount)])
  }

  lemma {:induction false} UnexpiredAppend(ls: seq<Lock>, l: Lock, now: Time)
    ensures Unexpired(ls + [l], now) == Unexpired(ls, now) + (if IsExpired(l, now) then [] else [l])
  {
    if ls != [] {
      assert (ls + [l])[1..] == ls[1..] + [l];
      UnexpiredAppend(ls[1..], l, now);
    }
  }

  /** A tranche added with `add_locked_tokens` counts as locked exactly
      until its release time. */
  lemma AddLockedLockedUntil(b: BondingInfo, releaseAt: Time, amount: nat, t: Time)
    ensures TotalLocked(AddLockedTokens(b, releaseAt, amount), t)
            == TotalLocked(b, t) + (if t < releaseAt then amount else 0)
  {
    var l := Lock(releaseAt, amount);
    assert AddLockedTokens(b, releaseAt, amount).lockedTokens == b.lockedTokens + [l];
    UnexpiredAppend(b.lockedTokens, l, t);
    LockSumAppend(Unexpired(b.lockedTokens, t), l);
    if t < releaseAt {
      assert Unexpired(b.lockedTokens + [l], t) == Unexpired(b.lockedTokens, t) + [l];
    } else {
      assert Unexpired(b.lockedTokens + [l], t) == Unexpired(b.lockedTokens, t);
    }
  }

  /** Moves every expired tranche into the free balance. */
  function FreeUnlockedTokens(b: BondingInfo, now: Time): (r: BondingInfo)
    ensures TotalStake(r) == TotalStake(b)
    ensures TotalLocked(r, now) == TotalLocked(b, now)
    ensures forall l :: l in r.lockedTokens ==> !IsExpired(l, now)
  {
    LockSumPartition(b.lockedTokens, now);
    UnexpiredIdempotent(b.lockedTokens, now);
    BondingInfo(b.stake + LockSum(Expired(b.lockedTokens, now)), Unexpired(b.lockedTokens, now))
  }

  lemma {:induction false} UnexpiredIdempotent(ls: seq<Lock>, now: Time)
    ensures Unexpired(Unexpired(ls, now), now) == Unexpired(ls, now)
  {
    if ls != [] {
      UnexpiredIdempotent(ls[1..], now);
      if !IsExpired(ls[0], now) {
        assert ([ls[0]] + Unexpired(ls[1..], now))[1..] == Unexpired(ls[1..], now);
      }
    }
  }

  /** `release_stake`: frees the expired tranches, then takes `amount` from the
      free balance; the checked subtraction fails when the free balance is short.
      `execute_unbond` and `execute_rebond` both call it, so both can release
      exactly the stake that is not locked at `now`. */
  function ReleaseStake(b: BondingInfo, now: Time, amount: nat): (r: Result<BondingInfo>)
    ensures TotalLocked(b, now) <= TotalStake(b)
    ensures r.Ok? <==> amount <= TotalStake(b) - TotalLocked(b, now)
    ensures r.Err? ==> r.error == NotEnoughStake
    ensures r.Ok? ==> TotalStake(r.value) + amount == TotalStake(b)
    ensures r.Ok? ==> TotalLocked(r.value, now) == TotalLocked(b, now)
  {
    LockedWithinTotal(b, now);
    var freed := FreeUnlockedTokens(b, now);
    if freed.stake < amount then Err(NotEnoughStake)
    else Ok(freed.(stake := freed.stake - amount))
  }

  /** The first unbond of the claim test: 7,900 of a free 20,000 leaves
      12,100, and unbonding more than the free balance fails. */
  lemma UnbondExample(now: Time)
    ensures ReleaseStake(BondingInfo(20_000, []), now, 7_900) == Ok(BondingInfo(12_100, []))
    ensures ReleaseStake(BondingInfo(12_100, []), now, 12_101) == Err(NotEnoughStake)
  {
    assert Expired([], now) == [] && Unexpired([], now) == [];
  }
}
