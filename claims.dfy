/** The claims queue of the staking contract (`CLAIMS`, a cw_controllers
    `Claims` store): per staker, a FIFO list of pending withdrawals, each
    maturing at a fixed time. */
module Claims {
  import opened Common

  datatype Claim = Claim(amount: nat, releaseAt: Time)

  /** `Expiration::AtTime(t)` is expired once the block time reaches t. */
  predicate IsMature(c: Claim, now: Time)
  {
    c.releaseAt <= now
  }

  function ClaimSum(cs: seq<Claim>): nat
  {
    if cs == [] then 0 else cs[0].amount + ClaimSum(cs[1..])
  }

  /** The claims that can be paid out at `now`, in queue order: every
      matured claim, as often as it is queued, and nothing else. */
  function Matured(cs: seq<Claim>, now: Time): (r: seq<Claim>)
    ensures forall c :: c in r ==> c in cs && IsMature(c, now)
    ensures forall c :: multiset(r)[c] == if IsMature(c, now) then multiset(cs)[c] else 0
  {
    if cs == [] then []
    else
      assert cs == [cs[0]] + cs[1..];
      if IsMature(cs[0], now) then [cs[0]] + Matured(cs[1..], now)
      else Matured(cs[1..], now)
  }

  /** The claims that stay queued at `now`, in queue order: every claim not
      yet mature, as often as it is queued, and nothing else. */
  function Waiting(cs: seq<Claim>, now: Time): (r: seq<Claim>)
    ensures forall c :: c in r ==> c in cs && !IsMature(c, now)
    ensures forall c :: multiset(r)[c] == if IsMature(c, now) then 0 else multiset(cs)[c]
  {
    if cs == [] then []
    else
      assert cs == [cs[0]] + cs[1..];
      if IsMature(cs[0], now) then Waiting(cs[1..], now)
      else [cs[0]] + Waiting(cs[1..], now)
  }

  /** `create_claim`: appends one claim at the end of the queue. */
  function CreateClaim(cs: seq<Claim>, amount: nat, releaseAt: Time): (r: seq<Claim>)
    ensures |r| == |cs| + 1 && r[..|cs|] == cs && r[|cs|] == Claim(amount, releaseAt)
    ensures ClaimSum(r) == ClaimSum(cs) + amount
  {
    ClaimSumAppend(cs, Claim(amount, releaseAt));
    cs + [Claim(amount, releaseAt)]
  }

  /** `claim_tokens` with no cap: removes every matured claim and returns the
      sum released together with the claims left in the queue. */
  function ClaimTokens(cs: seq<Claim>, now: Time): (r: (nat, seq<Claim>))
    ensures r.0 + ClaimSum(r.1) == ClaimSum(cs)
    ensures forall c :: c in r.1 <==> c in cs && !IsMature(c, now)
    ensures forall c :: multiset(r.1)[c] == if IsMature(c, now) then 0 else multiset(cs)[c]
    ensures r.0 == 0 <==> forall c :: c in cs && IsMature(c, now) ==> c.amount == 0
  {
    ClaimPartition(cs, now);
    WaitingKeepsUnmatured(cs, now);
    MaturedSumZero(cs, now);
    (ClaimSum(Matured(cs, now)), Waiting(cs, now))
  }

  lemma {:induction false} ClaimSumAppend(cs: seq<Claim>, c: Claim)
    ensures ClaimSum(cs + [c]) == ClaimSum(cs) + c.amount
  {
    if cs != [] {
      assert (cs + [c])[1..] == cs[1..] + [c];
      ClaimSumAppend(cs[1..], c);
    }
  }

  /** Releasing the matured claims loses no tokens. */
  lemma {:induction false} ClaimPartition(cs: seq<Claim>, now: Time)
    ensures ClaimSum(Matured(cs, now)) + ClaimSum(Waiting(cs, now)) == ClaimSum(cs)
  {
    if cs != [] {
      ClaimPartition(cs[1..], now);
      if IsMature(cs[0], now) {
        assert ([cs[0]] + Matured(cs[1..], now))[1..] == Matured(cs[1..], now);
      } else {
        assert ([cs[0]] + Waiting(cs[1..], now))[1..] == Waiting(cs[1..], now);
      }
    }
  }

  lemma {:induction false} WaitingKeepsUnmatured(cs: seq<Claim>, now: Time)
    ensures forall c :: c in cs && !IsMature(c, now) ==> c in Waiting(cs, now)
  {
    if cs != [] {
      WaitingKeepsUnmatured(cs[1..], now);
      forall c | c in cs && !IsMature(c, now)
        ensures c in Waiting(cs, now)
      {
        if c != cs[0] {
          assert c in cs[1..];
        }
      }
    }
  }

  /** Nothing is released exactly when every matured claim is for zero tokens. */
  lemma {:induction false} MaturedSumZero(cs: seq<Claim>, now: Time)
    ensures ClaimSum(Matured(cs, now)) == 0 <==> forall c :: c in cs && IsMature(c, now) ==> c.amount == 0
  {
    if cs != [] {
      MaturedSumZero(cs[1..], now);
      if IsMature(cs[0], now) {
        assert ([cs[0]] + Matured(cs[1..], now))[1..] == Matured(cs[1..], now);
      }
      assert forall c :: c in cs <==> c == cs[0] || c in cs[1..];
    }
  }

  /** The queue keeps its order: waiting claims of a concatenation are the
      waiting claims of each part, one after the other. */
  lemma {:induction false} WaitingConcat(xs: seq<Claim>, ys: seq<Claim>, now: Time)
    ensures Waiting(xs + ys, now) == Waiting(xs, now) + Waiting(ys, now)
  {
    if xs != [] {
      assert (xs + ys)[0] == xs[0];
      assert (xs + ys)[1..] == xs[1..] + ys;
      WaitingConcat(xs[1..], ys, now);
      if !IsMature(xs[0], now) {
        assert Waiting(xs, now) == [xs[0]] + Waiting(xs[1..], now);
        assert Waiting(xs + ys, now) == [xs[0]] + Waiting(xs[1..] + ys, now);
      }
    } else {
      assert xs + ys == ys;
    }
  }

  /** Claiming twice at the same time: the second claim releases nothing. */
  lemma {:induction false} ClaimTwiceReleasesNothing(cs: seq<Claim>, now: Time)
    ensures Matured(Waiting(cs, now), now) == []
  {
    if cs != [] {
      ClaimTwiceReleasesNothing(cs[1..], now);
      if !IsMature(cs[0], now) {
        assert ([cs[0]] + Waiting(cs[1..], now))[1..] == Waiting(cs[1..], now);
      }
    }
  }

  /** Waiting longer never releases less. */
  lemma {:induction false} LaterReleasesMore(cs: seq<Claim>, now1: Time, now2: Time)
    requires now1 <= now2
    ensures ClaimSum(Matured(cs, now1)) <= ClaimSum(Matured(cs, now2))
  {
    if cs != [] {
      LaterReleasesMore(cs[1..], now1, now2);
      if IsMature(cs[0], now1) {
        assert ([cs[0]] + Matured(cs[1..], now1))[1..] == Matured(cs[1..], now1);
      }
      if IsMature(cs[0], now2) {
        assert ([cs[0]] + Matured(cs[1..], now2))[1..] == Matured(cs[1..], now2);
      }
    }
  }

  /** The last step of the unbond/claim workflow: three claims of 1,345, 600
      and 1,005 tokens, created at 22, 6 + period and 10 + period (each
      maturing one period later), are all paid out at 2 * period + 12 in one
      release of 2,950, leaving the queue empty. */
  lemma ClaimWorkflowExample(base: Time, period: nat)
    requires period >= 10
    ensures var cs := [Claim(1_345, base + 22 + period), Claim(600, base + 6 + 2 * period),
                       Claim(1_005, base + 10 + 2 * period)];
            ClaimTokens(cs, base + 2 * period + 12) == (2_950, [])
  {
    var cs := [Claim(1_345, base + 22 + period), Claim(600, base + 6 + 2 * period),
               Claim(1_005, base + 10 + 2 * period)];
    var now := base + 2 * period + 12;
    AllMatured(cs, now);
    assert cs[1..][1..][1..] == [];
    assert ClaimSum(cs[1..][1..]) == 1_005;
    assert ClaimSum(cs[1..]) == 1_605;
  }

  /** When every claim has matured, all are paid out and none stays. */
  lemma {:induction false} AllMatured(cs: seq<Claim>, now: Time)
    requires forall i :: 0 <= i < |cs| ==> IsMature(cs[i], now)
    ensures Matured(cs, now) == cs && Waiting(cs, now) == []
  {
    if cs != [] {
      AllMatured(cs[1..], now);
      assert cs == [cs[0]] + cs[1..];
    }
  }

  /** A claim created at `now + period` with a positive period is not mature at `now`. */
  lemma NewClaimWaits(cs: seq<Claim>, amount: nat, now: Time, period: Period)
    requires period > 0
    ensures Waiting(CreateClaim(cs, amount, now + period), now)
            == Waiting(cs, now) + [Claim(amount, now + period)]
  {
    WaitingConcat(cs, [Claim(amount, now + period)], now);
  }
}
