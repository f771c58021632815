/** The reward emission schedules of the staking contract (`REWARD_CURVE`):
    piecewise-linear curves over block time, evaluated with flat
    extrapolation outside their breakpoints, and the operations
    `update_reward_config` uses on them (`range`, `shift`, `combine`,
    `validate_monotonic_decreasing`). */
module Curves {
  import opened Arith

  /** A breakpoint: at time `x` the curve has value `y`. */
  datatype Point = Point(x: nat, y: nat)

  predicate StrictlyIncreasingX(ps: seq<Point>)
  {
    forall i, j :: 0 <= i < j < |ps| ==> ps[i].x < ps[j].x
  }

  /** A curve is a non-empty list of breakpoints with strictly increasing times. */
  type Curve = ps: seq<Point> | |ps| > 0 && StrictlyIncreasingX(ps) witness [Point(0, 0)]

  /** `Curve::constant(y)`. */
  function Constant(y: nat): (c: Curve)
    ensures forall t :: ValueAt(c, t) == y
  {
    [Point(0, y)]
  }

  /** The fraction t / d of `amount`, rounded down. */
  function Scaled(amount: nat, t: nat, d: nat): (k: nat)
    requires t <= d && d > 0
    ensures k <= amount
    ensures t == 0 ==> k == 0
  {
    ScaledAtMost(amount, t, d);
    amount * t / d
  }

  /** The value between two neighbouring breakpoints, moving from p's value
      towards q's in proportion to the time elapsed (rounded towards p's value). */
  function Interpolate(p: Point, q: Point, t: nat): (r: nat)
    requires p.x <= t < q.x
    ensures p.y >= q.y ==> q.y <= r <= p.y
    ensures p.y < q.y ==> p.y <= r <= q.y
    ensures t == p.x ==> r == p.y
  {
    if p.y >= q.y then p.y - Scaled(p.y - q.y, t - p.x, q.x - p.x)
    else p.y + Scaled(q.y - p.y, t - p.x, q.x - p.x)
  }

  /** `value(t)`: the first breakpoint's value up to its time, the last one's
      from its time on, interpolated in between. */
  function ValueAt(c: Curve, t: nat): (r: nat)
    ensures t <= c[0].x ==> r == c[0].y
    ensures t >= c[|c| - 1].x ==> r == c[|c| - 1].y
  {
    if |c| == 1 || t <= c[0].x then c[0].y
    else if t < c[1].x then Interpolate(c[0], c[1], t)
    else ValueAt(c[1..], t)
  }

  function MinY(c: Curve): nat
  {
    if |c| == 1 then c[0].y
    else if c[0].y <= MinY(c[1..]) then c[0].y else MinY(c[1..])
  }

  function MaxY(c: Curve): nat
  {
    if |c| == 1 then c[0].y
    else if c[0].y >= MaxY(c[1..]) then c[0].y else MaxY(c[1..])
  }

  /** `range()`: the smallest and the largest value the curve takes. */
  function Range(c: Curve): (r: (nat, nat))
    ensures r.0 <= c[0].y <= r.1
  {
    BreakpointInMinMax(c, 0);
    (MinY(c), MaxY(c))
  }

  /** `validate_monotonic_decreasing` accepts exactly the curves whose
      breakpoint values never go up. */
  predicate Decreasing(c: Curve)
  {
    forall i :: 0 <= i < |c| - 1 ==> c[i].y >= c[i + 1].y
  }

  /** Every value of the curve lies within its range. */
  lemma {:induction false} ValueInRange(c: Curve, t: nat)
    ensures MinY(c) <= ValueAt(c, t) <= MaxY(c)
  {
    if |c| > 1 {
      var rest: Curve := c[1..];
      BreakpointInMinMax(rest, 0);
      if t > c[0].x {
        if t >= c[1].x {
          ValueInRange(rest, t);
        }
      }
    }
  }

  /** The minimum and maximum are at most / at least every breakpoint value. */
  lemma {:induction false} BreakpointInMinMax(c: Curve, i: nat)
    requires i < |c|
    ensures MinY(c) <= c[i].y <= MaxY(c)
  {
    if |c| > 1 && i > 0 {
      BreakpointInMinMax(c[1..], i - 1);
    }
  }

  /** The range is made of breakpoint values. */
  lemma {:induction false} RangeAttained(c: Curve)
    ensures exists i :: 0 <= i < |c| && c[i].y == MinY(c)
    ensures exists i :: 0 <= i < |c| && c[i].y == MaxY(c)
  {
    if |c| > 1 {
      RangeAttained(c[1..]);
      var i :| 0 <= i < |c[1..]| && c[1..][i].y == MinY(c[1..]);
      var j :| 0 <= j < |c[1..]| && c[1..][j].y == MaxY(c[1..]);
      assert c[i + 1].y == MinY(c[1..]);
      assert c[j + 1].y == MaxY(c[1..]);
    } else {
      assert c[0].y == MinY(c);
    }
  }

  /** At a breakpoint the curve takes the breakpoint's value. */
  lemma {:induction false} ValueAtBreakpoint(c: Curve, i: nat)
    requires i < |c|
    ensures ValueAt(c, c[i].x) == c[i].y
  {
    if i > 0 {
      assert c[0].x < c[i].x;
      assert c[1].x <= c[i].x;
      var rest: Curve := c[1..];
      ValueAtBreakpoint(rest, i - 1);
    }
  }

  /** A decreasing curve starts at its maximum and ends at its minimum. */
  lemma {:induction false} RangeOfDecreasing(c: Curve)
    requires Decreasing(c)
    ensures MaxY(c) == c[0].y && MinY(c) == c[|c| - 1].y
  {
    if |c| > 1 {
      var rest: Curve := c[1..];
      RangeOfDecreasing(rest);
      assert rest[|rest| - 1] == c[|c| - 1];
      BreakpointInMinMax(rest, |rest| - 1);
    }
  }

  /** The value of a decreasing curve never goes up as time goes on. */
  lemma {:induction false} ValueMonotone(c: Curve, t1: nat, t2: nat)
    requires Decreasing(c)
    requires t1 <= t2
    ensures ValueAt(c, t2) <= ValueAt(c, t1)
  {
    ValueInRange(c, t2);
    RangeOfDecreasing(c);
    if |c| > 1 && t1 > c[0].x {
      var rest: Curve := c[1..];
      RangeOfDecreasing(rest);
      if t1 < c[1].x {
        if t2 < c[1].x {
          ScaledMono(c[0].y - c[1].y, t1 - c[0].x, t2 - c[0].x, c[1].x - c[0].x);
        } else {
          ValueInRange(rest, t2);
        }
      } else {
        ValueMonotone(rest, t1, t2);
      }
    }
  }

  /** `shift(dt)`: every breakpoint moves `dt` later. */
  function Shift(c: Curve, dt: nat): (r: Curve)
    ensures |r| == |c|
    ensures forall i :: 0 <= i < |c| ==> r[i] == Point(c[i].x + dt, c[i].y)
  {
    seq(|c|, i requires 0 <= i < |c| => Point(c[i].x + dt, c[i].y))
  }

  /** The shifted curve takes at t + dt the value the curve had at t, and
      before dt it keeps the curve's starting value. */
  lemma {:induction false} ShiftValue(c: Curve, dt: nat, t: nat)
    ensures ValueAt(Shift(c, dt), t + dt) == ValueAt(c, t)
    ensures t <= dt ==> ValueAt(Shift(c, dt), t) == ValueAt(c, 0)
  {
    var s := Shift(c, dt);
    if |c| > 1 {
      var rest: Curve := c[1..];
      assert Shift(rest, dt) == s[1..];
      if t > c[0].x && t >= c[1].x {
        ShiftValue(rest, dt, t);
      }
    }
  }

  /** Shifting keeps the range and the shape. */
  lemma {:induction false} ShiftRange(c: Curve, dt: nat)
    ensures Range(Shift(c, dt)) == Range(c)
    ensures Decreasing(Shift(c, dt)) <==> Decreasing(c)
  {
    if |c| > 1 {
      var rest: Curve := c[1..];
      assert Shift(rest, dt) == Shift(c, dt)[1..];
      ShiftRange(rest, dt);
    }
  }

  predicate Increasing(xs: seq<nat>)
  {
    forall i, j :: 0 <= i < j < |xs| ==> xs[i] < xs[j]
  }

  /** The breakpoint times of a curve. */
  function Times(c: Curve): (r: seq<nat>)
    ensures |r| == |c| && Increasing(r)
    ensures forall i :: 0 <= i < |c| ==> r[i] == c[i].x
  {
    seq(|c|, i requires 0 <= i < |c| => c[i].x)
  }

  lemma TailAbove(xs: seq<nat>)
    requires Increasing(xs) && xs != []
    ensures forall z :: z in xs[1..] ==> xs[0] < z
  {
    forall z | z in xs[1..]
      ensures xs[0] < z
    {
      var k :| 0 <= k < |xs[1..]| && xs[1..][k] == z;
      assert xs[k + 1] == z;
    }
  }

  lemma ConsIncreasing(h: nat, rest: seq<nat>)
    requires Increasing(rest)
    requires forall z :: z in rest ==> h < z
    ensures Increasing([h] + rest)
  {
    var r := [h] + rest;
    forall i, j | 0 <= i < j < |r|
      ensures r[i] < r[j]
    {
      assert r[j] == rest[j - 1];
      if i > 0 {
        assert r[i] == rest[i - 1];
      } else {
        assert rest[j - 1] in rest;
      }
    }
  }

  lemma ConsMembers(xs: seq<nat>)
    requires xs != []
    ensures forall z :: z in xs <==> z == xs[0] || z in xs[1..]
  {
    assert xs == [xs[0]] + xs[1..];
  }

  /** The sorted union of two increasing lists of times. */
  function Merge(xs: seq<nat>, ys: seq<nat>): (r: seq<nat>)
    requires Increasing(xs) && Increasing(ys)
    ensures Increasing(r)
    ensures forall z :: z in r <==> z in xs || z in ys
    decreases |xs| + |ys|
  {
    if xs == [] then ys
    else if ys == [] then xs
    else
      TailAbove(xs);
      TailAbove(ys);
      ConsMembers(xs);
      ConsMembers(ys);
      if xs[0] < ys[0] then
        var rest := Merge(xs[1..], ys);
        ConsIncreasing(xs[0], rest);
        [xs[0]] + rest
      else if ys[0] < xs[0] then
        var rest := Merge(xs, ys[1..]);
        ConsIncreasing(ys[0], rest);
        [ys[0]] + rest
      else
        var rest := Merge(xs[1..], ys[1..]);
        ConsIncreasing(xs[0], rest);
        [xs[0]] + rest
  }

  /** `combine`: the sum of two curves, with breakpoints at the union of
      both curves' times. */
  function Combine(a: Curve, b: Curve): (r: Curve)
    ensures forall i :: 0 <= i < |r| ==> r[i].y == ValueAt(a, r[i].x) + ValueAt(b, r[i].x)
    ensures forall t :: t in Times(r) <==> t in Times(a) || t in Times(b)
  {
    var m := Merge(Times(a), Times(b));
    assert Times(a)[0] in m;
    var r := seq(|m|, i requires 0 <= i < |m| => Point(m[i], ValueAt(a, m[i]) + ValueAt(b, m[i])));
    assert Times(r) == m;
    r
  }

  /** At each of its breakpoints the combined curve is the sum of its parts
      there. */
  lemma CombineValue(a: Curve, b: Curve, t: nat)
    requires t in Times(a) || t in Times(b)
    ensures ValueAt(Combine(a, b), t) == ValueAt(a, t) + ValueAt(b, t)
  {
    var r := Combine(a, b);
    assert t in Times(r);
    var i :| 0 <= i < |r| && Times(r)[i] == t;
    ValueAtBreakpoint(r, i);
  }

  /** Two decreasing curves combine into a decreasing curve. */
  lemma CombineDecreasing(a: Curve, b: Curve)
    requires Decreasing(a) && Decreasing(b)
    ensures Decreasing(Combine(a, b))
  {
    var r := Combine(a, b);
    forall i | 0 <= i < |r| - 1
      ensures r[i].y >= r[i + 1].y
    {
      ValueMonotone(a, r[i].x, r[i + 1].x);
      ValueMonotone(b, r[i].x, r[i + 1].x);
    }
  }

  /** A schedule whose range is (0, at most amount) never commits more than
      the amount, at any time after any shift. */
  lemma FundedScheduleBounded(schedule: Curve, amount: nat, dt: nat, t: nat)
    requires Range(schedule).1 <= amount
    ensures ValueAt(Shift(schedule, dt), t) <= amount
  {
    var s := Shift(schedule, dt);
    ShiftRange(schedule, dt);
    ValueInRange(s, t);
  }

  /** Such a schedule also releases everything: it reaches zero at one of its
      (shifted) breakpoints. */
  lemma FundedScheduleReachesZero(schedule: Curve, dt: nat)
    requires Range(schedule).0 == 0
    ensures exists i :: 0 <= i < |schedule| && ValueAt(Shift(schedule, dt), schedule[i].x + dt) == 0
  {
    var s := Shift(schedule, dt);
    RangeAttained(schedule);
    var i :| 0 <= i < |schedule| && schedule[i].y == MinY(schedule);
    ValueAtBreakpoint(s, i);
    assert s[i].x == schedule[i].x + dt;
  }
}
