/** A family of regular tables on which the solve visits every tier, so that the bound of
    `Convergence.ConvergesWithinTheNumberOfTiers` is exact. */
module Staircase {
  import opened Money
  import opened Wrappers
  import opened Margin
  import opened Liquidation
  import opened Convergence

  function Half(i: nat): (h: real)
    ensures 0.0 < h <= 0.5
  {
    if i == 0 then 0.5 else Half(i - 1) / 2.0
  }

  function Step(i: nat): LeverageBracket
  {
    LeverageBracket(i + 1, 1, i as real, (i + 1) as real, 1.0 - Half(i), 1.0 - Times((i + 2) as real, Half(i)))
  }

  function Stairs(n: nat): (t: BracketTable)
    ensures |t| == n && forall i :: 0 <= i < n ==> t[i] == Step(i)
  {
    seq(n, i requires 0 <= i => Step(i))
  }

  const Climber := Holding(1.0, 2.0, 1.0)

  lemma StepContinues(i: nat)
    ensures Continues(Step(i), Step(i + 1)) && Step(i + 1).floor == Step(i).cap
  {
    var h := Half(i + 1);
    assert Half(i) == h + h;
    TimesLinear((i + 2) as real, h, h);
    TimesLinear((i + 1) as real, 1.0, h);
    TimesLinear((i + 2) as real, 1.0, h);
    TimesLinear((i + 2) as real, (i + 1) as real, h);
    assert Times(1.0, h) == h;
  }

  lemma StairsAreRegular(n: nat)
    requires n > 0
    ensures Regular(Stairs(n))
  {
    var t := Stairs(n);
    assert t[0].amount == 0.0 by { assert Half(0) == 0.5; }
    forall i, j {:trigger Next(i, j)} | 0 <= i < j < n && Next(i, j)
      ensures t[j].floor == t[i].cap && Continues(t[i], t[j])
    {
      StepContinues(i);
    }
  }

  lemma StepPrice(i: nat)
    ensures Denominator(Climber, Step(i)) == -Half(i)
    ensures TierPrice(Climber, Step(i)) == (i + 2) as real
  {
    var h, x := Half(i), (i + 2) as real;
    assert Times(1.0, 1.0 - h) == 1.0 - h;
    assert Times(1.0, 2.0) == 2.0;
    QuotientOfProduct(x, h);
  }

  lemma QuotientOfProduct(x: real, h: real)
    requires h > 0.0
    ensures -Times(x, h) / -h == x
  {
  }

  lemma StairsResolve(n: nat, i: nat)
    requires i < n
    ensures Resolve(Stairs(n), (i + 1) as real) == i
  {
    var t, k := Stairs(n), Resolve(Stairs(n), (i + 1) as real);
    assert t[k] == Step(k) && t[i] == Step(i);
    assert k <= i;
  }

  /** What one pass sees from the notional `k`. */
  lemma OneStair(n: nat, k: nat)
    requires 1 <= k < n
    ensures var t := Stairs(n);
            && !Unresolvable(t, k as real) && Resolve(t, k as real) == k - 1
            && Denominator(Climber, t[k - 1]) != 0.0 && TierPrice(Climber, t[k - 1]) == (k + 1) as real
            && Times(Abs(Climber.qty), (k + 1) as real) == (k + 1) as real
            && !Unresolvable(t, (k + 1) as real) && Resolve(t, (k + 1) as real) == k && t[k].number != t[k - 1].number
  {
    var t := Stairs(n);
    StairsResolve(n, k - 1);
    StairsResolve(n, k);
    StepPrice(k - 1);
    assert t[k - 1] == Step(k - 1) && t[k] == Step(k) && t[0] == Step(0);
  }

  /** Every iteration but the last moves up one stair. */
  lemma {:induction false} ClimbsOneStairAtATime(n: nat, k: nat, cap: nat)
    requires 1 <= k <= cap + 1 <= n
    ensures Iterate(Climber, Stairs(n), k as real, k, cap) == Raised(NotConverged)
    decreases cap + 1 - k
  {
    if k <= cap {
      OneStair(n, k);
      ClimbsOneStairAtATime(n, k + 1, cap);
    }
  }

  /** For every number of tiers there is a regular table on which fewer iterations than
      tiers do not converge; with 9 tiers the solve raises, although a root exists. */
  lemma TheIterationBoundIsExact(n: nat, cap: nat)
    requires cap < n
    ensures Regular(Stairs(n))
    ensures Iterate(Climber, Stairs(n), NotionalAt(Climber, 1.0), 1, cap) == Raised(NotConverged)
    ensures n == 9 ==> Solve(Climber, 1.0, Stairs(n)) == Raised(NotConverged)
    ensures Surplus(Climber, Stairs(n), (n + 1) as real) == 0.0
  {
    StairsAreRegular(n);
    assert NotionalAt(Climber, 1.0) == 1.0;
    ClimbsOneStairAtATime(n, 1, cap);
    if n == 9 { ClimbsOneStairAtATime(n, 1, MAX_BRACKET_ITERATIONS); }
    StepPrice(n - 1);
    assert Stairs(n)[n - 1] == Step(n - 1);
    TopStair(n);
    SettledPriceIsARoot(Climber, Stairs(n), (n + 1) as real);
  }

  lemma TopStair(n: nat)
    requires n > 0
    ensures Resolve(Stairs(n), NotionalAt(Climber, (n + 1) as real)) == n - 1
  {
    var t, x := Stairs(n), (n + 1) as real;
    assert NotionalAt(Climber, x) == x;
    var k := Resolve(t, x);
    assert t[k] == Step(k);
  }
}
