/** The tempo filter chain of the audio editor: ffmpeg's atempo takes factors from 0.5 to
    2.0, so a larger or smaller factor is split over several stages.  Over the reals. */
module Atempo {

  predicate InRange(x: real) {
    0.5 <= x <= 2.0
  }

  function Product(stages: seq<real>): real {
    if stages == [] then 1.0 else Product(stages[..|stages| - 1]) * stages[|stages| - 1]
  }

  predicate AllInRange(stages: seq<real>) {
    forall i :: 0 <= i < |stages| ==> InRange(stages[i])
  }

  function Power(base: real, n: nat): real {
    if n == 0 then 1.0 else Power(base, n - 1) * base
  }

  lemma ProductAppend(stages: seq<real>, x: real)
    ensures Product(stages + [x]) == Product(stages) * x
  {
    assert (stages + [x])[..|stages|] == stages;
  }

  /** A chain of n stages stays between 0.5^n and 2^n. */
  lemma {:induction false} ProductRange(stages: seq<real>)
    requires AllInRange(stages)
    ensures 0.0 < Power(0.5, |stages|) <= Product(stages) <= Power(2.0, |stages|)
  {
    if stages != [] {
      var n := |stages| - 1;
      var init, x := stages[..n], stages[n];
      ProductRange(init);
      assert InRange(x);
      Grow(Power(0.5, n), Product(init), 0.5, x);
      Grow(Product(init), Power(2.0, n), x, 2.0);
    }
  }

  lemma Grow(a: real, b: real, x: real, y: real)
    requires 0.0 < a <= b && 0.0 < x <= y
    ensures 0.0 < a * x <= b * y
  {
    assert b * y - a * x == (b - a) * x + b * (y - x);
  }

  lemma {:induction false} PowersOrdered(m: nat, n: nat)
    requires m <= n
    ensures Power(2.0, m) <= Power(2.0, n) && 0.0 < Power(2.0, m)
    ensures 0.0 < Power(0.5, n) <= Power(0.5, m)
  {
    if n > 0 {
      if m < n {
        PowersOrdered(m, n - 1);
      } else {
        PowersOrdered(m - 1, n - 1);
      }
    }
  }

  /** `factor` needs more than `n` stages. */
  predicate Needs(factor: real, n: nat) {
    factor > Power(2.0, n) || factor < Power(0.5, n)
  }

  lemma NoShorterChain(factor: real, n: nat, other: seq<real>)
    requires Needs(factor, n) && AllInRange(other) && Product(other) == factor
    ensures |other| > n
  {
    ProductRange(other);
    if |other| <= n {
      PowersOrdered(|other|, n);
    }
  }

  /** What the chain for a positive factor is: its stages are in range, multiply to the
      factor, and no other non-empty chain of in-range stages does so in fewer. */
  ghost predicate BestChain(factor: real, stages: seq<real>) {
    && stages != [] && AllInRange(stages) && Product(stages) == factor
    && forall other: seq<real> :: other != [] && AllInRange(other) && Product(other) == factor ==> |stages| <= |other|
  }

  lemma Best(factor: real, stages: seq<real>)
    requires stages != [] && AllInRange(stages) && Product(stages) == factor
    requires |stages| > 1 ==> Needs(factor, |stages| - 1)
    ensures BestChain(factor, stages)
  {
    forall other: seq<real> | other != [] && AllInRange(other) && Product(other) == factor
      ensures |stages| <= |other|
    {
      if |stages| > 1 {
        NoShorterChain(factor, |stages| - 1, other);
      }
    }
  }

  /** The speed command; a factor that is not positive counts as 1. */
  method SpeedFilter(requested: real) returns (stages: seq<real>)
    ensures BestChain(if requested <= 0.0 then 1.0 else requested, stages)
    ensures forall k :: 0 <= k < |stages| - 1 ==> stages[k] == if requested > 2.0 then 2.0 else 0.5
  {
    hide Power, Product, Needs;
    PowerZero();
    var factor := requested;
    if factor <= 0.0 {
      factor := 1.0;
    }
    stages := [];
    if 0.5 <= factor <= 2.0 {
      stages := [factor];
      ProductAppend([], factor);
      assert [] + [factor] == [factor];
    } else if factor > 2.0 {
      var rem := factor;
      while rem > 2.0
        invariant AllInRange(stages) && 1.0 < rem
        invariant Product(stages) == Power(2.0, |stages|) > 0.0 && Product(stages) * rem == factor
        invariant stages == [] ==> rem == factor
        invariant forall k :: 0 <= k < |stages| ==> stages[k] == 2.0
        decreases rem
      {
        ProductAppend(stages, 2.0);
        stages := stages + [2.0];
        rem := rem / 2.0;
      }
      Above(Product(stages), rem);
      assert Needs(factor, |stages|);
      ProductAppend(stages, rem);
      stages := stages + [rem];
    } else {
      var rem := factor;
      while rem < 0.5
        invariant AllInRange(stages) && 0.0 < rem < 1.0
        invariant forall k :: 0 <= k < |stages| ==> stages[k] == 0.5
        invariant Product(stages) == Power(0.5, |stages|) > 0.0 && Product(stages) * rem == factor
        decreases 1.0 / rem
      {
        ProductAppend(stages, 0.5);
        Halves(rem);
        stages := stages + [0.5];
        rem := rem * 2.0;
      }
      Below(Product(stages), rem);
      assert Needs(factor, |stages|);
      ProductAppend(stages, rem);
      stages := stages + [rem];
    }
    Best(factor, stages);
  }

  lemma PowerZero()
    ensures Power(2.0, 0) == 1.0 && Power(0.5, 0) == 1.0 && Product([]) == 1.0
    ensures forall n: nat :: Power(2.0, n + 1) == Power(2.0, n) * 2.0 && Power(0.5, n + 1) == Power(0.5, n) * 0.5
    ensures forall f, n: nat :: Needs(f, n) <==> f > Power(2.0, n) || f < Power(0.5, n)
  {
  }

  lemma Above(p: real, rem: real)
    requires p > 0.0 && rem > 1.0
    ensures p * rem > p
  {
    assert p * rem - p == p * (rem - 1.0);
  }

  lemma Below(p: real, rem: real)
    requires p > 0.0 && rem < 1.0
    ensures p * rem < p
  {
    assert p - p * rem == p * (1.0 - rem);
  }

  lemma Halves(rem: real)
    requires 0.0 < rem < 0.5
    ensures 1.0 / (rem * 2.0) <= 1.0 / rem - 1.0
  {
    assert 1.0 / (rem * 2.0) == (1.0 / rem) / 2.0;
    assert 1.0 / rem > 2.0;
  }
}
