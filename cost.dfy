/** The upgrade cost curve, `calculateCost`: a free upgrade always costs 0, any other
    costs floor(basePrice * growth^owned). The model computes the power exactly over the
    reals, where JavaScript's `Math.pow` rounds to a double (and overflows to Infinity for
    very large `owned`, which makes the upgrade unaffordable). */
module Cost {
  import opened Catalogue

  function Pow(g: real, n: nat): real {
    if n == 0 then 1.0 else g * Pow(g, n - 1)
  }

  /** `calculateCost`: the largest whole number of reps not above basePrice * growth^owned,
      and 0 for a free upgrade. */
  function CalculateCost(u: UpgradeDef, owned: nat): (c: int)
    ensures u.basePrice == 0 ==> c == 0
    ensures u.basePrice != 0 ==>
      c as real <= u.basePrice as real * Pow(u.growth, owned) < c as real + 1.0
  {
    if u.basePrice == 0 then 0 else (u.basePrice as real * Pow(u.growth, owned)).Floor
  }

  lemma {:induction false} PowAtLeastOne(g: real, n: nat)
    requires g >= 1.0
    ensures Pow(g, n) >= 1.0
  {
    if n > 0 {
      PowAtLeastOne(g, n - 1);
      assert g * Pow(g, n - 1) >= Pow(g, n - 1) by {
        assert (g - 1.0) * Pow(g, n - 1) >= 0.0;
      }
    }
  }

  lemma {:induction false} PowMonotone(g: real, m: nat, n: nat)
    requires g >= 1.0 && m <= n
    ensures Pow(g, m) <= Pow(g, n)
  {
    if m < n {
      PowMonotone(g, m, n - 1);
      PowAtLeastOne(g, n - 1);
      assert (g - 1.0) * Pow(g, n - 1) >= 0.0;
    }
  }

  lemma FloorMonotone(x: real, y: real)
    requires x <= y
    ensures x.Floor <= y.Floor
  {
  }

  /** The first purchase costs exactly the base price. */
  lemma CostAtZero(u: UpgradeDef)
    ensures CalculateCost(u, 0) == u.basePrice
  {
  }

  /** With a growth rate of at least 1 the cost never decreases as more are owned. */
  lemma CostMonotone(u: UpgradeDef, m: nat, n: nat)
    requires u.growth >= 1.0 && m <= n
    ensures CalculateCost(u, m) <= CalculateCost(u, n)
  {
    if u.basePrice != 0 {
      PowMonotone(u.growth, m, n);
      assert u.basePrice as real * Pow(u.growth, m) <= u.basePrice as real * Pow(u.growth, n) by {
        assert u.basePrice as real * (Pow(u.growth, n) - Pow(u.growth, m)) >= 0.0;
      }
      FloorMonotone(u.basePrice as real * Pow(u.growth, m), u.basePrice as real * Pow(u.growth, n));
    }
  }

  /** When one more purchase adds at least one rep of price at the start of the curve,
      every further purchase strictly raises the cost. */
  lemma CostStrictlyIncreasing(u: UpgradeDef, n: nat)
    requires u.basePrice > 0 && u.growth >= 1.0
    requires u.basePrice as real * (u.growth - 1.0) >= 1.0
    ensures CalculateCost(u, n) < CalculateCost(u, n + 1)
  {
    var b, p := u.basePrice as real, Pow(u.growth, n);
    PowAtLeastOne(u.growth, n);
    assert b * u.growth * p - b * p == b * (u.growth - 1.0) * p;
    assert b * (u.growth - 1.0) * p >= b * (u.growth - 1.0) by {
      assert b * (u.growth - 1.0) * (p - 1.0) >= 0.0;
    }
    assert Pow(u.growth, n + 1) == u.growth * p;
    assert b * Pow(u.growth, n + 1) >= b * p + 1.0;
    FloorMonotone(b * p + 1.0, b * Pow(u.growth, n + 1));
  }

  /** Over the game's catalogue: a free upgrade always costs 0, every other upgrade costs
      its base price first and strictly more with each purchase. */
  lemma CatalogueCostCurve(i: nat, n: nat)
    requires i < |Upgrades|
    ensures CalculateCost(Upgrades[i], 0) == Upgrades[i].basePrice
    ensures Upgrades[i].basePrice == 0 ==> CalculateCost(Upgrades[i], n) == 0
    ensures Upgrades[i].basePrice > 0 ==> CalculateCost(Upgrades[i], n) < CalculateCost(Upgrades[i], n + 1)
    ensures CalculateCost(Upgrades[i], n) <= CalculateCost(Upgrades[i], n + 1)
  {
    UpgradeCataloguePrices(i);
    CostAtZero(Upgrades[i]);
    CostMonotone(Upgrades[i], n, n + 1);
    if Upgrades[i].basePrice > 0 {
      CostStrictlyIncreasing(Upgrades[i], n);
    }
  }
}
