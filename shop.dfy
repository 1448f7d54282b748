/** The rep-bought upgrade shop over the catalogue: how many upgrades are owned in all
    (`getTotalUpgrades`), the flat per-click bonus they give (what `applyUpgradeEffect`
    adds to `repsPerClick`), which upgrades the shop lists (`getVisibleUpgrades`) and the
    upgrade counts a new run starts with. An `owned` vector has one count per catalogue
    entry, in catalogue order. */
module Shop {
  import opened Catalogue

  /** `getTotalUpgrades`: the sum of all owned counts. */
  function Sum(s: seq<int>): (t: int)
    ensures (forall j :: 0 <= j < |s| ==> s[j] == 0) ==> t == 0
  {
    if |s| == 0 then 0 else Sum(s[..|s| - 1]) + s[|s| - 1]
  }

  /** Changing one count changes the total by exactly the difference. */
  lemma {:induction false} SumUpdate(s: seq<int>, i: nat, v: int)
    requires i < |s|
    ensures Sum(s[i := v]) == Sum(s) - s[i] + v
  {
    var n := |s| - 1;
    if i < n {
      SumUpdate(s[..n], i, v);
      assert s[i := v][..n] == s[..n][i := v];
    } else {
      assert s[i := v][..n] == s[..n];
    }
  }

  /** A vector of non-negative counts has a non-negative total that bounds each count. */
  lemma {:induction false} SumBoundsEach(s: seq<int>, i: nat)
    requires i < |s|
    requires forall j :: 0 <= j < |s| ==> s[j] >= 0
    ensures 0 <= s[i] <= Sum(s)
  {
    var n := |s| - 1;
    if i < n {
      SumBoundsEach(s[..n], i);
    } else {
      SumNonNegative(s[..n]);
    }
  }

  lemma {:induction false} SumNonNegative(s: seq<int>)
    requires forall j :: 0 <= j < |s| ==> s[j] >= 0
    ensures Sum(s) >= 0
  {
    if |s| > 0 {
      SumNonNegative(s[..|s| - 1]);
    }
  }

  /** The reps per click one unit of an upgrade adds: its `effect` for the 'click' and
      'broscience' types, nothing for the others. */
  function ClickBonus(u: UpgradeDef): nat {
    if u.kind == FlatClick || u.kind == BroScience then u.effect else 0
  }

  /** The per-click bonus of the upgrades at the given counts. */
  function ClickPower(owned: seq<int>): int
    requires |owned| <= |Upgrades|
  {
    PowerTo(Upgrades, owned, |owned|)
  }

  /** The per-click bonus of the first n entries of the catalogue `cat` at the given
      counts. */
  function PowerTo(cat: seq<UpgradeDef>, owned: seq<int>, n: nat): int
    requires n <= |owned| <= |cat|
  {
    if n == 0 then 0 else PowerTo(cat, owned, n - 1) + owned[n - 1] * ClickBonus(cat[n - 1])
  }

  /** Changing the count of upgrade i changes the click power by the difference times
      that upgrade's bonus, and nothing else. */
  lemma ClickPowerUpdate(owned: seq<int>, i: nat, v: int)
    requires i < |owned| <= |Upgrades|
    ensures ClickPower(owned[i := v]) == ClickPower(owned) + (v - owned[i]) * ClickBonus(Upgrades[i])
  {
    PowerToUpdate(Upgrades, owned, i, v, |owned|);
  }

  lemma {:induction false} PowerToUpdate(cat: seq<UpgradeDef>, owned: seq<int>, i: nat, v: int, n: nat)
    requires i < |owned| <= |cat| && n <= |owned|
    ensures PowerTo(cat, owned[i := v], n)
      == PowerTo(cat, owned, n) + (if i < n then (v - owned[i]) * ClickBonus(cat[i]) else 0)
  {
    if n > 0 {
      PowerToUpdate(cat, owned, i, v, n - 1);
      var b := ClickBonus(cat[n - 1]);
      if i == n - 1 {
        assert v * b == owned[i] * b + (v - owned[i]) * b;
      }
    }
  }

  /** No upgrades owned: no bonus. */
  lemma ClickPowerOfNone(owned: seq<int>)
    requires |owned| <= |Upgrades|
    requires forall j :: 0 <= j < |owned| ==> owned[j] == 0
    ensures ClickPower(owned) == 0
  {
    PowerToOfNone(Upgrades, owned, |owned|);
  }

  lemma {:induction false} PowerToOfNone(cat: seq<UpgradeDef>, owned: seq<int>, n: nat)
    requires n <= |owned| <= |cat|
    requires forall j :: 0 <= j < |owned| ==> owned[j] == 0
    ensures PowerTo(cat, owned, n) == 0
  {
    if n > 0 {
      PowerToOfNone(cat, owned, n - 1);
    }
  }

  /** No upgrade counts, one per catalogue entry. */
  function NoUpgrades(): (r: seq<int>)
    ensures |r| == |Upgrades|
    ensures forall j :: 0 <= j < |r| ==> r[j] == 0
  {
    seq(|Upgrades|, j => 0)
  }

  /** The upgrade counts a prestige leaves: none, except 10 Protein Shakes with the
      Starting Supplement Pack perk and one Auto-Gym with VIP Membership. */
  function StartingOwned(supps: bool, vip: bool): seq<int> {
    var shakes := if supps then NoUpgrades()[ProteinShake := 10] else NoUpgrades();
    if vip then shakes[AutoGym := 1] else shakes
  }

  /** No upgrades owned: a reachable vector with no click power and no upgrades in all. */
  lemma NoUpgradesOk()
    ensures OwnedOk(NoUpgrades())
    ensures ClickPower(NoUpgrades()) == 0 && Sum(NoUpgrades()) == 0
  {
    ClickPowerOfNone(NoUpgrades());
  }

  /** The starting counts as one update of each of the two entries: no count is negative
      and neither entry has a `maxOwned` cap. */
  lemma StartingOwnedShape(supps: bool, vip: bool)
    ensures StartingOwned(supps, vip)
      == NoUpgrades()[ProteinShake := if supps then 10 else 0][AutoGym := if vip then 1 else 0]
    ensures OwnedOk(StartingOwned(supps, vip))
  {
    assert Upgrades[ProteinShake].maxOwned == 0 && Upgrades[AutoGym].maxOwned == 0;
  }

  /** A new run's click power is the ten Protein Shakes' +10 exactly when the Starting
      Supplement Pack is owned (the Auto-Gym adds no click power). */
  lemma StartingPower(supps: bool, vip: bool)
    ensures ClickPower(StartingOwned(supps, vip)) == if supps then 10 else 0
  {
    StartingOwnedShape(supps, vip);
    assert ClickBonus(Upgrades[ProteinShake]) == 1 && ClickBonus(Upgrades[AutoGym]) == 0;
    PowerOfShakes(NoUpgrades(), if supps then 10 else 0, if vip then 1 else 0);
  }

  /** Setting only the Protein Shake and Auto-Gym counts of an empty vector gives the
      shakes' click power. */
  lemma PowerOfShakes(z: seq<int>, shakes: int, gyms: int)
    requires |z| == |Upgrades| && forall j :: 0 <= j < |z| ==> z[j] == 0
    requires ClickBonus(Upgrades[ProteinShake]) == 1 && ClickBonus(Upgrades[AutoGym]) == 0
    ensures ClickPower(z[ProteinShake := shakes][AutoGym := gyms]) == shakes
  {
    var a := z[ProteinShake := shakes];
    ClickPowerOfNone(z);
    ClickPowerUpdate(z, ProteinShake, shakes);
    ClickPowerUpdate(a, AutoGym, gyms);
  }

  /** A new run owns the ten Protein Shakes and the one Auto-Gym Machine its perks give,
      and nothing else. */
  lemma StartingCount(supps: bool, vip: bool)
    ensures StartingOwned(supps, vip)[ProteinShake] == if supps then 10 else 0
    ensures StartingOwned(supps, vip)[AutoGym] == if vip then 1 else 0
    ensures Sum(StartingOwned(supps, vip)) == (if supps then 10 else 0) + (if vip then 1 else 0)
  {
    var z := NoUpgrades();
    var a := z[ProteinShake := if supps then 10 else 0];
    StartingOwnedShape(supps, vip);
    SumUpdate(z, ProteinShake, if supps then 10 else 0);
    SumUpdate(a, AutoGym, if vip then 1 else 0);
  }

  /** A vector of upgrade counts the shop can reach: one non-negative count per catalogue
      entry, none above its `maxOwned` cap. */
  predicate OwnedOk(owned: seq<int>) {
    |owned| == |Upgrades|
    && forall i :: 0 <= i < |owned| ==> 0 <= owned[i] && (Upgrades[i].maxOwned > 0 ==> owned[i] <= Upgrades[i].maxOwned)
  }

  /** An upgrade with a `maxOwned` cap that has been reached. */
  predicate Maxed(u: UpgradeDef, ownedCount: int) {
    u.maxOwned > 0 && ownedCount >= u.maxOwned
  }

  /** The filter of `getVisibleUpgrades`: a maxed upgrade stays listed; any other shows
      once the current reps reach its `unlockAt` or the lifetime reps reach half of it. */
  predicate IsVisible(u: UpgradeDef, ownedCount: int, reps: int, lifetimeReps: int)
    ensures IsVisible(u, ownedCount, reps, lifetimeReps)
      <==> Maxed(u, ownedCount) || reps >= u.unlockAt || 2 * lifetimeReps >= u.unlockAt
  {
    Maxed(u, ownedCount) || reps >= u.unlockAt || lifetimeReps as real >= u.unlockAt as real * 0.5
  }

  /** The indices, from k on, of the entries of `cat` the shop lists, in order. */
  function VisibleFrom(cat: seq<UpgradeDef>, owned: seq<int>, reps: int, lifetimeReps: int, k: nat): (r: seq<nat>)
    requires |owned| == |cat| && k <= |cat|
    ensures forall i: nat :: i in r <==> k <= i < |cat| && IsVisible(cat[i], owned[i], reps, lifetimeReps)
    ensures forall a :: 0 <= a < |r| ==> k <= r[a] < |cat|
    ensures forall a, b :: 0 <= a < b < |r| ==> r[a] < r[b]
    decreases |cat| - k
  {
    if k == |cat| then []
    else
      var rest := VisibleFrom(cat, owned, reps, lifetimeReps, k + 1);
      if IsVisible(cat[k], owned[k], reps, lifetimeReps) then [k] + rest else rest
  }

  /** `getVisibleUpgrades`: exactly the visible upgrades, each once, in catalogue order. */
  function VisibleUpgrades(owned: seq<int>, reps: int, lifetimeReps: int): (r: seq<nat>)
    requires |owned| == |Upgrades|
    ensures forall i: nat :: i in r <==> i < |Upgrades| && IsVisible(Upgrades[i], owned[i], reps, lifetimeReps)
    ensures forall a, b :: 0 <= a < b < |r| ==> r[a] < r[b]
  {
    VisibleFrom(Upgrades, owned, reps, lifetimeReps, 0)
  }

  /** The shop never hides an upgrade as reps grow: more current or lifetime reps list
      a superset. */
  lemma VisibleGrows(owned: seq<int>, reps: int, lifetimeReps: int, reps2: int, lifetimeReps2: int)
    requires |owned| == |Upgrades|
    requires reps <= reps2 && lifetimeReps <= lifetimeReps2
    ensures forall i :: i in VisibleUpgrades(owned, reps, lifetimeReps) ==> i in VisibleUpgrades(owned, reps2, lifetimeReps2)
  {
  }

  /** Protein Shake (unlockAt 0) is listed from the start; the upgrade with the highest
      threshold, The Vortex, is hidden until 250 million lifetime reps or 500 million reps. */
  lemma ShopOpening(owned: seq<int>)
    requires |owned| == |Upgrades| && owned[TheVortex] == 0
    ensures ProteinShake in VisibleUpgrades(owned, 0, 0)
    ensures TheVortex !in VisibleUpgrades(owned, 499999999, 249999999)
    ensures TheVortex in VisibleUpgrades(owned, 0, 250000000)
  {
    var v := Upgrades[TheVortex];
    assert v.unlockAt == 500000000 && v.maxOwned == 1;
    assert !IsVisible(v, owned[TheVortex], 499999999, 249999999);
    assert IsVisible(v, owned[TheVortex], 0, 250000000);
    assert IsVisible(Upgrades[ProteinShake], owned[ProteinShake], 0, 0);
  }
}
