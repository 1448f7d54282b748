/** The game's variables as one value, the invariant the game's own operations keep,
    and the effect of each operation as a function from the state before to the state
    after. The class in module Game performs these operations step by step and is proved
    to reach exactly these states.

    Reps are whole numbers here. In the source the auto-gym tick adds a fractional
    amount (rps times the tick interval), so reps and lifetime reps can be fractional
    there; the auto-gym tick itself is a timer and is not part of this model. */
module GameSpec {
  import opened Catalogue
  import opened Cost
  import opened Prestige
  import opened Radio
  import opened Click
  import opened Shop
  import opened Trophies

  /** MAX_MOMENTUM: the cap of the momentum timer's tick count. */
  const MaxMomentum := 25
  /** Play time, in seconds, after which The Long Haul is earned (one day). */
  const LongHaulSeconds := 86400

  /** Every variable of the game at one moment. `owned`, `earned` and `perkOwned` hold
      the `owned` count of each upgrade, the `earned` flag of each achievement and the
      `owned` flag of each Gym Corp perk, in catalogue order. */
  datatype Snapshot = Snapshot(
    reps: int, repsPerClick: int, totalClicks: int, lifetimeReps: int, lifetimeSeconds: int,
    autoGymLevel: int, gymCoins: int, totalGymCoinsEarned: int, prestigeCount: int,
    gainsMultiplier: real, ascensionStars: int, lifetimePrestigesEverDone: int,
    comboStreak: int, comboMultiplier: real, lastClickTime: int, momentumTicks: int,
    activeStation: Option<Station>, broScienceBadAdviceCounter: int,
    secretNoBuyClickCount: int, gainsGoblinActive: bool, gainsGoblinStolen: int,
    owned: seq<int>, earned: seq<bool>, perkOwned: seq<bool>)

  /** What the game's own operations keep true:
      - counts are never negative and never above an upgrade's `maxOwned` cap;
      - the click power is 1 plus the flat bonus of the owned upgrades, and the auto-gym
        tier is the number of Auto-Gym Machines owned;
      - spendable GymCoins never exceed the GymCoins ever earned, the prestige count never
        exceeds the lifetime prestiges, and there are at most five stars;
      - the gains multiplier is 1 + 0.5 per prestige, times 1.25 while The Long Haul is
        earned, and Went Pro is earned exactly when the prestige count is positive;
      - the streak stays within the largest cap, the combo multiplier is at least 1, and
        the bad-advice counter stays within 0..9. */
  predicate Inv(s: Snapshot) {
    OwnedOk(s.owned) && |s.earned| == |Rewards| && |s.perkOwned| == |Perks|
    && s.reps >= 0 && s.totalClicks >= 0 && s.lifetimeReps >= 0 && s.lifetimeSeconds >= 0
    && s.repsPerClick == 1 + ClickPower(s.owned)
    && s.autoGymLevel == s.owned[AutoGym]
    && 0 <= s.gymCoins <= s.totalGymCoinsEarned
    && 0 <= s.prestigeCount <= s.lifetimePrestigesEverDone
    && 0 <= s.ascensionStars <= MaxAscensionStars
    && s.gainsMultiplier == GainsFor(s.prestigeCount, s.earned[LongHaul])
    && (s.earned[WentPro] <==> s.prestigeCount >= 1)
    && 0 <= s.comboStreak <= MaxComboCap && s.comboMultiplier >= 1.0
    && 0 <= s.momentumTicks <= MaxMomentum
    && 0 <= s.broScienceBadAdviceCounter < 10
    && s.secretNoBuyClickCount >= 0 && s.gainsGoblinStolen >= 0
  }

  /** n flags, none of them set. */
  function NoFlags(n: nat): (f: seq<bool>)
    ensures |f| == n && forall j :: 0 <= j < n ==> !f[j]
  {
    seq(n, _ => false)
  }

  /** A fresh game: nothing owned or earned, one rep per click, gains multiplier 1. */
  function Initial(): Snapshot {
    Snapshot(0, 1, 0, 0, 0, 0, 0, 0, 0, 1.0, 0, 0, 0, 1.0, 0, 0, None, 0, 0, false, 0,
      NoUpgrades(), NoFlags(|Rewards|), NoFlags(|Perks|))
  }

  /** The fresh game satisfies the invariant. */
  lemma InitialOk(s: Snapshot)
    requires s == Initial()
    ensures Inv(s)
  {
    NoUpgradesOk();
  }

  // ---------------------------------------------------------------- achievements

  /** The counters `getReqValue` reads, in a given state. */
  function ProgressOf(s: Snapshot): Progress {
    Progress(s.reps, Sum(s.owned), s.autoGymLevel, s.totalClicks, s.prestigeCount, s.ascensionStars,
      s.lifetimeSeconds, s.secretNoBuyClickCount)
  }

  /** The state one `checkRewards` pass leaves: the achievements its counters reach are
      earned, and when the pass newly earns The Long Haul, `unlockSecret` multiplies the
      gains by 1.25. */
  function Swept(s: Snapshot): (t: Snapshot)
    requires |s.earned| == |Rewards|
    ensures |t.earned| == |Rewards|
  {
    var e := Sweep(s.earned, ProgressOf(s));
    s.(earned := e,
       gainsMultiplier := if e[LongHaul] && !s.earned[LongHaul] then s.gainsMultiplier * 1.25 else s.gainsMultiplier)
  }

  /** A sweep keeps the invariant: Went Pro is measured by the prestige count itself, and
      the ×1.25 of a new Long Haul is exactly the factor its flag stands for, so the
      multiplier is again 1 + 0.5 per prestige, with The Long Haul's +25% while earned. */
  lemma SweptKeepsInv(s: Snapshot)
    requires Inv(s)
    ensures Inv(Swept(s))
    ensures Swept(s).gainsMultiplier == GainsFor(s.prestigeCount, Swept(s).earned[LongHaul])
  {
    var e := Sweep(s.earned, ProgressOf(s));
    assert Rewards[WentPro].req == PrestigeReq && Rewards[WentPro].val == 1 && !Rewards[WentPro].secret;
    assert e[WentPro] <==> s.earned[WentPro] || s.prestigeCount >= 1;
    LongHaulBonus(s.prestigeCount);
    SweepEarnsPublicExactly(s.earned, ProgressOf(s), LongHaul, 0);
  }

  /** A sweep from flags e0 done up to (not including) index i: the flags before i are
      the swept ones, the others are still e0's. */
  predicate SweptUpTo(e: seq<bool>, e0: seq<bool>, p: Progress, i: nat)
    requires |e0| == |Rewards|
  {
    |e| == |Rewards| && i <= |Rewards|
    && (forall j :: 0 <= j < i ==> e[j] == Sweep(e0, p)[j])
    && (forall j :: i <= j < |Rewards| ==> e[j] == e0[j])
  }

  /** A sweep never takes an achievement back. */
  lemma SweptKeepsEarned(s: Snapshot, j: nat)
    requires |s.earned| == |Rewards| && j < |Rewards|
    ensures s.earned[j] ==> Swept(s).earned[j]
  {
    SweepEarnsPublicExactly(s.earned, ProgressOf(s), j, 0);
  }

  /** The state `unlockSecret` leaves for the achievement at index k: unchanged when it is
      already earned; otherwise earned, with The Long Haul's +25% gains. */
  function Unlocked(s: Snapshot, k: nat): (t: Snapshot)
    requires k < |s.earned|
    ensures |t.earned| == |s.earned|
    ensures t.earned[k]
    ensures s.earned[k] ==> t == s
    ensures forall j :: 0 <= j < |s.earned| && j != k ==> t.earned[j] == s.earned[j]
  {
    if s.earned[k] then s
    else s.(earned := s.earned[k := true],
            gainsMultiplier := if k == LongHaul then s.gainsMultiplier * 1.25 else s.gainsMultiplier)
  }

  /** Unlocking is idempotent, so The Long Haul's bonus is applied at most once per
      earning. */
  lemma UnlockTwice(s: Snapshot, k: nat)
    requires k < |s.earned|
    ensures Unlocked(Unlocked(s, k), k) == Unlocked(s, k)
    ensures Unlocked(s, k).gainsMultiplier == (if k == LongHaul && !s.earned[k] then s.gainsMultiplier * 1.25 else s.gainsMultiplier)
  {
  }

  /** Unlocking a secret achievement keeps the invariant; for The Long Haul the +25% is
      exactly the factor the invariant expects. */
  lemma UnlockedKeepsInv(s: Snapshot, k: nat)
    requires Inv(s) && k < |Rewards| && Rewards[k].secret
    ensures Inv(Unlocked(s, k))
  {
    SecretRewards(k);
    LongHaulBonus(s.prestigeCount);
  }

  // ---------------------------------------------------------------- upgrade shop

  /** The purchase step of `buyUpgrade`: the cost is paid, one more of upgrade i is owned,
      the clicks-without-buying count restarts and the upgrade's effect applies
      (`applyUpgradeEffect`). */
  function Purchased(s: Snapshot, i: nat, cost: int): Snapshot
    requires i < |s.owned| && i < |Upgrades|
  {
    s.(reps := s.reps - cost, owned := s.owned[i := s.owned[i] + 1],
       repsPerClick := s.repsPerClick + ClickBonus(Upgrades[i]),
       autoGymLevel := s.autoGymLevel + (if Upgrades[i].kind == AutoTier then 1 else 0),
       secretNoBuyClickCount := 0)
  }

  /** `buyUpgrade`: an unknown id, a maxed upgrade or one that costs more than the reps
      held changes nothing; otherwise the purchase is made and the achievements swept. */
  function Bought(s: Snapshot, id: string): (t: Snapshot)
    requires |s.owned| == |Upgrades| && |s.earned| == |Rewards|
    requires forall j :: 0 <= j < |s.owned| ==> s.owned[j] >= 0
    ensures s.reps >= 0 ==> t.reps >= 0
    ensures t.perkOwned == s.perkOwned && t.gymCoins == s.gymCoins
      && t.prestigeCount == s.prestigeCount && t.lifetimeReps == s.lifetimeReps
  {
    match FindUpgrade(id)
    case None => s
    case Some(i) =>
      var cost := CalculateCost(Upgrades[i], s.owned[i]);
      if Maxed(Upgrades[i], s.owned[i]) || s.reps < cost then s
      else Swept(Purchased(s, i, cost))
  }

  lemma PurchasedKeepsInv(s: Snapshot, i: nat, cost: int)
    requires Inv(s) && i < |Upgrades| && !Maxed(Upgrades[i], s.owned[i]) && cost <= s.reps
    ensures Inv(Purchased(s, i, cost))
  {
    AutoTierOnlyAutoGym(i);
    ClickPowerUpdate(s.owned, i, s.owned[i] + 1);
  }

  lemma BoughtKeepsInv(s: Snapshot, id: string)
    requires Inv(s)
    ensures Inv(Bought(s, id))
  {
    var found := FindUpgrade(id);
    if found.Some? {
      var i := found.value;
      var cost := CalculateCost(Upgrades[i], s.owned[i]);
      if !(Maxed(Upgrades[i], s.owned[i]) || s.reps < cost) {
        PurchasedKeepsInv(s, i, cost);
        SweptKeepsInv(Purchased(s, i, cost));
      }
    }
  }

  /** A purchase is all or nothing: an unknown id, a maxed upgrade or one costing more
      than the reps held leaves the state unchanged, and only those do; otherwise
      `buyUpgrade` makes the purchase and sweeps the achievements. */
  lemma BuyUpgradeGuards(s: Snapshot, id: string)
    requires Inv(s)
    ensures FindUpgrade(id).None? ==> Bought(s, id) == s
    ensures FindUpgrade(id).Some? ==>
      var i := FindUpgrade(id).value;
      var cost := CalculateCost(Upgrades[i], s.owned[i]);
      if Maxed(Upgrades[i], s.owned[i]) || s.reps < cost then Bought(s, id) == s
      else Bought(s, id) == Swept(Purchased(s, i, cost)) != s
  {
    var found := FindUpgrade(id);
    if found.Some? {
      var i := found.value;
      var cost := CalculateCost(Upgrades[i], s.owned[i]);
      if !(Maxed(Upgrades[i], s.owned[i]) || s.reps < cost) {
        assert Swept(Purchased(s, i, cost)).owned[i] != s.owned[i];
      }
    }
  }

  /** What a purchase does: it takes exactly the upgrade's cost from the reps (which stay
      non-negative), raises that upgrade's count and the total number of upgrades by
      exactly one, raises the click power by the upgrade's bonus and restarts the
      clicks-without-buying count. */
  lemma PurchaseEffect(s: Snapshot, i: nat, cost: int)
    requires Inv(s) && i < |Upgrades| && !Maxed(Upgrades[i], s.owned[i])
    requires cost == CalculateCost(Upgrades[i], s.owned[i]) <= s.reps
    ensures var t := Swept(Purchased(s, i, cost));
      t.reps == s.reps - cost >= 0
      && t.owned == s.owned[i := s.owned[i] + 1]
      && Sum(t.owned) == Sum(s.owned) + 1
      && t.repsPerClick == s.repsPerClick + ClickBonus(Upgrades[i])
      && t.secretNoBuyClickCount == 0
  {
    var u := Purchased(s, i, cost);
    SweptLeavesCounters(u);
    assert u.owned == s.owned[i := s.owned[i] + 1];
    SumUpdate(s.owned, i, s.owned[i] + 1);
  }

  /** A sweep touches only the achievements and the gains multiplier. */
  lemma SweptLeavesCounters(u: Snapshot)
    requires |u.earned| == |Rewards|
    ensures Swept(u).reps == u.reps && Swept(u).owned == u.owned
    ensures Swept(u).repsPerClick == u.repsPerClick
    ensures Swept(u).secretNoBuyClickCount == u.secretNoBuyClickCount
  { }

  /** A purchase takes back no achievement. */
  lemma PurchaseKeepsEarned(s: Snapshot, i: nat, cost: int)
    requires Inv(s) && i < |Upgrades| && !Maxed(Upgrades[i], s.owned[i])
    requires cost == CalculateCost(Upgrades[i], s.owned[i]) <= s.reps
    ensures forall j :: 0 <= j < |Rewards| && s.earned[j] ==> Swept(Purchased(s, i, cost)).earned[j]
  {
    var u := Purchased(s, i, cost);
    forall j | 0 <= j < |Rewards| && s.earned[j]
      ensures Swept(u).earned[j]
    {
      SweptKeepsEarned(u, j);
    }
  }

  /** `buyGymCorpUpgrade`: an unknown or already owned perk, or one costing more than the
      GymCoins held, changes nothing; otherwise its cost is paid and that perk becomes
      owned. */
  function PerkBought(s: Snapshot, id: string): (t: Snapshot)
    requires |s.perkOwned| == |Perks|
    ensures s.gymCoins >= 0 ==> 0 <= t.gymCoins <= s.gymCoins
    ensures t.owned == s.owned && t.earned == s.earned && t.reps == s.reps
      && t.totalGymCoinsEarned == s.totalGymCoinsEarned
  {
    match FindPerk(id)
    case None => s
    case Some(k) =>
      if s.perkOwned[k] || s.gymCoins < Perks[k].cost then s
      else s.(gymCoins := s.gymCoins - Perks[k].cost, perkOwned := s.perkOwned[k := true])
  }

  /** `buyGymCorpUpgrade` changes nothing for an unknown id, a perk already owned or one
      costing more than the GymCoins held, and only then; otherwise it pays exactly the
      perk's cost and makes that perk owned, and nothing else changes. */
  lemma PerkPurchaseGuards(s: Snapshot, id: string)
    requires Inv(s)
    ensures FindPerk(id).None? ==> PerkBought(s, id) == s
    ensures FindPerk(id).Some? ==>
      var k := FindPerk(id).value;
      if s.perkOwned[k] || s.gymCoins < Perks[k].cost then PerkBought(s, id) == s
      else (PerkBought(s, id) == s.(gymCoins := s.gymCoins - Perks[k].cost, perkOwned := s.perkOwned[k := true])
            && PerkBought(s, id) != s)
  {
    var found := FindPerk(id);
    if found.Some? {
      var k := found.value;
      if !(s.perkOwned[k] || s.gymCoins < Perks[k].cost) {
        assert PerkBought(s, id).perkOwned[k] != s.perkOwned[k];
      }
    }
  }

  /** A perk purchase never overdraws the GymCoins and changes one perk flag at most,
      from unowned to owned; buying an owned perk again changes nothing. */
  lemma PerkPurchaseOneShot(s: Snapshot, id: string)
    requires Inv(s)
    ensures Inv(PerkBought(s, id))
    ensures PerkBought(PerkBought(s, id), id) == PerkBought(s, id)
    ensures forall j :: 0 <= j < |Perks| && PerkBought(s, id).perkOwned[j] != s.perkOwned[j] ==>
      FindPerk(id) == Some(j) && !s.perkOwned[j]
    ensures PerkBought(s, id) != s ==>
      PerkBought(s, id).gymCoins == s.gymCoins - Perks[FindPerk(id).value].cost
  {
  }

  // ---------------------------------------------------------------- combo and click

  /** The state `updateCombo` leaves at time `now`. */
  function Combo(s: Snapshot, now: int): (t: Snapshot)
    requires |s.owned| == |Upgrades| && |s.perkOwned| == |Perks|
    requires forall j :: 0 <= j < |s.owned| ==> s.owned[j] >= 0
    requires s.comboStreak >= 0
    ensures 1 <= t.comboStreak <= ComboCap(s.owned[RhythmTraining]) && t.lastClickTime == now
    ensures t.comboMultiplier >= 1.0
    ensures t.reps == s.reps && t.owned == s.owned && t.earned == s.earned
  {
    var streak := NextStreak(s.comboStreak, s.lastClickTime, now,
      ComboWindow(s.owned[WiderComboWindow], s.perkOwned[ComboMaster]), ComboCap(s.owned[RhythmTraining]));
    s.(comboStreak := streak, lastClickTime := now,
       comboMultiplier := ComboMultiplier(streak, RadioBonus(s.activeStation, ComboGain)))
  }

  /** After `updateCombo` the streak is between 1 and the cap the Rhythm Training count
      allows, and the multiplier is at least 1 and grows with the streak. */
  lemma ComboKeepsInv(s: Snapshot, now: int)
    requires Inv(s)
    ensures Inv(Combo(s, now))
    ensures 1 <= Combo(s, now).comboStreak <= ComboCap(s.owned[RhythmTraining])
  {
    var t := Combo(s, now);
    RadioBonusOnlyFromItsStation(s.activeStation, ComboGain);
    ComboMultiplierMonotone(0, t.comboStreak, RadioBonus(s.activeStation, ComboGain));
  }

  /** The state after a click has been counted towards Method Actor: its 69th click
      without buying unlocks it. */
  function Counted(s: Snapshot): (t: Snapshot)
    requires |s.earned| == |Rewards|
    ensures |t.earned| == |Rewards|
    ensures t.secretNoBuyClickCount == s.secretNoBuyClickCount + 1
    ensures t.secretNoBuyClickCount == 69 ==> t.earned[MethodActor]
    ensures t.reps == s.reps && t.owned == s.owned
  {
    var c := s.(secretNoBuyClickCount := s.secretNoBuyClickCount + 1);
    if c.secretNoBuyClickCount == 69 then Unlocked(c, MethodActor) else c
  }

  lemma CountedKeepsInv(s: Snapshot)
    requires Inv(s)
    ensures Inv(Counted(s))
  {
    var c := s.(secretNoBuyClickCount := s.secretNoBuyClickCount + 1);
    assert Inv(c);
    SecretRewards(MethodActor);
    UnlockedKeepsInv(c, MethodActor);
  }

  /** The reps the goblin steals: floor(reps * 0.05). */
  function GoblinTake(reps: int): (s: int)
    requires reps >= 0
    ensures 0 <= s <= reps
    ensures 20 * s <= reps < 20 * (s + 1)
  {
    (reps as real * 0.05).Floor
  }

  /** The bonus for catching the goblin once the stolen amount is worked off:
      floor(reps * 0.05 * 1.5), 7.5% of the reps held at that moment. */
  function CatchBonus(reps: int): (b: int)
    requires reps >= 0
    ensures 0 <= b && 40 * b <= 3 * reps < 40 * (b + 1)
  {
    (reps as real * 0.05 * 1.5).Floor
  }

  /** Catching the goblin can leave more reps than were ever earned: from 100 reps, all
      of them earned, the goblin takes 5; one click worth at least one rep catches it and
      the catch pays 7 back, leaving 102 reps against 100 lifetime reps. */
  lemma GoblinCatchExceedsLifetime(s: Snapshot)
    requires Inv(s) && s.reps == 100 && s.lifetimeReps == 100 && s.repsPerClick >= 1
    ensures var t := Chased(GoblinTriggered(s));
      !t.gainsGoblinActive && t.reps == 102 && t.lifetimeReps == 100 && t.reps > t.lifetimeReps
  {
    assert GoblinTake(100) == 5;
    assert CatchBonus(95) == 7;
  }

  /** The state `handleGoblinChase` leaves: each click works off five times the reps per
      click; once nothing is left the goblin is caught, the catch bonus is paid and Goblin
      Hunter is earned. */
  function Chased(s: Snapshot): (t: Snapshot)
    requires |s.earned| == |Rewards| && s.reps >= 0
    ensures !s.gainsGoblinActive ==> t == s
    ensures t.reps >= s.reps && t.lifetimeReps == s.lifetimeReps && t.totalClicks == s.totalClicks
    ensures |t.earned| == |Rewards| && t.owned == s.owned
  {
    if !s.gainsGoblinActive then s
    else
      var left := s.gainsGoblinStolen - s.repsPerClick * 5;
      if left > 0 then s.(gainsGoblinStolen := left)
      else s.(gainsGoblinStolen := 0, reps := s.reps + CatchBonus(s.reps), gainsGoblinActive := false,
              earned := s.earned[GoblinCaught := true])
  }

  /** A chase keeps the invariant. A click that works off what is left catches the goblin:
      the catch bonus is paid on the reps held and Goblin Hunter is earned; any other click
      only lowers what is left, by five times the reps per click. */
  lemma ChasedKeepsInv(s: Snapshot)
    requires Inv(s)
    ensures Inv(Chased(s))
    ensures s.gainsGoblinActive && s.gainsGoblinStolen <= 5 * s.repsPerClick ==>
      !Chased(s).gainsGoblinActive && Chased(s).earned[GoblinCaught]
      && Chased(s).reps == s.reps + CatchBonus(s.reps) && Chased(s).gainsGoblinStolen == 0
    ensures s.gainsGoblinActive && s.gainsGoblinStolen > 5 * s.repsPerClick ==>
      Chased(s) == s.(gainsGoblinStolen := s.gainsGoblinStolen - 5 * s.repsPerClick)
  {
  }

  /** `triggerGainsGoblin`: the goblin takes 5% of the reps (rounded down) and waits to
      be chased. */
  function GoblinTriggered(s: Snapshot): (t: Snapshot)
    requires s.reps >= 0
    ensures t.gainsGoblinActive && t.reps >= 0 && t.reps + t.gainsGoblinStolen == s.reps
    ensures t.lifetimeReps == s.lifetimeReps
  {
    var stolen := GoblinTake(s.reps);
    s.(reps := s.reps - stolen, gainsGoblinStolen := stolen, gainsGoblinActive := true)
  }

  /** The goblin's timeout: it escapes with what it took. */
  function GoblinEscaped(s: Snapshot): (t: Snapshot)
    ensures !t.gainsGoblinActive && t.gainsGoblinStolen == 0 && t.reps == s.reps
  {
    s.(gainsGoblinActive := false, gainsGoblinStolen := 0)
  }

  /** The goblin's visit keeps the invariant, and what it takes plus what is left is the
      reps it found: an escape loses exactly the stolen reps. */
  lemma GoblinKeepsInv(s: Snapshot)
    requires Inv(s)
    ensures Inv(GoblinTriggered(s)) && Inv(GoblinEscaped(s))
    ensures GoblinTriggered(s).reps + GoblinTriggered(s).gainsGoblinStolen == s.reps
    ensures GoblinEscaped(GoblinTriggered(s)).reps == s.reps - GoblinTake(s.reps)
  {
  }

  /** The reps a click yields added to the reps and the lifetime reps, and the click
      counted. */
  function Added(s: Snapshot, gained: nat): (t: Snapshot)
    ensures t.earned == s.earned && t.owned == s.owned && t.perkOwned == s.perkOwned
  {
    s.(reps := s.reps + gained, lifetimeReps := s.lifetimeReps + gained, totalClicks := s.totalClicks + 1)
  }

  lemma AddedKeepsInv(s: Snapshot, gained: nat)
    ensures Inv(s) ==> Inv(Added(s, gained))
  {
  }

  /** The state a click that yields `gained` reps leaves in local hour `hour`: the reps
      are added, the click counts, the achievements are swept and, between 02:00 and
      04:00, Midnight Gains is unlocked. */
  function Credited(s: Snapshot, hour: int, gained: nat): (t: Snapshot)
    requires |s.earned| == |Rewards|
    ensures |t.earned| == |Rewards|
    ensures t.reps == s.reps + gained && t.lifetimeReps == s.lifetimeReps + gained
      && t.totalClicks == s.totalClicks + 1
    ensures 2 <= hour < 4 ==> t.earned[MidnightGains]
  {
    var swept := Swept(Added(s, gained));
    if 2 <= hour < 4 then Unlocked(swept, MidnightGains) else swept
  }

  lemma CreditedKeepsInv(s: Snapshot, hour: int, gained: nat)
    requires Inv(s)
    ensures Inv(Credited(s, hour, gained))
  {
    AddedKeepsInv(s, gained);
    SweptKeepsInv(Added(s, gained));
    if 2 <= hour < 4 {
      SecretRewards(MidnightGains);
      UnlockedKeepsInv(Swept(Added(s, gained)), MidnightGains);
    }
  }

  /** A credited click never takes an achievement back, and between 02:00 and 04:00 it
      earns Midnight Gains. */
  lemma CreditedKeepsEarned(s: Snapshot, hour: int, gained: nat, j: nat)
    requires |s.earned| == |Rewards| && j < |Rewards|
    ensures s.earned[j] ==> Credited(s, hour, gained).earned[j]
    ensures 2 <= hour < 4 ==> Credited(s, hour, gained).earned[MidnightGains]
  {
    SweepEarnsPublicExactly(s.earned, ProgressOf(Added(s, gained)), j, hour);
  }

  /** A click the Bro Science Degree turns into bad advice: the goblin is not out, the
      degree is owned and the click brings the mod-10 counter back to 0. */
  predicate BadAdvice(s: Snapshot)
    requires |s.owned| == |Upgrades| && s.broScienceBadAdviceCounter >= 0
  {
    !s.gainsGoblinActive && s.owned[BroScienceDegree] > 0 && NextBadAdvice(s.broScienceBadAdviceCounter) == 0
  }

  /** What `handleWorkout` does once the combo and Method Actor steps are done: the goblin
      chase while the goblin is out; else, with the Bro Science Degree owned, the bad
      advice of every 10th click (it counts as a click and yields nothing); else the
      credited click. */
  function Resolved(c: Snapshot, hour: int, gained: nat): (t: Snapshot)
    requires Inv(c)
    ensures t.owned == c.owned && t.perkOwned == c.perkOwned
    ensures t.secretNoBuyClickCount == c.secretNoBuyClickCount
      && t.comboStreak == c.comboStreak && t.lastClickTime == c.lastClickTime
  {
    if c.gainsGoblinActive then Chased(c)
    else if c.owned[BroScienceDegree] > 0 then
      var advice := NextBadAdvice(c.broScienceBadAdviceCounter);
      if advice == 0 then Swept(c.(broScienceBadAdviceCounter := 0, totalClicks := c.totalClicks + 1))
      else Credited(c.(broScienceBadAdviceCounter := advice), hour, gained)
    else Credited(c, hour, gained)
  }

  lemma ResolvedKeepsInv(c: Snapshot, hour: int, gained: nat)
    requires Inv(c)
    ensures Inv(Resolved(c, hour, gained))
  {
    if c.gainsGoblinActive {
      ChasedKeepsInv(c);
    } else if c.owned[BroScienceDegree] > 0 {
      AdvisedKeepsInv(c, hour, gained);
    } else {
      CreditedKeepsInv(c, hour, gained);
    }
  }

  /** The Bro Science Degree branch of `Resolved` keeps the invariant. */
  lemma AdvisedKeepsInv(c: Snapshot, hour: int, gained: nat)
    requires Inv(c) && !c.gainsGoblinActive && c.owned[BroScienceDegree] > 0
    ensures Inv(Resolved(c, hour, gained))
  {
    var advice := NextBadAdvice(c.broScienceBadAdviceCounter);
    if advice == 0 {
      SweptKeepsInv(c.(broScienceBadAdviceCounter := 0, totalClicks := c.totalClicks + 1));
    } else {
      CreditedKeepsInv(c.(broScienceBadAdviceCounter := advice), hour, gained);
    }
  }

  /** The counters after the click is resolved: the goblin chase moves neither the clicks
      nor the lifetime reps; bad advice counts a click and adds no reps; any other click
      adds exactly `gained` to the reps and the lifetime reps and counts a click. In every
      case the upgrades, the perks and the click-without-buying count stay. */
  lemma ResolvedCounters(c: Snapshot, hour: int, gained: nat)
    requires Inv(c)
    ensures var t := Resolved(c, hour, gained);
      t.owned == c.owned && t.perkOwned == c.perkOwned && t.secretNoBuyClickCount == c.secretNoBuyClickCount
      && (c.gainsGoblinActive ==> t.totalClicks == c.totalClicks && t.lifetimeReps == c.lifetimeReps)
      && (BadAdvice(c) ==>
            t.reps == c.reps && t.lifetimeReps == c.lifetimeReps && t.totalClicks == c.totalClicks + 1
            && t.broScienceBadAdviceCounter == 0)
      && (!c.gainsGoblinActive && !BadAdvice(c) ==>
            t.reps == c.reps + gained && t.lifetimeReps == c.lifetimeReps + gained
            && t.totalClicks == c.totalClicks + 1)
  {
  }

  /** The state `handleWorkout` leaves at time `now` in local hour `hour`, where `gained`
      is what the click yields (the floor of the click power times the combo, event and
      supplement multipliers): `updateCombo`, the Method Actor count, then the click is
      resolved. */
  function Workout(s: Snapshot, now: int, hour: int, gained: nat): (t: Snapshot)
    requires Inv(s)
    ensures 1 <= t.comboStreak <= ComboCap(s.owned[RhythmTraining]) && t.lastClickTime == now
    ensures t.secretNoBuyClickCount == s.secretNoBuyClickCount + 1
    ensures t.owned == s.owned && t.perkOwned == s.perkOwned
  {
    ComboKeepsInv(s, now);
    CountedKeepsInv(Combo(s, now));
    Resolved(Counted(Combo(s, now)), hour, gained)
  }

  lemma WorkoutKeepsInv(s: Snapshot, now: int, hour: int, gained: nat)
    requires Inv(s)
    ensures Inv(Workout(s, now, hour, gained))
  {
    ComboKeepsInv(s, now);
    CountedKeepsInv(Combo(s, now));
    ResolvedKeepsInv(Counted(Combo(s, now)), hour, gained);
  }

  /** What one click does to the counters: the click-without-buying count always rises
      by one; while the goblin is out neither the clicks nor the lifetime reps move; the
      Bro Science Degree's bad advice counts the click but adds no reps; every other click
      adds exactly `gained` to the reps and the lifetime reps. */
  lemma {:induction false} WorkoutCounters(s: Snapshot, now: int, hour: int, gained: nat)
    requires Inv(s)
    ensures var t := Workout(s, now, hour, gained);
      t.secretNoBuyClickCount == s.secretNoBuyClickCount + 1
      && t.owned == s.owned && t.perkOwned == s.perkOwned
      && (s.gainsGoblinActive ==> t.totalClicks == s.totalClicks && t.lifetimeReps == s.lifetimeReps)
      && (BadAdvice(s) ==>
            t.reps == s.reps && t.lifetimeReps == s.lifetimeReps && t.totalClicks == s.totalClicks + 1
            && t.broScienceBadAdviceCounter == 0)
      && (!s.gainsGoblinActive && !BadAdvice(s) ==>
            t.reps == s.reps + gained && t.lifetimeReps == s.lifetimeReps + gained
            && t.totalClicks == s.totalClicks + 1)
  {
    ComboKeepsInv(s, now);
    CountedKeepsInv(Combo(s, now));
    ResolvedCounters(Counted(Combo(s, now)), hour, gained);
  }

  /** Resolving a click never takes an achievement back, and a credited click between
      02:00 and 04:00 earns Midnight Gains. */
  lemma ResolvedKeepsEarned(c: Snapshot, hour: int, gained: nat, j: nat)
    requires Inv(c) && j < |Rewards|
    ensures c.earned[j] ==> Resolved(c, hour, gained).earned[j]
    ensures !c.gainsGoblinActive && !BadAdvice(c) && 2 <= hour < 4 ==> Resolved(c, hour, gained).earned[MidnightGains]
  {
    if c.gainsGoblinActive {
    } else if c.owned[BroScienceDegree] > 0 {
      var advice := NextBadAdvice(c.broScienceBadAdviceCounter);
      if advice == 0 {
        var b := c.(broScienceBadAdviceCounter := 0, totalClicks := c.totalClicks + 1);
        SweepEarnsPublicExactly(b.earned, ProgressOf(b), j, hour);
      } else {
        CreditedKeepsEarned(c.(broScienceBadAdviceCounter := advice), hour, gained, j);
      }
    } else {
      CreditedKeepsEarned(c, hour, gained, j);
    }
  }

  /** The secrets a click unlocks: Method Actor on the 69th click without buying, and,
      when the click is credited, Midnight Gains between 02:00 and 04:00. Neither is ever
      taken back. */
  lemma WorkoutSecrets(s: Snapshot, now: int, hour: int, gained: nat)
    requires Inv(s)
    ensures s.secretNoBuyClickCount + 1 == 69 || s.earned[MethodActor] ==>
      Workout(s, now, hour, gained).earned[MethodActor]
    ensures s.earned[MidnightGains] || (!s.gainsGoblinActive && !BadAdvice(s) && 2 <= hour < 4) ==>
      Workout(s, now, hour, gained).earned[MidnightGains]
  {
    ComboKeepsInv(s, now);
    CountedKeepsInv(Combo(s, now));
    var c := Counted(Combo(s, now));
    ResolvedKeepsEarned(c, hour, gained, MethodActor);
    ResolvedKeepsEarned(c, hour, gained, MidnightGains);
  }

  // ---------------------------------------------------------------- the two resets

  /** `canPrestige`: a run can be turned pro from 10000 reps on. */
  predicate CanPrestige(s: Snapshot)
    ensures CanPrestige(s) && s.lifetimeReps >= s.reps ==>
      GymCoinsFromPrestige(s.lifetimeReps, false) >= 4 && GymCoinsFromPrestige(s.lifetimeReps, true) >= 8
  {
    PayoutFromThreshold(s.lifetimeReps);
    s.reps >= PrestigeThreshold
  }

  /** `canAscend`: ten lifetime prestiges, and fewer than five stars so far. */
  predicate CanAscend(s: Snapshot)
    ensures CanAscend(s) ==> s.ascensionStars + 1 <= MaxAscensionStars && s.lifetimePrestigesEverDone >= 1
  {
    s.lifetimePrestigesEverDone >= AscensionThreshold && s.ascensionStars < MaxAscensionStars
  }

  /** `performPrestige` ("Go Pro"): below 10000 reps nothing happens. Otherwise the
      GymCoin payout is banked, both prestige counters rise by one, the gains multiplier
      becomes 1 + 0.5 per prestige, the run is wiped down to Went Pro and the starting
      perks are applied to the new run. */
  function Prestiged(s: Snapshot): (t: Snapshot)
    requires |s.perkOwned| == |Perks|
    ensures !CanPrestige(s) ==> t == s
    ensures CanPrestige(s) ==> t.reps == 0 && t.prestigeCount == s.prestigeCount + 1
    ensures t.lifetimeReps == s.lifetimeReps && t.lifetimeSeconds == s.lifetimeSeconds
      && t.perkOwned == s.perkOwned && t.ascensionStars == s.ascensionStars
  {
    if !CanPrestige(s) then s
    else WithStartingPerks(RunReset(PaidOut(s)).(earned := PrestigeEarned())).(momentumTicks := 0)
  }

  /** The payout of a prestige: the GymCoins for the run's lifetime reps are banked in
      both totals, both prestige counters rise by one and the gains multiplier becomes
      1 + 0.5 per prestige. */
  function PaidOut(s: Snapshot): Snapshot
    requires |s.perkOwned| == |Perks|
  {
    var coins := GymCoinsFromPrestige(s.lifetimeReps, s.perkOwned[GymInfluencer]);
    s.(gymCoins := s.gymCoins + coins, totalGymCoinsEarned := s.totalGymCoinsEarned + coins,
       prestigeCount := s.prestigeCount + 1,
       lifetimePrestigesEverDone := s.lifetimePrestigesEverDone + 1,
       gainsMultiplier := 1.0 + (s.prestigeCount + 1) as real * 0.5)
  }

  /** The hard reset both layers share: no reps, one rep per click, no clicks, no
      auto-gym and no upgrades. */
  function RunReset(s: Snapshot): Snapshot {
    s.(reps := 0, repsPerClick := 1, totalClicks := 0, autoGymLevel := 0, owned := NoUpgrades())
  }

  /** The perks applied to a new run: ten Protein Shakes (+10 per click) with the
      Starting Supplement Pack, one Auto-Gym Machine with VIP Membership. */
  function WithStartingPerks(s: Snapshot): Snapshot
    requires |s.perkOwned| == |Perks|
  {
    var supps := s.perkOwned[StartingSupps];
    var vip := s.perkOwned[VipMembership];
    s.(owned := StartingOwned(supps, vip), repsPerClick := if supps then 11 else 1,
       autoGymLevel := if vip then 1 else 0)
  }

  lemma PrestigedKeepsInv(s: Snapshot)
    requires Inv(s)
    ensures Inv(Prestiged(s))
  {
    if CanPrestige(s) {
      var supps := s.perkOwned[StartingSupps];
      var vip := s.perkOwned[VipMembership];
      StartingOwnedShape(supps, vip);
      StartingPower(supps, vip);
      StartingCount(supps, vip);
    }
  }

  /** A prestige banks the same positive number of GymCoins in the spendable and the
      lifetime totals, counts one more prestige in both counters, wipes the run (reps,
      clicks, momentum) but keeps the perks, the stars and the lifetime reps, leaves Went
      Pro as the only earned achievement, and starts the new run with the perks' upgrades
      only. */
  lemma PrestigeBanksCoins(s: Snapshot)
    requires Inv(s)
    ensures !CanPrestige(s) ==> Prestiged(s) == s
    ensures CanPrestige(s) ==> var t := Prestiged(s);
      t.gymCoins - s.gymCoins == t.totalGymCoinsEarned - s.totalGymCoinsEarned >= 1
      && t.prestigeCount == s.prestigeCount + 1 && t.lifetimePrestigesEverDone == s.lifetimePrestigesEverDone + 1
      && t.gainsMultiplier == GainsFor(t.prestigeCount, false)
      && t.reps == 0 && t.totalClicks == 0 && t.momentumTicks == 0 && t.lifetimeReps == s.lifetimeReps
      && t.perkOwned == s.perkOwned && t.ascensionStars == s.ascensionStars
      && (forall j :: 0 <= j < |Rewards| ==> (t.earned[j] <==> j == WentPro))
      && Sum(t.owned) == (if s.perkOwned[StartingSupps] then 10 else 0) + (if s.perkOwned[VipMembership] then 1 else 0)
      && t.owned[ProteinShake] == (if s.perkOwned[StartingSupps] then 10 else 0)
      && t.owned[AutoGym] == (if s.perkOwned[VipMembership] then 1 else 0)
      && t.repsPerClick == (if s.perkOwned[StartingSupps] then 11 else 1)
      && t.autoGymLevel == (if s.perkOwned[VipMembership] then 1 else 0)
  {
    StartingCount(s.perkOwned[StartingSupps], s.perkOwned[VipMembership]);
  }

  /** `performAscension` as intended: without ten lifetime prestiges, or at five stars,
      nothing happens. Otherwise one more star; prestige, GymCoins, perks, upgrades and the
      run are wiped; the three secret achievements stay as they were and Ascended is
      earned. The gains multiplier keeps The Long Haul's +25% when that trophy stays
      earned, where the source sets it to 1. */
  function Ascension(s: Snapshot): (t: Snapshot)
    requires |s.earned| == |Rewards|
    ensures !CanAscend(s) ==> t == s
    ensures s.ascensionStars <= MaxAscensionStars ==> t.ascensionStars <= MaxAscensionStars
    ensures t.totalGymCoinsEarned == s.totalGymCoinsEarned && t.lifetimeReps == s.lifetimeReps
      && t.lifetimeSeconds == s.lifetimeSeconds
    ensures |t.earned| == |Rewards|
  {
    if !CanAscend(s) then s
    else RunReset(PrestigeLayerCleared(s).(perkOwned := NoFlags(|Perks|))).(earned := AscensionEarned(s.earned))
  }

  /** The prestige layer an ascension wipes, with the star it adds and the gains
      multiplier it leaves. */
  function PrestigeLayerCleared(s: Snapshot): Snapshot
    requires |s.earned| == |Rewards|
  {
    s.(ascensionStars := s.ascensionStars + 1, prestigeCount := 0,
       gainsMultiplier := AscensionGains(s.earned[LongHaul]),
       gymCoins := 0, lifetimePrestigesEverDone := 0)
  }

  /** `performAscension` as written: the same as `Ascension`, except that line 826 sets
      the gains multiplier to 1. */
  function AscensionAsWritten(s: Snapshot): (t: Snapshot)
    requires |s.earned| == |Rewards|
    ensures !CanAscend(s) ==> t == s
    ensures |t.earned| == |Rewards|
    ensures CanAscend(s) ==> t.gainsMultiplier == 1.0 && t.earned[LongHaul] == s.earned[LongHaul]
  {
    if !CanAscend(s) then s else Ascension(s).(gainsMultiplier := 1.0)
  }

  /** With The Long Haul earned, the ascension as written keeps the trophy but drops its
      +25%: the multiplier is 1 where the kept flag stands for 1.25, so the state breaks
      the invariant the other operations keep. The intended `Ascension` keeps it. */
  lemma AscensionAsWrittenBreaksInv(s: Snapshot)
    requires Inv(s) && CanAscend(s) && s.earned[LongHaul]
    ensures AscensionAsWritten(s).earned[LongHaul] && AscensionAsWritten(s).gainsMultiplier == 1.0
    ensures Ascension(s).gainsMultiplier == 1.25
    ensures !Inv(AscensionAsWritten(s)) && Inv(Ascension(s))
  {
    AscendedKeepsInv(s);
    var t := AscensionAsWritten(s);
    assert t.earned[LongHaul] && t.prestigeCount == 0;
    assert GainsFor(0, true) == 1.25;
  }

  lemma AscendedKeepsInv(s: Snapshot)
    requires Inv(s)
    ensures Inv(Ascension(s))
  {
    if CanAscend(s) {
      NoUpgradesOk();
      SecretRewards(WentPro);
      var t := Ascension(s);
      assert !t.earned[WentPro] && t.earned[LongHaul] == s.earned[LongHaul];
    }
  }

  /** An ascension happens exactly when it is allowed and never takes the stars past
      five. It wipes the run, the prestige layer and the perks, keeps the three secret
      achievements and earns Ascended, and leaves the GymCoins ever earned, the lifetime
      reps and the play time as they were. */
  lemma AscensionOutcome(s: Snapshot)
    requires Inv(s)
    ensures Ascension(s).ascensionStars <= MaxAscensionStars
    ensures CanAscend(s) <==> Ascension(s).ascensionStars == s.ascensionStars + 1
    ensures !CanAscend(s) ==> Ascension(s) == s
    ensures CanAscend(s) ==> var t := Ascension(s);
      t.reps == 0 && t.repsPerClick == 1 && t.totalClicks == 0 && t.autoGymLevel == 0
      && t.gymCoins == 0 && t.prestigeCount == 0 && t.lifetimePrestigesEverDone == 0
      && Sum(t.owned) == 0 && (forall k :: 0 <= k < |Perks| ==> !t.perkOwned[k])
      && t.earned[Ascended]
      && t.earned[MethodActor] == s.earned[MethodActor] && t.earned[MidnightGains] == s.earned[MidnightGains]
      && t.earned[LongHaul] == s.earned[LongHaul]
    ensures Ascension(s).totalGymCoinsEarned == s.totalGymCoinsEarned
      && Ascension(s).lifetimeReps == s.lifetimeReps && Ascension(s).lifetimeSeconds == s.lifetimeSeconds
  {
    AscendedKeepsInv(s);
    NoUpgradesOk();
  }

  // ---------------------------------------------------------------- play time

  /** The lifetime-seconds ticker, once a minute: one more minute of play time, and an
      achievement sweep once a day of play time is reached. */
  function Ticked(s: Snapshot): (t: Snapshot)
    requires |s.earned| == |Rewards|
    ensures |t.earned| == |Rewards|
    ensures t.lifetimeSeconds == s.lifetimeSeconds + 60
    ensures t.reps == s.reps && t.owned == s.owned && t.prestigeCount == s.prestigeCount
  {
    var t := s.(lifetimeSeconds := s.lifetimeSeconds + 60);
    if t.lifetimeSeconds >= LongHaulSeconds then Swept(t) else t
  }

  /** The ticker keeps the invariant and earns The Long Haul once a day of play is
      reached, which multiplies the gains by 1.25. */
  lemma TickedKeepsInv(s: Snapshot)
    requires Inv(s)
    ensures Inv(Ticked(s))
    ensures s.lifetimeSeconds + 60 >= LongHaulSeconds ==> Ticked(s).earned[LongHaul]
    ensures s.lifetimeSeconds + 60 >= LongHaulSeconds && !s.earned[LongHaul] ==>
      Ticked(s).gainsMultiplier == s.gainsMultiplier * 1.25
  {
    var t := s.(lifetimeSeconds := s.lifetimeSeconds + 60);
    SweptKeepsInv(t);
    LongHaulBonus(s.prestigeCount);
    assert Rewards[LongHaul].secret && Rewards[LongHaul].req == LifetimeSecondsReq && Rewards[LongHaul].val == LongHaulSeconds;
  }
}
