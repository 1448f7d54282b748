/** The game's mutable state and the operations that change it: buying upgrades and
    perks, a click, the combo streak, the two reset layers, the achievement sweep, the
    radio and the Gains Goblin. The source keeps this state in module-level variables and
    in the `owned`/`earned` fields of its catalogue arrays; here it is one object whose
    `owned`, `earned` and `perkOwned` lists are indexed like the catalogues. Each method
    is proved to leave exactly the state the matching function of module GameSpec
    describes, and to keep that module's invariant. */
module Game {
  import opened Catalogue
  import opened Cost
  import opened Prestige
  import opened Radio
  import opened Click
  import opened Shop
  import opened Trophies
  import opened GameSpec

  class GameState {
    var reps: int
    var repsPerClick: int
    var totalClicks: int
    var lifetimeReps: int
    var lifetimeSeconds: int
    var autoGymLevel: int
    var gymCoins: int
    var totalGymCoinsEarned: int
    var prestigeCount: int
    var gainsMultiplier: real
    var ascensionStars: int
    var lifetimePrestigesEverDone: int
    var comboStreak: int
    var comboMultiplier: real
    var lastClickTime: int
    var momentumTicks: int
    var activeStation: Option<Station>
    var broScienceBadAdviceCounter: int
    var secretNoBuyClickCount: int
    var gainsGoblinActive: bool
    var gainsGoblinStolen: int
    /** The `owned` count of each upgrade, the `earned` flag of each achievement and the
        `owned` flag of each Gym Corp perk, in catalogue order. */
    var owned: seq<int>
    var earned: seq<bool>
    var perkOwned: seq<bool>

    /** The object's fields as one value. */
    ghost function State(): Snapshot
      reads this
    {
      Snapshot(reps, repsPerClick, totalClicks, lifetimeReps, lifetimeSeconds,
        autoGymLevel, gymCoins, totalGymCoinsEarned, prestigeCount,
        gainsMultiplier, ascensionStars, lifetimePrestigesEverDone,
        comboStreak, comboMultiplier, lastClickTime, momentumTicks,
        activeStation, broScienceBadAdviceCounter,
        secretNoBuyClickCount, gainsGoblinActive, gainsGoblinStolen,
        owned, earned, perkOwned)
    }

    ghost predicate Valid()
      reads this
    {
      Inv(State())
    }

    /** The counters the achievements are measured against. */
    function CurrentProgress(): (p: Progress)
      reads this
      ensures p == ProgressOf(State())
    {
      Progress(reps, Sum(owned), autoGymLevel, totalClicks, prestigeCount, ascensionStars,
        lifetimeSeconds, secretNoBuyClickCount)
    }

    /** A fresh game: nothing owned or earned, one rep per click. */
    constructor ()
      ensures Valid()
      ensures State() == Initial()
    {
      reps, repsPerClick, totalClicks, lifetimeReps, lifetimeSeconds := 0, 1, 0, 0, 0;
      autoGymLevel, gymCoins, totalGymCoinsEarned, prestigeCount := 0, 0, 0, 0;
      gainsMultiplier, ascensionStars, lifetimePrestigesEverDone := 1.0, 0, 0;
      comboStreak, comboMultiplier, lastClickTime, momentumTicks := 0, 1.0, 0, 0;
      activeStation, broScienceBadAdviceCounter, secretNoBuyClickCount := None, 0, 0;
      gainsGoblinActive, gainsGoblinStolen := false, 0;
      owned, earned, perkOwned := NoUpgrades(), NoFlags(|Rewards|), NoFlags(|Perks|);
      new;
      InitialOk(State());
    }

    /** `applyUpgradeEffect` for upgrade i: a click upgrade adds its effect to the reps
        per click, the Auto-Gym Machine raises the tier by one; the other types are read
        when gains are computed and change no counter here. */
    method ApplyUpgradeEffect(i: nat)
      requires i < |Upgrades|
      modifies this
      ensures State() == old(State()).(
        repsPerClick := old(repsPerClick) + ClickBonus(Upgrades[i]),
        autoGymLevel := old(autoGymLevel) + (if Upgrades[i].kind == AutoTier then 1 else 0))
    {
      var u := Upgrades[i];
      if u.kind == FlatClick {
        repsPerClick := repsPerClick + u.effect;
      } else if u.kind == AutoTier {
        autoGymLevel := autoGymLevel + 1;
      } else if u.kind == BroScience {
        repsPerClick := repsPerClick + u.effect;
      }
    }

    /** `unlockSecret`: an unknown id changes nothing; otherwise the achievement it
        names is unlocked. Its callers pass secret ids only (the source reads the
        `revealAfter` text that only secret entries have). */
    method UnlockSecret(id: string)
      requires Valid()
      requires FindReward(id).None? || Rewards[FindReward(id).value].secret
      modifies this
      ensures Valid()
      ensures FindReward(id).None? ==> State() == old(State())
      ensures FindReward(id).Some? ==> State() == Unlocked(old(State()), FindReward(id).value)
    {
      var r := FindReward(id);
      if r.None? {
        return;
      }
      UnlockSecretAt(r.value);
    }

    /** `unlockSecret` once the id is found at index k. The id found at LongHaul is
        "longHaul" and no other entry has that id, so the source's test of the id is a
        test of the index. The game's own calls with a fixed id ("methodActor",
        "midnightGains") use the index `RewardFoundById` finds. */
    method UnlockSecretAt(k: nat)
      requires Valid() && k < |Rewards| && Rewards[k].secret
      modifies this
      ensures Valid()
      ensures State() == Unlocked(old(State()), k)
    {
      UnlockedKeepsInv(State(), k);
      if earned[k] {
        return;
      }
      SetEarned(k, true);
      if k == LongHaul {
        SetGainsMultiplier(gainsMultiplier * 1.25);
      }
    }

    /** `checkRewards`: one pass over the achievements in catalogue order. A public
        achievement is earned once its counter reaches its threshold; of the secret ones
        only The Long Haul is handled here, through `unlockSecret`. The counters do not
        change during the pass, so they are read once. */
    method CheckRewards()
      requires Valid()
      modifies this
      ensures Valid()
      ensures State() == Swept(old(State()))
    {
      SweptKeepsInv(State());
      ghost var e0 := earned;
      var p := CurrentProgress();
      SweepNeverCatchesGoblin(e0, p);
      var i := 0;
      while i < |earned|
        invariant i <= |earned| == |Rewards|
        invariant Valid() && SweptUpTo(earned, e0, p, i)
        invariant State() == old(State()).(earned := earned, gainsMultiplier := gainsMultiplier)
      {
        SweepStep(i, p, e0);
        i := i + 1;
      }
      assert earned == Sweep(e0, p);
      LongHaulBonus(prestigeCount);
      SweepEarnsPublicExactly(e0, p, LongHaul, 0);
    }

    /** One step of `checkRewards`, at achievement i. */
    method SweepStep(i: nat, p: Progress, ghost e0: seq<bool>)
      requires Valid() && i < |Rewards| && p == CurrentProgress()
      requires |e0| == |Rewards| && SweptUpTo(earned, e0, p, i) && Sweep(e0, p)[GoblinCaught] == e0[GoblinCaught]
      modifies this
      ensures Valid() && SweptUpTo(earned, e0, p, i + 1)
      ensures State() == old(State()).(earned := earned, gainsMultiplier := gainsMultiplier)
    {
      var r := Rewards[i];
      RewardCatalogueShape(i);
      if !earned[i] {
        if r.secret {
          if r.req == LifetimeSecondsReq && lifetimeSeconds >= r.val {
            UnlockSecretAt(i);
          }
        } else if CounterValue(r.req, p, earned[GoblinCaught]) >= r.val {
          EarnPublic(i);
        }
      }
    }

    /** A public achievement other than Went Pro earned during a sweep; the invariant
        does not mention it. */
    method EarnPublic(i: nat)
      requires Valid() && i < |Rewards| && !Rewards[i].secret && i != WentPro
      modifies this
      ensures Valid()
      ensures State() == old(State()).(earned := old(earned)[i := true])
    {
      SetEarned(i, true);
    }

    /** `buyUpgrade`: an unknown id, a maxed upgrade or one that costs more than the reps
        held changes nothing. Otherwise the purchase is made and the achievements are
        swept. */
    method BuyUpgrade(id: string)
      requires Valid()
      modifies this
      ensures Valid()
      ensures State() == Bought(old(State()), id)
    {
      BoughtKeepsInv(State(), id);
      var found := FindUpgrade(id);
      if found.None? {
        return;
      }
      var i := found.value;
      var u := Upgrades[i];
      if Maxed(u, owned[i]) {
        return;
      }
      var cost := CalculateCost(u, owned[i]);
      if reps < cost {
        return;
      }
      Purchase(i, cost);
      CheckRewards();
    }

    /** The purchase step of `buyUpgrade` once the guards have passed. */
    method Purchase(i: nat, cost: int)
      requires Valid() && i < |Upgrades| && !Maxed(Upgrades[i], owned[i]) && cost <= reps
      modifies this
      ensures Valid()
      ensures State() == Purchased(old(State()), i, cost)
    {
      PurchasedKeepsInv(State(), i, cost);
      AddReps(-cost);
      SetOwned(i, owned[i] + 1);
      SetNoBuyClicks(0);
      ApplyUpgradeEffect(i);
    }

    /** `buyGymCorpUpgrade`. */
    method BuyGymCorpUpgrade(id: string)
      requires Valid()
      modifies this
      ensures Valid()
      ensures State() == PerkBought(old(State()), id)
    {
      PerkPurchaseOneShot(State(), id);
      var found := FindPerk(id);
      if found.None? || perkOwned[found.value] {
        return;
      }
      var k := found.value;
      if gymCoins < Perks[k].cost {
        return;
      }
      SetGymCoins(gymCoins - Perks[k].cost);
      SetPerk(k, true);
    }

    /** `updateCombo` at time `now`. */
    method UpdateCombo(now: int)
      requires Valid()
      modifies this
      ensures Valid()
      ensures State() == Combo(old(State()), now)
    {
      ComboKeepsInv(State(), now);
      var window := ComboWindow(owned[WiderComboWindow], perkOwned[ComboMaster]);
      var cap := ComboCap(owned[RhythmTraining]);
      SetStreak(NextStreak(comboStreak, lastClickTime, now, window, cap));
      SetLastClickTime(now);
      SetComboMultiplier(ComboMultiplier(comboStreak, RadioBonus(activeStation, ComboGain)));
    }

    /** The combo timeout: the streak drops to 0 and the multiplier to 1. */
    method ExpireCombo()
      requires Valid()
      modifies this
      ensures Valid()
      ensures State() == old(State()).(comboStreak := 0, comboMultiplier := 1.0)
    {
      SetStreak(0);
      SetComboMultiplier(1.0);
    }

    /** `setStation`: toggles the radio. */
    method SetStation(s: Station)
      requires Valid()
      modifies this
      ensures Valid()
      ensures State() == old(State()).(activeStation := Toggle(old(activeStation), s))
    {
      activeStation := Toggle(activeStation, s);
    }

    /** `performPrestige` ("Go Pro"). */
    method PerformPrestige()
      requires Valid()
      modifies this
      ensures Valid()
      ensures State() == Prestiged(old(State()))
    {
      PrestigedKeepsInv(State());
      if reps < PrestigeThreshold {
        return;
      }
      PayOutPrestige();
      ResetRun();
      ResetRewardsForPrestige();
      ApplyStartingPerks();
      SetMomentumTicks(0);
    }

    /** The payout of `performPrestige`: the GymCoins for the run's lifetime reps are
        banked, both prestige counters rise by one and the gains multiplier is set to
        1 + 0.5 per prestige. */
    method PayOutPrestige()
      requires |perkOwned| == |Perks|
      modifies this
      ensures State() == PaidOut(old(State()))
    {
      var coins := GymCoinsFromPrestige(lifetimeReps, perkOwned[GymInfluencer]);
      BankCoins(coins);
      SetPrestiges(prestigeCount + 1, lifetimePrestigesEverDone + 1);
      SetGainsMultiplier(1.0 + prestigeCount as real * 0.5);
    }

    /** The hard reset both layers share: no reps, one rep per click, no clicks, no
        auto-gym and no upgrades. */
    method ResetRun()
      requires |owned| == |Upgrades|
      modifies this
      ensures State() == RunReset(old(State()))
    {
      AddReps(-reps);
      SetClicks(0);
      SetPower(1, 0);
      ResetUpgrades();
    }

    /** The perks applied to a new run: ten Protein Shakes (+10 per click) with the
        Starting Supplement Pack, one Auto-Gym Machine with VIP Membership. */
    method ApplyStartingPerks()
      requires owned == NoUpgrades() && repsPerClick == 1 && autoGymLevel == 0
      requires |perkOwned| == |Perks|
      modifies this
      ensures State() == WithStartingPerks(old(State()))
    {
      if perkOwned[StartingSupps] {
        SetOwned(ProteinShake, 10);
        SetPower(repsPerClick + 10, autoGymLevel);
      }
      if perkOwned[VipMembership] {
        SetOwned(AutoGym, 1);
        SetPower(repsPerClick, 1);
      }
    }

    /** `upgrades.forEach(u => { u.owned = 0; })`. */
    method ResetUpgrades()
      requires |owned| == |Upgrades|
      modifies this
      ensures State() == old(State()).(owned := NoUpgrades())
    {
      for i := 0 to |owned|
        invariant |owned| == |Upgrades|
        invariant forall j :: 0 <= j < i ==> owned[j] == 0
        invariant State() == old(State()).(owned := owned)
      {
        owned := owned[i := 0];
      }
      assert owned == NoUpgrades();
    }

    /** The reward reset of `performPrestige`: every achievement but Went Pro is unearned,
        then Went Pro is earned (the prestige count is positive at that point). */
    method ResetRewardsForPrestige()
      requires |earned| == |Rewards|
      modifies this
      ensures State() == old(State()).(earned := PrestigeEarned())
    {
      ghost var e0 := earned;
      for i := 0 to |earned|
        invariant |earned| == |Rewards|
        invariant forall j :: 0 <= j < i ==> earned[j] == (j == WentPro && e0[j])
        invariant forall j :: i <= j < |Rewards| ==> earned[j] == e0[j]
        invariant State() == old(State()).(earned := earned)
      {
        RewardIdsEqual(i, WentPro);
        if Rewards[i].id != "wentPro" {
          earned := earned[i := false];
        }
      }
      earned := earned[WentPro := true];
      assert earned == PrestigeEarned();
    }

    /** `performAscension`, with the gains multiplier set as module GameSpec's
        `Ascension` says. */
    method PerformAscension()
      requires Valid()
      modifies this
      ensures Valid()
      ensures State() == Ascension(old(State()))
    {
      AscendedKeepsInv(State());
      if !(lifetimePrestigesEverDone >= AscensionThreshold && ascensionStars < MaxAscensionStars) {
        return;
      }
      ClearPrestigeLayer();
      ResetPerks();
      ResetRun();
      ResetRewardsForAscension();
    }

    /** The prestige layer an ascension wipes: one more star, no prestiges, no GymCoins,
        and the gains multiplier an ascension leaves. */
    method ClearPrestigeLayer()
      requires |earned| == |Rewards|
      modifies this
      ensures State() == PrestigeLayerCleared(old(State()))
    {
      AddStar();
      SetPrestiges(0, 0);
      SetGainsMultiplier(AscensionGains(earned[LongHaul]));
      SetGymCoins(0);
    }

    /** `gymCorpUpgrades.forEach(u => { u.owned = false; })`. */
    method ResetPerks()
      requires |perkOwned| == |Perks|
      modifies this
      ensures State() == old(State()).(perkOwned := NoFlags(|Perks|))
    {
      for i := 0 to |perkOwned|
        invariant |perkOwned| == |Perks|
        invariant forall j :: 0 <= j < i ==> !perkOwned[j]
        invariant State() == old(State()).(perkOwned := perkOwned)
      {
        perkOwned := perkOwned[i := false];
      }
      assert perkOwned == NoFlags(|Perks|);
    }

    /** The reward reset of `performAscension`: every achievement but the three kept
        secrets is unearned, then Ascended is earned. */
    method ResetRewardsForAscension()
      requires |earned| == |Rewards|
      modifies this
      ensures State() == old(State()).(earned := AscensionEarned(old(earned)))
    {
      ghost var e0 := earned;
      for i := 0 to |earned|
        invariant |earned| == |Rewards|
        invariant forall j :: 0 <= j < i ==> earned[j] == (Rewards[j].id in AscensionKeeps && e0[j])
        invariant forall j :: i <= j < |Rewards| ==> earned[j] == e0[j]
        invariant State() == old(State()).(earned := earned)
      {
        KeptOnAscension(i);
        if Rewards[i].id !in AscensionKeeps {
          earned := earned[i := false];
        }
      }
      earned := earned[Ascended := true];
      assert earned == AscensionEarned(e0);
    }

    /** `triggerGainsGoblin`. */
    method TriggerGainsGoblin()
      requires Valid()
      modifies this
      ensures Valid()
      ensures State() == GoblinTriggered(old(State()))
    {
      GoblinKeepsInv(State());
      var stolen := GoblinTake(reps);
      AddReps((if reps - stolen > 0 then reps - stolen else 0) - reps);
      SetGoblin(true, stolen);
    }

    /** The goblin's timeout. */
    method GoblinEscapes()
      requires Valid()
      modifies this
      ensures Valid()
      ensures State() == GoblinEscaped(old(State()))
    {
      GoblinKeepsInv(State());
      SetGoblin(false, 0);
    }

    /** `handleGoblinChase`. */
    method HandleGoblinChase()
      requires Valid()
      modifies this
      ensures Valid()
      ensures State() == Chased(old(State()))
    {
      ChasedKeepsInv(State());
      if !gainsGoblinActive {
        return;
      }
      var left := gainsGoblinStolen - repsPerClick * 5;
      SetGoblin(true, if left > 0 then left else 0);
      if gainsGoblinStolen <= 0 {
        var bonus := CatchBonus(reps);
        AddReps(bonus);
        SetGoblin(false, gainsGoblinStolen);
        SetEarned(GoblinCaught, true);
      }
    }

    /** The lifetime-seconds ticker, once a minute. */
    method TickLifetime()
      requires Valid()
      modifies this
      ensures Valid()
      ensures State() == Ticked(old(State()))
    {
      TickedKeepsInv(State());
      AddPlayTime(60);
      if lifetimeSeconds >= LongHaulSeconds {
        CheckRewards();
      }
    }

    /** One click on the workout button (`handleWorkout`) at time `now`, in local hour
        `hour`, where `gained` is what the click yields. */
    method HandleWorkout(now: int, hour: int, gained: nat)
      requires Valid()
      modifies this
      ensures Valid()
      ensures State() == Workout(old(State()), now, hour, gained)
    {
      WorkoutKeepsInv(State(), now, hour, gained);
      UpdateCombo(now);
      CountClickWithoutBuying();
      ResolveClick(hour, gained);
    }

    /** The part of `handleWorkout` after the combo and Method Actor steps: the goblin
        chase, the Bro Science Degree's bad advice or the credited click. */
    method ResolveClick(hour: int, gained: nat)
      requires Valid()
      modifies this
      ensures Valid()
      ensures State() == Resolved(old(State()), hour, gained)
    {
      ResolvedKeepsInv(State(), hour, gained);
      if gainsGoblinActive {
        HandleGoblinChase();
        return;
      }
      if owned[BroScienceDegree] > 0 {
        var advice := NextBadAdvice(broScienceBadAdviceCounter);
        if advice == 0 {
          BadAdviceClick();
          CheckRewards();
          return;
        }
        CountAdvice(advice);
      }
      CreditClick(hour, gained);
    }

    /** The bad-advice click: the counter is back at 0 and the click counts. */
    method BadAdviceClick()
      requires Valid()
      modifies this
      ensures Valid()
      ensures State() == old(State()).(broScienceBadAdviceCounter := 0, totalClicks := old(totalClicks) + 1)
    {
      SetBadAdvice(0);
      SetClicks(totalClicks + 1);
    }

    /** A Bro Science click that is not bad advice: the counter moves on. */
    method CountAdvice(advice: int)
      requires Valid() && 0 <= advice < 10
      modifies this
      ensures Valid()
      ensures State() == old(State()).(broScienceBadAdviceCounter := advice)
    {
      SetBadAdvice(advice);
    }

    /** The Method Actor step of a click. */
    method CountClickWithoutBuying()
      requires Valid()
      modifies this
      ensures Valid()
      ensures State() == Counted(old(State()))
    {
      CountedKeepsInv(State());
      SetNoBuyClicks(secretNoBuyClickCount + 1);
      if secretNoBuyClickCount == 69 {
        SecretRewards(MethodActor);
        UnlockSecretAt(MethodActor);
      }
    }

    /** The rest of a click that is neither a goblin chase nor bad advice. */
    method CreditClick(hour: int, gained: nat)
      requires Valid()
      modifies this
      ensures Valid()
      ensures State() == Credited(old(State()), hour, gained)
    {
      CreditedKeepsInv(State(), hour, gained);
      AddedKeepsInv(State(), gained);
      AddGained(gained);
      CheckRewards();
      if 2 <= hour < 4 {
        SecretRewards(MidnightGains);
        UnlockSecretAt(MidnightGains);
      }
    }

    // ------------------------------------------------------------ single-field writes

    method SetEarned(k: nat, v: bool)
      requires k < |earned|
      modifies this
      ensures State() == old(State()).(earned := old(earned)[k := v])
    {
      earned := earned[k := v];
    }

    method SetPerk(k: nat, v: bool)
      requires k < |perkOwned|
      modifies this
      ensures State() == old(State()).(perkOwned := old(perkOwned)[k := v])
    {
      perkOwned := perkOwned[k := v];
    }

    method SetOwned(i: nat, v: int)
      requires i < |owned|
      modifies this
      ensures State() == old(State()).(owned := old(owned)[i := v])
    {
      owned := owned[i := v];
    }

    method AddReps(n: int)
      modifies this
      ensures State() == old(State()).(reps := old(reps) + n)
    {
      reps := reps + n;
    }

    /** The click's yield added to the reps and the lifetime reps, and the click counted. */
    method AddGained(gained: nat)
      modifies this
      ensures State() == Added(old(State()), gained)
    {
      reps, lifetimeReps, totalClicks := reps + gained, lifetimeReps + gained, totalClicks + 1;
    }

    method AddPlayTime(n: int)
      modifies this
      ensures State() == old(State()).(lifetimeSeconds := old(lifetimeSeconds) + n)
    {
      lifetimeSeconds := lifetimeSeconds + n;
    }

    method SetClicks(n: int)
      modifies this
      ensures State() == old(State()).(totalClicks := n)
    {
      totalClicks := n;
    }

    method SetPower(perClick: int, tier: int)
      modifies this
      ensures State() == old(State()).(repsPerClick := perClick, autoGymLevel := tier)
    {
      repsPerClick, autoGymLevel := perClick, tier;
    }

    method SetGymCoins(n: int)
      modifies this
      ensures State() == old(State()).(gymCoins := n)
    {
      gymCoins := n;
    }

    method BankCoins(n: int)
      modifies this
      ensures State() == old(State()).(gymCoins := old(gymCoins) + n, totalGymCoinsEarned := old(totalGymCoinsEarned) + n)
    {
      gymCoins, totalGymCoinsEarned := gymCoins + n, totalGymCoinsEarned + n;
    }

    method SetPrestiges(count: int, lifetime: int)
      modifies this
      ensures State() == old(State()).(prestigeCount := count, lifetimePrestigesEverDone := lifetime)
    {
      prestigeCount, lifetimePrestigesEverDone := count, lifetime;
    }

    method AddStar()
      modifies this
      ensures State() == old(State()).(ascensionStars := old(ascensionStars) + 1)
    {
      ascensionStars := ascensionStars + 1;
    }

    method SetGainsMultiplier(g: real)
      modifies this
      ensures State() == old(State()).(gainsMultiplier := g)
    {
      gainsMultiplier := g;
    }

    method SetStreak(n: int)
      modifies this
      ensures State() == old(State()).(comboStreak := n)
    {
      comboStreak := n;
    }

    method SetComboMultiplier(m: real)
      modifies this
      ensures State() == old(State()).(comboMultiplier := m)
    {
      comboMultiplier := m;
    }

    method SetLastClickTime(t: int)
      modifies this
      ensures State() == old(State()).(lastClickTime := t)
    {
      lastClickTime := t;
    }

    method SetMomentumTicks(n: int)
      modifies this
      ensures State() == old(State()).(momentumTicks := n)
    {
      momentumTicks := n;
    }

    method SetBadAdvice(n: int)
      modifies this
      ensures State() == old(State()).(broScienceBadAdviceCounter := n)
    {
      broScienceBadAdviceCounter := n;
    }

    method SetNoBuyClicks(n: int)
      modifies this
      ensures State() == old(State()).(secretNoBuyClickCount := n)
    {
      secretNoBuyClickCount := n;
    }

    method SetGoblin(active: bool, stolen: int)
      modifies this
      ensures State() == old(State()).(gainsGoblinActive := active, gainsGoblinStolen := stolen)
    {
      gainsGoblinActive, gainsGoblinStolen := active, stolen;
    }
  }
}
