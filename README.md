# Gym-Game progression model

A Dafny model of the progression rules of the Gym-Game clicker (`js/script.js`).

The game keeps its state in module-level variables and in the `owned`/`earned` fields of its catalogue arrays. The model covers:

- the upgrade shop with its exponential cost curve;
- the combo streak;
- the two nested resets, "Go Pro" (prestige) and ascension;
- the permanent Gym Corp perk shop;
- the achievements and the secret achievements;
- the prestige titles, the radio and the shop's visibility filter;
- the Bro Science Degree's "bad advice" counter in the click handler.

Modules:

- `Catalogue` (catalogue.dfy): the fixed catalogues of upgrades, perks, achievements and prestige titles. Only the fields the rules read are kept, with the source's string ids. A lookup by id returns the first match, like JavaScript's `Array.prototype.find`.
- `Cost` (cost.dfy): `calculateCost`.
- `Shop` (shop.dfy): total upgrades, click power, the starting perks and `getVisibleUpgrades`.
- `Click` (click.dfy): `updateCombo`'s streak and multiplier, and the Bro Science mod-10 counter.
- `Radio` (radio.dfy): `setStation` and `getRadioBonus`.
- `Prestige` (prestige.dfy): `getPrestigeTitle`, the GymCoin payout and the gains multiplier.
- `Trophies` (trophies.dfy): `getReqValue`, one `checkRewards` pass and `getNextReward`.
- `GameSpec` (game_spec.dfy): all game variables as one `Snapshot` value. It holds the invariant the operations keep (`Inv`) and one function per operation giving the state after it. Lemmas state what each operation does.
- `Game` (game.dfy): class `GameState`, whose fields are the game's variables. Its methods perform the operations step by step, in the source's order. The `forEach` resets are `for` loops. Each operation method (those that require `Valid()`: `BuyUpgrade`, `HandleWorkout`, `PerformPrestige`, …) is proved to keep `Inv` and to leave exactly the state the matching `GameSpec` function gives. The steps an operation is made of (`PayOutPrestige`, `ResetRun`, `ApplyStartingPerks`, `ResetUpgrades`, `ClearPrestigeLayer`, the other reset loops and `ApplyUpgradeEffect`) promise only their own step's effect; the states between two steps need not satisfy `Inv`. Single-field setters used by the operations (`SetEarned`, `AddReps`, …) are the assignments the source makes; they promise only the one field they write, not the invariant.

Modelling choices:

- Time is a parameter: the click time `now` in milliseconds and the local `hour` of day.
- The reps a click yields (`gained`) are a parameter. The source computes them as the floor of a floating-point chain of multipliers (events, momentum, synergies, mystery supplement, ascension stars, radio).
- Reps and lifetime reps are integers. In the source the auto-gym tick adds `getAutoRps() * interval / 1000` (js/script.js:978-980), so they can be fractional there.
- The cost curve is computed exactly over the reals, with `.Floor`. JavaScript's `Math.pow` rounds to a double, and overflows to `Infinity` for very large counts.
- The GymCoin payout `max(1, floor(max(1, log10 L) * m))` is computed exactly, without floating point. Over the integers, `floor(m * log10 L)` is `floor(log10 (L^m))` for m = 1, 2. This differs from the source only where `Math.log10` rounds, or where `L` is fractional.
- `getReqValue`'s `'goblin'` requirement reads the Goblin Hunter flag. A `checkRewards` pass reads that flag as it was before the pass, because the pass never earns Goblin Hunter itself.

Where the code and the game's own description differ, the model follows the code, with one exception: the gains multiplier an ascension leaves follows the description (see "## Findings"). Otherwise:

- A caught goblin pays its bonus into `reps` but not into `lifetimeReps`, so `lifetimeReps >= reps` does not always hold (`GameSpec.GoblinCatchExceedsLifetime`).
- `lifetimePrestigesEverDone` is reset to 0 by an ascension (js/script.js:828).

## Model

| member | source | states |
|---|---|---|
| Catalogue.IndexOf | js/script.js:917 | the index found is the first entry with that id; none is found exactly when no entry has it |
| Catalogue.FindUpgrade | js/script.js:917 | a found upgrade index is in range and holds the id asked for |
| Catalogue.FindPerk | js/script.js:1024 | a found perk index is in range and holds the id asked for |
| Catalogue.FindReward | js/script.js:1007 | a found achievement index is in range and holds the id asked for |
| Catalogue.UpgradeFoundById | js/script.js:150-176 | the upgrade ids are distinct, so each entry is the one its own id finds |
| Catalogue.PerkFoundById | js/script.js:179-188 | each perk is the one its own id finds |
| Catalogue.RewardFoundById | js/script.js:191-209 | each achievement is the one its own id finds |
| Catalogue.UpgradeCataloguePrices | js/script.js:150-176 | every growth rate is at least 1; every priced upgrade gains at least one rep of price per purchase |
| Catalogue.RewardCatalogueShape | js/script.js:191-209 | only The Long Haul is a secret tracked by play time; only Goblin Hunter uses the goblin requirement; no public achievement uses the clock |
| Catalogue.AutoTierOnlyAutoGym | js/script.js:159 | only the Auto-Gym Machine has the `auto` type |
| Catalogue.KeptOnAscension | js/script.js:831 | the ids an ascension keeps are exactly the three secret achievements |
| Catalogue.SecretRewards | js/script.js:202-206 | the secret achievements are Method Actor, Midnight Gains and The Long Haul |
| Catalogue.TitlesSorted | js/script.js:212-221 | the title thresholds start at 0 and strictly increase |
| Cost.CalculateCost | js/script.js:286-289 | a free upgrade costs 0; any other costs the largest whole number not above basePrice × growth^owned |
| Cost.CostAtZero | js/script.js:286-289 | the first purchase costs exactly the base price |
| Cost.CostMonotone | js/script.js:286-289 | with growth at least 1, the cost never decreases as more are owned |
| Cost.CostStrictlyIncreasing | js/script.js:286-289 | when one purchase adds at least one rep of price, each purchase strictly raises the cost |
| Cost.CatalogueCostCurve | js/script.js:286-289 | over the catalogue: a free upgrade always costs 0; any other costs its base price first and strictly more after each purchase |
| Shop.SumUpdate | js/script.js:291-293 | changing one count changes `getTotalUpgrades` by exactly the difference |
| Shop.SumNonNegative | js/script.js:291-293 | the total upgrade count is never negative for non-negative counts |
| Shop.Sum | js/script.js:291-293 | `getTotalUpgrades`, the sum of the owned counts; 0 when nothing is owned |
| Shop.ClickPowerUpdate | js/script.js:944-947 | changing one count changes the flat click bonus by the difference times that upgrade's per-click effect |
| Shop.NoUpgradesOk | js/script.js:797 | no upgrades owned is a reachable vector with no click bonus and a total of 0 |
| Shop.StartingPower | js/script.js:802-809 | a new run's click bonus is +10 exactly when the Starting Supplement Pack is owned |
| Shop.StartingCount | js/script.js:802-809 | a new run owns 10 Protein Shakes with the Starting Supplement Pack, one Auto-Gym with VIP Membership, and nothing else |
| Shop.IsVisible | js/script.js:325-331 | the filter of `getVisibleUpgrades`, in whole numbers: maxed, or reps reach `unlockAt`, or twice the lifetime reps reach it |
| Shop.VisibleFrom | js/script.js:325-331 | the indices listed from k on are exactly the visible ones, in increasing order |
| Shop.VisibleUpgrades | js/script.js:325-331 | the shop lists exactly the maxed upgrades and those whose `unlockAt` the reps, or twice the lifetime reps, reach, each once in catalogue order |
| Shop.VisibleGrows | js/script.js:325-331 | more current or lifetime reps never hide an upgrade |
| Shop.ShopOpening | js/script.js:325-331 | Protein Shake is listed from the start; The Vortex appears at 250 million lifetime reps, and not at 499999999 reps with 249999999 lifetime reps |
| Click.ComboWindow | js/script.js:439-440 | the click window: 800 ms, plus 200 ms per Wider Combo Window, plus 400 ms with Combo Master; never below 800 ms plus the upgrades' share |
| Click.QuickClickContinues | js/script.js:439-446 | whatever is owned, a click at most 800 ms after a recorded click continues the streak: one more, or the cap once reached |
| Click.WiderWindowKeepsStreak | js/script.js:439-442 | more Wider Combo Windows, or Combo Master, never turn a continuing click into a fresh streak, and give the same new streak |
| Click.ComboCap | js/script.js:443-444 | the streak cap is min(20 + 10 per Rhythm Training, 100) |
| Click.NextStreak | js/script.js:442-448 | inside the window the streak grows by one up to the cap; outside it, it restarts at 1; it is always between 1 and the cap |
| Click.BurstStreak | js/script.js:437-450 | k clicks after a pause, each within the window of the previous one, end with a streak of min(k, cap) |
| Click.SixClickCombo | js/script.js:437-450 | six quick clicks after a pause give a streak of 6 and, without Metal radio, a multiplier of 1.5 |
| Click.ComboMultiplier | js/script.js:450 | 1 + floor(streak / 3) × 0.25 × the combo radio bonus: exactly 1 below three clicks, and at least 1 for a non-negative bonus |
| Click.ComboMultiplierMonotone | js/script.js:450 | the multiplier is at least 1 and never falls as the streak grows |
| Click.NextBadAdvice | js/script.js:870 | the counter stays in 0..9 |
| Click.BadAdviceCycles | js/script.js:868-871 | after k clicks with the degree owned, the counter is (start + k) mod 10 |
| Click.EveryTenthClickVoided | js/script.js:868-877 | from 0, the k-th click is bad advice exactly when k is a multiple of 10 |
| Radio.RadioBonus | js/script.js:400-406 | `getRadioBonus`: between 1 and 1.25, and 1 with the radio off |
| Radio.Toggle | js/script.js:1196-1197 | pressing a station plays it exactly when it was not playing; otherwise the radio turns off |
| Radio.RadioBonusOnlyFromItsStation | js/script.js:400-406 | a bonus is never below 1, and is above 1 exactly when the gain's own station plays |
| Radio.ToggleTwice | js/script.js:1196-1197 | pressing a button twice restores the radio when it was off or on that station, and switches it off otherwise |
| Prestige.TitleIndex | js/script.js:223-227 | the index is 0 or has a threshold the count reaches, and no later entry's threshold is reached |
| Prestige.PrestigeTitle | js/script.js:223-227 | the title shown is a catalogue entry whose threshold a non-negative count reaches |
| Prestige.PrestigeTitleNearestBelow | js/script.js:212-227 | the title shown is the catalogue entry with the largest threshold not above the prestige count |
| Prestige.Log10Floor | js/script.js:778 | k satisfies 10^k <= n < 10^(k+1) |
| Prestige.GymCoinsFromPrestige | js/script.js:777-781 | the payout is at least 1; it is m below 10 lifetime reps; above that it is floor(log10 (L^m)), with m = 2 for Gym Influencer |
| Prestige.InfluencerAtLeastDoubles | js/script.js:779-780 | Gym Influencer at least doubles every payout |
| Prestige.PayoutFromThreshold | js/script.js:774-781 | from 10000 lifetime reps a prestige pays at least 4 GymCoins, and at least 8 with Gym Influencer |
| Prestige.AscensionGains | js/script.js:826 | the multiplier an ascension leaves is that of 0 prestiges with The Long Haul's +25% kept, and is at least 1 |
| Prestige.LongHaulBonus | js/script.js:1014 | earning The Long Haul multiplies a run's gains by exactly 1.25 |
| Trophies.ReqValue | js/script.js:306-323 | the clock requirement is 1 from 02:00 to before 04:00, else 0; the goblin requirement is 1 exactly when Goblin Hunter is earned |
| Trophies.Sweep | js/script.js:987-1004 | one pass leaves one flag per achievement |
| Trophies.SweepEarnsPublicExactly | js/script.js:987-1004 | a pass never un-earns; a public achievement is earned after it exactly when it was, or its `getReqValue` reaches its threshold |
| Trophies.SweepSecrets | js/script.js:991-994 | of the secrets, a pass can only newly earn The Long Haul, and only from 86400 seconds of play |
| Trophies.SweepNeverCatchesGoblin | js/script.js:314 | a pass never earns Goblin Hunter; only a caught goblin does |
| Trophies.SweepIdempotent | js/script.js:987-1004 | a second pass over the same counters earns nothing more |
| Trophies.SweepMonotone | js/script.js:987-1004 | counters that are at least as high earn at least the same achievements |
| Trophies.FirstOpen | js/script.js:296 | the first unearned entry from k on (public only if asked), or none when every such entry is earned |
| Trophies.NextReward | js/script.js:295-297 | the first unearned public achievement, else the first unearned one, else none exactly when all are earned |
| Trophies.PrestigeEarned | js/script.js:798-799 | after a prestige, Went Pro is the only achievement earned |
| Trophies.AscensionEarned | js/script.js:831-836 | after an ascension, Ascended is earned, the three secrets are as before, and every other public achievement is unearned |
| GameSpec.NoFlags | js/script.js:829 | n flags, none set |
| GameSpec.InitialOk | js/script.js:30-80 | a fresh game satisfies the invariant |
| GameSpec.Swept | js/script.js:987-1004 | a pass keeps one flag per achievement; its multiplier is ×1.25 exactly when it newly earns The Long Haul, as `unlockSecret` does |
| GameSpec.SweptKeepsInv | js/script.js:987-1014 | a pass keeps the invariant, and its ×1.25 on a new Long Haul leaves exactly 1 + 0.5 per prestige times The Long Haul's +25% |
| GameSpec.SweptKeepsEarned | js/script.js:990 | a pass never takes an achievement back |
| GameSpec.Unlocked | js/script.js:1006-1020 | the achievement is earned afterwards; nothing changes if it already was; no other flag changes |
| GameSpec.UnlockTwice | js/script.js:1008-1014 | unlocking is idempotent, so The Long Haul's ×1.25 applies at most once |
| GameSpec.UnlockedKeepsInv | js/script.js:1006-1020 | unlocking a secret keeps the invariant |
| GameSpec.Bought | js/script.js:916-942 | the state `buyUpgrade` leaves: reps never go negative; perks, GymCoins, prestiges and lifetime reps are untouched |
| GameSpec.PurchasedKeepsInv | js/script.js:924-953 | a purchase that passed the guards keeps the invariant |
| GameSpec.BoughtKeepsInv | js/script.js:916-942 | `buyUpgrade` keeps the invariant |
| GameSpec.PurchaseKeepsEarned | js/script.js:924-941 | a purchase takes back no achievement |
| GameSpec.BuyUpgradeGuards | js/script.js:916-923 | an unknown id, a maxed upgrade or an unaffordable one leaves the state unchanged, and only those do; otherwise the purchase happens and the achievements are swept |
| GameSpec.PurchaseEffect | js/script.js:924-953 | a purchase takes exactly the cost (reps stay >= 0), raises that count and the total by one, adds the upgrade's click bonus, and restarts the Method Actor count |
| GameSpec.PerkBought | js/script.js:1023-1032 | the state `buyGymCorpUpgrade` leaves: GymCoins never go negative or up; upgrades, achievements, reps and GymCoins ever earned are untouched |
| GameSpec.PerkPurchaseGuards | js/script.js:1023-1028 | an unknown id, an owned perk or one costing more than the GymCoins held changes nothing, and only those do; otherwise exactly the cost is paid and that perk alone becomes owned |
| GameSpec.PerkPurchaseOneShot | js/script.js:1023-1032 | keeps the invariant, flips at most that perk from unowned to owned, pays exactly its cost, and buying it again changes nothing |
| GameSpec.Combo | js/script.js:437-450 | the state `updateCombo` leaves: a streak between 1 and the Rhythm Training cap, the click time recorded, a multiplier of at least 1, reps, upgrades and achievements untouched |
| GameSpec.ComboKeepsInv | js/script.js:437-450 | `updateCombo` keeps the invariant and leaves a streak between 1 and the Rhythm Training cap |
| GameSpec.Counted | js/script.js:855-859 | the clicks-without-buying count rises by one, and at 69 Method Actor is earned |
| GameSpec.CountedKeepsInv | js/script.js:855-859 | the Method Actor count keeps the invariant |
| GameSpec.GoblinTriggered | js/script.js:616-620 | `triggerGainsGoblin`: the goblin is out, reps stay non-negative, and what is left plus what is taken is what was there |
| GameSpec.GoblinEscaped | js/script.js:625-627 | the goblin's timeout: gone, with nothing left to recover, and the reps as they were |
| GameSpec.Chased | js/script.js:634-650 | `handleGoblinChase`: nothing without a goblin; reps never fall; clicks and lifetime reps untouched |
| GameSpec.GoblinTake | js/script.js:617 | the goblin takes floor(5%) of the reps, never more than there are |
| GameSpec.CatchBonus | js/script.js:640 | the catch bonus is floor(7.5%) of the reps held |
| GameSpec.GoblinCatchExceedsLifetime | js/script.js:616-650 | from any valid state with 100 reps, all of them earned, the goblin's visit and one chasing click that catches it leave 102 reps against 100 lifetime reps |
| GameSpec.ChasedKeepsInv | js/script.js:634-650 | a chase keeps the invariant; a click that works off the rest catches the goblin, pays the bonus and earns Goblin Hunter; any other click lowers what is left by 5 × reps per click |
| GameSpec.GoblinKeepsInv | js/script.js:616-632 | a visit keeps the invariant; what is taken plus what is left is what was there; an escape loses exactly what was taken |
| GameSpec.Added | js/script.js:885-887 | crediting a click changes no upgrade, perk or achievement |
| GameSpec.AddedKeepsInv | js/script.js:885-887 | crediting a click keeps the invariant |
| GameSpec.Credited | js/script.js:880-912 | a credited click adds exactly `gained` to reps and lifetime reps and counts one click; between 02:00 and 04:00 Midnight Gains is earned |
| GameSpec.CreditedKeepsInv | js/script.js:880-912 | a credited click keeps the invariant |
| GameSpec.CreditedKeepsEarned | js/script.js:905-912 | a credited click never un-earns, and between 02:00 and 04:00 earns Midnight Gains |
| GameSpec.Resolved | js/script.js:861-912 | resolving a click leaves upgrades, perks, the clicks-without-buying count and the combo as they were |
| GameSpec.ResolvedKeepsInv | js/script.js:861-912 | the goblin chase, bad advice or credited click keeps the invariant |
| GameSpec.AdvisedKeepsInv | js/script.js:867-878 | the Bro Science branch keeps the invariant |
| GameSpec.ResolvedCounters | js/script.js:861-887 | a chase moves neither clicks nor lifetime reps; bad advice counts a click, adds nothing and resets the counter; any other click adds exactly `gained` to reps and lifetime reps and counts |
| GameSpec.ResolvedKeepsEarned | js/script.js:861-912 | resolving a click never un-earns, and a credited click between 02:00 and 04:00 earns Midnight Gains |
| GameSpec.Workout | js/script.js:851-913 | `handleWorkout`: the streak between 1 and the cap, the click time recorded, the clicks-without-buying count +1, upgrades and perks untouched |
| GameSpec.WorkoutKeepsInv | js/script.js:851-913 | a click keeps the invariant |
| GameSpec.WorkoutCounters | js/script.js:851-887 | a click always adds one to the Method Actor count; otherwise as ResolvedCounters |
| GameSpec.WorkoutSecrets | js/script.js:855-912 | the 69th click without buying earns Method Actor; a credited click between 02:00 and 04:00 earns Midnight Gains; neither is lost |
| GameSpec.CanPrestige | js/script.js:774-781 | `canPrestige`: 10000 reps; a run allowed to go pro whose reps were all earned pays at least 4 GymCoins (8 with Gym Influencer) |
| GameSpec.CanAscend | js/script.js:775 | `canAscend`: ten lifetime prestiges and fewer than five stars, so one more star stays within five |
| GameSpec.Prestiged | js/script.js:783-817 | `performPrestige`: nothing below 10000 reps; otherwise reps 0 and one more prestige; lifetime reps, play time, perks and stars kept |
| GameSpec.PrestigedKeepsInv | js/script.js:783-817 | a prestige keeps the invariant |
| GameSpec.PrestigeBanksCoins | js/script.js:774-811 | below 10000 reps nothing changes; otherwise equal payout >= 1 in both GymCoin totals; both prestige counters +1; multiplier 1 + 0.5 per prestige; reps, clicks and momentum 0; perks, stars and lifetime reps kept; only Went Pro earned; 10 Protein Shakes and 11 reps per click with the Starting Supplement Pack (else 0 and 1), one Auto-Gym and tier 1 with VIP Membership (else 0 and 0), nothing else owned |
| GameSpec.Ascension | js/script.js:819-842 | `performAscension` with the corrected multiplier: nothing unless allowed; stars stay within five; GymCoins ever earned, lifetime reps and play time kept |
| GameSpec.AscensionAsWritten | js/script.js:819-842 | `performAscension` as written: nothing unless allowed; otherwise multiplier 1 while The Long Haul stays as it was |
| GameSpec.AscendedKeepsInv | js/script.js:819-842 | an ascension with the corrected multiplier keeps the invariant |
| GameSpec.AscensionAsWrittenBreaksInv | js/script.js:826-831 | as written, an ascension with The Long Haul earned keeps the trophy but leaves multiplier 1, a state outside the invariant; the corrected one leaves 1.25 and keeps it |
| GameSpec.AscensionOutcome | js/script.js:819-842 | happens exactly when allowed; stars never exceed 5; wipes run, prestige layer, upgrades and perks; keeps the secrets and earns Ascended; keeps GymCoins ever earned, lifetime reps and play time |
| GameSpec.Ticked | js/script.js:1357-1360 | the minute ticker adds 60 s of play time and leaves reps, upgrades and prestiges as they were |
| GameSpec.TickedKeepsInv | js/script.js:1357-1360 | the minute ticker keeps the invariant; from a day of play it earns The Long Haul and, if it was new, multiplies the gains by 1.25 |
| Game.GameState.CurrentProgress | js/script.js:306-323 | the counters read are those of the current state |
| Game.GameState.constructor | js/script.js:30-80 | a fresh game: the initial state, satisfying the invariant |
| Game.GameState.ApplyUpgradeEffect | js/script.js:944-953 | a click or Bro Science upgrade adds its effect to the reps per click, the Auto-Gym raises the tier, others change nothing |
| Game.GameState.UnlockSecret | js/script.js:1006-1020 | an unknown id changes nothing; otherwise the state is that of `GameSpec.Unlocked` |
| Game.GameState.UnlockSecretAt | js/script.js:1008-1014 | keeps the invariant and leaves the state of `GameSpec.Unlocked` |
| Game.GameState.CheckRewards | js/script.js:987-1004 | the loop keeps the invariant and leaves exactly the swept state |
| Game.GameState.SweepStep | js/script.js:989-1002 | one more achievement is swept and nothing else changes |
| Game.GameState.EarnPublic | js/script.js:998 | sets one public flag and keeps the invariant |
| Game.GameState.BuyUpgrade | js/script.js:916-942 | keeps the invariant and leaves the state of `GameSpec.Bought` |
| Game.GameState.Purchase | js/script.js:924-934 | pays, counts the upgrade, restarts the Method Actor count and applies the effect |
| Game.GameState.BuyGymCorpUpgrade | js/script.js:1023-1032 | keeps the invariant and leaves the state of `GameSpec.PerkBought` |
| Game.GameState.UpdateCombo | js/script.js:437-450 | keeps the invariant and leaves the state of `GameSpec.Combo` |
| Game.GameState.ExpireCombo | js/script.js:453-456 | the combo timeout: streak 0, multiplier 1, nothing else changes |
| Game.GameState.SetStation | js/script.js:1196-1197 | toggles the station and changes nothing else |
| Game.GameState.PerformPrestige | js/script.js:783-817 | keeps the invariant and leaves the state of `GameSpec.Prestiged` |
| Game.GameState.PayOutPrestige | js/script.js:786-791 | banks the payout, counts the prestige and sets the multiplier |
| Game.GameState.ResetRun | js/script.js:795-797 | the hard reset of the run |
| Game.GameState.ApplyStartingPerks | js/script.js:802-809 | applies Starting Supplement Pack and VIP Membership to the new run |
| Game.GameState.ResetUpgrades | js/script.js:797 | the loop sets every upgrade count to 0 |
| Game.GameState.ResetRewardsForPrestige | js/script.js:798-799 | the loop leaves only Went Pro earned |
| Game.GameState.PerformAscension | js/script.js:819-842 | keeps the invariant and leaves the state of `GameSpec.Ascension`, with the corrected multiplier of "## Findings" |
| Game.GameState.ClearPrestigeLayer | js/script.js:823-828 | one more star, no prestiges or GymCoins, and the corrected multiplier of `Prestige.AscensionGains` |
| Game.GameState.ResetPerks | js/script.js:829 | the loop unowns every perk |
| Game.GameState.ResetRewardsForAscension | js/script.js:831-836 | the loop keeps the three secrets, un-earns the rest, then earns Ascended |
| Game.GameState.TriggerGainsGoblin | js/script.js:616-620 | keeps the invariant and leaves the state of `GameSpec.GoblinTriggered` |
| Game.GameState.GoblinEscapes | js/script.js:625-627 | keeps the invariant; the goblin is gone with what it took |
| Game.GameState.HandleGoblinChase | js/script.js:634-650 | keeps the invariant and leaves the state of `GameSpec.Chased` |
| Game.GameState.TickLifetime | js/script.js:1357-1360 | keeps the invariant and leaves the state of `GameSpec.Ticked` |
| Game.GameState.HandleWorkout | js/script.js:851-913 | keeps the invariant and leaves the state of `GameSpec.Workout` |
| Game.GameState.ResolveClick | js/script.js:861-912 | keeps the invariant and leaves the state of `GameSpec.Resolved` |
| Game.GameState.BadAdviceClick | js/script.js:872-876 | bad advice: counter 0, one more click, nothing else changes |
| Game.GameState.CountAdvice | js/script.js:870 | a non-voided Bro Science click only moves the counter |
| Game.GameState.CountClickWithoutBuying | js/script.js:855-859 | keeps the invariant and leaves the state of `GameSpec.Counted` |
| Game.GameState.CreditClick | js/script.js:885-912 | keeps the invariant and leaves the state of `GameSpec.Credited` |

## Left out

- Page rendering, messages, banners, modals, screen flashes and the mirror: presentation only, with no effect on the game's variables.
- Web Audio: calls into a browser API, with no effect on the game's variables.
- `loadGame`, offline progress and the storage side of `saveGame` and the daily goal: storage, JSON and wall-clock I/O.
- The play time `saveGame` adds: every save adds the wall-clock seconds since the previous save to `lifetimeSeconds` (js/script.js:1233-1234). Saves follow a credited or bad-advice click (905, 875), an upgrade purchase (940), a secret unlock (1019), a perk purchase (1031), a prestige (816), an ascension (840), one auto-gym tick in twenty on average (982), closing the offline report (1335) and the autosave every 30 seconds (1363), the most frequent of them; a goblin-chase click returns before saving (864). The model adds play time only through `TickLifetime`, so in the source The Long Haul can arrive sooner than after 1440 ticks.
- `checkDailyGoal`: the daily goal pays GymCoins into both GymCoin totals (js/script.js:734-739); its target and date come from the clock and storage.
- The timers and what they schedule: the auto-gym tick, momentum (`momentumTicks` is only reset), chaos reroll, random events, rest XP, autosave. The combo timeout and the goblin's escape are modelled as the operations `ExpireCombo` and `GoblinEscapes`. The lifetime ticker is modelled as `TickLifetime`.
- Randomness: random events and chains, `rollMysteryEffect`, the Swole Santa gift, the steak MEAT event, when the goblin appears, the chaos multiplier. The goblin's visit is modelled from the moment it appears.
- The temporary `repsPerClick` changes of the MEAT event and the Coach bonus: they depend on random rolls and timers, and the invariant would not hold during them.
- Floating-point gain chains: `getEffectiveRepsPerClick`, `getAutoRps`, synergies, momentum and ascension bonuses. Their result enters a click only as the parameter `gained`.
- `formatReps` and `getProgressToReward`: display formatting.
- `performReset` (the full wipe from the reset modal): not part of the progression rules modelled here.
- The time of day comes in as the parameter `hour`, not from the clock.
- Game.GameState.HandleWorkout: the state after a click is stated for any `gained`; how `gained` is computed from the floating-point multipliers is not modelled.
- Prestige.GymCoinsFromPrestige: computed exactly over integer lifetime reps; it does not reproduce `Math.log10`'s rounding or fractional lifetime reps.
- PerformAscension: leaves the corrected gains multiplier (1.25 while The Long Haul stays earned), not the 1 of js/script.js:826; the state as written is `GameSpec.AscensionAsWritten`.
- ClearPrestigeLayer: sets the corrected multiplier of `Prestige.AscensionGains`, not line 826's 1.
- AscendedKeepsInv: holds for the corrected multiplier only; `GameSpec.AscensionAsWrittenBreaksInv` shows the state as written breaks the invariant.
- GoblinTake: floor(reps × 0.05) is computed over exact rationals; js/script.js:617 multiplies doubles, whose rounding of 0.05 is not modelled.
- CatchBonus: floor(reps × 0.05 × 1.5) is computed over exact rationals, not the doubles of js/script.js:640.
- IsVisible: `lifetimeReps >= unlockAt * 0.5` is compared exactly over integer lifetime reps; the source compares doubles, and its lifetime reps can be fractional (js/script.js:329).
- Cost.CostMonotone: states the curve over exact reals; it does not model `Math.pow`'s double rounding or its overflow to `Infinity`.

## Findings

| source | as written | input that shows it | evidently intended | confidence | as-written member | corrected member |
|---|---|---|---|---|---|---|
| js/script.js:826 | `performAscension` sets `gainsMultiplier = 1`, while it keeps The Long Haul earned (line 831), whose reward text promises "+25% permanent gains" (line 206, applied at line 1014) | a state with The Long Haul earned, 10 lifetime prestiges and fewer than 5 stars: after ascending the multiplier is 1, not 1.25, and `unlockSecret` skips the earned trophy, so the bonus stays lost until the next prestige un-earns The Long Haul (line 798) and a sweep earns it again (lines 993, 1014) | the multiplier after an ascension is 1.25 while The Long Haul stays earned | not executed; the reward text and the kept flag both point to it | GameSpec.AscensionAsWrittenBreaksInv | Prestige.AscensionGains |
