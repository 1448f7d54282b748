/** The fixed catalogues of the game: the rep-bought upgrades, the GymCoin-bought
    permanent perks ("Gym Corp"), the achievements and the prestige titles.
    Only the fields the progression logic reads are kept; names, emoji and
    descriptions are presentation. Every catalogue entry keeps the source's string
    id, and a lookup by id returns the FIRST entry with that id, as JavaScript's
    `Array.prototype.find` does. */
module Catalogue {

  datatype Option<T> = None | Some(value: T)

  /** The `type` tag of an upgrade, one constructor per tag used in the catalogue. */
  datatype Effect =
    | FlatClick        // 'click': adds `effect` to the base reps per click
    | BroScience       // 'broscience': adds `effect`, but every 10th click yields nothing
    | SteakSlap        // 'steak'
    | AutoTier         // 'auto': raises the auto-gym tier by one
    | AutoBoost        // 'autoBoost'
    | Morale           // 'morale'
    | AutoFlat         // 'autoFlat'
    | AutoMult         // 'autoMult'
    | Vortex           // 'vortex'
    | ComboBoost       // 'comboBoost': raises the combo streak cap
    | ComboWindowBoost // 'comboWindow': widens the combo click window
    | EventFreq        // 'eventFreq'
    | Mystery          // 'mystery'
    | GiraffeBonus     // 'giraffeBonus'
    | Joke             // 'joke': does nothing

  /** `maxOwned == 0` stands for an absent `maxOwned` (JavaScript treats both as "no cap"). */
  datatype UpgradeDef = UpgradeDef(
    id: string, basePrice: nat, growth: real, effect: nat, kind: Effect, unlockAt: nat, maxOwned: nat)

  datatype PerkDef = PerkDef(id: string, cost: nat)

  /** The `req` tag of an achievement: which counter its threshold is compared with. */
  datatype Req =
    | RepsReq            // 'reps'
    | UpgradesReq        // 'upgrades': total owned upgrades
    | AutoGymReq         // 'autoGym': auto-gym tier
    | ClicksReq          // 'clicks'
    | PrestigeReq        // 'prestige'
    | AscensionReq       // 'ascension'
    | GoblinReq          // 'goblin': 1 once the Goblin Hunter trophy is earned
    | LifetimeSecondsReq // 'lifetime_seconds'
    | NoBuyClicksReq     // 'secret_69clicks': clicks since the last purchase
    | MidnightReq        // 'secret_midnight': 1 between 02:00 and 04:00

  datatype RewardDef = RewardDef(id: string, req: Req, val: nat, secret: bool)

  datatype TitleDef = TitleDef(min: nat, title: string)

  const Upgrades: seq<UpgradeDef> := [
    UpgradeDef("proteinShake", 10, 1.25, 1, FlatClick, 0, 0),
    UpgradeDef("preworkout", 50, 1.28, 5, FlatClick, 30, 0),
    UpgradeDef("rawEggSmoothie", 120, 1.27, 3, FlatClick, 150, 0),
    UpgradeDef("personalTrainer", 200, 1.30, 20, FlatClick, 300, 0),
    UpgradeDef("creatine", 800, 1.33, 50, FlatClick, 1000, 0),
    UpgradeDef("saunaSession", 3000, 1.35, 100, FlatClick, 5000, 0),
    UpgradeDef("broScienceDegree", 50000, 1.40, 500, BroScience, 500000, 0),
    UpgradeDef("steakTherapy", 5000000, 1.45, 0, SteakSlap, 5000000, 0),
    UpgradeDef("autoGym", 100, 1.35, 0, AutoTier, 80, 0),
    UpgradeDef("bluetoothSpeaker", 400, 1.32, 0, AutoBoost, 500, 0),
    UpgradeDef("chairGrandpa", 1500, 1.38, 0, Morale, 2000, 0),
    UpgradeDef("robotGymCrew", 25000, 1.40, 50, AutoFlat, 20000, 0),
    UpgradeDef("aiTrainer", 100000, 1.42, 0, AutoMult, 80000, 0),
    UpgradeDef("theVortex", 500000000, 1.50, 0, Vortex, 500000000, 1),
    UpgradeDef("rhythmTraining", 2000, 1.35, 0, ComboBoost, 3000, 0),
    UpgradeDef("comboWindow", 5000, 1.38, 200, ComboWindowBoost, 8000, 0),
    UpgradeDef("chaosMagnet", 10000, 1.40, 0, EventFreq, 15000, 0),
    UpgradeDef("mysterySupp", 50000, 1.50, 0, Mystery, 50000, 0),
    UpgradeDef("giraffeSpotter", 1000000, 1.45, 0, GiraffeBonus, 1000000, 0),
    UpgradeDef("motivationalPoster", 0, 1.0, 0, Joke, 3000, 1)
  ]

  const ProteinShake := 0
  const BroScienceDegree := 6
  const AutoGym := 8
  const TheVortex := 13
  const RhythmTraining := 14
  const WiderComboWindow := 15

  const Perks: seq<PerkDef> := [
    PerkDef("startingSupps", 5),
    PerkDef("vipMembership", 8),
    PerkDef("broNetwork", 12),
    PerkDef("steroidKnowledge", 20),
    PerkDef("eventChaser", 15),
    PerkDef("comboMaster", 10),
    PerkDef("gymInfluencer", 25),
    PerkDef("morningRoutine", 18)
  ]

  const StartingSupps := 0
  const VipMembership := 1
  const ComboMaster := 5
  const GymInfluencer := 6

  const Rewards: seq<RewardDef> := [
    RewardDef("firstSteps", RepsReq, 10, false),
    RewardDef("firstCentury", RepsReq, 100, false),
    RewardDef("ironWill", UpgradesReq, 3, false),
    RewardDef("automatedAthlete", AutoGymReq, 1, false),
    RewardDef("gymLegend", RepsReq, 1000, false),
    RewardDef("clicky", ClicksReq, 500, false),
    RewardDef("wentPro", PrestigeReq, 1, false),
    RewardDef("millionaire", RepsReq, 1000000, false),
    RewardDef("billionaire", RepsReq, 1000000000, false),
    RewardDef("ascended", AscensionReq, 1, false),
    RewardDef("goblinCaught", GoblinReq, 1, false),
    RewardDef("methodActor", NoBuyClicksReq, 69, true),
    RewardDef("midnightGains", MidnightReq, 1, true),
    RewardDef("longHaul", LifetimeSecondsReq, 86400, true),
    RewardDef("becomeTheGym", RepsReq, 1000000000000000, false)
  ]

  const WentPro := 6
  const Ascended := 9
  const GoblinCaught := 10
  const MethodActor := 11
  const MidnightGains := 12
  const LongHaul := 13

  /** The ids of the achievements that an ascension leaves earned. */
  const AscensionKeeps: set<string> := {"longHaul", "midnightGains", "methodActor"}

  const PrestigeTitles: seq<TitleDef> := [
    TitleDef(0, "Gym Newbie"),
    TitleDef(1, "Regular"),
    TitleDef(2, "Swole"),
    TitleDef(3, "Shredded"),
    TitleDef(5, "Certified Gym Rat"),
    TitleDef(8, "Absolute Unit"),
    TitleDef(12, "Ascended Chad"),
    TitleDef(20, "The Gains God")
  ]

  /** The first index holding `id`, or None: the model of `list.find(x => x.id === id)`. */
  function IndexOf(ids: seq<string>, id: string): (r: Option<nat>)
    ensures r.Some? ==> r.value < |ids| && ids[r.value] == id
    ensures r.Some? ==> forall j :: 0 <= j < r.value ==> ids[j] != id
    ensures r.None? <==> forall j :: 0 <= j < |ids| ==> ids[j] != id
  {
    if |ids| == 0 then None
    else if ids[0] == id then Some(0)
    else match IndexOf(ids[1..], id)
      case None => None
      case Some(k) => Some(k + 1)
  }

  function UpgradeIds(): seq<string> {
    seq(|Upgrades|, i requires 0 <= i < |Upgrades| => Upgrades[i].id)
  }

  function PerkIds(): seq<string> {
    seq(|Perks|, i requires 0 <= i < |Perks| => Perks[i].id)
  }

  function RewardIds(): seq<string> {
    seq(|Rewards|, i requires 0 <= i < |Rewards| => Rewards[i].id)
  }

  function FindUpgrade(id: string): (r: Option<nat>)
    ensures r.Some? ==> r.value < |Upgrades| && Upgrades[r.value].id == id
  {
    IndexOf(UpgradeIds(), id)
  }

  function FindPerk(id: string): (r: Option<nat>)
    ensures r.Some? ==> r.value < |Perks| && Perks[r.value].id == id
  {
    IndexOf(PerkIds(), id)
  }

  function FindReward(id: string): (r: Option<nat>)
    ensures r.Some? ==> r.value < |Rewards| && Rewards[r.value].id == id
  {
    IndexOf(RewardIds(), id)
  }

  /** In a list of pairwise distinct ids, each id is found at its own index. */
  lemma IndexOfDistinct(ids: seq<string>, i: nat)
    requires i < |ids|
    requires forall j :: 0 <= j < |ids| && j != i ==> ids[j] != ids[i]
    ensures IndexOf(ids, ids[i]) == Some(i)
  {
  }

  lemma UpgradeIdsDistinct()
    ensures forall j, k :: 0 <= j < k < |Upgrades| ==> Upgrades[j].id != Upgrades[k].id
  {
  }

  lemma RewardIdsDistinct()
    ensures forall j, k :: 0 <= j < k < |Rewards| ==> Rewards[j].id != Rewards[k].id
  {
  }

  /** Each catalogue entry is the one its own id finds. */
  lemma UpgradeFoundById(i: nat)
    requires i < |Upgrades|
    ensures FindUpgrade(Upgrades[i].id) == Some(i)
  {
    UpgradeIdsDistinct();
    IndexOfDistinct(UpgradeIds(), i);
  }

  lemma PerkFoundById(i: nat)
    requires i < |Perks|
    ensures FindPerk(Perks[i].id) == Some(i)
  {
    IndexOfDistinct(PerkIds(), i);
  }

  lemma RewardFoundById(i: nat)
    requires i < |Rewards|
    ensures FindReward(Rewards[i].id) == Some(i)
  {
    RewardIdsDistinct();
    IndexOfDistinct(RewardIds(), i);
  }

  lemma RewardIdsEqual(i: nat, j: nat)
    requires i < |Rewards| && j < |Rewards|
    ensures Rewards[i].id == Rewards[j].id <==> i == j
  {
    RewardIdsDistinct();
  }

  /** The catalogue facts the cost curve relies on: every growth rate is at least 1,
      only a free upgrade has growth exactly 1, and every priced upgrade gains at
      least one rep of price per purchase (basePrice * (growth - 1) >= 1). */
  lemma UpgradeCataloguePrices(i: nat)
    requires i < |Upgrades|
    ensures Upgrades[i].growth >= 1.0
    ensures Upgrades[i].basePrice > 0 ==> Upgrades[i].basePrice as real * (Upgrades[i].growth - 1.0) >= 1.0
  {
  }

  /** Only the Long Haul trophy is a secret achievement tracked by lifetime seconds, and
      only Goblin Hunter is tracked by the goblin flag; no public achievement needs the clock. */
  lemma RewardCatalogueShape(i: nat)
    requires i < |Rewards|
    ensures Rewards[i].secret && Rewards[i].req == LifetimeSecondsReq ==> i == LongHaul
    ensures Rewards[i].req == GoblinReq ==> i == GoblinCaught
    ensures !Rewards[i].secret ==> Rewards[i].req != MidnightReq
  {
  }

  /** Only the Auto-Gym Machine raises the auto-gym tier. */
  lemma AutoTierOnlyAutoGym(i: nat)
    requires i < |Upgrades|
    ensures Upgrades[i].kind == AutoTier <==> i == AutoGym
  {
  }

  /** The achievements an ascension keeps are the three secret ones. */
  lemma KeptOnAscension(i: nat)
    requires i < |Rewards|
    ensures Rewards[i].id in AscensionKeeps <==> i == MethodActor || i == MidnightGains || i == LongHaul
  {
  }

  /** The secret achievements are Method Actor, Midnight Gains and The Long Haul. */
  lemma SecretRewards(i: nat)
    requires i < |Rewards|
    ensures Rewards[i].secret <==> i == MethodActor || i == MidnightGains || i == LongHaul
  {
  }

  /** The prestige titles are sorted by strictly increasing `min`, starting at 0. */
  lemma TitlesSorted()
    ensures PrestigeTitles[0].min == 0
    ensures forall i, j :: 0 <= i < j < |PrestigeTitles| ==> PrestigeTitles[i].min < PrestigeTitles[j].min
  {
  }
}
