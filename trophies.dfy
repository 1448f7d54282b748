/** Achievements: the counter each achievement is measured against (`getReqValue`), what
    one `checkRewards` sweep leaves earned, and the achievement the progress bar points at
    next (`getNextReward`). Earned flags are a vector with one flag per catalogue entry. */
module Trophies {
  import opened Catalogue

  /** The counters `getReqValue` reads, taken from the game state at one moment. */
  datatype Progress = Progress(
    reps: int,            // current reps
    upgrades: int,        // getTotalUpgrades()
    autoGym: int,         // auto-gym tier
    clicks: int,          // clicks this run
    prestige: int,        // prestige count
    ascension: int,       // ascension stars
    lifetimeSeconds: int, // total play time
    noBuyClicks: int)     // clicks since the last purchase

  /** `getReqValue` for every requirement but the clock one. The goblin requirement reads
      the Goblin Hunter trophy's own earned flag. */
  function CounterValue(req: Req, p: Progress, goblinEarned: bool): int
    requires req != MidnightReq
  {
    match req
    case RepsReq => p.reps
    case UpgradesReq => p.upgrades
    case AutoGymReq => p.autoGym
    case ClicksReq => p.clicks
    case PrestigeReq => p.prestige
    case AscensionReq => p.ascension
    case GoblinReq => if goblinEarned then 1 else 0
    case LifetimeSecondsReq => p.lifetimeSeconds
    case NoBuyClicksReq => p.noBuyClicks
  }

  /** `getReqValue`: the clock requirement is 1 from 02:00 up to 04:00 local time, where
      `hour` is the local hour of day. */
  function ReqValue(req: Req, p: Progress, goblinEarned: bool, hour: int): (v: int)
    ensures req == MidnightReq ==> (v == 1 <==> 2 <= hour < 4) && (v == 0 <==> !(2 <= hour < 4))
    ensures req == GoblinReq ==> (v == 1 <==> goblinEarned) && (v == 0 <==> !goblinEarned)
  {
    if req == MidnightReq then (if 2 <= hour < 4 then 1 else 0)
    else CounterValue(req, p, goblinEarned)
  }

  /** Whether the sweep earns an achievement not yet earned: a public one when its counter
      reaches its threshold; a secret one only when it is measured in play time and that
      threshold is reached (the other secrets are left to their own triggers). */
  predicate SweepEarns(r: RewardDef, p: Progress, goblinEarned: bool) {
    if r.secret then r.req == LifetimeSecondsReq && p.lifetimeSeconds >= r.val
    else r.req != MidnightReq && CounterValue(r.req, p, goblinEarned) >= r.val
  }

  /** The earned flags after one `checkRewards` pass over the catalogue. The pass only
      ever sets the flag of the achievement it is looking at, so the goblin flag it reads
      is the one before the pass. */
  function Sweep(earned: seq<bool>, p: Progress): (r: seq<bool>)
    requires |earned| == |Rewards|
    ensures |r| == |Rewards|
  {
    seq(|Rewards|, i requires 0 <= i < |Rewards| =>
      earned[i] || SweepEarns(Rewards[i], p, earned[GoblinCaught]))
  }

  /** A sweep never un-earns an achievement, and earns a public one exactly when
      `getReqValue` reaches its threshold, whatever the hour. */
  lemma SweepEarnsPublicExactly(earned: seq<bool>, p: Progress, i: nat, hour: int)
    requires |earned| == |Rewards| && i < |Rewards|
    ensures earned[i] ==> Sweep(earned, p)[i]
    ensures !Rewards[i].secret ==>
      (Sweep(earned, p)[i] <==> earned[i] || ReqValue(Rewards[i].req, p, earned[GoblinCaught], hour) >= Rewards[i].val)
  {
    RewardCatalogueShape(i);
  }

  /** Of the secret achievements a sweep can only earn The Long Haul, and only once a
      day of play time is reached. */
  lemma SweepSecrets(earned: seq<bool>, p: Progress, i: nat)
    requires |earned| == |Rewards| && i < |Rewards| && Rewards[i].secret
    ensures Sweep(earned, p)[i] && !earned[i] ==> i == LongHaul && p.lifetimeSeconds >= 86400
  {
    RewardCatalogueShape(i);
  }

  /** A sweep never earns Goblin Hunter: the counter it is measured by is that trophy's
      own flag, so only catching the goblin earns it. */
  lemma SweepNeverCatchesGoblin(earned: seq<bool>, p: Progress)
    requires |earned| == |Rewards|
    ensures Sweep(earned, p)[GoblinCaught] == earned[GoblinCaught]
  {
  }

  /** A second sweep over the same counters earns nothing more. */
  lemma SweepIdempotent(earned: seq<bool>, p: Progress)
    requires |earned| == |Rewards|
    ensures Sweep(Sweep(earned, p), p) == Sweep(earned, p)
  {
    SweepNeverCatchesGoblin(earned, p);
  }

  /** Counters that only grow earn at least as much. */
  predicate Below(p: Progress, q: Progress) {
    p.reps <= q.reps && p.upgrades <= q.upgrades && p.autoGym <= q.autoGym && p.clicks <= q.clicks
    && p.prestige <= q.prestige && p.ascension <= q.ascension
    && p.lifetimeSeconds <= q.lifetimeSeconds && p.noBuyClicks <= q.noBuyClicks
  }

  lemma SweepMonotone(earned: seq<bool>, p: Progress, q: Progress, i: nat)
    requires |earned| == |Rewards| && i < |Rewards| && Below(p, q)
    ensures Sweep(earned, p)[i] ==> Sweep(earned, q)[i]
  {
  }

  /** The first index from k on of an unearned achievement, public ones only when
      `publicOnly`. */
  function FirstOpen(earned: seq<bool>, publicOnly: bool, k: nat): (r: Option<nat>)
    requires |earned| == |Rewards| && k <= |Rewards|
    ensures r.Some? ==> k <= r.value < |Rewards| && !earned[r.value] && (publicOnly ==> !Rewards[r.value].secret)
    ensures r.Some? ==> forall j :: k <= j < r.value ==> earned[j] || (publicOnly && Rewards[j].secret)
    ensures r.None? ==> forall j :: k <= j < |Rewards| ==> earned[j] || (publicOnly && Rewards[j].secret)
    decreases |Rewards| - k
  {
    if k == |Rewards| then None
    else if !earned[k] && !(publicOnly && Rewards[k].secret) then Some(k)
    else FirstOpen(earned, publicOnly, k + 1)
  }

  /** `getNextReward`: the first unearned public achievement, else the first unearned
      achievement of any kind, else none. */
  function NextReward(earned: seq<bool>): (r: Option<nat>)
    requires |earned| == |Rewards|
    ensures r.None? <==> forall j :: 0 <= j < |Rewards| ==> earned[j]
    ensures r.Some? ==> r.value < |Rewards| && !earned[r.value]
    ensures r.Some? && Rewards[r.value].secret ==> forall j :: 0 <= j < |Rewards| && !Rewards[j].secret ==> earned[j]
    ensures r.Some? && !Rewards[r.value].secret ==> forall j :: 0 <= j < r.value && !Rewards[j].secret ==> earned[j]
    ensures r.Some? && Rewards[r.value].secret ==> forall j :: 0 <= j < r.value ==> earned[j]
  {
    match FirstOpen(earned, true, 0)
    case Some(i) => Some(i)
    case None => FirstOpen(earned, false, 0)
  }

  /** The earned flags a prestige leaves: Went Pro alone. */
  function PrestigeEarned(): (r: seq<bool>)
    ensures |r| == |Rewards|
    ensures forall j :: 0 <= j < |Rewards| ==> (r[j] <==> j == WentPro)
  {
    seq(|Rewards|, j => j == WentPro)
  }

  /** The earned flags an ascension leaves: Ascended, and the three secret achievements
      as they were; every other achievement unearned. */
  function AscensionEarned(earned: seq<bool>): (r: seq<bool>)
    requires |earned| == |Rewards|
    ensures |r| == |Rewards|
    ensures r[Ascended]
    ensures r[MethodActor] == earned[MethodActor] && r[MidnightGains] == earned[MidnightGains] && r[LongHaul] == earned[LongHaul]
    ensures forall j :: 0 <= j < |Rewards| && j != Ascended && !Rewards[j].secret ==> !r[j]
  {
    seq(|Rewards|, j requires 0 <= j < |Rewards| =>
      if j == Ascended then true else if Rewards[j].id in AscensionKeeps then earned[j] else false)
  }
}
