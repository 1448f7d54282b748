/** Prestige ("Go Pro") arithmetic: the display title looked up by prestige count, the
    GymCoins a prestige pays out, and the gains multiplier the two reset layers leave. */
module Prestige {
  import opened Catalogue

  const PrestigeThreshold := 10000
  const AscensionThreshold := 10
  const MaxAscensionStars := 5

  /** `getPrestigeTitle` scans the whole table and keeps the last entry whose `min` the
      count reaches, starting from the first entry. Scanning the first `n` entries from
      the back gives the same index. */
  function TitleIndex(titles: seq<TitleDef>, count: int, n: nat): (r: nat)
    requires 1 <= n <= |titles|
    ensures r < n
    ensures r == 0 || titles[r].min <= count
    ensures forall j :: r < j < n ==> count < titles[j].min
  {
    if n == 1 then 0
    else if count >= titles[n - 1].min then n - 1
    else TitleIndex(titles, count, n - 1)
  }

  /** `getPrestigeTitle`: always a catalogue entry, whose threshold a non-negative count
      reaches. */
  function PrestigeTitle(prestigeCount: int): (t: TitleDef)
    ensures t in PrestigeTitles
    ensures prestigeCount >= 0 ==> t.min <= prestigeCount
  {
    assert PrestigeTitles[0].min == 0;
    PrestigeTitles[TitleIndex(PrestigeTitles, prestigeCount, |PrestigeTitles|)]
  }

  /** The title shown is the entry with the largest threshold not above the prestige
      count; the 0 entry makes one always exist. */
  lemma PrestigeTitleNearestBelow(prestigeCount: nat)
    ensures PrestigeTitle(prestigeCount) in PrestigeTitles
    ensures PrestigeTitle(prestigeCount).min <= prestigeCount
    ensures forall t :: t in PrestigeTitles && t.min <= prestigeCount ==> t.min <= PrestigeTitle(prestigeCount).min
  {
    TitlesSorted();
    var r := TitleIndex(PrestigeTitles, prestigeCount, |PrestigeTitles|);
    forall t | t in PrestigeTitles && t.min <= prestigeCount
      ensures t.min <= PrestigeTitles[r].min
    {
      var j :| 0 <= j < |PrestigeTitles| && PrestigeTitles[j] == t;
      if j < r {
        assert PrestigeTitles[j].min < PrestigeTitles[r].min;
      }
    }
  }

  function Pow10(k: nat): (p: nat)
    ensures p >= 1
  {
    if k == 0 then 1 else 10 * Pow10(k - 1)
  }

  lemma {:induction false} Pow10Add(a: nat, b: nat)
    ensures Pow10(a + b) == Pow10(a) * Pow10(b)
  {
    if a > 0 {
      Pow10Add(a - 1, b);
    }
  }

  lemma {:induction false} Pow10Below(a: nat, b: nat)
    requires Pow10(a) < Pow10(b + 1)
    ensures a <= b
  {
    if a > 0 && b > 0 {
      Pow10Below(a - 1, b - 1);
    }
  }

  /** floor(log10 n) for a positive integer n. */
  function Log10Floor(n: nat): (k: nat)
    requires n >= 1
    ensures Pow10(k) <= n < Pow10(k + 1)
  {
    if n < 10 then 0 else 1 + Log10Floor(n / 10)
  }

  /** `computeGymCoinsFromPrestige`: max(1, floor(max(1, log10 L) * m)) with m = 2 when the
      Gym Influencer perk is owned and 1 otherwise. Over the integers, floor(m * log10 L)
      is floor(log10 L^m), so the payout is computed without logarithms. */
  function GymCoinsFromPrestige(lifetimeReps: int, influencer: bool): (c: nat)
    ensures c >= 1
    ensures lifetimeReps < 10 ==> c == (if influencer then 2 else 1)
    ensures lifetimeReps >= 10 ==>
      var p := if influencer then lifetimeReps * lifetimeReps else lifetimeReps;
      Pow10(c) <= p < Pow10(c + 1)
  {
    if lifetimeReps < 10 then (if influencer then 2 else 1)
    else if influencer then Log10Floor(lifetimeReps * lifetimeReps)
    else Log10Floor(lifetimeReps)
  }

  /** The Gym Influencer perk at least doubles every prestige payout. */
  lemma InfluencerAtLeastDoubles(lifetimeReps: int)
    ensures GymCoinsFromPrestige(lifetimeReps, true) >= 2 * GymCoinsFromPrestige(lifetimeReps, false)
  {
    if lifetimeReps >= 10 {
      var k, c := Log10Floor(lifetimeReps), Log10Floor(lifetimeReps * lifetimeReps);
      Pow10Add(k, k);
      MulMonotone(Pow10(k), lifetimeReps, Pow10(k), lifetimeReps);
      Pow10Below(k + k, c);
    }
  }

  /** From the prestige threshold of lifetime reps on, a prestige pays at least 4
      GymCoins, and at least 8 with Gym Influencer. */
  lemma {:induction false} PayoutFromThreshold(lifetimeReps: int)
    ensures lifetimeReps >= PrestigeThreshold ==>
      GymCoinsFromPrestige(lifetimeReps, false) >= 4 && GymCoinsFromPrestige(lifetimeReps, true) >= 8
  {
    if lifetimeReps >= PrestigeThreshold {
      var k := Log10Floor(lifetimeReps);
      assert Pow10(4) == 10000;
      Pow10Below(4, k);
      InfluencerAtLeastDoubles(lifetimeReps);
    }
  }

  lemma MulMonotone(a: int, b: int, c: int, d: int)
    requires 0 <= a <= b && 0 <= c <= d
    ensures a * c <= b * d
  {
    assert a * c <= b * c by {
      assert (b - a) * c >= 0;
    }
    assert b * c <= b * d by {
      assert b * (d - c) >= 0;
    }
  }

  /** The gains multiplier a run carries: 1 + 0.5 per prestige, times the Long Haul
      secret's +25% while that trophy is earned. */
  function GainsFor(prestigeCount: int, longHaulEarned: bool): real {
    (1.0 + prestigeCount as real * 0.5) * (if longHaulEarned then 1.25 else 1.0)
  }

  /** The gains multiplier after an ascension that keeps the Long Haul bonus it keeps the
      trophy for. */
  function AscensionGains(longHaulEarned: bool): (g: real)
    ensures g == GainsFor(0, longHaulEarned)
    ensures g >= 1.0
  {
    if longHaulEarned then 1.25 else 1.0
  }

  /** Unlocking Long Haul once takes a run's multiplier from the plain to the boosted value. */
  lemma LongHaulBonus(prestigeCount: int)
    ensures GainsFor(prestigeCount, false) * 1.25 == GainsFor(prestigeCount, true)
  {
  }
}
