/** The per-click mechanics of `handleWorkout`: the combo streak of `updateCombo` and the
    Bro Science Degree's "bad advice" counter that voids every 10th click. */
module Click {

  /** COMBO_WINDOW_MS: the base click window in milliseconds. */
  const BaseComboWindow := 800
  const BaseComboCap := 20
  const MaxComboCap := 100

  /** The click window: +200 ms per Wider Combo Window owned, +400 ms with Combo Master. */
  function ComboWindow(windowOwned: nat, comboMaster: bool): (w: int)
    ensures w >= BaseComboWindow + 200 * windowOwned
    ensures comboMaster ==> w >= BaseComboWindow + 400
  {
    BaseComboWindow + windowOwned * 200 + (if comboMaster then 400 else 0)
  }

  /** The streak cap: +10 per Rhythm Training owned, never above 100. */
  function ComboCap(rhythmOwned: nat): (cap: int)
    ensures BaseComboCap <= cap <= MaxComboCap
    ensures cap <= BaseComboCap + 10 * rhythmOwned
    ensures cap < MaxComboCap ==> cap == BaseComboCap + 10 * rhythmOwned
  {
    if BaseComboCap + rhythmOwned * 10 < MaxComboCap then BaseComboCap + rhythmOwned * 10 else MaxComboCap
  }

  /** A click continues the streak when an earlier click was recorded (`lastClick > 0`)
      no more than `window` ms before. */
  predicate InWindow(lastClick: int, now: int, window: int) {
    lastClick > 0 && now - lastClick <= window
  }

  /** The streak after one click: one more, clamped to the cap, inside the window;
      a fresh streak of 1 outside it. */
  function NextStreak(streak: nat, lastClick: int, now: int, window: int, cap: int): (r: nat)
    requires cap >= 1
    ensures 1 <= r <= cap
    ensures !InWindow(lastClick, now, window) ==> r == 1
    ensures InWindow(lastClick, now, window) && streak < cap ==> r == streak + 1
    ensures InWindow(lastClick, now, window) && streak >= cap ==> r == cap
  {
    if InWindow(lastClick, now, window) then
      (if streak + 1 < cap then streak + 1 else cap)
    else 1
  }

  /** Whatever is owned, a click no more than 800 ms after a recorded click continues
      the streak, and owning more Wider Combo Windows, or Combo Master, never turns a
      continuing click into a fresh streak. */
  lemma QuickClickContinues(streak: nat, lastClick: int, now: int, windowOwned: nat, comboMaster: bool, cap: int)
    requires cap >= 1 && lastClick > 0 && now - lastClick <= BaseComboWindow
    ensures NextStreak(streak, lastClick, now, ComboWindow(windowOwned, comboMaster), cap)
      == if streak < cap then streak + 1 else cap
  {
  }

  /** A wider window never breaks a streak: a click that continues the streak with m Wider
      Combo Windows (and Combo Master if `a`) continues it, to the same value, with at least
      as many (and Combo Master if `b`). */
  lemma WiderWindowKeepsStreak(streak: nat, lastClick: int, now: int, m: nat, n: nat, a: bool, b: bool, cap: int)
    requires cap >= 1 && m <= n && (a ==> b)
    requires InWindow(lastClick, now, ComboWindow(m, a))
    ensures InWindow(lastClick, now, ComboWindow(n, b))
    ensures NextStreak(streak, lastClick, now, ComboWindow(n, b), cap)
      == NextStreak(streak, lastClick, now, ComboWindow(m, a), cap)
  {
  }

  /** The combo multiplier: +0.25 per three streak clicks, scaled by the Metal radio bonus. */
  function ComboMultiplier(streak: nat, radio: real): (m: real)
    ensures streak < 3 ==> m == 1.0
    ensures radio >= 0.0 ==> m >= 1.0
  {
    var steps := (streak / 3) as real;
    assert radio >= 0.0 ==> steps * 0.25 * radio >= 0.0 by {
      if radio >= 0.0 {
        assert steps >= 0.0 && 0.25 * radio >= 0.0;
        assert steps * (0.25 * radio) >= 0.0;
        assert steps * 0.25 * radio == steps * (0.25 * radio);
      }
    }
    1.0 + steps * 0.25 * radio
  }

  /** The streak after clicks at the times `ts`, starting from `streak` with the last click
      recorded at `lastClick`. */
  function StreakAfter(streak: nat, lastClick: int, ts: seq<int>, window: int, cap: int): nat
    requires cap >= 1
  {
    if |ts| == 0 then streak
    else
      var before := ts[..|ts| - 1];
      var prev := if |before| == 0 then lastClick else before[|before| - 1];
      NextStreak(StreakAfter(streak, lastClick, before, window, cap), prev, ts[|ts| - 1], window, cap)
  }

  /** A burst of k clicks that starts a fresh streak and keeps every gap within the window
      ends with a streak of min(k, cap). */
  lemma {:induction false} BurstStreak(streak: nat, lastClick: int, ts: seq<int>, window: int, cap: int)
    requires cap >= 1 && |ts| >= 1
    requires !InWindow(lastClick, ts[0], window)
    requires forall i :: 0 <= i < |ts| ==> ts[i] > 0
    requires forall i :: 1 <= i < |ts| ==> ts[i] - ts[i - 1] <= window
    ensures StreakAfter(streak, lastClick, ts, window, cap) == if |ts| < cap then |ts| else cap
  {
    if |ts| > 1 {
      var before := ts[..|ts| - 1];
      BurstStreak(streak, lastClick, before, window, cap);
      assert InWindow(before[|before| - 1], ts[|ts| - 1], window);
    }
  }

  /** Six quick clicks after a pause give a streak of 6 and, without the Metal station,
      a multiplier of 1 + 2 * 0.25 = 1.5. */
  lemma SixClickCombo(streak: nat, lastClick: int, ts: seq<int>, window: int, rhythmOwned: nat)
    requires |ts| == 6 && !InWindow(lastClick, ts[0], window)
    requires forall i :: 0 <= i < |ts| ==> ts[i] > 0
    requires forall i :: 1 <= i < |ts| ==> ts[i] - ts[i - 1] <= window
    ensures StreakAfter(streak, lastClick, ts, window, ComboCap(rhythmOwned)) == 6
    ensures ComboMultiplier(6, 1.0) == 1.5
  {
    BurstStreak(streak, lastClick, ts, window, ComboCap(rhythmOwned));
  }

  /** A longer streak never lowers the multiplier, for any non-negative radio factor. */
  lemma ComboMultiplierMonotone(s: nat, t: nat, radio: real)
    requires s <= t && radio >= 0.0
    ensures 1.0 <= ComboMultiplier(s, radio) <= ComboMultiplier(t, radio)
  {
    var a, b := (s / 3) as real, (t / 3) as real;
    assert 0.0 <= a <= b;
    assert a * (0.25 * radio) >= 0.0;
    assert (b - a) * (0.25 * radio) >= 0.0;
    assert a * 0.25 * radio == a * (0.25 * radio);
    assert b * 0.25 * radio == b * (0.25 * radio);
  }

  /** The Bro Science Degree counter after one more click (`(c + 1) % 10`). */
  function NextBadAdvice(counter: nat): (r: nat)
    ensures r < 10
  {
    (counter + 1) % 10
  }

  /** The counter after k clicks made while the degree is owned. */
  function BadAdviceAfter(counter: nat, k: nat): nat {
    if k == 0 then counter else NextBadAdvice(BadAdviceAfter(counter, k - 1))
  }

  /** Counting on from n mod 10 is counting on from n, mod 10. */
  lemma ModTenStep(n: nat)
    ensures (n % 10 + 1) % 10 == (n + 1) % 10
  {
    var q, r := n / 10, n % 10;
    assert n == 10 * q + r;
    if r == 9 {
      assert n + 1 == 10 * (q + 1);
    } else {
      assert n + 1 == 10 * q + (r + 1);
    }
  }

  /** The counter cycles through 0..9. */
  lemma {:induction false} BadAdviceCycles(counter: nat, k: nat)
    requires counter < 10
    ensures BadAdviceAfter(counter, k) == (counter + k) % 10
  {
    if k > 0 {
      BadAdviceCycles(counter, k - 1);
      ModTenStep(counter + k - 1);
    }
  }

  /** From a counter at 0, the k-th click is voided exactly when k is a multiple of 10:
      one click in every ten yields nothing. */
  lemma EveryTenthClickVoided(k: nat)
    ensures BadAdviceAfter(0, k) == 0 <==> k % 10 == 0
  {
    BadAdviceCycles(0, k);
  }
}
