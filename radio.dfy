/** Gym Vibes Radio: at most one station plays; pressing a station's button toggles it,
    and each station boosts one kind of gain. */
module Radio {
  import opened Catalogue

  datatype Station = Rock | Lofi | Metal

  /** The `type` argument of `getRadioBonus`. */
  datatype GainKind = ClickGain | AutoGain | ComboGain

  /** The station that boosts each kind of gain. */
  function StationFor(kind: GainKind): Station {
    match kind
    case ClickGain => Rock
    case AutoGain => Lofi
    case ComboGain => Metal
  }

  /** `getRadioBonus`: +15% clicks on Rock, +20% auto-gym on Lo-Fi, +25% combo on Metal,
      and no change for any other pairing or with the radio off. */
  function RadioBonus(active: Option<Station>, kind: GainKind): (b: real)
    ensures 1.0 <= b <= 1.25
    ensures active.None? ==> b == 1.0
  {
    if active.None? then 1.0
    else if active.value == Rock && kind == ClickGain then 1.15
    else if active.value == Lofi && kind == AutoGain then 1.20
    else if active.value == Metal && kind == ComboGain then 1.25
    else 1.0
  }

  /** `setStation`: pressing the playing station turns the radio off, any other button
      switches to that station. */
  function Toggle(active: Option<Station>, pressed: Station): (r: Option<Station>)
    ensures r == Some(pressed) <==> active != Some(pressed)
    ensures r != Some(pressed) ==> r == None
  {
    if active == Some(pressed) then None else Some(pressed)
  }

  /** A gain is boosted exactly when its own station plays, and never lowered. */
  lemma RadioBonusOnlyFromItsStation(active: Option<Station>, kind: GainKind)
    ensures RadioBonus(active, kind) >= 1.0
    ensures RadioBonus(active, kind) > 1.0 <==> active == Some(StationFor(kind))
  {
  }

  /** Pressing the same button twice restores the radio exactly when it was off or
      already on that station; from another station it ends switched off. */
  lemma ToggleTwice(active: Option<Station>, pressed: Station)
    ensures Toggle(Toggle(active, pressed), pressed) == active <==> active == None || active == Some(pressed)
    ensures active != None && active != Some(pressed) ==> Toggle(Toggle(active, pressed), pressed) == None
  {
  }
}
