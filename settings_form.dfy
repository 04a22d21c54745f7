/** The settings page's form (components/SettingsPage.tsx): the thresholds are edited
    as text, one field per table and tier, and read back with `parseInt(text, 10) || 0`
    when saved. */
module SettingsForm {
  import opened Types
  import opened Numerals

  /** The three tables the page edits. */
  datatype SettingKind = SpendingTiers | PointsTiers | Discounts

  /** The form state: the settings tables with every entry held as text. */
  datatype FormState = FormState(spendingTiers: Table<string>, pointsTiers: Table<string>, discounts: Table<string>)
  {
    function Field(kind: SettingKind): Table<string> {
      match kind
      case SpendingTiers => spendingTiers
      case PointsTiers => pointsTiers
      case Discounts => discounts
    }

    function Text(kind: SettingKind, tier: Tier): string {
      Field(kind).Get(tier)
    }
  }

  function SettingOf(s: Settings, kind: SettingKind, tier: Tier): int {
    match kind
    case SpendingTiers => s.spendingTiers.Get(tier)
    case PointsTiers => s.pointsTiers.Get(tier)
    case Discounts => s.discounts.Get(tier)
  }

  function TableToStrings(t: Table<int>): (r: Table<string>)
    ensures forall tier :: r.Get(tier) == IntToString(t.Get(tier))
  {
    t.Map(IntToString)
  }

  function TableFromStrings(t: Table<string>): (r: Table<int>)
    ensures forall tier :: r.Get(tier) == ParseTier(t.Get(tier))
  {
    t.Map(ParseTier)
  }

  /** `settingsToStrings`: every entry written as `String(n)`. */
  function SettingsToStrings(s: Settings): (f: FormState)
    ensures forall kind, tier :: f.Text(kind, tier) == IntToString(SettingOf(s, kind, tier))
  {
    FormState(TableToStrings(s.spendingTiers), TableToStrings(s.pointsTiers), TableToStrings(s.discounts))
  }

  /** `stringsToSettings`: every entry read back with `parseTier`. */
  function StringsToSettings(f: FormState): (s: Settings)
    ensures forall kind, tier :: SettingOf(s, kind, tier) == ParseTier(f.Text(kind, tier))
  {
    Settings(TableFromStrings(f.spendingTiers), TableFromStrings(f.pointsTiers), TableFromStrings(f.discounts))
  }

  /** Opening the page and saving it untouched gives back the same settings, for any
      integer entries. */
  lemma StringsToSettingsRoundTrip(s: Settings)
    ensures StringsToSettings(SettingsToStrings(s)) == s
  {
    var r := StringsToSettings(SettingsToStrings(s));
    forall kind, tier ensures SettingOf(r, kind, tier) == SettingOf(s, kind, tier) {
      ParseTierOfIntToString(SettingOf(s, kind, tier));
    }
    assert r.spendingTiers.platinum == SettingOf(r, SpendingTiers, Platinum);
    assert r.spendingTiers.gold == SettingOf(r, SpendingTiers, Gold);
    assert r.spendingTiers.silver == SettingOf(r, SpendingTiers, Silver);
    assert r.spendingTiers.bronze == SettingOf(r, SpendingTiers, Bronze);
    assert r.pointsTiers.platinum == SettingOf(r, PointsTiers, Platinum);
    assert r.pointsTiers.gold == SettingOf(r, PointsTiers, Gold);
    assert r.pointsTiers.silver == SettingOf(r, PointsTiers, Silver);
    assert r.pointsTiers.bronze == SettingOf(r, PointsTiers, Bronze);
    assert r.discounts.platinum == SettingOf(r, Discounts, Platinum);
    assert r.discounts.gold == SettingOf(r, Discounts, Gold);
    assert r.discounts.silver == SettingOf(r, Discounts, Silver);
    assert r.discounts.bronze == SettingOf(r, Discounts, Bronze);
  }

  /** `handleTierChange`: a value made only of digits (the empty text included) replaces
      the one field it was typed into; anything else is ignored. */
  function HandleTierChange(state: FormState, kind: SettingKind, tier: Tier, value: string): (r: FormState)
    ensures !AllDigits(value) ==> r == state
    ensures AllDigits(value) ==> r.Text(kind, tier) == value
    ensures forall k, t :: (k != kind || t != tier) ==> r.Text(k, t) == state.Text(k, t)
  {
    if !AllDigits(value) then state
    else
      match kind
      case SpendingTiers => state.(spendingTiers := state.spendingTiers.Set(tier, value))
      case PointsTiers => state.(pointsTiers := state.pointsTiers.Set(tier, value))
      case Discounts => state.(discounts := state.discounts.Set(tier, value))
  }

  /** Every field of the form holds only digits. */
  predicate AllFieldsDigits(f: FormState) {
    forall kind, tier :: AllDigits(f.Text(kind, tier))
  }

  /** Non-negative settings are shown as digit strings. */
  lemma NonNegativeSettingsShowDigits(s: Settings)
    requires forall kind, tier :: SettingOf(s, kind, tier) >= 0
    ensures AllFieldsDigits(SettingsToStrings(s))
  {
    var f := SettingsToStrings(s);
    forall kind, tier ensures AllDigits(f.Text(kind, tier)) {
      assert SettingOf(s, kind, tier) >= 0;
    }
  }

  /** Editing keeps every field a digit string. */
  lemma HandleTierChangeKeepsDigits(state: FormState, kind: SettingKind, tier: Tier, value: string)
    requires AllFieldsDigits(state)
    ensures AllFieldsDigits(HandleTierChange(state, kind, tier, value))
  {
    var r := HandleTierChange(state, kind, tier, value);
    forall k, t ensures AllDigits(r.Text(k, t)) {
      if k != kind || t != tier {
        assert AllDigits(state.Text(k, t));
      }
    }
  }

  /** A form of digit strings saves as non-negative settings, each the decimal value
      of its field. */
  lemma DigitFormSavesNonNegative(f: FormState)
    requires AllFieldsDigits(f)
    ensures forall kind, tier :: SettingOf(StringsToSettings(f), kind, tier) == DigitsValue(f.Text(kind, tier)) >= 0
  {
    forall kind, tier ensures SettingOf(StringsToSettings(f), kind, tier) == DigitsValue(f.Text(kind, tier)) >= 0 {
      assert AllDigits(f.Text(kind, tier));
      ParseTierOfDigits(f.Text(kind, tier));
    }
  }

  /** An accepted edit followed by a save sets exactly that one entry, to the value typed. */
  lemma EditThenSave(s: Settings, kind: SettingKind, tier: Tier, value: string)
    requires AllDigits(value)
    ensures var saved := StringsToSettings(HandleTierChange(SettingsToStrings(s), kind, tier, value));
      && SettingOf(saved, kind, tier) == DigitsValue(value)
      && forall k, t :: (k != kind || t != tier) ==> SettingOf(saved, k, t) == SettingOf(s, k, t)
  {
    var f := HandleTierChange(SettingsToStrings(s), kind, tier, value);
    ParseTierOfDigits(value);
    forall k, t | k != kind || t != tier ensures SettingOf(StringsToSettings(f), k, t) == SettingOf(s, k, t) {
      ParseTierOfIntToString(SettingOf(s, k, t));
    }
  }
}
