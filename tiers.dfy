/** Tier classification and the effective-tier / discount resolution used at
    settlement time (components/Dashboard.tsx). */
module Tiers {
  import opened Types

  /** The defaults used when no settings have been stored. */
  const DefaultSettings: Settings := Settings(
    Table(50000, 10000, 2000, 0),
    Table(5000, 1000, 200, 0),
    Table(15, 10, 5, 0))

  /** In each default table the entries do not increase from Platinum down to Bronze,
      Bronze is 0 (the catch-all), and every default discount is a percent. */
  lemma DefaultSettingsDescend()
    ensures forall t, u :: Rank(t) <= Rank(u) ==>
      DefaultSettings.spendingTiers.Get(t) <= DefaultSettings.spendingTiers.Get(u)
      && DefaultSettings.pointsTiers.Get(t) <= DefaultSettings.pointsTiers.Get(u)
      && DefaultSettings.discounts.Get(t) <= DefaultSettings.discounts.Get(u)
    ensures DefaultSettings.spendingTiers.bronze == 0 && DefaultSettings.pointsTiers.bronze == 0
    ensures forall t :: 0 <= DefaultSettings.discounts.Get(t) <= 100
  {
  }

  /** Position of a tier in the order Bronze(0) < Silver(1) < Gold(2) < Platinum(3). */
  function Rank(t: Tier): (r: nat)
    ensures r <= 3
  {
    match t
    case Bronze => 0
    case Silver => 1
    case Gold => 2
    case Platinum => 3
  }

  /** The tier at a given position, the inverse of Rank. */
  function TierOfRank(r: nat): (t: Tier)
    requires r <= 3
    ensures Rank(t) == r
  {
    if r == 0 then Bronze else if r == 1 then Silver else if r == 2 then Gold else Platinum
  }

  lemma RankInjective(t: Tier, u: Tier)
    ensures Rank(t) == Rank(u) ==> t == u
  {
  }

  /** The cascade of `>=` tests, Platinum first; Bronze is the fallback and its
      threshold is never read. The result is the highest tier (other than Bronze)
      whose threshold the value meets, and Bronze when it meets none. */
  function CalculateTier(value: real, tiers: Table<int>): (t: Tier)
    ensures t != Bronze ==> value >= tiers.Get(t) as real
    ensures forall u :: u != Bronze && Rank(u) > Rank(t) ==> value < tiers.Get(u) as real
  {
    if value >= tiers.platinum as real then Platinum
    else if value >= tiers.gold as real then Gold
    else if value >= tiers.silver as real then Silver
    else Bronze
  }

  /** A larger value never yields a lower tier, whatever the thresholds are. */
  lemma CalculateTierMonotone(v1: real, v2: real, tiers: Table<int>)
    requires v1 <= v2
    ensures Rank(CalculateTier(v1, tiers)) <= Rank(CalculateTier(v2, tiers))
  {
  }

  /** The Bronze threshold plays no part in the classification. */
  lemma CalculateTierIgnoresBronze(value: real, tiers: Table<int>, b: int)
    ensures CalculateTier(value, tiers.(bronze := b)) == CalculateTier(value, tiers)
  {
  }

  /** With the default tables, any negative value is Bronze. */
  lemma DefaultNegativeIsBronze(value: real)
    requires value < 0.0
    ensures CalculateTier(value, DefaultSettings.spendingTiers) == Bronze
    ensures CalculateTier(value, DefaultSettings.pointsTiers) == Bronze
  {
  }

  /** The effective tier: the higher-ranked of the spending tier and the points tier. */
  function EffectiveTier(spendingTier: Tier, pointsTier: Tier): (t: Tier)
    ensures Rank(spendingTier) <= Rank(t) && Rank(pointsTier) <= Rank(t)
    ensures t == spendingTier || t == pointsTier
  {
    TierOfRank(Max(Rank(spendingTier), Rank(pointsTier)))
  }

  /** The effective tier is the least tier at or above both inputs. */
  lemma EffectiveTierIsLeastUpperBound(s: Tier, p: Tier, u: Tier)
    requires Rank(s) <= Rank(u) && Rank(p) <= Rank(u)
    ensures Rank(EffectiveTier(s, p)) <= Rank(u)
  {
  }

  /** The discount percent of a tier. The source reads the table entry and falls
      back to 0 when it is falsy; a table here always has an integer entry, and the
      fallback maps 0 to 0, so the percent is the entry itself. */
  function DiscountPercent(discounts: Table<int>, t: Tier): (pct: int)
    ensures pct == discounts.Get(t)
  {
    var v := discounts.Get(t);
    if v == 0 then 0 else v
  }

  /** Worked value: a customer Gold by spending and Silver by points gets the Gold discount. */
  lemma GoldBeatsSilverByDefault()
    ensures DiscountPercent(DefaultSettings.discounts, EffectiveTier(Gold, Silver)) == 10
  {
  }
}
