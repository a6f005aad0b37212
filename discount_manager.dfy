/** The older tier bookkeeping of class-mdm-discount-manager.php: a fixed
    four-tier table over last-year spend, kept in the `_mdm_*` user meta,
    with a manual override that freezes the tier. */
module MdmDiscountManager {
  import opened Php
  import opened Store

  datatype TierEntry = TierEntry(key: string, discount: nat, minSpend: real)

  /** DISCOUNT_TIERS, in its order of ascending minimum spend. */
  const DiscountTiers: seq<TierEntry> := [
    TierEntry("bronze", 5, 0.0),
    TierEntry("silver", 10, 1000.0),
    TierEntry("gold", 15, 5000.0),
    TierEntry("platinum", 20, 10000.0)]

  /** `isset(DISCOUNT_TIERS[$key])`, with the entry. */
  function FindTier(key: string): (r: Option<TierEntry>)
    ensures r.Some? ==> r.value.key == key && r.value in DiscountTiers
    ensures r.None? ==> forall i :: 0 <= i < |DiscountTiers| ==> DiscountTiers[i].key != key
  {
    if key == "bronze" then Some(DiscountTiers[0])
    else if key == "silver" then Some(DiscountTiers[1])
    else if key == "gold" then Some(DiscountTiers[2])
    else if key == "platinum" then Some(DiscountTiers[3])
    else None
  }

  /** get_user_discount: the table's percentage for the stored tier key, or
      false for a value that is not a key (an unset tier included). */
  function GetUserDiscount(meta: UserMeta, u: int): (r: Option<nat>)
    ensures r.Some? <==> GetMeta(meta, u, MdmTierKey).Str? && FindTier(GetMeta(meta, u, MdmTierKey).s).Some?
    ensures r.Some? ==> r.value in {5, 10, 15, 20}
  {
    match GetMeta(meta, u, MdmTierKey)
    case Str(key) => (match FindTier(key) case Some(t) => Some(t.discount) case None => None)
    case Num(_) => None
  }

  /** The tier a spend figure reaches: the platinum, gold and silver
      thresholds, and bronze for everything below (negative spend included). */
  function TierForSpend(spend: real): (key: string)
    ensures FindTier(key).Some?
  {
    if spend >= 10000.0 then "platinum"
    else if spend >= 5000.0 then "gold"
    else if spend >= 1000.0 then "silver"
    else "bronze"
  }

  function TierRank(key: string): nat {
    if key == "platinum" then 3 else if key == "gold" then 2 else if key == "silver" then 1 else 0
  }

  /** More spend never means a lower tier; the tier reached is the entry
      with the largest minimum spend that the figure meets. */
  lemma TierForSpendMonotone(a: real, b: real)
    requires a <= b
    ensures TierRank(TierForSpend(a)) <= TierRank(TierForSpend(b))
  {
  }

  lemma TierForSpendIsHighestReached(spend: real, i: nat)
    requires i < |DiscountTiers|
    ensures var t := FindTier(TierForSpend(spend)).value;
      (spend >= DiscountTiers[i].minSpend && spend >= 0.0 ==> DiscountTiers[i].minSpend <= t.minSpend)
      && (t.minSpend <= spend || t.key == "bronze")
  {
  }

  /** determine_tier_from_spend: the ascending scan over the table that
      takes each entry whose minimum is met and stops at the first that is
      not, starting from bronze. */
  method DetermineTierFromSpend(totalSpend: real) returns (tier: string)
    ensures tier == TierForSpend(totalSpend)
  {
    tier := "bronze";
    var i := 0;
    while i < |DiscountTiers|
      invariant 0 <= i <= |DiscountTiers|
      invariant forall j :: 0 <= j < i ==> totalSpend >= DiscountTiers[j].minSpend
      invariant i > 0 ==> tier == DiscountTiers[i - 1].key
      invariant i == 0 ==> tier == "bronze"
    {
      var data := DiscountTiers[i];
      if totalSpend >= data.minSpend {
        tier := data.key;
      } else {
        break;
      }
      i := i + 1;
    }
  }

  /** What calculate_user_tier does to the meta: nothing for a user with a
      truthy override; otherwise the tier and the spend figure are written. */
  datatype Recalculation = OverrideKept | Recalculated(tier: string, meta: UserMeta)

  function RecalculateTier(meta: UserMeta, u: int, totalSpend: real): (r: Recalculation)
    ensures r.OverrideKept? <==> Truthy(GetMeta(meta, u, MdmOverrideKey))
    ensures r.Recalculated? ==>
      && GetMeta(r.meta, u, MdmTierKey) == Str(r.tier) && GetMeta(r.meta, u, MdmTotalKey) == Num(totalSpend)
      && GetMeta(r.meta, u, MdmOverrideKey) == GetMeta(meta, u, MdmOverrideKey)
      && forall v :: v != u ==> ProfileOf(r.meta, v) == ProfileOf(meta, v)
    ensures r.Recalculated? ==>
      && r.tier == TierForSpend(totalSpend)
      && ProfileOf(r.meta, u) == ProfileOf(meta, u).(mdmTier := Str(r.tier), mdmTotal := Num(totalSpend))
  {
    if Truthy(GetMeta(meta, u, MdmOverrideKey)) then OverrideKept
    else
      var tier := TierForSpend(totalSpend);
      Recalculated(tier, SetMeta(SetMeta(meta, u, MdmTierKey, Str(tier)), u, MdmTotalKey, Num(totalSpend)))
  }

  /** What set_manual_tier writes, or None when the tier is not a key. */
  function ManualTier(meta: UserMeta, u: int, tier: string, override: bool): (r: Option<UserMeta>)
    ensures r.Some? <==> FindTier(tier).Some?
    ensures r.Some? ==> forall v :: v != u ==> ProfileOf(r.value, v) == ProfileOf(meta, v)
  {
    if FindTier(tier).None? then None
    else Some(SetMeta(SetMeta(meta, u, MdmTierKey, Str(tier)), u, MdmOverrideKey, BoolValue(override)))
  }

  /** The round trip: after a successful set_manual_tier the user's
      discount is that tier's percentage. */
  lemma ManualTierRoundTrip(meta: UserMeta, u: int, tier: string, override: bool)
    requires FindTier(tier).Some?
    ensures GetUserDiscount(ManualTier(meta, u, tier, override).value, u) == Some(FindTier(tier).value.discount)
  {
    var m1 := SetMeta(meta, u, MdmTierKey, Str(tier));
    SetMetaOther(m1, u, MdmOverrideKey, BoolValue(override));
  }

  /** A tier set by hand with the override on survives every later
      recalculation; with the override off the next recalculation replaces
      it by the tier the spend reaches. */
  lemma ManualTierOverride(meta: UserMeta, u: int, tier: string, override: bool, spend: real)
    requires FindTier(tier).Some?
    ensures var m := ManualTier(meta, u, tier, override).value;
      (override ==> RecalculateTier(m, u, spend) == OverrideKept)
      && (!override ==> RecalculateTier(m, u, spend).Recalculated? && RecalculateTier(m, u, spend).tier == TierForSpend(spend))
  {
    var m1 := SetMeta(meta, u, MdmTierKey, Str(tier));
    SetMetaOther(m1, u, MdmOverrideKey, BoolValue(override));
  }

  /** After a recalculation the user's discount is the percentage of the
      tier the spend reaches. */
  lemma RecalculatedDiscount(meta: UserMeta, u: int, spend: real)
    requires !Truthy(GetMeta(meta, u, MdmOverrideKey))
    ensures var r := RecalculateTier(meta, u, spend);
      GetUserDiscount(r.meta, u) == Some(FindTier(TierForSpend(spend)).value.discount)
  {
  }

  class DiscountManager {
    var meta: UserMeta

    constructor (meta0: UserMeta)
      ensures meta == meta0
    {
      meta := meta0;
    }

    /** calculate_user_tier, given the last-year spend the order query sums
        for the user; None stands for the `false` returned under a manual
        override. */
    method CalculateUserTier(u: int, totalSpend: real) returns (result: Option<string>)
      modifies this
      ensures var r := RecalculateTier(old(meta), u, totalSpend);
        match r
        case OverrideKept => result == None && meta == old(meta)
        case Recalculated(tier, m) => result == Some(tier) && meta == m
    {
      if Truthy(GetMeta(meta, u, MdmOverrideKey)) {
        return None;
      }
      var tier := DetermineTierFromSpend(totalSpend);
      meta := SetMeta(meta, u, MdmTierKey, Str(tier));
      meta := SetMeta(meta, u, MdmTotalKey, Num(totalSpend));
      return Some(tier);
    }

    /** set_manual_tier. */
    method SetManualTier(u: int, tier: string, override: bool) returns (ok: bool)
      modifies this
      ensures var r := ManualTier(old(meta), u, tier, override);
        ok == r.Some? && meta == (if ok then r.value else old(meta))
    {
      if FindTier(tier).None? {
        return false;
      }
      meta := SetMeta(meta, u, MdmTierKey, Str(tier));
      meta := SetMeta(meta, u, MdmOverrideKey, BoolValue(override));
      return true;
    }
  }
}
