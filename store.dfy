/** The WordPress user-meta store as the plugin uses it: per user, the meta
    keys it reads and writes, kept as one record of profile fields. */
module Store {
  import opened Php

  /** A stored meta value. WordPress keeps strings; the spend figures that
      come out of the order-statistics aggregates are kept as numbers. */
  datatype MetaValue = Str(s: string) | Num(n: real)

  /** What get_user_meta returns for a key that was never written. */
  const Unset := Str("")

  /** PHP truthiness of a stored value: '', '0' and 0 are false. */
  predicate Truthy(v: MetaValue) {
    match v
    case Str(s) => s != "" && s != "0"
    case Num(n) => n != 0.0
  }

  /** floatval of a stored value. Numeric strings are not parsed: every
      amount the model writes is a Num, and an unset key reads as ''. */
  function FloatVal(v: MetaValue): real {
    match v
    case Num(n) => n
    case Str(_) => 0.0
  }

  /** The meta keys the plugin uses; KeyName gives the stored key. */
  datatype MetaKey =
    // Membership profile fields: WooCommerce Memberships keeps profile field
    // `slug` under the user meta key `_wc_memberships_profile_field_<slug>`.
    | YearlyKey | TotalKey | OverrideKey | TierKey | LastSyncKey
    // The older keys of the discount manager and the activator.
    | MdmTierKey | MdmTotalKey | MdmOverrideKey

  function KeyName(k: MetaKey): string {
    match k
    case YearlyKey => "_wc_memberships_profile_field_average_spend_last_year"
    case TotalKey => "_wc_memberships_profile_field_total_spend_all_time"
    case OverrideKey => "_wc_memberships_profile_field_manual_discount_override"
    case TierKey => "_wc_memberships_profile_field_discount_tier"
    case LastSyncKey => "_wc_memberships_profile_field_discount_last_sync"
    case MdmTierKey => "_mdm_discount_tier"
    case MdmTotalKey => "_mdm_total_spend"
    case MdmOverrideKey => "_mdm_manual_override"
  }

  /** One user's values for every key, one field per MetaKey. */
  datatype Profile = Profile(
    yearly: MetaValue, total: MetaValue, override: MetaValue, tier: MetaValue, lastSync: MetaValue,
    mdmTier: MetaValue, mdmTotal: MetaValue, mdmOverride: MetaValue)

  const EmptyProfile := Profile(Unset, Unset, Unset, Unset, Unset, Unset, Unset, Unset)

  function Field(p: Profile, k: MetaKey): MetaValue {
    match k
    case YearlyKey => p.yearly
    case TotalKey => p.total
    case OverrideKey => p.override
    case TierKey => p.tier
    case LastSyncKey => p.lastSync
    case MdmTierKey => p.mdmTier
    case MdmTotalKey => p.mdmTotal
    case MdmOverrideKey => p.mdmOverride
  }

  function WithField(p: Profile, k: MetaKey, v: MetaValue): Profile {
    match k
    case YearlyKey => p.(yearly := v)
    case TotalKey => p.(total := v)
    case OverrideKey => p.(override := v)
    case TierKey => p.(tier := v)
    case LastSyncKey => p.(lastSync := v)
    case MdmTierKey => p.(mdmTier := v)
    case MdmTotalKey => p.(mdmTotal := v)
    case MdmOverrideKey => p.(mdmOverride := v)
  }

  /** The meta table: the users that have any meta, with their values. */
  type UserMeta = map<int, Profile>

  function ProfileOf(m: UserMeta, u: int): Profile {
    Lookup(m, u, EmptyProfile)
  }

  /** get_user_meta($user, $key, true): the stored value, or '' when unset. */
  function GetMeta(m: UserMeta, u: int, k: MetaKey): MetaValue {
    Field(ProfileOf(m, u), k)
  }

  /** update_user_meta($user, $key, $value). */
  function SetMeta(m: UserMeta, u: int, k: MetaKey, v: MetaValue): UserMeta {
    m[u := WithField(ProfileOf(m, u), k, v)]
  }

  /** update_user_meta(..., $bool): true is stored as "1", false as "". */
  function BoolValue(b: bool): MetaValue {
    if b then Str("1") else Str("")
  }

  /** A written key reads back as written; every other user and key reads
      as before. */
  lemma SetMetaOther(m: UserMeta, u: int, k: MetaKey, v: MetaValue)
    ensures GetMeta(SetMeta(m, u, k, v), u, k) == v
    ensures forall u', k' :: (u' != u || k' != k) ==> GetMeta(SetMeta(m, u, k, v), u', k') == GetMeta(m, u', k')
  {
  }

  /** Writing back the value a user already has changes nothing. */
  lemma SetMetaSame(m: UserMeta, u: int, k: MetaKey)
    requires u in m
    ensures SetMeta(m, u, k, GetMeta(m, u, k)) == m
  {
    assert WithField(m[u], k, Field(m[u], k)) == m[u];
  }
}
