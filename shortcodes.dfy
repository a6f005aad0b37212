/** The "next tier" figure of class-mdm-shortcodes.php: the customer's
    current tier by yearly spend over the configured thresholds, and the
    tier above it with the amount still to spend. */
module MdmShortcodes {
  import opened Php
  import opened TierSettings

  /** `$tier_order`: TierOrder with the discounts the shortcode shows (fixed
      in the code, not read from the settings). */
  const TierOrderDiscount: seq<nat> := [0, 5, 10, 15, 20]

  datatype NextTier = NextTier(tier: string, amountNeeded: real, discount: nat)

  /** Tier `i` of the order is configured and its minimum is met. */
  predicate Reached(s: Settings, spend: real, i: nat)
    requires i < |TierOrder|
  {
    Get(s, TierOrder[i]).Some? && spend >= Get(s, TierOrder[i]).value.minSpend
  }

  /** The level of the last of the first `n` tiers reached, 0 ('none') when
      none is. */
  function LastReached(s: Settings, spend: real, n: nat): (level: nat)
    requires n <= |TierOrder|
    ensures level < |TierOrder| && (level == 0 || level < n)
    ensures level == 0 || Reached(s, spend, level)
    ensures forall j :: level < j < n ==> !Reached(s, spend, j)
  {
    if n == 0 then 0
    else if Reached(s, spend, n - 1) then n - 1
    else LastReached(s, spend, n - 1)
  }

  /** What get_next_tier_info returns: nothing without settings or at the
      top tier, nothing when the tier above the current one is not
      configured, and otherwise that tier with the gap to its minimum. */
  function NextTierFor(s: Settings, spend: real): Option<NextTier> {
    if s == [] then None else NextTierAbove(s, spend, LastReached(s, spend, |TierOrder|))
  }

  /** The tier above level `level`, if there is one and it is configured. */
  function NextTierAbove(s: Settings, spend: real, level: nat): Option<NextTier>
    requires level < |TierOrder|
  {
    if level == |TierOrder| - 1 then None
    else
      var next := TierOrder[level + 1];
      match Get(s, next)
      case None => None
      case Some(t) => Some(NextTier(UcFirst(next), t.minSpend - spend, TierOrderDiscount[level + 1]))
  }

  /** The foreach of get_next_tier_info: the last tier of the order that is
      configured and whose minimum the spend meets, 'none' for none. */
  method CurrentTier(s: Settings, yearlySpend: real) returns (currentTier: string)
    ensures currentTier == TierOrder[LastReached(s, yearlySpend, |TierOrder|)]
  {
    currentTier := "none";
    for i := 0 to |TierOrder|
      invariant currentTier == TierOrder[LastReached(s, yearlySpend, i)]
    {
      var tier := TierOrder[i];
      var setting := Get(s, tier);
      if setting.Some? && yearlySpend >= setting.value.minSpend {
        currentTier := tier;
      }
    }
  }

  /** get_next_tier_info. */
  method GetNextTierInfo(s: Settings, yearlySpend: real) returns (r: Option<NextTier>)
    ensures r == NextTierFor(s, yearlySpend)
  {
    if s == [] {
      return None;
    }
    var currentTier := CurrentTier(s, yearlySpend);
    ghost var level := LastReached(s, yearlySpend, |TierOrder|);
    TierLevelOfOrder(level);
    var currentLevel := TierLevel(currentTier);
    assert currentLevel == level;
    if currentTier != "platinum" {
      var nextTier := TierOrder[currentLevel + 1];
      var setting := Get(s, nextTier);
      if setting.Some? {
        var amountNeeded := setting.value.minSpend - yearlySpend;
        return Some(NextTier(UcFirst(nextTier), amountNeeded, TierOrderDiscount[currentLevel + 1]));
      }
    }
    return None;
  }

  /** When no result comes back: no settings, the current tier is the top
      one, or the tier above it is not configured. */
  lemma NextTierNone(s: Settings, spend: real)
    ensures var level := LastReached(s, spend, |TierOrder|);
      NextTierFor(s, spend).None? <==>
        s == [] || level == |TierOrder| - 1 || TierOrder[level + 1] !in Keys(s)
  {
  }

  /** A result names the tier right above the current one, is never
      already reached, so it always asks for a positive amount, and shows
      that tier's discount from the fixed table. */
  lemma NextTierIsUnreachedSuccessor(s: Settings, spend: real)
    requires NextTierFor(s, spend).Some?
    ensures var level := LastReached(s, spend, |TierOrder|); var r := NextTierFor(s, spend).value;
      && level + 1 < |TierOrder|
      && r.tier == UcFirst(TierOrder[level + 1])
      && r.amountNeeded > 0.0
      && r.amountNeeded == Get(s, TierOrder[level + 1]).value.minSpend - spend
      && r.discount == TierOrderDiscount[level + 1]
  {
    var level := LastReached(s, spend, |TierOrder|);
    assert !Reached(s, spend, level + 1);
  }

  /** More yearly spend never means a lower current tier. */
  lemma {:induction false} LastReachedMonotone(s: Settings, a: real, b: real, n: nat)
    requires a <= b && n <= |TierOrder|
    ensures LastReached(s, a, n) <= LastReached(s, b, n)
  {
    if n > 0 && !Reached(s, b, n - 1) {
      LastReachedMonotone(s, a, b, n - 1);
    }
  }

  /** Two settings with the same keys and thresholds in the same order. */
  predicate SameThresholds(s: Settings, s': Settings) {
    |s| == |s'| && forall i :: 0 <= i < |s| ==> s[i].key == s'[i].key && s[i].setting.minSpend == s'[i].setting.minSpend
  }

  lemma {:induction false} GetSameThresholds(s: Settings, s': Settings, key: string)
    requires SameThresholds(s, s')
    ensures Get(s, key).Some? == Get(s', key).Some?
    ensures Get(s, key).Some? ==> Get(s, key).value.minSpend == Get(s', key).value.minSpend
    decreases |s|
  {
    if s != [] && s[0].key != key {
      assert SameThresholds(s[1..], s'[1..]) by {
        forall i | 0 <= i < |s[1..]| ensures s[1..][i].key == s'[1..][i].key && s[1..][i].setting.minSpend == s'[1..][i].setting.minSpend {
          assert s[1..][i] == s[i + 1] && s'[1..][i] == s'[i + 1];
        }
      }
      GetSameThresholds(s[1..], s'[1..], key);
    }
  }

  lemma {:induction false} LastReachedSame(s: Settings, s': Settings, spend: real, n: nat)
    requires n <= |TierOrder|
    requires forall i :: 0 <= i < |TierOrder| ==> Reached(s, spend, i) == Reached(s', spend, i)
    ensures LastReached(s, spend, n) == LastReached(s', spend, n)
  {
    if n > 0 {
      LastReachedSame(s, s', spend, n - 1);
    }
  }

  lemma NextTierAboveSame(s: Settings, s': Settings, spend: real, level: nat)
    requires SameThresholds(s, s') && level < |TierOrder|
    ensures NextTierAbove(s, spend, level) == NextTierAbove(s', spend, level)
  {
    if level < |TierOrder| - 1 {
      GetSameThresholds(s, s', TierOrder[level + 1]);
    }
  }

  /** The configured discounts play no part: the result depends only on the
      keys and minimum spends of the settings. */
  lemma NextTierIgnoresConfiguredDiscounts(s: Settings, s': Settings, spend: real)
    requires SameThresholds(s, s')
    ensures NextTierFor(s, spend) == NextTierFor(s', spend)
  {
    forall i | 0 <= i < |TierOrder| ensures Reached(s, spend, i) == Reached(s', spend, i) {
      GetSameThresholds(s, s', TierOrder[i]);
    }
    var n := |TierOrder|;
    LastReachedSame(s, s', spend, n);
    NextTierAboveSame(s, s', spend, LastReached(s, spend, n));
  }
}
