/** The settings rules of class-mdm-admin.php: the tier-table and
    batch-size sanitizers, and the tier a spend figure is assigned over the
    configurable thresholds. */
module MdmAdmin {
  import opened Php
  import opened Store
  import opened TierSettings

  // ---------------------------------------------------------------------
  // Settings sanitizers

  /** A tier setting the sanitizer lets through. */
  predicate InRange(t: TierSetting) {
    t.minSpend >= 0.0 && 0.0 <= t.discount <= 100.0
  }

  /** One tier's coercion: the minimum spend raised to at least 0, the
      discount clamped to [0, 100]. */
  function ClampSetting(t: TierSetting): (c: TierSetting)
    ensures InRange(c)
    ensures InRange(t) <==> c == t
    ensures t.minSpend >= 0.0 ==> c.minSpend == t.minSpend
    ensures 0.0 <= t.discount <= 100.0 ==> c.discount == t.discount
  {
    TierSetting(if t.minSpend < 0.0 then 0.0 else t.minSpend,
                if t.discount < 0.0 then 0.0 else if t.discount > 100.0 then 100.0 else t.discount)
  }

  /** What sanitize_tier_settings keeps under a key: the clamped input
      setting of a known tier, and nothing for any other key. */
  function Sanitized(input: Settings, key: string): (r: Option<TierSetting>)
    ensures r.Some? <==> key in TierOrder && key in Keys(input)
    ensures r.Some? ==> InRange(r.value)
  {
    if key in TierOrder && key in Keys(input) then Some(ClampSetting(Get(input, key).value)) else None
  }

  /** sanitize_tier_settings: the known tiers of the input, in the fixed
      tier order, each clamped. */
  method SanitizeTierSettings(input: Settings) returns (r: Settings)
    ensures forall key :: Get(r, key) == Sanitized(input, key)
    ensures forall i :: 0 <= i < |r| ==> r[i].key in TierOrder
    ensures forall i, j :: 0 <= i < j < |r| ==> TierLevel(r[i].key) < TierLevel(r[j].key)
  {
    r := [];
    for i := 0 to |TierOrder|
      invariant forall key :: Get(r, key) == (if key in TierOrder[..i] then Sanitized(input, key) else None)
      invariant forall a :: 0 <= a < |r| ==> r[a].key in TierOrder && TierLevel(r[a].key) < i
      invariant forall a, b :: 0 <= a < b < |r| ==> TierLevel(r[a].key) < TierLevel(r[b].key)
    {
      var tier := TierOrder[i];
      TierLevelOfOrder(i);
      assert TierOrder[..i + 1] == TierOrder[..i] + [tier];
      var setting := Get(input, tier);
      if setting.Some? {
        var e := Entry(tier, ClampSetting(setting.value));
        assert tier !in Keys(r);
        forall key ensures Get(r + [e], key) == (if key in TierOrder[..i + 1] then Sanitized(input, key) else None) {
          GetAppend(r, e, key);
        }
        r := r + [e];
      } else {
        assert Sanitized(input, tier) == None;
      }
    }
  }

  /** Sanitizing a sanitized table changes none of its lookups. */
  lemma SanitizeIdempotent(input: Settings, r: Settings)
    requires forall key :: Get(r, key) == Sanitized(input, key)
    ensures forall key :: Sanitized(r, key) == Sanitized(input, key)
  {
    forall key ensures Sanitized(r, key) == Sanitized(input, key) {
      assert Get(r, key) == Sanitized(input, key);
    }
  }

  function Abs(n: int): nat { if n < 0 then -n else n }

  /** sanitize_batch_size: absint, then clamped to [1, 100]. */
  function SanitizeBatchSize(input: int): (n: int)
    ensures 1 <= n <= 100
    ensures 1 <= Abs(input) <= 100 <==> n == Abs(input)
    ensures input == 0 ==> n == 1
    ensures Abs(input) > 100 ==> n == 100
  {
    Min(Max(Abs(input), 1), 100)
  }

  // ---------------------------------------------------------------------
  // Tier choice of sync_user_spending_data

  predicate SortedDesc(t: Settings) {
    forall i, j :: 0 <= i < j < |t| ==> t[i].setting.minSpend >= t[j].setting.minSpend
  }

  /** One step of the stable sort: the entry goes before the first entry
      whose minimum spend is not larger than its own. */
  function InsertDesc(e: Entry, t: Settings): Settings
    decreases |t|
  {
    if t == [] || e.setting.minSpend >= t[0].setting.minSpend then [e] + t
    else [t[0]] + InsertDesc(e, t[1..])
  }

  /** uasort with the comparator `$b['min_spend'] - $a['min_spend']`: the
      entries by descending minimum spend, equal ones in their order. */
  function SortDesc(s: Settings): Settings
    decreases |s|
  {
    if s == [] then [] else InsertDesc(s[0], SortDesc(s[1..]))
  }

  /** Inserting adds exactly the one entry, and the result starts with it
      or with the old first entry. */
  lemma {:induction false} InsertDescShape(e: Entry, t: Settings)
    ensures multiset(InsertDesc(e, t)) == multiset(t) + multiset{e}
    ensures |InsertDesc(e, t)| == |t| + 1
    ensures InsertDesc(e, t) != [] && (InsertDesc(e, t)[0] == e || InsertDesc(e, t)[0] == t[0])
    decreases |t|
  {
    if !(t == [] || e.setting.minSpend >= t[0].setting.minSpend) {
      InsertDescShape(e, t[1..]);
      assert t == [t[0]] + t[1..];
    }
  }

  lemma {:induction false} InsertDescSorted(e: Entry, t: Settings)
    requires SortedDesc(t)
    ensures SortedDesc(InsertDesc(e, t))
    decreases |t|
  {
    if !(t == [] || e.setting.minSpend >= t[0].setting.minSpend) {
      var rest := t[1..];
      assert SortedDesc(rest) by {
        forall i, j | 0 <= i < j < |rest| ensures rest[i].setting.minSpend >= rest[j].setting.minSpend {
          assert rest[i] == t[i + 1] && rest[j] == t[j + 1];
        }
      }
      InsertDescSorted(e, rest);
      InsertDescShape(e, rest);
      var u := InsertDesc(e, rest);
      assert u[0].setting.minSpend <= t[0].setting.minSpend by {
        if u[0] != e { assert u[0] == t[1]; }
      }
      ConsSorted(t[0], u);
    }
  }

  lemma ConsSorted(a: Entry, u: Settings)
    requires SortedDesc(u) && u != [] && a.setting.minSpend >= u[0].setting.minSpend
    ensures SortedDesc([a] + u)
  {
    var r := [a] + u;
    forall i, j | 0 <= i < j < |r| ensures r[i].setting.minSpend >= r[j].setting.minSpend {
      if i == 0 {
        assert r[j] == u[j - 1];
      } else {
        assert r[i] == u[i - 1] && r[j] == u[j - 1];
      }
    }
  }

  lemma {:induction false} SortDescSorted(s: Settings)
    ensures SortedDesc(SortDesc(s))
    ensures multiset(SortDesc(s)) == multiset(s)
    decreases |s|
  {
    if s != [] {
      SortDescSorted(s[1..]);
      InsertDescSorted(s[0], SortDesc(s[1..]));
      InsertDescShape(s[0], SortDesc(s[1..]));
      assert s == [s[0]] + s[1..];
    }
  }

  /** The first entry, in order, whose minimum spend is met. */
  function FirstReached(t: Settings, spend: real): (r: Option<Entry>)
    ensures r.Some? ==> r.value in t && r.value.setting.minSpend <= spend
    ensures r.None? ==> forall i :: 0 <= i < |t| ==> t[i].setting.minSpend > spend
    decreases |t|
  {
    if t == [] then None
    else if spend >= t[0].setting.minSpend then Some(t[0])
    else
      var r := FirstReached(t[1..], spend);
      assert forall i :: 1 <= i < |t| ==> t[i] == t[1..][i - 1];
      r
  }

  /** In a descending table the first entry reached has the largest
      minimum spend of all entries reached. */
  lemma {:induction false} FirstReachedIsHighest(t: Settings, spend: real, x: Entry)
    requires SortedDesc(t) && FirstReached(t, spend).Some?
    requires x in t && x.setting.minSpend <= spend
    ensures x.setting.minSpend <= FirstReached(t, spend).value.setting.minSpend
    decreases |t|
  {
    if spend < t[0].setting.minSpend {
      if x == t[0] {
      } else {
        var k :| 0 <= k < |t| && t[k] == x;
        assert t[1..][k - 1] == x;
        assert SortedDesc(t[1..]) by {
          forall i, j | 0 <= i < j < |t[1..]| ensures t[1..][i].setting.minSpend >= t[1..][j].setting.minSpend {
            assert t[1..][i] == t[i + 1] && t[1..][j] == t[j + 1];
          }
        }
        FirstReachedIsHighest(t[1..], spend, x);
      }
    }
  }

  /** The tier name sync_user_spending_data assigns: the ucfirst key of the
      first reached entry of the sorted table, or 'none' (lower case) when
      no entry is reached. */
  function AssignedTier(settings: Settings, spend: real): string {
    match FirstReached(SortDesc(settings), spend)
    case Some(e) => UcFirst(e.key)
    case None => "none"
  }

  /** The assigned tier is the highest-threshold tier the spend reaches,
      and 'none' exactly when it reaches none. */
  lemma AssignedTierMeaning(settings: Settings, spend: real)
    ensures (forall i :: 0 <= i < |settings| ==> settings[i].setting.minSpend > spend) ==>
      AssignedTier(settings, spend) == "none"
    ensures forall i :: 0 <= i < |settings| && settings[i].setting.minSpend <= spend ==>
      (exists k :: 0 <= k < |settings| && settings[k].setting.minSpend <= spend
                   && AssignedTier(settings, spend) == UcFirst(settings[k].key)
                   && settings[i].setting.minSpend <= settings[k].setting.minSpend)
  {
    var t := SortDesc(settings);
    SortDescSorted(settings);
    var r := FirstReached(t, spend);
    if r.Some? {
      assert r.value in multiset(settings);
      var k :| 0 <= k < |settings| && settings[k] == r.value;
      assert settings[k].setting.minSpend <= spend;
    }
    forall i | 0 <= i < |settings| && settings[i].setting.minSpend <= spend
      ensures (exists k :: 0 <= k < |settings| && settings[k].setting.minSpend <= spend
                           && AssignedTier(settings, spend) == UcFirst(settings[k].key)
                           && settings[i].setting.minSpend <= settings[k].setting.minSpend)
    {
      var x := settings[i];
      assert x in multiset(t);
      assert x in t;
      assert r.Some?;
      FirstReachedIsHighest(t, spend, x);
      assert r.value in multiset(settings);
      var k :| 0 <= k < |settings| && settings[k] == r.value;
    }
  }

}
