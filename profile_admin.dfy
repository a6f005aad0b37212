/** The second admin class, includes/Admin.php: its own tier-settings
    sanitizer, a tier rule that takes the last threshold met in table
    order, and a sync of the membership profile fields without a lock or
    a sync time. The plugin as shipped never loads this class: its name is
    the one class-mdm-admin.php declares (see MdmPlugin.AdminClassFile). */
module MdmProfileAdmin {
  import opened Php
  import opened Store
  import opened TierSettings
  import S = MdmAdminSync

  // ---------------------------------------------------------------------
  // sanitize_tier_settings

  /** `$a[$key] = $v` on a PHP array: a present key keeps its place and
      takes the new value, a new key is appended. */
  function Put(s: Settings, key: string, v: TierSetting): (r: Settings)
    ensures |r| == if key in Keys(s) then |s| else |s| + 1
    ensures forall i :: 0 <= i < |s| ==> r[i].key == s[i].key
    ensures key !in Keys(s) ==> r == s + [Entry(key, v)]
    decreases |s|
  {
    if s == [] then [Entry(key, v)]
    else if s[0].key == key then [Entry(key, v)] + s[1..]
    else
      var t := Put(s[1..], key, v);
      var r := [s[0]] + t;
      KeysCons(s);
      assert r[1..] == t;
      assert s == [s[0]] + s[1..];
      r
  }

  /** After the assignment the key reads back the value and every other
      key reads as before. */
  lemma {:induction false} PutGet(s: Settings, key: string, v: TierSetting, k: string)
    ensures Get(Put(s, key, v), key) == Some(v)
    ensures k != key ==> Get(Put(s, key, v), k) == Get(s, k)
    decreases |s|
  {
    if s != [] && s[0].key != key {
      PutGet(s[1..], key, v, k);
      assert Put(s, key, v)[1..] == Put(s[1..], key, v);
    }
  }

  /** The keys of a non-empty table: the first key and those of the rest. */
  lemma KeysCons(s: Settings)
    requires s != []
    ensures Keys(s) == {s[0].key} + Keys(s[1..])
  {
    forall k | k in Keys(s) ensures k in {s[0].key} + Keys(s[1..]) {
      var i :| 0 <= i < |s| && s[i].key == k;
      if i > 0 { assert s[1..][i - 1].key == k; }
    }
    forall k | k in Keys(s[1..]) ensures k in Keys(s) {
      var i :| 0 <= i < |s[1..]| && s[1..][i].key == k;
      assert s[i + 1].key == k;
    }
  }

  /** sanitize_tier_settings: every input key, in input order, with its
      two values passed through floatval, which leaves a real as it is.
      Nothing is clamped and no key is dropped. */
  method SanitizeTierSettings(input: Settings) returns (r: Settings)
    ensures Keys(r) == Keys(input) && DistinctKeys(r)
    ensures DistinctKeys(input) ==> r == input
  {
    r := [];
    for i := 0 to |input|
      invariant Keys(r) == Keys(input[..i]) && DistinctKeys(r)
      invariant DistinctKeys(input) ==> r == input[..i]
    {
      var tier := input[i].key;
      var settings := input[i].setting;
      assert input[..i + 1] == input[..i] + [input[i]];
      KeysAppend(input[..i], input[i]);
      PutKeys(r, tier, TierSetting(settings.minSpend, settings.discount));
      if DistinctKeys(input) {
        DistinctPrefixMisses(input, i);
      }
      r := Put(r, tier, TierSetting(settings.minSpend, settings.discount));
    }
    assert input[..|input|] == input;
  }

  lemma KeysAppend(s: Settings, e: Entry)
    ensures Keys(s + [e]) == Keys(s) + {e.key}
  {
    var r := s + [e];
    assert r[|s|].key == e.key;
    assert forall a :: 0 <= a < |s| ==> r[a] == s[a];
  }

  /** The keys after an assignment, which keeps them distinct. */
  lemma PutKeys(s: Settings, key: string, v: TierSetting)
    requires DistinctKeys(s)
    ensures Keys(Put(s, key, v)) == Keys(s) + {key}
    ensures DistinctKeys(Put(s, key, v))
  {
    var r := Put(s, key, v);
    if key in Keys(s) {
      assert |r| == |s|;
      forall k | k in Keys(r) ensures k in Keys(s) {
        var a :| 0 <= a < |r| && r[a].key == k;
        assert s[a].key == k;
      }
      forall k | k in Keys(s) ensures k in Keys(r) {
        var a :| 0 <= a < |s| && s[a].key == k;
        assert r[a].key == k;
      }
      forall a, b | 0 <= a < b < |r| ensures r[a].key != r[b].key {
        assert r[a].key == s[a].key && r[b].key == s[b].key;
      }
    } else {
      KeysAppend(s, Entry(key, v));
      assert r == s + [Entry(key, v)];
      forall a, b | 0 <= a < b < |r| ensures r[a].key != r[b].key {
        assert r[a] == s[a] && s[a].key in Keys(s);
        if b < |s| {
          assert r[b] == s[b];
        } else {
          assert r[b].key == key;
        }
      }
    }
  }

  /** With distinct keys, no key of an entry occurs before it. */
  lemma DistinctPrefixMisses(s: Settings, i: nat)
    requires DistinctKeys(s) && i < |s|
    ensures s[i].key !in Keys(s[..i])
  {
    var p := s[..i];
    assert forall a :: 0 <= a < |p| ==> p[a].key == s[a].key != s[i].key;
  }

  // ---------------------------------------------------------------------
  // calculate_discount_tier

  /** The index of the last entry, in table order, whose minimum spend is
      met; -1 when none is. */
  function LastMet(s: Settings, spend: real): (k: int)
    ensures -1 <= k < |s|
    ensures k >= 0 ==> spend >= s[k].setting.minSpend
    ensures forall j :: k < j < |s| ==> spend < s[j].setting.minSpend
    decreases |s|
  {
    if s == [] then -1
    else if spend >= s[|s| - 1].setting.minSpend then |s| - 1
    else
      var k := LastMet(s[..|s| - 1], spend);
      assert forall j :: 0 <= j < |s| - 1 ==> s[..|s| - 1][j] == s[j];
      k
  }

  /** The tier calculate_discount_tier returns: the key of the last entry
      met, as it is stored, or 'none'. A missing option is iterated as no
      entries at all. */
  function DiscountTierFor(option: Option<Settings>, spend: real): string {
    match option
    case None => "none"
    case Some(s) => var k := LastMet(s, spend); if k < 0 then "none" else s[k].key
  }

  /** calculate_discount_tier, given the `mdm_tier_settings` option. */
  method CalculateDiscountTier(option: Option<Settings>, totalSpend: real) returns (currentTier: string)
    ensures currentTier == DiscountTierFor(option, totalSpend)
  {
    currentTier := "none";
    if option.None? {
      return;
    }
    var tierSettings := option.value;
    for i := 0 to |tierSettings|
      invariant var k := LastMet(tierSettings[..i], totalSpend);
        currentTier == if k < 0 then "none" else tierSettings[k].key
    {
      assert tierSettings[..i + 1][..i] == tierSettings[..i];
      if totalSpend >= tierSettings[i].setting.minSpend {
        currentTier := tierSettings[i].key;
      }
    }
    assert tierSettings[..|tierSettings|] == tierSettings;
  }

  /** More spend never moves the result to an earlier entry of the table. */
  lemma LastMetMonotone(s: Settings, a: real, b: real)
    requires a <= b
    ensures LastMet(s, a) <= LastMet(s, b)
  {
  }

  /** The table is stored by ascending minimum spend. */
  predicate Ascending(s: Settings) {
    forall i, j :: 0 <= i < j < |s| ==> s[i].setting.minSpend <= s[j].setting.minSpend
  }

  /** On an ascending table the last entry met is the highest threshold
      met; on any table an entry is returned exactly when one is met. */
  lemma DiscountTierIsHighestMet(s: Settings, spend: real)
    ensures var k := LastMet(s, spend);
      && (k < 0 <==> forall j :: 0 <= j < |s| ==> spend < s[j].setting.minSpend)
      && (Ascending(s) && k >= 0 ==>
            forall j :: 0 <= j < |s| && spend >= s[j].setting.minSpend ==> s[j].setting.minSpend <= s[k].setting.minSpend)
  {
  }

  /** The result is 'none' or one of the configured keys. */
  lemma DiscountTierIsKey(option: Option<Settings>, spend: real)
    ensures DiscountTierFor(option, spend) == "none"
      || (option.Some? && DiscountTierFor(option, spend) in Keys(option.value))
  {
    if option.Some? {
      var s := option.value;
      var k := LastMet(s, spend);
      if k >= 0 {
        assert s[k].key in Keys(s);
      }
    }
  }

  // ---------------------------------------------------------------------
  // sync_user_spending_data and sync_all_users

  const NoMembershipError := "User has no membership"

  /** The array sync_user_spending_data returns. */
  datatype SpendSummary = SpendSummary(allTimeSpend: real, lastYearSpend: real, tier: string)

  datatype ProfileSync = ProfileSync(result: Result<SpendSummary>, meta: UserMeta)

  /** sync_user_spending_data: the exception for a user without a
      membership, thrown before any write; otherwise the all-time and
      last-year sums (NULL read as 0) and the tier of the all-time sum are
      written to the profile fields. */
  function SyncUser(meta: UserMeta, db: S.Db, option: Option<Settings>, u: int): (o: ProfileSync)
    ensures o.result.Err? <==> u !in db.memberships
  {
    if u !in db.memberships then ProfileSync(Err(NoMembershipError), meta)
    else
      var sp := S.SpendingOf(db, u);
      var allTime := S.OrZero(sp.allTime);
      var lastYear := S.OrZero(sp.lastYear);
      var tier := DiscountTierFor(option, allTime);
      var m1 := SetMeta(meta, u, TotalKey, Num(allTime));
      var m2 := SetMeta(m1, u, YearlyKey, Num(lastYear));
      ProfileSync(Ok(SpendSummary(allTime, lastYear, tier)), SetMeta(m2, u, TierKey, Str(tier)))
  }

  /** What one sync writes: nothing on the error; otherwise the two sums
      and the tier, leaving the override and the sync time alone and every
      other user unchanged. */
  lemma SyncUserWrites(meta: UserMeta, db: S.Db, option: Option<Settings>, u: int)
    ensures var o := SyncUser(meta, db, option, u);
      && (o.result.Err? ==> o.meta == meta && o.result.error == NoMembershipError)
      && (o.result.Ok? ==>
        var r := o.result.value;
        && r.allTimeSpend == S.OrZero(S.SpendingOf(db, u).allTime)
        && r.lastYearSpend == S.OrZero(S.SpendingOf(db, u).lastYear)
        && r.tier == DiscountTierFor(option, r.allTimeSpend)
        && GetMeta(o.meta, u, TotalKey) == Num(r.allTimeSpend)
        && GetMeta(o.meta, u, YearlyKey) == Num(r.lastYearSpend)
        && GetMeta(o.meta, u, TierKey) == Str(r.tier)
        && GetMeta(o.meta, u, OverrideKey) == GetMeta(meta, u, OverrideKey)
        && GetMeta(o.meta, u, LastSyncKey) == GetMeta(meta, u, LastSyncKey)
        && forall w :: w != u ==> ProfileOf(o.meta, w) == ProfileOf(meta, w))
  {
    if u in db.memberships {
      var sp := S.SpendingOf(db, u);
      var allTime := S.OrZero(sp.allTime);
      var lastYear := S.OrZero(sp.lastYear);
      var tier := DiscountTierFor(option, allTime);
      var m1 := SetMeta(meta, u, TotalKey, Num(allTime));
      var m2 := SetMeta(m1, u, YearlyKey, Num(lastYear));
      var m3 := SetMeta(m2, u, TierKey, Str(tier));
      assert SyncUser(meta, db, option, u) == ProfileSync(Ok(SpendSummary(allTime, lastYear, tier)), m3);
      SetMetaOther(meta, u, TotalKey, Num(allTime));
      SetMetaOther(m1, u, YearlyKey, Num(lastYear));
      SetMetaOther(m2, u, TierKey, Str(tier));
      S.SetMetaOtherUsers(meta, u, TotalKey, Num(allTime));
      S.SetMetaOtherUsers(m1, u, YearlyKey, Num(lastYear));
      S.SetMetaOtherUsers(m2, u, TierKey, Str(tier));
    }
  }

  /** The users synced one after another, counting successes and caught
      exceptions. */
  function SyncUsers(meta: UserMeta, db: S.Db, option: Option<Settings>, users: seq<int>): S.SyncTally
    decreases |users|
  {
    if users == [] then S.SyncTally(meta, 0, 0)
    else
      var t := SyncUsers(meta, db, option, users[..|users| - 1]);
      var o := SyncUser(t.meta, db, option, users[|users| - 1]);
      if o.result.Ok? then S.SyncTally(o.meta, t.success + 1, t.failed)
      else S.SyncTally(o.meta, t.success, t.failed + 1)
  }

  /** Every user counts once, and the failures are exactly the users
      without a membership. */
  lemma {:induction false} SyncUsersCounts(meta: UserMeta, db: S.Db, option: Option<Settings>, users: seq<int>)
    ensures var t := SyncUsers(meta, db, option, users);
      t.success + t.failed == |users| && t.failed == S.NonMembers(db, users)
    decreases |users|
  {
    if users != [] {
      SyncUsersCounts(meta, db, option, users[..|users| - 1]);
    }
  }

  class ProfileAdmin {
    const db: S.Db
    const tierOption: Option<Settings>
    var meta: UserMeta

    constructor (db0: S.Db, option0: Option<Settings>, meta0: UserMeta)
      ensures db == db0 && tierOption == option0 && meta == meta0
    {
      db := db0;
      tierOption := option0;
      meta := meta0;
    }

    /** sync_user_spending_data; the exception is the Err result. */
    method SyncUserSpendingData(u: int) returns (r: Result<SpendSummary>)
      modifies this
      ensures ProfileSync(r, meta) == SyncUser(old(meta), db, tierOption, u)
    {
      if u !in db.memberships {
        return Err(NoMembershipError);
      }
      ghost var meta0 := meta;
      var sp := S.SpendingOf(db, u);
      var allTime := S.OrZero(sp.allTime);
      var lastYear := S.OrZero(sp.lastYear);
      meta := SetMeta(meta, u, TotalKey, Num(allTime));
      meta := SetMeta(meta, u, YearlyKey, Num(lastYear));
      var tier := CalculateDiscountTier(tierOption, allTime);
      meta := SetMeta(meta, u, TierKey, Str(tier));
      r := Ok(SpendSummary(allTime, lastYear, tier));
      assert SyncUser(meta0, db, tierOption, u) == ProfileSync(r, meta);
    }

    /** sync_all_users over the user ids of the customer lookup table. */
    method SyncAllUsers(users: seq<int>) returns (stats: S.SyncStats)
      modifies this
      ensures var t := SyncUsers(old(meta), db, tierOption, users);
        meta == t.meta && stats == S.SyncStats(|users|, |users|, t.success, t.failed)
    {
      stats := S.SyncStats(|users|, 0, 0, 0);
      for i := 0 to |users|
        invariant var t := SyncUsers(old(meta), db, tierOption, users[..i]);
          meta == t.meta && stats == S.SyncStats(|users|, i, t.success, t.failed)
      {
        assert users[..i + 1][..i] == users[..i];
        stats := stats.(processed := stats.processed + 1);
        var result := SyncUserSpendingData(users[i]);
        if result.Ok? {
          stats := stats.(success := stats.success + 1);
        } else {
          stats := stats.(failed := stats.failed + 1);
        }
      }
      assert users[..|users|] == users;
    }
  }
}
