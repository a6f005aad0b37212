/** The `mdm_tier_settings` option: a PHP array from tier key to its
    minimum spend and discount. PHP arrays keep their keys in insertion
    order, so the option is a sequence of entries; `isset($s[$k])` and
    `$s[$k]` look a key up. Values are the numbers floatval yields. */
module TierSettings {
  import opened Php

  datatype TierSetting = TierSetting(minSpend: real, discount: real)

  datatype Entry = Entry(key: string, setting: TierSetting)

  type Settings = seq<Entry>

  /** Each key at most once, as in any PHP array. */
  predicate DistinctKeys(s: Settings) {
    forall i, j :: 0 <= i < j < |s| ==> s[i].key != s[j].key
  }

  function Keys(s: Settings): set<string> {
    set i | 0 <= i < |s| :: s[i].key
  }

  /** `$s[$key]` when `isset($s[$key])`: the entry stored under the key. */
  function Get(s: Settings, key: string): (r: Option<TierSetting>)
    ensures r.Some? <==> key in Keys(s)
    ensures r.Some? ==> exists i :: 0 <= i < |s| && s[i] == Entry(key, r.value)
    decreases |s|
  {
    if s == [] then None
    else if s[0].key == key then Some(s[0].setting)
    else
      var r := Get(s[1..], key);
      assert Keys(s) == {s[0].key} + Keys(s[1..]) by {
        forall k | k in Keys(s) ensures k in {s[0].key} + Keys(s[1..]) {
          var i :| 0 <= i < |s| && s[i].key == k;
          if i > 0 { assert s[1..][i - 1].key == k; }
        }
      }
      r
  }

  /** With distinct keys, looking up an entry's key finds that entry. */
  lemma {:induction false} GetEntry(s: Settings, i: nat)
    requires DistinctKeys(s) && i < |s|
    ensures Get(s, s[i].key) == Some(s[i].setting)
    decreases i
  {
    if i > 0 {
      assert s[0].key != s[i].key;
      assert s[1..][i - 1] == s[i];
      GetEntry(s[1..], i - 1);
    }
  }

  /** The tier keys the admin screens know, from lowest to highest. */
  const TierOrder: seq<string> := ["none", "bronze", "silver", "gold", "platinum"]

  /** The position of a tier key in the order (`array_search`). */
  function TierLevel(key: string): (level: nat)
    requires key in TierOrder
    ensures level < |TierOrder| && TierOrder[level] == key
  {
    if key == "none" then 0 else if key == "bronze" then 1 else if key == "silver" then 2
    else if key == "gold" then 3 else 4
  }

  /** The tiers of the order are distinct. */
  lemma TierLevelOfOrder(level: nat)
    requires level < |TierOrder|
    ensures TierLevel(TierOrder[level]) == level
    ensures TierOrder[level] == "platinum" <==> level == |TierOrder| - 1
  {
  }

  /** Looking a key up after appending an entry. */
  lemma {:induction false} GetAppend(s: Settings, e: Entry, key: string)
    ensures Get(s + [e], key) == if key in Keys(s) then Get(s, key) else if e.key == key then Some(e.setting) else None
    decreases |s|
  {
    if s == [] {
      assert Get(s + [e], key) == Get([e], key);
    } else if s[0].key != key {
      assert (s + [e])[1..] == s[1..] + [e];
      GetAppend(s[1..], e, key);
    }
  }
}
