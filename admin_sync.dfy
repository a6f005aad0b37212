/** The spend and tier sync of class-mdm-admin.php: one user, all users,
    and the batched run the admin screen drives, guarded by an in-progress
    flag. */
module MdmAdminSync {
  import opened Php
  import opened Store
  import opened TierSettings
  import opened MdmAdmin

  /** The thresholds the sync falls back on when the option is missing. */
  const DefaultTierSettings: Settings := [
    Entry("none", TierSetting(0.0, 0.0)),
    Entry("bronze", TierSetting(349.0, 5.0)),
    Entry("silver", TierSetting(500.0, 10.0)),
    Entry("gold", TierSetting(1000.0, 15.0)),
    Entry("platinum", TierSetting(1500.0, 20.0))]

  function SettingsOrDefault(option: Option<Settings>): Settings {
    match option case Some(s) => s case None => DefaultTierSettings
  }

  /** A user's all-time and last-year completed-order sums; None is the
      SQL NULL of a user without completed orders. */
  datatype Spending = Spending(allTime: Option<real>, lastYear: Option<real>)

  /** What the membership and order-statistics queries see. */
  datatype Db = Db(memberships: set<int>, spending: map<int, Spending>)

  function SpendingOf(db: Db, u: int): Spending {
    Lookup(db.spending, u, Spending(None, None))
  }

  /** `$x ?: 0` on a query result. */
  function OrZero(x: Option<real>): real {
    match x case Some(v) => v case None => 0.0
  }

  datatype SyncedUser = SyncedUser(userId: int, allTimeSpend: real, lastYearSpend: real, assignedTier: string, syncTime: string)

  datatype SyncOutcome = SyncOutcome(result: Result<SyncedUser>, meta: UserMeta)

  const NoMembershipError := "User has no memberships"

  /** sync_user_spending_data: an error and no writes for a user without a
      membership; otherwise the two spend figures, the assigned tier and
      the sync time are written to the user's profile fields. */
  function SyncUser(meta: UserMeta, db: Db, option: Option<Settings>, u: int, now: string): (o: SyncOutcome)
    ensures o.result.Err? <==> u !in db.memberships
  {
    if u !in db.memberships then SyncOutcome(Err(NoMembershipError), meta)
    else
      var sp := SpendingOf(db, u);
      var allTime := OrZero(sp.allTime);
      var lastYear := OrZero(sp.lastYear);
      var tier := AssignedTier(SettingsOrDefault(option), allTime);
      var m1 := SetMeta(meta, u, TotalKey, Num(allTime));
      var m2 := SetMeta(m1, u, YearlyKey, Num(lastYear));
      var m3 := SetMeta(m2, u, TierKey, Str(tier));
      SyncOutcome(Ok(SyncedUser(u, allTime, lastYear, tier, now)), SetMeta(m3, u, LastSyncKey, Str(now)))
  }

  /** Writing a key changes no other user's meta. */
  lemma SetMetaOtherUsers(m: UserMeta, u: int, k: MetaKey, v: MetaValue)
    ensures forall w :: w != u ==> ProfileOf(SetMeta(m, u, k, v), w) == ProfileOf(m, w)
  {
  }

  /** The no-membership error writes nothing; a synced user gets the two
      spend figures (NULL read as 0), the tier the all-time figure reaches
      and the sync time, the override is untouched, and nobody else's meta
      changes. */
  lemma SyncUserWrites(meta: UserMeta, db: Db, option: Option<Settings>, u: int, now: string)
    ensures var o := SyncUser(meta, db, option, u, now);
      && (o.result.Err? ==> o.meta == meta && o.result.error == NoMembershipError)
      && (o.result.Ok? ==>
        var r := o.result.value;
        && r.userId == u && r.syncTime == now
        && r.allTimeSpend == OrZero(SpendingOf(db, u).allTime)
        && r.lastYearSpend == OrZero(SpendingOf(db, u).lastYear)
        && r.assignedTier == AssignedTier(SettingsOrDefault(option), r.allTimeSpend)
        && GetMeta(o.meta, u, TotalKey) == Num(r.allTimeSpend)
        && GetMeta(o.meta, u, YearlyKey) == Num(r.lastYearSpend)
        && GetMeta(o.meta, u, TierKey) == Str(r.assignedTier)
        && GetMeta(o.meta, u, LastSyncKey) == Str(now)
        && GetMeta(o.meta, u, OverrideKey) == GetMeta(meta, u, OverrideKey)
        && forall w :: w != u ==> ProfileOf(o.meta, w) == ProfileOf(meta, w))
  {
    if u in db.memberships {
      var sp := SpendingOf(db, u);
      var allTime := OrZero(sp.allTime);
      var lastYear := OrZero(sp.lastYear);
      var tier := AssignedTier(SettingsOrDefault(option), allTime);
      var m1 := SetMeta(meta, u, TotalKey, Num(allTime));
      var m2 := SetMeta(m1, u, YearlyKey, Num(lastYear));
      var m3 := SetMeta(m2, u, TierKey, Str(tier));
      var m4 := SetMeta(m3, u, LastSyncKey, Str(now));
      assert SyncUser(meta, db, option, u, now) == SyncOutcome(Ok(SyncedUser(u, allTime, lastYear, tier, now)), m4);
      SetMetaOther(meta, u, TotalKey, Num(allTime));
      SetMetaOther(m1, u, YearlyKey, Num(lastYear));
      SetMetaOther(m2, u, TierKey, Str(tier));
      SetMetaOther(m3, u, LastSyncKey, Str(now));
      SetMetaOtherUsers(meta, u, TotalKey, Num(allTime));
      SetMetaOtherUsers(m1, u, YearlyKey, Num(lastYear));
      SetMetaOtherUsers(m2, u, TierKey, Str(tier));
      SetMetaOtherUsers(m3, u, LastSyncKey, Str(now));
    }
  }

  /** How many of the users have no membership. */
  function NonMembers(db: Db, users: seq<int>): (n: nat)
    ensures n <= |users|
    ensures n == 0 <==> forall i :: 0 <= i < |users| ==> users[i] in db.memberships
    decreases |users|
  {
    if users == [] then 0
    else
      var n := NonMembers(db, users[..|users| - 1]);
      assert forall i :: 0 <= i < |users| - 1 ==> users[..|users| - 1][i] == users[i];
      n + (if users[|users| - 1] in db.memberships then 0 else 1)
  }

  datatype SyncTally = SyncTally(meta: UserMeta, success: nat, failed: nat)

  /** The users synced one after another, counting results and errors. */
  function SyncUsers(meta: UserMeta, db: Db, option: Option<Settings>, users: seq<int>, now: string): SyncTally
    decreases |users|
  {
    if users == [] then SyncTally(meta, 0, 0)
    else
      var t := SyncUsers(meta, db, option, users[..|users| - 1], now);
      var o := SyncUser(t.meta, db, option, users[|users| - 1], now);
      if o.result.Ok? then SyncTally(o.meta, t.success + 1, t.failed)
      else SyncTally(o.meta, t.success, t.failed + 1)
  }

  /** Every user counts once, as a result or as an error, and the errors
      are exactly the users without a membership. */
  lemma {:induction false} SyncUsersCounts(meta: UserMeta, db: Db, option: Option<Settings>, users: seq<int>, now: string)
    ensures var t := SyncUsers(meta, db, option, users, now);
      t.success + t.failed == |users| && t.failed == NonMembers(db, users)
    decreases |users|
  {
    if users != [] {
      SyncUsersCounts(meta, db, option, users[..|users| - 1], now);
    }
  }

  /** Syncing two lists one after the other is syncing their concatenation. */
  lemma {:induction false} SyncUsersAppend(meta: UserMeta, db: Db, option: Option<Settings>, a: seq<int>, b: seq<int>, now: string)
    ensures var ta := SyncUsers(meta, db, option, a, now);
      var tb := SyncUsers(ta.meta, db, option, b, now);
      SyncUsers(meta, db, option, a + b, now) == SyncTally(tb.meta, ta.success + tb.success, ta.failed + tb.failed)
    decreases |b|
  {
    if b == [] {
      assert a + b == a;
    } else {
      var b' := b[..|b| - 1];
      assert (a + b)[..|a + b| - 1] == a + b';
      assert (a + b)[|a + b| - 1] == b[|b| - 1];
      SyncUsersAppend(meta, db, option, a, b', now);
    }
  }

  datatype SyncStats = SyncStats(total: nat, processed: nat, success: nat, failed: nat)

  /** The POSTed parameters and the checks ahead of the batch; an absent
      offset or batch size is None. */
  datatype AjaxRequest = AjaxRequest(nonceValid: bool, canManage: bool, offset: Option<int>, batchSize: Option<int>)

  datatype BatchStats = BatchStats(total: int, processed: int, success: nat, failed: nat)

  /** The reply: the nonce check's die, a JSON error, the JSON stats, or a
      fatal error that is never caught. */
  datatype AjaxResponse = Died | JsonError(message: string) | JsonSuccess(stats: BatchStats) | Fatal

  /** The user meta, the `mdm_sync_in_progress` transient and the
      `mdm_last_fields_sync` option. */
  datatype AdminState = AdminState(meta: UserMeta, syncInProgress: bool, lastFieldsSync: Option<string>)

  datatype AjaxResult = AjaxResult(state: AdminState, response: AjaxResponse)

  const PermissionError := "Insufficient permissions"
  const InProgressError := "Sync already in progress. Please wait for it to complete."

  function IntOr(x: Option<int>, d: int): int {
    match x case Some(v) => v case None => d
  }

  /** ajax_sync_membership_fields on the sorted list of member ids, whose
      length is the total the count query returns. */
  function AjaxSync(st: AdminState, db: Db, option: Option<Settings>, users: seq<int>, req: AjaxRequest, now: string): AjaxResult {
    if !req.nonceValid then AjaxResult(st, Died)
    else if !req.canManage then AjaxResult(st, JsonError(PermissionError))
    else
      var offset := IntOr(req.offset, 0);
      var batchSize := IntOr(req.batchSize, 20);
      if st.syncInProgress && offset == 0 then AjaxResult(st, JsonError(InProgressError))
      else
        var page := Page(users, offset, batchSize);
        var t := SyncUsers(st.meta, db, option, page, now);
        var stats := BatchStats(|users|, offset + |page|, t.success, t.failed);
        var st1 := st.(meta := t.meta, syncInProgress := st.syncInProgress || offset == 0);
        if stats.processed >= |users| then
          AjaxResult(st1.(syncInProgress := false, lastFieldsSync := Some(now)), JsonSuccess(stats))
        else if batchSize == 0 then AjaxResult(st1, Fatal)
        else AjaxResult(st1, JsonSuccess(stats))
  }

  /** The guards ahead of the batch: the nonce check, the capability check
      and the in-progress flag, which turns a request away only at offset
      0. A request turned away changes nothing. */
  lemma AjaxSyncGuards(st: AdminState, db: Db, option: Option<Settings>, users: seq<int>, req: AjaxRequest, now: string)
    ensures var r := AjaxSync(st, db, option, users, req, now);
      && (r.response == Died <==> !req.nonceValid)
      && (r.response == JsonError(PermissionError) <==> req.nonceValid && !req.canManage)
      && (r.response == JsonError(InProgressError) <==>
            req.nonceValid && req.canManage && st.syncInProgress && IntOr(req.offset, 0) == 0)
      && (r.response.Died? || r.response.JsonError? ==> r.state == st)
  {
    assert PermissionError != InProgressError by {
      assert |PermissionError| != |InProgressError|;
    }
  }

  /** A request past the guards syncs exactly the page of users at the
      offset and reports processed = offset + the page's size. The flag is
      taken only at offset 0 and dropped once processed reaches the total;
      the next offset the client sends is larger than this one exactly for
      a non-empty page. A batch size of 0 short of the total fails fatally
      and leaves the flag as it stands. */
  lemma AjaxSyncBatch(st: AdminState, db: Db, option: Option<Settings>, users: seq<int>, req: AjaxRequest, now: string)
    requires req.nonceValid && req.canManage && !(st.syncInProgress && IntOr(req.offset, 0) == 0)
    ensures var offset := IntOr(req.offset, 0); var batchSize := IntOr(req.batchSize, 20);
      var page := Page(users, offset, batchSize);
      var t := SyncUsers(st.meta, db, option, page, now);
      var r := AjaxSync(st, db, option, users, req, now);
      var done := offset + |page| >= |users|;
      && r.state.meta == t.meta
      && t.success + t.failed == |page|
      && (r.response.JsonSuccess? || r.response == Fatal)
      && (r.response == Fatal <==> !done && batchSize == 0)
      && (r.response.JsonSuccess? ==> r.response.stats == BatchStats(|users|, offset + |page|, t.success, t.failed))
      && (r.state.syncInProgress <==> !done && (st.syncInProgress || offset == 0))
      && r.state.lastFieldsSync == (if done then Some(now) else st.lastFieldsSync)
      && (offset + |page| > offset <==> 0 <= offset < |users| && batchSize > 0)
  {
    var offset := IntOr(req.offset, 0);
    SyncUsersCounts(st.meta, db, option, Page(users, offset, IntOr(req.batchSize, 20)), now);
  }

  function SyncRequest(offset: int, batchSize: int): AjaxRequest {
    AjaxRequest(true, true, Some(offset), Some(batchSize))
  }

  /** The reply to one request of the driver, spelled out. */
  lemma AjaxSyncDriven(st: AdminState, db: Db, option: Option<Settings>, users: seq<int>, batchSize: int, offset: int, now: string)
    requires batchSize >= 1 && offset >= 0
    requires offset == 0 ==> !st.syncInProgress
    ensures var page := Page(users, offset, batchSize); var next := offset + |page|;
      var t := SyncUsers(st.meta, db, option, page, now);
      AjaxSync(st, db, option, users, SyncRequest(offset, batchSize), now) ==
        AjaxResult(AdminState(t.meta, next < |users| && (st.syncInProgress || offset == 0),
                              if next >= |users| then Some(now) else st.lastFieldsSync),
                   JsonSuccess(BatchStats(|users|, next, t.success, t.failed)))
  {
    AjaxSyncBatch(st, db, option, users, SyncRequest(offset, batchSize), now);
  }

  /** The driver's prefix of synced users grows by the page it sends. */
  lemma DrivenPrefix(meta0: UserMeta, db: Db, option: Option<Settings>, users: seq<int>, batchSize: int, offset: int, now: string)
    requires batchSize >= 1 && 0 <= offset <= |users|
    ensures var page := Page(users, offset, batchSize); var next := offset + |page|;
      && next <= |users| && (next < |users| ==> offset < next)
      && SyncUsers(SyncUsers(meta0, db, option, users[..offset], now).meta, db, option, page, now).meta
         == SyncUsers(meta0, db, option, users[..next], now).meta
      && (next == |users| ==> users[..next] == users)
  {
    var page := Page(users, offset, batchSize);
    var next := offset + |page|;
    if page != [] {
      PageIsSlice(users, offset, batchSize);
      assert users[..offset] + page == users[..next];
      SyncUsersAppend(meta0, db, option, users[..offset], page, now);
    } else {
      assert users[..offset] == users;
    }
  }

  /** The scan of sync_user_spending_data over the sorted table: the
      ucfirst key of the first entry whose minimum the spend meets, 'none'
      when it meets none. */
  method FirstReachedTier(sorted: Settings, spend: real) returns (tier: string)
    ensures tier == match FirstReached(sorted, spend) case Some(e) => UcFirst(e.key) case None => "none"
  {
    tier := "none";
    var i := 0;
    while i < |sorted|
      invariant 0 <= i <= |sorted|
      invariant FirstReached(sorted, spend) == FirstReached(sorted[i..], spend)
    {
      if spend >= sorted[i].setting.minSpend {
        return UcFirst(sorted[i].key);
      }
      assert sorted[i..][1..] == sorted[i + 1..];
      i := i + 1;
    }
  }

  class Admin {
    const db: Db
    const tierOption: Option<Settings>
    var meta: UserMeta
    var syncInProgress: bool
    var lastFieldsSync: Option<string>

    function State(): AdminState
      reads this
    {
      AdminState(meta, syncInProgress, lastFieldsSync)
    }

    constructor (db0: Db, option0: Option<Settings>, st0: AdminState)
      ensures db == db0 && tierOption == option0 && State() == st0
    {
      db := db0;
      tierOption := option0;
      meta := st0.meta;
      syncInProgress := st0.syncInProgress;
      lastFieldsSync := st0.lastFieldsSync;
    }

    /** sync_user_spending_data, with the sort and the scan that breaks at
        the first threshold reached. */
    method SyncUserSpendingData(u: int, now: string) returns (r: Result<SyncedUser>)
      modifies this
      ensures SyncOutcome(r, meta) == SyncUser(old(meta), db, tierOption, u, now)
      ensures syncInProgress == old(syncInProgress) && lastFieldsSync == old(lastFieldsSync)
    {
      if u !in db.memberships {
        return Err(NoMembershipError);
      }
      ghost var meta0 := meta;
      var settings := SettingsOrDefault(tierOption);
      var sorted := SortDesc(settings);
      var sp := SpendingOf(db, u);
      var allTime := OrZero(sp.allTime);
      var currentTier := FirstReachedTier(sorted, allTime);
      var lastYear := OrZero(sp.lastYear);
      meta := SetMeta(meta, u, TotalKey, Num(allTime));
      meta := SetMeta(meta, u, YearlyKey, Num(lastYear));
      meta := SetMeta(meta, u, TierKey, Str(currentTier));
      meta := SetMeta(meta, u, LastSyncKey, Str(now));
      r := Ok(SyncedUser(u, allTime, lastYear, currentTier, now));
      assert SyncUser(meta0, db, tierOption, u, now) == SyncOutcome(r, meta);
    }

    /** The loop over users shared by the full and the batched sync. */
    method SyncEach(users: seq<int>, now: string) returns (success: nat, failed: nat)
      modifies this
      ensures SyncTally(meta, success, failed) == SyncUsers(old(meta), db, tierOption, users, now)
      ensures syncInProgress == old(syncInProgress) && lastFieldsSync == old(lastFieldsSync)
    {
      success, failed := 0, 0;
      for i := 0 to |users|
        invariant SyncTally(meta, success, failed) == SyncUsers(old(meta), db, tierOption, users[..i], now)
        invariant syncInProgress == old(syncInProgress) && lastFieldsSync == old(lastFieldsSync)
      {
        assert users[..i + 1][..i] == users[..i];
        var result := SyncUserSpendingData(users[i], now);
        if result.Err? {
          failed := failed + 1;
        } else {
          success := success + 1;
        }
      }
      assert users[..|users|] == users;
    }

    /** sync_all_users over the member ids the membership query returns. */
    method SyncAllUsers(users: seq<int>, now: string) returns (stats: SyncStats)
      modifies this
      ensures var t := SyncUsers(old(meta), db, tierOption, users, now);
        meta == t.meta && stats == SyncStats(|users|, |users|, t.success, t.failed)
      ensures syncInProgress == old(syncInProgress) && lastFieldsSync == Some(now)
    {
      var success, failed := SyncEach(users, now);
      stats := SyncStats(|users|, |users|, success, failed);
      lastFieldsSync := Some(now);
    }

    /** ajax_sync_membership_fields. */
    method AjaxSyncMembershipFields(users: seq<int>, req: AjaxRequest, now: string) returns (response: AjaxResponse)
      modifies this
      ensures AjaxResult(State(), response) == AjaxSync(old(State()), db, tierOption, users, req, now)
    {
      if !req.nonceValid {
        return Died;
      }
      if !req.canManage {
        return JsonError(PermissionError);
      }
      var offset := IntOr(req.offset, 0);
      var batchSize := IntOr(req.batchSize, 20);
      if syncInProgress && offset == 0 {
        return JsonError(InProgressError);
      }
      if offset == 0 {
        syncInProgress := true;
      }
      var totalUsers := |users|;
      var page := Page(users, offset, batchSize);
      var success, failed := SyncEach(page, now);
      var stats := BatchStats(totalUsers, offset + |page|, success, failed);
      if stats.processed >= totalUsers {
        syncInProgress := false;
        lastFieldsSync := Some(now);
      } else if batchSize == 0 {
        // the batch number logged here divides by the batch size
        return Fatal;
      }
      return JsonSuccess(stats);
    }

    /** One request of the admin screen's driver. */
    method DriveOnce(users: seq<int>, batchSize: int, offset: int, now: string) returns (response: AjaxResponse)
      requires batchSize >= 1 && offset >= 0
      requires offset == 0 ==> !syncInProgress
      modifies this
      ensures var page := Page(users, offset, batchSize); var next := offset + |page|;
        var t := SyncUsers(old(meta), db, tierOption, page, now);
        && response == JsonSuccess(BatchStats(|users|, next, t.success, t.failed))
        && meta == t.meta
        && (syncInProgress <==> next < |users| && (old(syncInProgress) || offset == 0))
        && lastFieldsSync == if next >= |users| then Some(now) else old(lastFieldsSync)
    {
      AjaxSyncDriven(State(), db, tierOption, users, batchSize, offset, now);
      response := AjaxSyncMembershipFields(users, SyncRequest(offset, batchSize), now);
    }

    /** The admin screen's driver: it starts at offset 0 and, while the
        reply reports processed below the total, posts processed as the
        next offset. Started with the flag clear and a batch size of at
        least 1, it ends on a successful reply with processed equal to the
        total, the flag dropped, the sync time recorded, and every member
        synced in order exactly once. */
    method RunBatchedSync(users: seq<int>, batchSize: int, now: string) returns (response: AjaxResponse)
      requires batchSize >= 1 && !syncInProgress
      modifies this
      ensures response.JsonSuccess? && response.stats.processed == response.stats.total == |users|
      ensures meta == SyncUsers(old(meta), db, tierOption, users, now).meta
      ensures !syncInProgress && lastFieldsSync == Some(now)
    {
      ghost var meta0 := meta;
      var offset := 0;
      while true
        invariant 0 <= offset <= |users|
        invariant meta == SyncUsers(meta0, db, tierOption, users[..offset], now).meta
        invariant offset == 0 ==> !syncInProgress
        decreases |users| - offset
      {
        ghost var page := Page(users, offset, batchSize);
        ghost var next := offset + |page|;
        ghost var before := meta;
        DrivenPrefix(meta0, db, tierOption, users, batchSize, offset, now);
        response := DriveOnce(users, batchSize, offset, now);
        assert meta == SyncUsers(before, db, tierOption, page, now).meta;
        assert meta == SyncUsers(meta0, db, tierOption, users[..next], now).meta;
        if response.stats.processed >= response.stats.total {
          return;
        }
        offset := response.stats.processed;
      }
    }
  }
}
