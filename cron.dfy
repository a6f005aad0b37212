/** The scheduled tier recalculation of class-mdm-cron.php: the fixed
    yearly-or-lifetime tier cascade, the write-if-changed tier update and the
    offset/batch-size loop over the spend aggregates with its running
    statistics. */
module MdmCron {
  import opened Php
  import opened Store
  import opened CronBatch

  datatype Tier = NoTier | Bronze | Silver | Gold | Platinum

  function Rank(t: Tier): nat {
    match t
    case NoTier => 0
    case Bronze => 1
    case Silver => 2
    case Gold => 3
    case Platinum => 4
  }

  /** The label calculate_tier returns for a tier. */
  function TierName(t: Tier): string {
    match t
    case NoTier => "None"
    case Bronze => "Bronze"
    case Silver => "Silver"
    case Gold => "Gold"
    case Platinum => "Platinum"
  }

  /** calculate_tier: a customer reaches a tier through either the yearly or
      the lifetime figure, and the highest tier reached wins. */
  function CalculateTier(totalSpend: real, yearlySpend: real): Tier {
    if yearlySpend >= 10000.0 || totalSpend >= 50000.0 then Platinum
    else if yearlySpend >= 5000.0 || totalSpend >= 25000.0 then Gold
    else if yearlySpend >= 2500.0 || totalSpend >= 10000.0 then Silver
    else if yearlySpend >= 1000.0 || totalSpend >= 5000.0 then Bronze
    else NoTier
  }

  /** How many of the yearly thresholds 1000, 2500, 5000 and 10000 a yearly
      figure reaches. */
  function YearlyLevel(y: real): nat {
    (if y >= 1000.0 then 1 else 0) + (if y >= 2500.0 then 1 else 0) +
    (if y >= 5000.0 then 1 else 0) + (if y >= 10000.0 then 1 else 0)
  }

  /** How many of the lifetime thresholds 5000, 10000, 25000 and 50000 a
      lifetime figure reaches. */
  function TotalLevel(t: real): nat {
    (if t >= 5000.0 then 1 else 0) + (if t >= 10000.0 then 1 else 0) +
    (if t >= 25000.0 then 1 else 0) + (if t >= 50000.0 then 1 else 0)
  }

  /** The cascade is the larger of the two independent threshold counts. */
  lemma CalculateTierRank(totalSpend: real, yearlySpend: real)
    ensures Rank(CalculateTier(totalSpend, yearlySpend)) == Max(YearlyLevel(yearlySpend), TotalLevel(totalSpend))
  {
  }

  lemma CalculateTierMonotone(total1: real, yearly1: real, total2: real, yearly2: real)
    requires total1 <= total2 && yearly1 <= yearly2
    ensures Rank(CalculateTier(total1, yearly1)) <= Rank(CalculateTier(total2, yearly2))
  {
    CalculateTierRank(total1, yearly1);
    CalculateTierRank(total2, yearly2);
  }

  lemma CalculateTierExtremes(totalSpend: real, yearlySpend: real)
    ensures CalculateTier(totalSpend, yearlySpend) == Platinum <==> yearlySpend >= 10000.0 || totalSpend >= 50000.0
    ensures CalculateTier(totalSpend, yearlySpend) == NoTier <==> yearlySpend < 1000.0 && totalSpend < 5000.0
  {
  }

  lemma TierNameInjective(a: Tier, b: Tier)
    ensures TierName(a) == TierName(b) ==> a == b
  {
  }

  // ---------------------------------------------------------------------
  // calculate_and_update_user_tier, on one user's profile

  /** The tier calculate_tier assigns from the spend figures stored in a
      profile. */
  function StoredSpendTier(p: Profile): MetaValue {
    Str(TierName(CalculateTier(FloatVal(p.total), FloatVal(p.yearly))))
  }

  /** calculate_and_update_user_tier: the tier and the last-sync stamp are
      written only when the computed tier differs (strictly) from the stored
      one, and the result says whether they were. */
  function UpdateTier(p: Profile, now: string): UserStep<Profile> {
    var newTier := StoredSpendTier(p);
    if newTier != p.tier then UserStep(Updated, p.(tier := newTier, lastSync := Str(now)))
    else UserStep(Unchanged, p)
  }

  /** Afterwards the stored tier is the computed one; the update happens
      exactly when the stored tier was different; apart from the tier and
      the last-sync stamp nothing changes, and the stamp changes only
      together with the tier. */
  lemma UpdateTierEffect(p: Profile, now: string)
    ensures var r := UpdateTier(p, now);
      && r.record.tier == StoredSpendTier(p)
      && (r.outcome == Updated <==> p.tier != StoredSpendTier(p))
      && (r.outcome != Updated ==> r.outcome == Unchanged && r.record == p)
      && (r.outcome == Updated ==> r.record.lastSync == Str(now))
      && r.record.(tier := p.tier, lastSync := p.lastSync) == p
  {
  }

  /** A second call on unchanged spend figures reports no change and writes
      nothing. */
  lemma UpdateTierIdempotent(p: Profile, now: string, later: string)
    ensures var r := UpdateTier(p, now);
      UpdateTier(r.record, later) == UserStep(Unchanged, r.record)
  {
  }

  // ---------------------------------------------------------------------
  // The per-user body of run_auto_calculation

  /** The body of the per-user loop: the spend figures are written
      unconditionally, then a user whose override is exactly 'yes' is
      skipped and everyone else goes through the tier update. */
  function ProcessUser(p: Profile, row: SpendRow, now: string): UserStep<Profile> {
    var p1 := p.(yearly := Num(row.yearlySpend), total := Num(row.totalSpend));
    if p1.override == Str("yes") then UserStep(Skipped, p1)
    else UpdateTier(p1, now)
  }

  /** The cron's per-user step, as a step of the batch engine. */
  function UserStepFn(now: string): Step<Profile> {
    (p: Profile, r: SpendRow) => ProcessUser(p, r, now)
  }

  /** The foreach of run_auto_calculation over the result rows `lo` to
      `hi - 1`: the batch engine's fold with the cron's own step. */
  function ProcessUsers(meta: UserMeta, rows: seq<SpendRow>, lo: int, hi: int, now: string): BatchResult<Profile>
    requires 0 <= lo <= hi <= |rows|
    decreases hi - lo
  {
    if hi == lo then BatchResult(NoCounts, meta)
    else
      var b := ProcessUsers(meta, rows, lo, hi - 1, now);
      var u := rows[hi - 1].userId;
      var s := ProcessUser(ProfileOf(b.records, u), rows[hi - 1], now);
      BatchResult(Add(b.counts, Tally(s.outcome)), b.records[u := s.record])
  }

  /** The cron's foreach is the batch engine's fold with the cron's step. */
  lemma {:induction false} ProcessUsersIsRunBatch(meta: UserMeta, rows: seq<SpendRow>, lo: int, hi: int, now: string)
    requires 0 <= lo <= hi <= |rows|
    ensures ProcessUsers(meta, rows, lo, hi, now) == RunBatch(UserStepFn(now), EmptyProfile, meta, rows, lo, hi)
    decreases hi - lo
  {
    if hi > lo {
      ProcessUsersIsRunBatch(meta, rows, lo, hi - 1, now);
      ProcessUsersStep(meta, rows, lo, hi, now, ProcessUsers(meta, rows, lo, hi - 1, now));
    }
  }

  /** One more row: the fold and the engine take the same step. */
  lemma ProcessUsersStep(meta: UserMeta, rows: seq<SpendRow>, lo: int, hi: int, now: string, b: BatchResult<Profile>)
    requires 0 <= lo < hi <= |rows|
    requires ProcessUsers(meta, rows, lo, hi - 1, now) == b
    requires RunBatch(UserStepFn(now), EmptyProfile, meta, rows, lo, hi - 1) == b
    ensures ProcessUsers(meta, rows, lo, hi, now) == RunBatch(UserStepFn(now), EmptyProfile, meta, rows, lo, hi)
  {
    var u := rows[hi - 1].userId;
    var s := ProcessUser(ProfileOf(b.records, u), rows[hi - 1], now);
    assert ProcessUsers(meta, rows, lo, hi, now) == BatchResult(Add(b.counts, Tally(s.outcome)), b.records[u := s.record]);
    assert UserStepFn(now)(Lookup(b.records, u, EmptyProfile), rows[hi - 1]) == s;
  }

  /** One round of the cron's while loop, stated with the cron's own fold
      over the page: the end of the run stays what it was. */
  lemma CronRound(rows: seq<SpendRow>, total: nat, batchSize: int, now: string,
                  records: UserMeta, offset: int, acc: Counts, log: seq<RunStats>,
                  page: seq<SpendRow>, c: Counts,
                  records': UserMeta, offset': int, acc': Counts, log': seq<RunStats>)
    requires total > 0 && 0 <= offset < total && page == Page(rows, offset, batchSize) && page != []
    requires offset + |page| <= |rows|
    requires ProcessUsers(records, rows, offset, offset + |page|, now) == BatchResult(c, records')
    requires offset' == offset + batchSize && acc' == Add(acc, c) && log' == log + [Running(acc', total)]
    ensures Finish(UserStepFn(now), EmptyProfile, rows, total, batchSize, records', offset', acc', log')
         == Finish(UserStepFn(now), EmptyProfile, rows, total, batchSize, records, offset, acc, log)
  {
    ProcessUsersIsRunBatch(records, rows, offset, offset + |page|, now);
    FinishRoundAfter(UserStepFn(now), EmptyProfile, rows, total, batchSize, records, offset, acc, log,
                     page, c, records', offset', acc', log');
  }

  /** The whole of run_auto_calculation after a nonzero count: the sweep of
      the batch engine with the cron's step over the users' profiles. */
  function AutoCalculation(meta: UserMeta, rows: seq<SpendRow>, total: nat, batchSize: int, now: string): SweepResult<Profile>
    requires total > 0
  {
    Sweep(UserStepFn(now), EmptyProfile, meta, rows, total, batchSize, 0, NoCounts)
  }

  class Cron {
    var meta: UserMeta
    /** Every value written to the last-run-statistics option, oldest first. */
    var statsLog: seq<RunStats>

    constructor (meta0: UserMeta)
      ensures meta == meta0 && statsLog == []
    {
      meta := meta0;
      statsLog := [];
    }

    /** calculate_and_update_user_tier on user `u`: the user's profile
        becomes what UpdateTier gives, and is written only on a change. */
    method CalculateAndUpdateUserTier(u: int, now: string) returns (changed: bool)
      modifies this`meta
      ensures var s := UpdateTier(ProfileOf(old(meta), u), now);
        changed == (s.outcome == Updated) && meta == (if changed then old(meta)[u := s.record] else old(meta))
    {
      var totalSpend := FloatVal(GetMeta(meta, u, TotalKey));
      var yearlySpend := FloatVal(GetMeta(meta, u, YearlyKey));
      var newTier := Str(TierName(CalculateTier(totalSpend, yearlySpend)));
      var currentTier := GetMeta(meta, u, TierKey);
      if newTier != currentTier {
        meta := SetMeta(meta, u, TierKey, newTier);
        meta := SetMeta(meta, u, LastSyncKey, Str(now));
        return true;
      }
      return false;
    }

    /** The body of the per-user loop on one result row; the caller adds the
        outcome to the batch counters. */
    method ProcessUserRow(user: SpendRow, now: string) returns (outcome: Outcome)
      modifies this`meta
      ensures var s := ProcessUser(ProfileOf(old(meta), user.userId), user, now);
        outcome == s.outcome && meta == old(meta)[user.userId := s.record]
    {
      meta := SetMeta(meta, user.userId, YearlyKey, Num(user.yearlySpend));
      meta := SetMeta(meta, user.userId, TotalKey, Num(user.totalSpend));
      var manualOverride := GetMeta(meta, user.userId, OverrideKey);
      if manualOverride == Str("yes") {
        return Skipped;
      }
      var changed := CalculateAndUpdateUserTier(user.userId, now);
      outcome := if changed then Updated else Unchanged;
    }

    /** The foreach over one page of users, which are the result rows from
        `offset` on; returns the batch counters. */
    method ProcessPage(rows: seq<SpendRow>, offset: int, users: seq<SpendRow>, now: string) returns (batch: Counts)
      requires 0 <= offset && offset + |users| <= |rows| && users == rows[offset..offset + |users|]
      modifies this`meta
      ensures ProcessUsers(old(meta), rows, offset, offset + |users|, now) == BatchResult(batch, meta)
    {
      batch := NoCounts;
      for i := 0 to |users|
        invariant ProcessUsers(old(meta), rows, offset, offset + i, now) == BatchResult(batch, meta)
      {
        var user := users[i];
        assert user == rows[offset + i];
        var outcome := ProcessUserRow(user, now);
        batch := Add(batch, Tally(outcome));
      }
    }

    /** The while loop of run_auto_calculation, from offset zero: each
        round fetches the next page, processes it, logs the running totals
        and advances the offset by the batch size, until the offset reaches
        the count or a page comes back empty. */
    method ProcessAllPages(batchSize: int, totalUsers: nat, rows: seq<SpendRow>, now: string) returns (totals: Counts)
      requires totalUsers > 0
      modifies this
      ensures var s := AutoCalculation(old(meta), rows, totalUsers, batchSize, now);
        meta == s.records && statsLog == old(statsLog) + s.log && totals == s.totals
    {
      var offset := 0;
      totals := NoCounts;
      while offset < totalUsers
        invariant 0 <= offset
        invariant Finish(UserStepFn(now), EmptyProfile, rows, totalUsers, batchSize, meta, offset, totals, statsLog)
               == Finish(UserStepFn(now), EmptyProfile, rows, totalUsers, batchSize, old(meta), 0, NoCounts, old(statsLog))
        decreases totalUsers - offset
      {
        var users := Page(rows, offset, batchSize);
        if users == [] {
          break;
        }
        PageIsSlice(rows, offset, batchSize);
        ghost var metaBefore, offsetBefore, totalsBefore, logBefore := meta, offset, totals, statsLog;
        var batch := ProcessPage(rows, offset, users, now);
        totals := Add(totals, batch);
        statsLog := statsLog + [Running(totals, totalUsers)];
        offset := offset + batchSize;
        CronRound(rows, totalUsers, batchSize, now, metaBefore, offsetBefore, totalsBefore, logBefore,
                  users, batch, meta, offset, totals, statsLog);
      }
      FinishDone(UserStepFn(now), EmptyProfile, rows, totalUsers, batchSize, meta, offset, totals, statsLog);
    }

    /** run_auto_calculation over the spend aggregate `rows` (ordered as the
        paginated query returns them) whose count query gave `totalUsers`.
        A total of zero is the error path; otherwise the meta is what the
        sweep computes, one running entry is logged per batch and the run
        ends with a finished entry, so it is never left running. */
    method RunAutoCalculation(batchSize: int, totalUsers: nat, rows: seq<SpendRow>, now: string)
      modifies this
      ensures totalUsers == 0 ==> meta == old(meta) && statsLog == old(statsLog) + [Failed(NoUsersMessage)]
      ensures totalUsers > 0 ==>
        var s := AutoCalculation(old(meta), rows, totalUsers, batchSize, now);
        meta == s.records && statsLog == old(statsLog) + s.log + [Finished(s.totals)]
      ensures |statsLog| > |old(statsLog)| && !statsLog[|statsLog| - 1].IsRunning()
    {
      if totalUsers == 0 {
        statsLog := statsLog + [Failed(NoUsersMessage)];
        return;
      }
      var totals := ProcessAllPages(batchSize, totalUsers, rows, now);
      statsLog := statsLog + [Finished(totals)];
    }
  }

  // ---------------------------------------------------------------------
  // Properties of the cron's run

  /** A run over a consistent aggregate gives the same meta and totals for
      every batch size, namely those of one pass over all rows, and its
      totals account for every row. */
  lemma AutoCalculationResumable(meta: UserMeta, rows: seq<SpendRow>, size1: int, size2: int, now: string)
    requires |rows| > 0 && size1 >= 1 && size2 >= 1
    ensures var s1 := AutoCalculation(meta, rows, |rows|, size1, now);
      var s2 := AutoCalculation(meta, rows, |rows|, size2, now);
      s1.totals == s2.totals && s1.records == s2.records
      && s1.records == RunBatch(UserStepFn(now), EmptyProfile, meta, rows, 0, |rows|).records
    ensures var c := AutoCalculation(meta, rows, |rows|, size1, now).totals;
      c.processed + c.skipped == |rows| && 0 <= c.updated <= c.processed
  {
    RunIndependentOfBatchSize(UserStepFn(now), EmptyProfile, meta, rows, size1, size2);
  }

  /** Every statistics entry a run logs between batches says it is still
      running. */
  lemma AutoCalculationLogRunning(meta: UserMeta, rows: seq<SpendRow>, total: nat, batchSize: int, now: string)
    requires total > 0
    ensures forall e :: e in AutoCalculation(meta, rows, total, batchSize, now).log ==> e.IsRunning()
  {
    SweepLogRunning(UserStepFn(now), EmptyProfile, meta, rows, total, batchSize, 0, NoCounts);
  }

  /** A user none of whose rows is in the aggregate keeps their meta. */
  lemma AutoCalculationFrame(meta: UserMeta, rows: seq<SpendRow>, batchSize: int, now: string, u: int)
    requires |rows| > 0 && batchSize >= 1
    requires forall i :: 0 <= i < |rows| ==> rows[i].userId != u
    ensures var m := AutoCalculation(meta, rows, |rows|, batchSize, now).records;
      (u in m <==> u in meta) && ProfileOf(m, u) == ProfileOf(meta, u)
  {
    SweepCovers(UserStepFn(now), EmptyProfile, meta, rows, batchSize, 0, NoCounts);
    BatchFrame(UserStepFn(now), EmptyProfile, meta, rows, 0, |rows|, u);
  }

  /** An overridden profile that holds `tier`. */
  predicate KeepsTier(p: Profile, tier: MetaValue) {
    p.override == Str("yes") && p.tier == tier
  }

  /** An overridden user is skipped after the spend figures are written, so
      override and tier stay as they were. */
  lemma ProcessUserKeepsOverride(p: Profile, row: SpendRow, now: string)
    ensures p.override == Str("yes") ==>
      ProcessUser(p, row, now) == UserStep(Skipped, p.(yearly := Num(row.yearlySpend), total := Num(row.totalSpend)))
    ensures KeepsTier(p, p.tier) ==> KeepsTier(ProcessUser(p, row, now).record, p.tier)
  {
  }

  /** The manual-override invariant: a user whose override is 'yes' keeps
      both the override and the tier through a whole run. */
  lemma AutoCalculationKeepsOverriddenTier(meta: UserMeta, rows: seq<SpendRow>, total: nat, batchSize: int, now: string, u: int)
    requires total > 0
    requires GetMeta(meta, u, OverrideKey) == Str("yes")
    ensures var m := AutoCalculation(meta, rows, total, batchSize, now).records;
      GetMeta(m, u, OverrideKey) == Str("yes") && GetMeta(m, u, TierKey) == GetMeta(meta, u, TierKey)
  {
    var tier := GetMeta(meta, u, TierKey);
    var keep := (p: Profile) => KeepsTier(p, tier);
    forall p, r | keep(p)
      ensures keep(UserStepFn(now)(p, r).record)
    {
      ProcessUserKeepsOverride(p, r, now);
    }
    SweepPreserves(UserStepFn(now), EmptyProfile, keep, meta, rows, total, batchSize, 0, NoCounts, u);
  }

  /** A profile that already holds the row's figures and either the tier
      they give or an override. */
  predicate Settled(p: Profile, row: SpendRow) {
    && p.yearly == Num(row.yearlySpend)
    && p.total == Num(row.totalSpend)
    && (p.override == Str("yes") || p.tier == Str(TierName(CalculateTier(row.totalSpend, row.yearlySpend))))
  }

  /** Processing a row settles its user, and processing a settled user
      again writes back what is there and updates nothing. */
  lemma ProcessUserSettles(p: Profile, row: SpendRow, now: string)
    ensures Settled(ProcessUser(p, row, now).record, row)
    ensures Settled(p, row) ==> ProcessUser(p, row, now).record == p && ProcessUser(p, row, now).outcome != Updated
  {
  }

  /** Idempotence of a batch: processing the same distinct users again on
      the result, at any later time, updates no one and changes nothing. */
  lemma BatchIdempotent(meta: UserMeta, rows: seq<SpendRow>, now: string, later: string)
    requires DistinctUsers(rows)
    ensures var m := RunBatch(UserStepFn(now), EmptyProfile, meta, rows, 0, |rows|).records;
      var again := RunBatch(UserStepFn(later), EmptyProfile, m, rows, 0, |rows|);
      again.records == m && again.counts.updated == 0
  {
    var settled := (p: Profile, r: SpendRow) => Settled(p, r);
    forall p, r
      ensures settled(UserStepFn(now)(p, r).record, r)
    {
      ProcessUserSettles(p, r, now);
    }
    BatchSettles(UserStepFn(now), EmptyProfile, settled, meta, rows, |rows|);
    var m := RunBatch(UserStepFn(now), EmptyProfile, meta, rows, 0, |rows|).records;
    forall i | 0 <= i < |rows|
      ensures var s := UserStepFn(later)(m[rows[i].userId], rows[i]);
        s.record == m[rows[i].userId] && s.outcome != Updated
    {
      ProcessUserSettles(m[rows[i].userId], rows[i], later);
    }
    BatchStable(UserStepFn(later), EmptyProfile, m, rows, |rows|);
  }

  /** Idempotence of a whole run: a second run over the same consistent
      aggregate of distinct users, with any batch sizes, updates no one and
      leaves the meta as the first run left it. */
  lemma AutoCalculationIdempotent(meta: UserMeta, rows: seq<SpendRow>, size1: int, size2: int, now: string, later: string)
    requires |rows| > 0 && size1 >= 1 && size2 >= 1 && DistinctUsers(rows)
    ensures var m := AutoCalculation(meta, rows, |rows|, size1, now).records;
      var again := AutoCalculation(m, rows, |rows|, size2, later);
      again.records == m && again.totals.updated == 0
  {
    var m := AutoCalculation(meta, rows, |rows|, size1, now).records;
    SweepCovers(UserStepFn(now), EmptyProfile, meta, rows, size1, 0, NoCounts);
    SweepCovers(UserStepFn(later), EmptyProfile, m, rows, size2, 0, NoCounts);
    BatchIdempotent(meta, rows, now, later);
  }
}
