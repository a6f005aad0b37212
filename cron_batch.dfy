/** The batch engine of the scheduled recalculation: a page of users folded
    through a per-user step on each user's record, and the offset/batch-size
    sweep over the spend aggregate with the running statistics it records.
    The step and the record type are parameters, so these properties hold
    whatever is done with each user. */
module CronBatch {
  import opened Php

  /** One row of the spend aggregate: user id, last-year and all-time spend. */
  datatype SpendRow = SpendRow(userId: int, yearlySpend: real, totalSpend: real)

  datatype Outcome = Skipped | Updated | Unchanged

  datatype Counts = Counts(processed: int, updated: int, skipped: int)

  const NoCounts := Counts(0, 0, 0)

  function Add(a: Counts, b: Counts): Counts {
    Counts(a.processed + b.processed, a.updated + b.updated, a.skipped + b.skipped)
  }

  /** A user skipped for a manual override counts as skipped only; every
      other user counts as processed, and as updated too when the tier
      changed. */
  function Tally(o: Outcome): Counts {
    match o
    case Skipped => Counts(0, 0, 1)
    case Updated => Counts(1, 1, 0)
    case Unchanged => Counts(1, 0, 0)
  }

  datatype UserStep<P> = UserStep(outcome: Outcome, record: P)

  /** A per-user step: what the loop body does with one user's record and
      the row read for that user. */
  type Step<!P> = (P, SpendRow) -> UserStep<P>

  datatype BatchResult<P> = BatchResult(counts: Counts, records: map<int, P>)

  /** The rows `lo` to `hi - 1` of a result set, user after user: each row's
      user gets the record the step returns for the record they have (or
      for `blank` when they have none yet). */
  function RunBatch<P>(step: Step<P>, blank: P, records: map<int, P>, rows: seq<SpendRow>, lo: int, hi: int): BatchResult<P>
    requires 0 <= lo <= hi <= |rows|
    decreases hi - lo
  {
    if hi == lo then BatchResult(NoCounts, records)
    else
      var b := RunBatch(step, blank, records, rows, lo, hi - 1);
      var u := rows[hi - 1].userId;
      var s := step(Lookup(b.records, u, blank), rows[hi - 1]);
      BatchResult(Add(b.counts, Tally(s.outcome)), b.records[u := s.record])
  }

  /** The values successively written to the last-run-statistics option. */
  datatype RunStats =
    | Running(totals: Counts, totalUsers: nat)   // is_running = true, after each batch
    | Finished(totals: Counts)                    // is_running = false, progress = 100
    | Failed(message: string)                     // error = true, is_running = false
  {
    predicate IsRunning() { Running? }

    /** The progress percentage recorded with the entry (before rounding to
        two decimals). */
    function Progress(): real {
      match this
      case Running(c, n) => if n == 0 then 0.0 else c.processed as real * 100.0 / n as real
      case Finished(_) => 100.0
      case Failed(_) => 0.0
    }
  }

  const NoUsersMessage := "No users found to process"

  datatype SweepResult<P> = SweepResult(totals: Counts, records: map<int, P>, log: seq<RunStats>)

  /** The while loop from `offset` on, with running totals `acc`: stop when
      the offset reaches the total or a page comes back empty; otherwise
      process the page (the rows from `offset` on, at most `batchSize` of
      them), record the running statistics and advance the offset by the
      batch size. */
  function Sweep<P>(step: Step<P>, blank: P, records: map<int, P>, rows: seq<SpendRow>, total: nat, batchSize: int, offset: int, acc: Counts): SweepResult<P>
    requires total > 0
    decreases total - offset
  {
    if offset >= total then SweepResult(acc, records, [])
    else
      var page := Page(rows, offset, batchSize);
      if page == [] then SweepResult(acc, records, [])
      else
        var b := RunBatch(step, blank, records, rows, offset, offset + |page|);
        var acc' := Add(acc, b.counts);
        var rest := Sweep(step, blank, b.records, rows, total, batchSize, offset + batchSize, acc');
        SweepResult(rest.totals, rest.records, [Running(acc', total)] + rest.log)
  }

  /** What a run that has reached `offset` with totals `acc`, records
      `records` and statistics `log` written so far ends with. */
  function Finish<P>(step: Step<P>, blank: P, rows: seq<SpendRow>, total: nat, batchSize: int,
                     records: map<int, P>, offset: int, acc: Counts, log: seq<RunStats>): SweepResult<P>
    requires total > 0
  {
    var s := Sweep(step, blank, records, rows, total, batchSize, offset, acc);
    SweepResult(s.totals, s.records, log + s.log)
  }

  // ---------------------------------------------------------------------
  // Properties of the batch engine, for every per-user step

  /** The loop body once: a non-empty page at `offset` processed into
      `records'` with counts `c` logs one running entry and goes on from the
      next offset. */
  lemma SweepNext<P>(step: Step<P>, blank: P, records: map<int, P>, rows: seq<SpendRow>, total: nat, batchSize: int,
                     offset: int, acc: Counts, page: seq<SpendRow>, c: Counts, records': map<int, P>)
    requires total > 0 && offset < total && page == Page(rows, offset, batchSize) && page != []
    requires RunBatch(step, blank, records, rows, offset, offset + |page|) == BatchResult(c, records')
    ensures var rest := Sweep(step, blank, records', rows, total, batchSize, offset + batchSize, Add(acc, c));
      Sweep(step, blank, records, rows, total, batchSize, offset, acc)
      == SweepResult(rest.totals, rest.records, [Running(Add(acc, c), total)] + rest.log)
  {
  }

  /** One round of the loop (the page at `offset` processed into `records'`
      with counts `c`, and one running entry logged) leaves the end of the
      run as it was. */
  lemma FinishRound<P>(step: Step<P>, blank: P, rows: seq<SpendRow>, total: nat, batchSize: int,
                       records: map<int, P>, offset: int, acc: Counts, log: seq<RunStats>,
                       page: seq<SpendRow>, c: Counts, records': map<int, P>)
    requires total > 0 && offset < total && page == Page(rows, offset, batchSize) && page != []
    requires RunBatch(step, blank, records, rows, offset, offset + |page|) == BatchResult(c, records')
    ensures Finish(step, blank, rows, total, batchSize, records', offset + batchSize, Add(acc, c), log + [Running(Add(acc, c), total)])
         == Finish(step, blank, rows, total, batchSize, records, offset, acc, log)
  {
    SweepNext(step, blank, records, rows, total, batchSize, offset, acc, page, c, records');
    var rest := Sweep(step, blank, records', rows, total, batchSize, offset + batchSize, Add(acc, c));
    assert log + ([Running(Add(acc, c), total)] + rest.log) == (log + [Running(Add(acc, c), total)]) + rest.log;
  }

  /** The same round, stated for the loop variables after the round:
      offset `offset'`, totals `acc'` and statistics `log'`. */
  lemma FinishRoundAfter<P>(step: Step<P>, blank: P, rows: seq<SpendRow>, total: nat, batchSize: int,
                            records: map<int, P>, offset: int, acc: Counts, log: seq<RunStats>,
                            page: seq<SpendRow>, c: Counts,
                            records': map<int, P>, offset': int, acc': Counts, log': seq<RunStats>)
    requires total > 0 && offset < total && page == Page(rows, offset, batchSize) && page != []
    requires RunBatch(step, blank, records, rows, offset, offset + |page|) == BatchResult(c, records')
    requires offset' == offset + batchSize && acc' == Add(acc, c) && log' == log + [Running(acc', total)]
    ensures Finish(step, blank, rows, total, batchSize, records', offset', acc', log')
         == Finish(step, blank, rows, total, batchSize, records, offset, acc, log)
  {
    FinishRound(step, blank, rows, total, batchSize, records, offset, acc, log, page, c, records');
  }

  /** When the loop stops, what has been done is the whole run. */
  lemma FinishDone<P>(step: Step<P>, blank: P, rows: seq<SpendRow>, total: nat, batchSize: int,
                      records: map<int, P>, offset: int, acc: Counts, log: seq<RunStats>)
    requires total > 0 && (offset >= total || Page(rows, offset, batchSize) == [])
    ensures Finish(step, blank, rows, total, batchSize, records, offset, acc, log) == SweepResult(acc, records, log)
  {
    assert log + [] == log;
  }

  /** Extending a range by the next row: what a loop over the rows relies
      on after each user. */
  lemma RunBatchNext<P>(step: Step<P>, blank: P, records: map<int, P>, rows: seq<SpendRow>, lo: int, hi: int,
                        c: Counts, records': map<int, P>)
    requires 0 <= lo <= hi < |rows|
    requires RunBatch(step, blank, records, rows, lo, hi) == BatchResult(c, records')
    ensures var s := step(Lookup(records', rows[hi].userId, blank), rows[hi]);
      RunBatch(step, blank, records, rows, lo, hi + 1) == BatchResult(Add(c, Tally(s.outcome)), records'[rows[hi].userId := s.record])
  {
  }

  /** Per batch, processed plus skipped is the number of users and at most
      the processed users were updated. */
  lemma {:induction false} BatchCountsBalance<P>(step: Step<P>, blank: P, records: map<int, P>, rows: seq<SpendRow>, lo: int, hi: int)
    requires 0 <= lo <= hi <= |rows|
    ensures var c := RunBatch(step, blank, records, rows, lo, hi).counts;
      c.processed + c.skipped == hi - lo && 0 <= c.updated <= c.processed && 0 <= c.skipped
    decreases hi - lo
  {
    if hi > lo {
      BatchCountsBalance(step, blank, records, rows, lo, hi - 1);
      var b := RunBatch(step, blank, records, rows, lo, hi - 1);
      var s := step(Lookup(b.records, rows[hi - 1].userId, blank), rows[hi - 1]);
      assert RunBatch(step, blank, records, rows, lo, hi).counts == Add(b.counts, Tally(s.outcome));
    }
  }

  /** Processing two consecutive ranges one after the other is processing
      their union. */
  lemma {:induction false} RunBatchSplit<P>(step: Step<P>, blank: P, records: map<int, P>, rows: seq<SpendRow>, lo: int, mid: int, hi: int)
    requires 0 <= lo <= mid <= hi <= |rows|
    ensures var r1 := RunBatch(step, blank, records, rows, lo, mid);
      var r2 := RunBatch(step, blank, r1.records, rows, mid, hi);
      RunBatch(step, blank, records, rows, lo, hi) == BatchResult(Add(r1.counts, r2.counts), r2.records)
    decreases hi - mid
  {
    if hi > mid {
      RunBatchSplit(step, blank, records, rows, lo, mid, hi - 1);
      var r1 := RunBatch(step, blank, records, rows, lo, mid);
      var r2 := RunBatch(step, blank, r1.records, rows, mid, hi - 1);
      var u := rows[hi - 1].userId;
      var s := step(Lookup(r2.records, u, blank), rows[hi - 1]);
      assert RunBatch(step, blank, r1.records, rows, mid, hi) == BatchResult(Add(r2.counts, Tally(s.outcome)), r2.records[u := s.record]);
      assert RunBatch(step, blank, records, rows, lo, hi) == BatchResult(Add(Add(r1.counts, r2.counts), Tally(s.outcome)), r2.records[u := s.record]);
    }
  }

  /** When the count agrees with the rows and the batch size is at least one,
      the sweep from any offset covers every remaining row exactly once, in
      order, whatever the batch size. */
  lemma {:induction false} SweepCovers<P>(step: Step<P>, blank: P, records: map<int, P>, rows: seq<SpendRow>, batchSize: int, offset: int, acc: Counts)
    requires |rows| > 0 && batchSize >= 1 && 0 <= offset <= |rows|
    ensures var s := Sweep(step, blank, records, rows, |rows|, batchSize, offset, acc);
      var b := RunBatch(step, blank, records, rows, offset, |rows|);
      s.totals == Add(acc, b.counts) && s.records == b.records
    decreases |rows| - offset
  {
    if offset < |rows| {
      var page := Page(rows, offset, batchSize);
      var next := offset + |page|;
      assert next == Min(offset + batchSize, |rows|);
      RunBatchSplit(step, blank, records, rows, offset, next, |rows|);
      var b := RunBatch(step, blank, records, rows, offset, next);
      SweepNext(step, blank, records, rows, |rows|, batchSize, offset, acc, page, b.counts, b.records);
      if next < |rows| {
        SweepCovers(step, blank, b.records, rows, batchSize, next, Add(acc, b.counts));
      }
    }
  }

  /** The resumability property: a run over a consistent aggregate ends with
      the same records and totals as one pass over all rows, so any two
      batch sizes give the same result, and its totals account for every
      row. */
  lemma RunIndependentOfBatchSize<P>(step: Step<P>, blank: P, records: map<int, P>, rows: seq<SpendRow>, size1: int, size2: int)
    requires |rows| > 0 && size1 >= 1 && size2 >= 1
    ensures var s1 := Sweep(step, blank, records, rows, |rows|, size1, 0, NoCounts);
      var s2 := Sweep(step, blank, records, rows, |rows|, size2, 0, NoCounts);
      s1.totals == s2.totals && s1.records == s2.records
      && s1.records == RunBatch(step, blank, records, rows, 0, |rows|).records
    ensures var c := Sweep(step, blank, records, rows, |rows|, size1, 0, NoCounts).totals;
      c.processed + c.skipped == |rows| && 0 <= c.updated <= c.processed
  {
    SweepCovers(step, blank, records, rows, size1, 0, NoCounts);
    SweepCovers(step, blank, records, rows, size2, 0, NoCounts);
    BatchCountsBalance(step, blank, records, rows, 0, |rows|);
  }

  /** Every statistics entry written between batches says the run is still
      going. */
  lemma {:induction false} SweepLogRunning<P>(step: Step<P>, blank: P, records: map<int, P>, rows: seq<SpendRow>, total: nat, batchSize: int, offset: int, acc: Counts)
    requires total > 0
    ensures forall e :: e in Sweep(step, blank, records, rows, total, batchSize, offset, acc).log ==> e.IsRunning()
    decreases total - offset
  {
    if offset < total {
      var page := Page(rows, offset, batchSize);
      if page != [] {
        var b := RunBatch(step, blank, records, rows, offset, offset + |page|);
        SweepNext(step, blank, records, rows, total, batchSize, offset, acc, page, b.counts, b.records);
        SweepLogRunning(step, blank, b.records, rows, total, batchSize, offset + batchSize, Add(acc, b.counts));
      }
    }
  }

  /** A user none of whose rows is in the range keeps their record, and has
      an entry afterwards exactly when they had one before. */
  lemma {:induction false} BatchFrame<P>(step: Step<P>, blank: P, records: map<int, P>, rows: seq<SpendRow>, lo: int, hi: int, u: int)
    requires 0 <= lo <= hi <= |rows|
    requires forall i :: lo <= i < hi ==> rows[i].userId != u
    ensures var r := RunBatch(step, blank, records, rows, lo, hi).records;
      (u in r <==> u in records) && Lookup(r, u, blank) == Lookup(records, u, blank)
    decreases hi - lo
  {
    if hi > lo {
      BatchFrame(step, blank, records, rows, lo, hi - 1, u);
    }
  }

  /** A property of records that every step keeps still holds after a
      batch for every user it held for before. */
  lemma {:induction false} BatchPreserves<P>(step: Step<P>, blank: P, keep: P -> bool, records: map<int, P>, rows: seq<SpendRow>, lo: int, hi: int, u: int)
    requires 0 <= lo <= hi <= |rows|
    requires forall p, r :: keep(p) ==> keep(step(p, r).record)
    requires keep(Lookup(records, u, blank))
    ensures keep(Lookup(RunBatch(step, blank, records, rows, lo, hi).records, u, blank))
    decreases hi - lo
  {
    if hi > lo {
      BatchPreserves(step, blank, keep, records, rows, lo, hi - 1, u);
    }
  }

  /** The same for a whole run. */
  lemma {:induction false} SweepPreserves<P>(step: Step<P>, blank: P, keep: P -> bool, records: map<int, P>, rows: seq<SpendRow>, total: nat, batchSize: int, offset: int, acc: Counts, u: int)
    requires total > 0
    requires forall p, r :: keep(p) ==> keep(step(p, r).record)
    requires keep(Lookup(records, u, blank))
    ensures keep(Lookup(Sweep(step, blank, records, rows, total, batchSize, offset, acc).records, u, blank))
    decreases total - offset
  {
    if offset < total {
      var page := Page(rows, offset, batchSize);
      if page != [] {
        BatchPreserves(step, blank, keep, records, rows, offset, offset + |page|, u);
        var b := RunBatch(step, blank, records, rows, offset, offset + |page|);
        SweepNext(step, blank, records, rows, total, batchSize, offset, acc, page, b.counts, b.records);
        SweepPreserves(step, blank, keep, b.records, rows, total, batchSize, offset + batchSize, Add(acc, b.counts), u);
      }
    }
  }

  /** No user appears twice in the rows (the aggregate groups by user). */
  predicate DistinctUsers(rows: seq<SpendRow>) {
    forall i, j :: 0 <= i < j < |rows| ==> rows[i].userId != rows[j].userId
  }

  /** When every step leaves a record that is `settled` for its row, then
      after a batch of distinct users each of them has an entry and it is
      settled for that user's row. */
  lemma {:induction false} BatchSettles<P>(step: Step<P>, blank: P, settled: (P, SpendRow) -> bool, records: map<int, P>, rows: seq<SpendRow>, n: int)
    requires 0 <= n <= |rows| && DistinctUsers(rows)
    requires forall p, r :: settled(step(p, r).record, r)
    ensures var m := RunBatch(step, blank, records, rows, 0, n).records;
      forall i :: 0 <= i < n ==> rows[i].userId in m && settled(m[rows[i].userId], rows[i])
    decreases n
  {
    if n > 0 {
      BatchSettles(step, blank, settled, records, rows, n - 1);
      forall i | 0 <= i < n - 1
        ensures rows[i].userId != rows[n - 1].userId
      {
      }
    }
  }

  /** A batch in which every user already has an entry that the step
      leaves as it is, without updating, changes nothing and updates no
      one. */
  lemma {:induction false} BatchStable<P>(step: Step<P>, blank: P, records: map<int, P>, rows: seq<SpendRow>, n: int)
    requires 0 <= n <= |rows|
    requires forall i :: 0 <= i < n ==> rows[i].userId in records
    requires forall i :: 0 <= i < n ==>
      var s := step(records[rows[i].userId], rows[i]);
      s.record == records[rows[i].userId] && s.outcome != Updated
    ensures RunBatch(step, blank, records, rows, 0, n).records == records
    ensures RunBatch(step, blank, records, rows, 0, n).counts.updated == 0
    decreases n
  {
    if n > 0 {
      BatchStable(step, blank, records, rows, n - 1);
      var u := rows[n - 1].userId;
      assert records[u := records[u]] == records;
    }
  }
}
