/** What amounts of a usage report land where, in terms of the report itself: its days, its
    costs in dollars, and the cents on record. */
module CostAmounts {
  import opened Options
  import opened CostSync
  import opened CostSyncLaws

  /** The total on record is the report's: its tokens, and its cost in cents, rounded to the
      nearest and up in the middle. */
  predicate Records(t: Total, e: Entry) {
    && t.input == e.input && t.output == e.output
    && 100.0 * e.totalCost - 0.5 < t.costCents as real <= 100.0 * e.totalCost + 0.5
  }

  predicate Used(e: Entry) {
    e.totalCost != 0.0 || e.totalTokens != 0
  }

  lemma TotalRecords(e: Entry)
    ensures Records(TotalOf(e), e)
  {
    var exact := e.totalCost * 100.0 + 0.5;
    assert exact.Floor as real <= exact < exact.Floor as real + 1.0;
  }

  /** No other total has these properties. */
  lemma RecordsOne(t: Total, u: Total, e: Entry)
    requires Records(t, e) && Records(u, e)
    ensures t == u
  {
  }

  /** An upsert puts the entry's amounts on record for its day, leaves all other days, and
      charges the budgets what the day costs more than before. */
  lemma {:induction false} UpsertRecords(a: Account, e: Entry)
    ensures var t := Upsert(a, e);
            && e.date in t.ledger && Records(t.ledger[e.date], e)
            && (forall day | day != e.date :: (day in t.ledger <==> day in a.ledger)
                                              && (day in a.ledger ==> t.ledger[day] == a.ledger[day]))
            && t.watermark == a.watermark
            && t.spent - a.spent
               == (var before := if e.date in a.ledger then a.ledger[e.date].costCents else 0;
                   var more := t.ledger[e.date].costCents - before;
                   if e.date in a.ledger && more < 0 then 0 else more)
  {
    TotalRecords(e);
  }

  /** Over any runs on reports that may be relied on: each day with usage up to the
      watermark has the final report's amounts on record. */
  lemma {:induction false} AmountsSettled(finals: Finals, a: Account, runs: seq<Run>, day: int)
    requires Dated(finals) && runs != [] && GoodRuns(finals, a, runs) && Settled(finals, a, runs[0].today)
    requires var t := After(a, runs); t.watermark.Some? && day <= t.watermark.value && Used(finals(day))
    ensures var t := After(a, runs);
            day in t.ledger && Records(t.ledger[day], finals(day)) && t.watermark.value < runs[|runs| - 1].today
  {
    AlwaysSettled(finals, a, runs);
    assert DayFinal(finals, After(a, runs), day);
    TotalRecords(finals(day));
  }

  // ---- What a run processes --------------------------------------------------------------------

  /** A day that a run has to deal with: one with usage that is today or after the
      watermark. */
  predicate Due(e: Entry, run: Run, watermark: Option<int>) {
    Used(e) && (e.date == run.today || watermark.None? || e.date > watermark.value)
  }

  lemma {:induction false} FilteredAscends(daily: seq<Entry>, today: int, watermark: Option<int>)
    requires Ascending(daily)
    ensures Ascending(Filtered(daily, today, watermark))
  {
    if daily != [] {
      var init, last := daily[..|daily| - 1], daily[|daily| - 1];
      FilteredAscends(init, today, watermark);
      FilteredMembers(init, today, watermark);
      var kept := Filtered(init, today, watermark);
      forall i | 0 <= i < |kept| ensures kept[i].date < last.date {
        assert kept[i] in kept && kept[i] in init;
        var k :| 0 <= k < |init| && init[k] == kept[i];
        assert daily[k].date < daily[|daily| - 1].date;
      }
    }
  }

  lemma {:induction false} LaterOnes(entries: seq<Entry>, n: nat)
    requires Ascending(entries) && n < |entries|
    ensures |set e | e in entries && e.date > entries[n].date| == |entries| - 1 - n
    decreases |entries| - n
  {
    var later := set e | e in entries && e.date > entries[n].date;
    if n == |entries| - 1 {
      forall e | e in entries ensures e.date <= entries[n].date {
        var k :| 0 <= k < |entries| && entries[k] == e;
      }
      assert later == {};
    } else {
      LaterOnes(entries, n + 1);
      var fewer := set e | e in entries && e.date > entries[n + 1].date;
      forall e | e in later ensures e == entries[n + 1] || e in fewer {
        var k :| 0 <= k < |entries| && entries[k] == e;
        assert k > n;
      }
      assert later == fewer + {entries[n + 1]};
    }
  }

  /** Of a report in the order of its days a run processes the due entries, the latest
      thirty of them. */
  lemma {:induction false} ProcessesLatest(a: Account, run: Run, e: Entry)
    requires Ascending(run.daily) && e in run.daily
    ensures e in ToProcess(a, run)
            <==> Due(e, run, a.watermark)
                 && |set x | x in run.daily && Due(x, run, a.watermark) && x.date > e.date| < 30
  {
    var all := Filtered(run.daily, run.today, a.watermark);
    FilteredMembers(run.daily, run.today, a.watermark);
    FilteredAscends(run.daily, run.today, a.watermark);
    if e in all {
      var n :| 0 <= n < |all| && all[n] == e;
      LaterOnes(all, n);
      assert (set x | x in run.daily && Due(x, run, a.watermark) && x.date > e.date)
          == (set x | x in all && x.date > all[n].date);
      WindowAt(all, n);
    }
  }

  lemma WindowAt(all: seq<Entry>, n: nat)
    requires Ascending(all) && n < |all|
    ensures all[n] in LastDays(all) <==> |all| - 1 - n < 30
  {
    var days := LastDays(all);
    if |all| - 1 - n < 30 {
      assert |all| > 30 ==> days[n - (|all| - 30)] == all[n];
    } else {
      forall i | 0 <= i < |days| ensures days[i] != all[n] {
        assert days[i] == all[i + |all| - 30];
      }
    }
  }

  lemma {:induction false} UpsertedAmounts(a: Account, entries: seq<Entry>, e: Entry)
    requires Ascending(entries) && e in entries
    ensures var t := UpsertAll(a, entries); e.date in t.ledger && Records(t.ledger[e.date], e)
  {
    var init, last := entries[..|entries| - 1], entries[|entries| - 1];
    assert entries == init + [last];
    UpsertRecords(UpsertAll(a, init), last);
    if e != last {
      UpsertedAmounts(a, init, e);
      var k :| 0 <= k < |init| && init[k] == e;
      assert entries[k].date < entries[|entries| - 1].date;
    }
  }

  /** A run that completes has recorded today's usage, as it stands in the report. */
  lemma {:induction false} TodayRecorded(a: Account, run: Run, e: Entry)
    requires Completes(a, run) && Ascending(run.daily) && e in run.daily && e.date == run.today && Used(e)
    requires forall x | x in run.daily :: x.date <= run.today
    ensures var t := SyncOnce(a, run); run.today in t.ledger && Records(t.ledger[run.today], e)
  {
    assert (set x | x in run.daily && Due(x, run, a.watermark) && x.date > e.date) == {};
    ProcessesLatest(a, run, e);
    FilteredAscends(run.daily, run.today, a.watermark);
    UpsertedAmounts(a, ToProcess(a, run), e);
  }

  lemma {:induction false} LatestIs(entries: seq<Entry>, today: int, watermark: Option<int>)
    ensures var latest := Latest(entries, today, watermark);
            && (watermark.Some? ==> latest.Some? && latest.value >= watermark.value)
            && (forall e | e in entries && e.date != today :: latest.Some? && latest.value >= e.date)
            && (latest == watermark || exists e :: e in entries && e.date != today && latest == Some(e.date))
  {
    if entries != [] {
      var init, last := entries[..|entries| - 1], entries[|entries| - 1];
      assert entries == init + [last];
      LatestIs(init, today, watermark);
    }
  }

  /** A run that completes moves the watermark to the latest day it has processed, today
      left out, if that is later; one that does not complete leaves it. */
  lemma {:induction false} WatermarkMoves(a: Account, run: Run)
    ensures var w, entries := SyncOnce(a, run).watermark, ToProcess(a, run);
            if run.throwsAt.Some? && run.throwsAt.value <= |entries| then w == a.watermark
            else
              && (a.watermark.Some? ==> w.Some? && w.value >= a.watermark.value)
              && (forall e | e in entries && e.date != run.today :: w.Some? && w.value >= e.date)
              && (w == a.watermark || exists e :: e in entries && e.date != run.today && w == Some(e.date))
  {
    LatestIs(ToProcess(a, run), run.today, a.watermark);
    if !Completes(a, run) {
      var _ := CutOffFacts(a, ToProcess(a, run), run.throwsAt.value, run.recorded, run.today);
    }
  }
}
