/** What the cost watermark and the ledger are good for, over any runs. */
module CostSyncLaws {
  import opened Options
  import opened CostSync

  /** The final total of each past day. */
  type Finals = int -> Entry

  /** A report may be relied on: past days have their final entry, and none of the days
      after the watermark is missing; no day is ahead of today. */
  ghost predicate Reliable(finals: Finals, a: Account, run: Run) {
    && (forall i | 0 <= i < |run.daily| :: run.daily[i].date <= run.today)
    && (forall i | 0 <= i < |run.daily| :: run.daily[i].date < run.today ==> run.daily[i] == finals(run.daily[i].date))
    && (forall day | day < run.today && (a.watermark.Some? ==> a.watermark.value < day) && !Empty(finals(day))
          :: finals(day) in run.daily)
  }

  ghost predicate Dated(finals: Finals) {
    forall day :: finals(day).date == day
  }

  predicate DayFinal(finals: Finals, a: Account, day: int) {
    a.watermark.Some? && day <= a.watermark.value && !Empty(finals(day))
    ==> day in a.ledger && a.ledger[day] == TotalOf(finals(day))
  }

  /** The watermark is before today, and every day up to it is in the ledger for good. */
  ghost predicate Settled(finals: Finals, a: Account, today: int) {
    (a.watermark.Some? ==> a.watermark.value < today) && forall day :: DayFinal(finals, a, day)
  }

  lemma {:induction false} FilteredMembers(daily: seq<Entry>, today: int, watermark: Option<int>)
    ensures forall e :: e in Filtered(daily, today, watermark) <==> e in daily && Wanted(e, today, watermark)
  {
    if daily != [] {
      FilteredMembers(daily[..|daily| - 1], today, watermark);
      assert daily == daily[..|daily| - 1] + [daily[|daily| - 1]];
    }
  }

  /** Entries for past days are final, and none is ahead. */
  ghost predicate PastFinal(finals: Finals, entries: seq<Entry>, today: int) {
    forall e | e in entries :: e.date <= today && (e.date < today ==> e == finals(e.date))
  }

  lemma {:induction false} UpsertedDay(finals: Finals, a: Account, entries: seq<Entry>, today: int, day: int)
    requires Dated(finals) && PastFinal(finals, entries, today) && day < today
    ensures var t := UpsertAll(a, entries);
            if finals(day) in entries then day in t.ledger && t.ledger[day] == TotalOf(finals(day))
            else (day in t.ledger <==> day in a.ledger) && (day in a.ledger ==> t.ledger[day] == a.ledger[day])
  {
    if entries != [] {
      var init, last := entries[..|entries| - 1], entries[|entries| - 1];
      assert entries == init + [last];
      UpsertedDay(finals, a, init, today, day);
    }
  }

  lemma {:induction false} LatestBounds(entries: seq<Entry>, today: int, watermark: Option<int>)
    requires forall e | e in entries :: e.date <= today
    requires watermark.Some? ==> watermark.value < today
    ensures var latest := Latest(entries, today, watermark);
            && (latest.Some? ==> latest.value < today)
            && (watermark.Some? ==> latest.Some? && latest.value >= watermark.value)
            && (forall e | e in entries && e.date != today :: latest.Some? && latest.value >= e.date)
            && (latest != watermark ==> exists e :: e in entries && e.date < today && latest == Some(e.date))
  {
    if entries != [] {
      var init, last := entries[..|entries| - 1], entries[|entries| - 1];
      assert entries == init + [last];
      LatestBounds(init, today, watermark);
    }
  }

  lemma ProcessFacts(finals: Finals, a: Account, run: Run)
    requires Reliable(finals, a, run)
    ensures PastFinal(finals, ToProcess(a, run), run.today)
    ensures forall e | e in ToProcess(a, run) :: Wanted(e, run.today, a.watermark)
    ensures |Filtered(run.daily, run.today, a.watermark)| <= WINDOW ==>
              forall e | e in run.daily && Wanted(e, run.today, a.watermark) :: e in ToProcess(a, run)
  {
    FilteredMembers(run.daily, run.today, a.watermark);
    var all := Filtered(run.daily, run.today, a.watermark);
    forall e | e in ToProcess(a, run) ensures e in all {
    }
  }

  /** A run cut off has the ledger of a shorter one, and the watermark it began with. */
  lemma CutOffFacts(a: Account, entries: seq<Entry>, k: nat, recorded: bool, today: int) returns (done: seq<Entry>)
    requires k <= |entries|
    ensures var t := CutOff(a, entries, k, recorded);
            t.watermark == a.watermark && t.ledger == UpsertAll(a, done).ledger && done <= entries
  {
    WatermarkBeside(a, entries[..k], today);
    done := entries[..k];
    if recorded && k < |entries| {
      done := entries[..k + 1];
      assert done[..k] == entries[..k];
    }
  }

  /** The entries that fall out of the window. */
  function Dropped(a: Account, run: Run): seq<Entry> {
    var all := Filtered(run.daily, run.today, a.watermark);
    if |all| <= WINDOW then [] else all[..|all| - WINDOW]
  }

  /** Dropping an entry does no harm: it is today's, or later than every past day that is
      processed, or processed all the same, or in the ledger already. */
  ghost predicate Harmless(a: Account, run: Run, e: Entry) {
    || e.date == run.today
    || (forall k | k in ToProcess(a, run) && k.date != run.today :: k.date < e.date)
    || e in ToProcess(a, run)
    || (e.date in a.ledger && a.ledger[e.date] == TotalOf(e))
  }

  ghost predicate DropsHarmlessly(a: Account, run: Run) {
    forall e | e in Dropped(a, run) :: Harmless(a, run, e)
  }

  lemma KeptOrDropped(a: Account, run: Run)
    ensures forall e | e in run.daily && Wanted(e, run.today, a.watermark) ::
              e in ToProcess(a, run) || e in Dropped(a, run)
    ensures forall e | e in Dropped(a, run) :: e in run.daily && Wanted(e, run.today, a.watermark)
  {
    FilteredMembers(run.daily, run.today, a.watermark);
    var all := Filtered(run.daily, run.today, a.watermark);
    assert all == Dropped(a, run) + ToProcess(a, run);
  }

  /** One run, complete or not, with a window that does no harm: the watermark does not go
      back, stays before today, and stands for days that are in the ledger for good. */
  lemma {:induction false} OneRun(finals: Finals, a: Account, run: Run)
    requires Dated(finals) && Reliable(finals, a, run) && Settled(finals, a, run.today)
    requires DropsHarmlessly(a, run) || !Completes(a, run)
    ensures var t := SyncOnce(a, run);
            && Settled(finals, t, run.today)
            && (a.watermark.Some? ==> t.watermark.Some? && t.watermark.value >= a.watermark.value)
  {
    var entries, t := ToProcess(a, run), SyncOnce(a, run);
    ProcessFacts(finals, a, run);
    LatestBounds(entries, run.today, a.watermark);
    WatermarkBeside(a, entries, run.today);
    if !Completes(a, run) {
      var _ := CutOffFacts(a, entries, run.throwsAt.value, run.recorded, run.today);
    }
    forall day ensures DayFinal(finals, t, day) {
      if t.watermark.Some? && day <= t.watermark.value && !Empty(finals(day)) {
        if Completes(a, run) { CompleteDay(finals, a, run, day); } else { CutOffDay(finals, a, run, day); }
      }
    }
  }

  lemma CompleteDay(finals: Finals, a: Account, run: Run, day: int)
    requires Dated(finals) && Reliable(finals, a, run) && Settled(finals, a, run.today) && DropsHarmlessly(a, run)
    requires Completes(a, run) && !Empty(finals(day))
    requires var latest := Latest(ToProcess(a, run), run.today, a.watermark); latest.Some? && day <= latest.value
    ensures var t := SyncOnce(a, run); day in t.ledger && t.ledger[day] == TotalOf(finals(day))
  {
    var entries := ToProcess(a, run);
    ProcessFacts(finals, a, run);
    KeptOrDropped(a, run);
    LatestBounds(entries, run.today, a.watermark);
    assert DayFinal(finals, a, day);
    UpsertedDay(finals, a, entries, run.today, day);
    if finals(day) !in entries && !(a.watermark.Some? && day <= a.watermark.value) {
      assert finals(day) in Dropped(a, run);
      assert Harmless(a, run, finals(day));
    }
  }

  lemma CutOffDay(finals: Finals, a: Account, run: Run, day: int)
    requires Dated(finals) && Reliable(finals, a, run) && Settled(finals, a, run.today)
    requires !Completes(a, run) && !Empty(finals(day)) && a.watermark.Some? && day <= a.watermark.value
    ensures var t := SyncOnce(a, run); day in t.ledger && t.ledger[day] == TotalOf(finals(day))
  {
    var entries := ToProcess(a, run);
    ProcessFacts(finals, a, run);
    assert DayFinal(finals, a, day);
    var done := CutOffFacts(a, entries, run.throwsAt.value, run.recorded, run.today);
    assert forall e | e in done :: e in entries;
    UpsertedDay(finals, a, done, run.today, day);
  }

  /** The converse: a dropped entry that matters is a day lost. */
  lemma DayLost(finals: Finals, a: Account, run: Run, e: Entry)
    requires Dated(finals) && Reliable(finals, a, run) && Settled(finals, a, run.today) && Completes(a, run)
    requires e in Dropped(a, run) && !Harmless(a, run, e)
    ensures !DayFinal(finals, SyncOnce(a, run), e.date)
  {
    var entries := ToProcess(a, run);
    ProcessFacts(finals, a, run);
    KeptOrDropped(a, run);
    LatestBounds(entries, run.today, a.watermark);
    var i :| 0 <= i < |run.daily| && run.daily[i] == e;
    assert run.daily[i].date < run.today && e == finals(e.date);
    UpsertedDay(finals, a, entries, run.today, e.date);
  }

  /** All days up to the watermark are settled after a run if and only if the run is cut
      off, or what it drops from its window does no harm. */
  lemma {:induction false} WindowSettles(finals: Finals, a: Account, run: Run)
    requires Dated(finals) && Reliable(finals, a, run) && Settled(finals, a, run.today)
    ensures Settled(finals, SyncOnce(a, run), run.today) <==> !Completes(a, run) || DropsHarmlessly(a, run)
  {
    if !Completes(a, run) || DropsHarmlessly(a, run) {
      OneRun(finals, a, run);
    } else {
      var e :| e in Dropped(a, run) && !Harmless(a, run, e);
      DayLost(finals, a, run, e);
    }
  }

  ghost predicate Ascending(entries: seq<Entry>) {
    forall i, j | 0 <= i < j < |entries| :: entries[i].date < entries[j].date
  }

  lemma {:induction false} FilteredAscends(daily: seq<Entry>, today: int, watermark: Option<int>)
    requires Ascending(daily)
    ensures Ascending(Filtered(daily, today, watermark))
  {
    if daily != [] {
      var init := daily[..|daily| - 1];
      FilteredAscends(init, today, watermark);
      FilteredMembers(init, today, watermark);
      forall e | e in Filtered(init, today, watermark) ensures e.date < daily[|daily| - 1].date {
        assert e in init;
      }
    }
  }

  /** For a report in the order of its days: a complete run settles all days up to the new
      watermark if and only if every day that falls out of the window is in the ledger with
      its total already. */
  lemma {:induction false} OldestSettled(finals: Finals, a: Account, run: Run)
    requires Dated(finals) && Reliable(finals, a, run) && Settled(finals, a, run.today)
    requires Ascending(run.daily) && Completes(a, run)
    ensures Settled(finals, SyncOnce(a, run), run.today)
            <==> forall e | e in Dropped(a, run) :: e.date in a.ledger && a.ledger[e.date] == TotalOf(e)
  {
    WindowSettles(finals, a, run);
    forall e | e in Dropped(a, run)
      ensures Harmless(a, run, e) <==> e.date in a.ledger && a.ledger[e.date] == TotalOf(e)
    {
      OldestMatters(finals, a, run, e);
    }
  }

  lemma OldestMatters(finals: Finals, a: Account, run: Run, e: Entry)
    requires Reliable(finals, a, run) && Ascending(run.daily) && e in Dropped(a, run)
    ensures Harmless(a, run, e) <==> e.date in a.ledger && a.ledger[e.date] == TotalOf(e)
  {
    FilteredAscends(run.daily, run.today, a.watermark);
    FilteredMembers(run.daily, run.today, a.watermark);
    var all, entries := Filtered(run.daily, run.today, a.watermark), ToProcess(a, run);
    var i :| 0 <= i < |all| - WINDOW && all[i] == e;
    assert forall j | 0 <= j < |entries| :: entries[j] == all[|all| - WINDOW + j];
    var next := all[|all| - 2];
    assert next == entries[|entries| - 2] && next in entries && all[|all| - 1] in run.daily;
    assert e.date < next.date < all[|all| - 1].date <= run.today;
  }

  /** A report of the last `n` days before today. */
  function LastReport(finals: Finals, today: int, n: nat): Run {
    Run(today, seq(n, i requires 0 <= i < n => finals(today - n + i)), None, false)
  }

  lemma {:induction false} AllWanted(daily: seq<Entry>, today: int)
    requires forall e | e in daily :: !Empty(e)
    ensures Filtered(daily, today, None) == daily
  {
    if daily != [] {
      var init, last := daily[..|daily| - 1], daily[|daily| - 1];
      assert daily == init + [last] && last in daily;
      AllWanted(init, today);
    }
  }

  /** There was usage on each of the last `n` days before today, and on none before. */
  ghost predicate UsedFor(finals: Finals, today: int, n: nat) {
    Dated(finals) && forall day | day < today :: Empty(finals(day)) <==> day < today - n
  }

  lemma {:induction false} LastReportReliable(finals: Finals, today: int, n: nat)
    requires UsedFor(finals, today, n)
    ensures Reliable(finals, NEW_ACCOUNT, LastReport(finals, today, n))
  {
    var daily := LastReport(finals, today, n).daily;
    forall day | day < today && !Empty(finals(day)) ensures finals(day) in daily {
      assert daily[day - (today - n)] == finals(day);
    }
  }

  lemma {:induction false} LastReportWanted(finals: Finals, today: int, n: nat)
    requires UsedFor(finals, today, n)
    ensures Filtered(LastReport(finals, today, n).daily, today, None) == LastReport(finals, today, n).daily
  {
    AllWanted(LastReport(finals, today, n).daily, today);
  }

  /** The first catch-up of an account, after `n` days with usage: all of them are settled
      if and only if there are at most thirty. */
  lemma {:induction false} FirstCatchUp(finals: Finals, today: int, n: nat)
    requires UsedFor(finals, today, n)
    ensures Settled(finals, SyncOnce(NEW_ACCOUNT, LastReport(finals, today, n)), today) <==> n <= 30
  {
    LastReportReliable(finals, today, n);
    LastReportWanted(finals, today, n);
    var run := LastReport(finals, today, n);
    assert |run.daily| == n && Filtered(run.daily, run.today, NEW_ACCOUNT.watermark) == run.daily;
    OldestSettled(finals, NEW_ACCOUNT, run);
    if n > WINDOW {
      assert Dropped(NEW_ACCOUNT, run)[0] in Dropped(NEW_ACCOUNT, run);
    }
  }

  // ---- Any number of runs ----------------------------------------------------------------------

  ghost predicate GoodRuns(finals: Finals, a: Account, runs: seq<Run>) {
    runs == []
    || (var init, last := runs[..|runs| - 1], runs[|runs| - 1];
        && GoodRuns(finals, a, init)
        && Reliable(finals, After(a, init), last)
        && (DropsHarmlessly(After(a, init), last) || !Completes(After(a, init), last))
        && (init != [] ==> init[|init| - 1].today <= last.today))
  }

  lemma SettledLater(finals: Finals, a: Account, today: int, later: int)
    requires Settled(finals, a, today) && today <= later
    ensures Settled(finals, a, later)
  {
  }

  /** Over any runs on non-decreasing days, however many of them throw part-way: the
      watermark is before the last run's day and every non-empty day up to it has its
      final total in the ledger, even one first written while it was today. */
  lemma {:induction false} AlwaysSettled(finals: Finals, a: Account, runs: seq<Run>)
    requires Dated(finals) && runs != [] && GoodRuns(finals, a, runs)
    requires Settled(finals, a, runs[0].today)
    ensures Settled(finals, After(a, runs), runs[|runs| - 1].today)
    ensures runs[0].today <= runs[|runs| - 1].today
  {
    var init, last := runs[..|runs| - 1], runs[|runs| - 1];
    if init == [] {
      assert After(a, init) == a && |runs| == 1;
      OneRun(finals, a, last);
    } else {
      AlwaysSettled(finals, a, init);
      SettledLater(finals, After(a, init), init[|init| - 1].today, last.today);
      OneRun(finals, After(a, init), last);
    }
  }

  /** The watermark never goes back, whatever the reports say. */
  lemma {:induction false} WatermarkMonotone(a: Account, runs: seq<Run>, more: seq<Run>)
    ensures var w, v := After(a, runs).watermark, After(a, runs + more).watermark;
            w.Some? ==> v.Some? && v.value >= w.value
  {
    if After(a, runs).watermark.None? {
    } else if more == [] {
      assert runs + more == runs;
    } else {
      var init, last := more[..|more| - 1], more[|more| - 1];
      WatermarkMonotone(a, runs, init);
      assert (runs + more)[..|runs + more| - 1] == runs + init;
      var b := After(a, runs + init);
      LatestGrows(ToProcess(b, last), last.today, b.watermark);
      WatermarkBeside(b, ToProcess(b, last), last.today);
      if !Completes(b, last) {
        var _ := CutOffFacts(b, ToProcess(b, last), last.throwsAt.value, last.recorded, last.today);
      }
    }
  }

  lemma {:induction false} LatestGrows(entries: seq<Entry>, today: int, watermark: Option<int>)
    requires watermark.Some?
    ensures Latest(entries, today, watermark).Some? && Latest(entries, today, watermark).value >= watermark.value
  {
    if entries != [] {
      LatestGrows(entries[..|entries| - 1], today, watermark);
    }
  }

  // ---- Budgets ---------------------------------------------------------------------------------

  ghost function Sum(ledger: map<int, Total>): int {
    if ledger == map[] then 0 else ledger[Any(ledger)].costCents + Sum(ledger - {Any(ledger)})
  }

  ghost function Any(ledger: map<int, Total>): (day: int)
    requires ledger != map[]
    ensures day in ledger
  {
    assert (forall day :: day !in ledger) ==> ledger == map[];
    var day :| day in ledger; day
  }

  lemma {:induction false} SumWithout(ledger: map<int, Total>, day: int)
    requires day in ledger
    ensures Sum(ledger) == ledger[day].costCents + Sum(ledger - {day})
  {
    var d := Any(ledger);
    if d != day {
      SumWithout(ledger - {d}, day);
      SumWithout(ledger - {day}, d);
      assert ledger - {d} - {day} == ledger - {day} - {d};
    }
  }

  function Refund(a: Account, e: Entry): nat {
    if e.date in a.ledger && TotalOf(e).costCents < a.ledger[e.date].costCents
    then a.ledger[e.date].costCents - TotalOf(e).costCents else 0
  }

  function Refunds(a: Account, entries: seq<Entry>): nat {
    if entries == [] then 0
    else Refunds(a, entries[..|entries| - 1]) + Refund(UpsertAll(a, entries[..|entries| - 1]), entries[|entries| - 1])
  }

  lemma UpsertSpends(a: Account, e: Entry)
    ensures Upsert(a, e).spent - Sum(Upsert(a, e).ledger) == a.spent - Sum(a.ledger) + Refund(a, e)
  {
    RecordedSum(a, e);
  }

  /** Budgets are charged exactly what the ledger grows by, plus what later reports took
      back from days already charged, which is never refunded. */
  lemma {:induction false} BudgetsFollowLedger(a: Account, entries: seq<Entry>)
    ensures UpsertAll(a, entries).spent - a.spent
            == Sum(UpsertAll(a, entries).ledger) - Sum(a.ledger) + Refunds(a, entries)
  {
    if entries != [] {
      BudgetsFollowLedger(a, entries[..|entries| - 1]);
      UpsertSpends(UpsertAll(a, entries[..|entries| - 1]), entries[|entries| - 1]);
    }
  }

  /** A run that is cut off between the two writes of an upsert leaves the budgets behind
      by the change of that day; a later run, which finds the day recorded, does not make
      up for it. */
  lemma {:induction false} BudgetsAfterCutOff(a: Account, entries: seq<Entry>, k: nat, recorded: bool)
    requires k <= |entries|
    ensures var t, done := CutOff(a, entries, k, recorded), UpsertAll(a, entries[..k]);
            t.spent - a.spent == Sum(t.ledger) - Sum(a.ledger) + Refunds(a, entries[..k])
                                 - (if recorded && k < |entries| then Delta(done, entries[k]) else 0)
  {
    BudgetsFollowLedger(a, entries[..k]);
    if recorded && k < |entries| {
      RecordedSum(UpsertAll(a, entries[..k]), entries[k]);
    }
  }

  lemma RecordedSum(a: Account, e: Entry)
    ensures Sum(Record(a, e).ledger) == Sum(a.ledger) + Delta(a, e)
  {
    var t := Record(a, e);
    SumWithout(t.ledger, e.date);
    assert t.ledger - {e.date} == a.ledger - {e.date};
    if e.date in a.ledger {
      SumWithout(a.ledger, e.date);
    } else {
      assert a.ledger - {e.date} == a.ledger;
    }
  }

  /** What a run processes before it ends or throws. */
  function Processed(a: Account, run: Run): seq<Entry> {
    if Completes(a, run) then ToProcess(a, run) else ToProcess(a, run)[..run.throwsAt.value]
  }

  /** The change of a day whose event was written by a run that threw before it charged
      the budgets. */
  function Uncharged(a: Account, run: Run): int {
    if !Completes(a, run) && run.recorded && run.throwsAt.value < |ToProcess(a, run)|
    then Delta(UpsertAll(a, Processed(a, run)), ToProcess(a, run)[run.throwsAt.value]) else 0
  }

  /** By how much the budgets run ahead of the ledger after any runs. */
  function Gap(a: Account, runs: seq<Run>): int {
    if runs == [] then 0
    else
      var before, last := After(a, runs[..|runs| - 1]), runs[|runs| - 1];
      Gap(a, runs[..|runs| - 1]) + Refunds(before, Processed(before, last)) - Uncharged(before, last)
  }

  lemma BudgetsAfterRun(a: Account, run: Run)
    ensures var t := SyncOnce(a, run);
            t.spent - a.spent
            == Sum(t.ledger) - Sum(a.ledger) + Refunds(a, Processed(a, run)) - Uncharged(a, run)
  {
    if Completes(a, run) {
      BudgetsFollowLedger(a, ToProcess(a, run));
    } else {
      BudgetsAfterCutOff(a, ToProcess(a, run), run.throwsAt.value, run.recorded);
    }
  }

  /** Over any runs, on any reports and cut off anywhere, the budgets are charged what the
      ledger grows by, plus every decrease, less what runs that threw left uncharged. */
  lemma {:induction false} BudgetsOverRuns(a: Account, runs: seq<Run>)
    ensures After(a, runs).spent - a.spent == Sum(After(a, runs).ledger) - Sum(a.ledger) + Gap(a, runs)
  {
    if runs != [] {
      BudgetsOverRuns(a, runs[..|runs| - 1]);
      BudgetsAfterRun(After(a, runs[..|runs| - 1]), runs[|runs| - 1]);
    }
  }

  // ---- Which instances are synced ----------------------------------------------------------

  ghost predicate NoRepeats(listed: seq<Id>) {
    forall i, j | 0 <= i < j < |listed| :: listed[i] != listed[j]
  }

  ghost predicate NewestFirst(listed: seq<Id>, created: Id -> int) {
    forall i, j | 0 <= i < j < |listed| :: created(listed[i]) >= created(listed[j])
  }

  /** A collection reaches every running instance if and only if at most twenty run. */
  lemma {:induction false} AllReached(listed: seq<Id>)
    requires NoRepeats(listed)
    ensures (forall id | id in listed :: id in Page(listed)) <==> |listed| <= 20
  {
    if |listed| > PAGE_LIMIT {
      assert listed[PAGE_LIMIT] in listed && listed[PAGE_LIMIT] !in Page(listed);
    }
  }

  lemma {:induction false} PrefixSize(listed: seq<Id>, n: nat)
    requires NoRepeats(listed) && n <= |listed|
    ensures |set i | 0 <= i < n :: listed[i]| == n
  {
    var ids := set i | 0 <= i < n :: listed[i];
    if n > 0 {
      PrefixSize(listed, n - 1);
      var fewer := set i | 0 <= i < n - 1 :: listed[i];
      assert listed[n - 1] !in fewer;
      assert ids == fewer + {listed[n - 1]};
    }
  }

  /** Otherwise those that are missed are the oldest: an instance is reached if and only if
      fewer than twenty running ones are newer. */
  lemma {:induction false} NewestReached(listed: seq<Id>, created: Id -> int, id: Id)
    requires NoRepeats(listed) && NewestFirst(listed, created) && id in listed
    requires forall x | x in listed && x != id :: created(x) != created(id)
    ensures id in Page(listed) <==> |set x | x in listed && created(x) > created(id)| < 20
  {
    var k :| 0 <= k < |listed| && listed[k] == id;
    var newer := set x | x in listed && created(x) > created(id);
    var before := set i | 0 <= i < k :: listed[i];
    PrefixSize(listed, k);
    forall x ensures x in newer <==> x in before {
      if x in newer {
        var i :| 0 <= i < |listed| && listed[i] == x;
        assert i < k;
      }
      if x in before {
        var i :| 0 <= i < k && listed[i] == x;
        assert created(x) >= created(id);
      }
    }
    assert newer == before;
  }

  /** The runs an instance takes part in. */
  function RunsOf(id: Id, cs: seq<Collection>): seq<Run> {
    if cs == [] then []
    else
      var last := cs[|cs| - 1];
      RunsOf(id, cs[..|cs| - 1]) + if id in Page(last.listed) then [last.runs(id)] else []
  }

  /** Over any collections an instance's account is that of the runs whose page it was on;
      one that is always beyond the page stays as it was. */
  lemma {:induction false} CollectedByPage(a: Account, id: Id, cs: seq<Collection>)
    ensures AfterAll(a, id, cs) == After(a, RunsOf(id, cs))
    ensures (forall i | 0 <= i < |cs| :: id !in Page(cs[i].listed)) ==> AfterAll(a, id, cs) == a
  {
    if cs != [] {
      var init, last := cs[..|cs| - 1], cs[|cs| - 1];
      CollectedByPage(a, id, init);
      assert forall i | 0 <= i < |init| :: init[i] == cs[i];
      if id in Page(last.listed) {
        assert RunsOf(id, cs)[..|RunsOf(id, cs)| - 1] == RunsOf(id, init);
      } else {
        assert RunsOf(id, cs) == RunsOf(id, init);
      }
    }
  }
}
