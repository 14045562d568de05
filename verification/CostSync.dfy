/** Collecting usage costs: `collectCosts` and `syncInstance` of
    apps/api/src/costs/cost-collection.service.ts, with `upsertDailyCostEvent` of
    packages/database/src/repositories/cost.repository.ts.  Dates are day numbers. */
module CostSync {
  import opened Options

  type Id = string

  /** A day of the gateway's usage report. */
  datatype Entry = Entry(date: int, input: nat, output: nat, totalTokens: nat, totalCost: real)

  /** What the ledger holds of a day. */
  datatype Total = Total(input: nat, output: nat, costCents: int)

  /** One instance: `lastCostSyncDate`, its cost events by day, and what they have added
      to its budgets. */
  datatype Account = Account(watermark: Option<int>, ledger: map<int, Total>, spent: int)

  const NEW_ACCOUNT := Account(None, map[], 0)

  const WINDOW := 30

  /** `Math.round(x * 100)`. */
  function Cents(cost: real): int {
    (cost * 100.0 + 0.5).Floor
  }

  function TotalOf(e: Entry): Total {
    Total(e.input, e.output, Cents(e.totalCost))
  }

  predicate Empty(e: Entry) {
    e.totalCost == 0.0 && e.totalTokens == 0
  }

  predicate Wanted(e: Entry, today: int, watermark: Option<int>) {
    !Empty(e) && (e.date == today || !(watermark.Some? && e.date <= watermark.value))
  }

  function Filtered(daily: seq<Entry>, today: int, watermark: Option<int>): seq<Entry> {
    if daily == [] then []
    else
      var init, last := daily[..|daily| - 1], daily[|daily| - 1];
      Filtered(init, today, watermark) + if Wanted(last, today, watermark) then [last] else []
  }

  /** `slice(-30)`. */
  function LastDays(entries: seq<Entry>): seq<Entry> {
    if |entries| <= WINDOW then entries else entries[|entries| - WINDOW..]
  }

  /** The first write of an upsert sets the day's total. */
  function Record(a: Account, e: Entry): Account {
    a.(ledger := a.ledger[e.date := TotalOf(e)])
  }

  /** By how much an entry changes the cost of its day. */
  function Delta(a: Account, e: Entry): int {
    if e.date in a.ledger then TotalOf(e).costCents - a.ledger[e.date].costCents else TotalOf(e).costCents
  }

  /** The second write charges the budgets: a new day in full, a known one only for more. */
  function Upsert(a: Account, e: Entry): Account {
    Record(a, e).(spent := if e.date in a.ledger && Delta(a, e) <= 0 then a.spent else a.spent + Delta(a, e))
  }

  function UpsertAll(a: Account, entries: seq<Entry>): Account {
    if entries == [] then a else Upsert(UpsertAll(a, entries[..|entries| - 1]), entries[|entries| - 1])
  }

  /** The latest day among these, today left out, and the watermark. */
  function Latest(entries: seq<Entry>, today: int, watermark: Option<int>): Option<int> {
    if entries == [] then watermark
    else
      var before, date := Latest(entries[..|entries| - 1], today, watermark), entries[|entries| - 1].date;
      if date != today && (before.None? || date > before.value) then Some(date) else before
  }

  /** A run with the day it takes place on and the report it gets.  It may throw at some
      upsert, or after all of them at the write of the watermark; `recorded` says whether
      the upsert that throws has made its first write. */
  datatype Run = Run(today: int, daily: seq<Entry>, throwsAt: Option<nat>, recorded: bool)

  function ToProcess(a: Account, run: Run): seq<Entry> {
    LastDays(Filtered(run.daily, run.today, a.watermark))
  }

  predicate Completes(a: Account, run: Run) {
    run.throwsAt.None? || run.throwsAt.value > |ToProcess(a, run)|
  }

  function SyncOnce(a: Account, run: Run): Account {
    var entries := ToProcess(a, run);
    if Completes(a, run)
    then UpsertAll(a, entries).(watermark := Latest(entries, run.today, a.watermark))
    else CutOff(a, entries, run.throwsAt.value, run.recorded)
  }

  /** The loop over the entries, when the upsert of entry `k` throws. */
  function CutOff(a: Account, entries: seq<Entry>, k: nat, recorded: bool): Account
    requires k <= |entries|
  {
    var done := UpsertAll(a, entries[..k]);
    if recorded && k < |entries| then Record(done, entries[k]) else done
  }

  function After(a: Account, runs: seq<Run>): Account {
    if runs == [] then a else SyncOnce(After(a, runs[..|runs| - 1]), runs[|runs| - 1])
  }

  // ---- Which instances are synced -------------------------------------------------------

  const PAGE_LIMIT := 20

  /** `findMany` without pagination reads the first page; the query lists the newest
      instances first. */
  function Page(listed: seq<Id>): seq<Id> {
    if |listed| <= PAGE_LIMIT then listed else listed[..PAGE_LIMIT]
  }

  /** One collection: the running instances as listed, and the run of each. */
  datatype Collection = Collection(listed: seq<Id>, runs: Id -> Run)

  function Collected(a: Account, id: Id, c: Collection): Account {
    if id in Page(c.listed) then SyncOnce(a, c.runs(id)) else a
  }

  function AfterAll(a: Account, id: Id, cs: seq<Collection>): Account {
    if cs == [] then a else Collected(AfterAll(a, id, cs[..|cs| - 1]), id, cs[|cs| - 1])
  }

  class CostCollectionService {
    var running: bool
    var accounts: map<Id, Account>

    constructor ()
      ensures !running && accounts == map[]
    {
      running, accounts := false, map[];
    }

    function Current(id: Id): Account
      reads this`accounts
    {
      if id in accounts then accounts[id] else NEW_ACCOUNT
    }

    method RecordEvent(id: Id, e: Entry)
      modifies this`accounts
      ensures accounts == old(accounts)[id := Record(old(Current(id)), e)]
    {
      var a := Current(id);
      accounts := accounts[id := a.(ledger := a.ledger[e.date := TotalOf(e)])];
    }

    method UpsertDailyCostEvent(id: Id, e: Entry)
      modifies this`accounts
      ensures accounts == old(accounts)[id := Upsert(old(Current(id)), e)]
    {
      var known := e.date in Current(id).ledger;
      var cost := TotalOf(e).costCents;
      var delta := if known then cost - Current(id).ledger[e.date].costCents else cost;
      RecordEvent(id, e);
      if !known || delta > 0 {
        accounts := accounts[id := Current(id).(spent := Current(id).spent + delta)];
      }
    }

    /** The loop over the entries; it stops short of the one whose upsert throws. */
    method SyncEntries(id: Id, entries: seq<Entry>, today: int, throwsAt: Option<nat>)
      returns (latest: Option<int>, eventsProcessed: nat)
      modifies this`accounts
      ensures eventsProcessed == if throwsAt.Some? && throwsAt.value < |entries| then throwsAt.value else |entries|
      ensures Current(id) == UpsertAll(old(Current(id)), entries[..eventsProcessed])
      ensures latest == Latest(entries[..eventsProcessed], today, old(Current(id)).watermark)
      ensures forall x | x != id :: Current(x) == old(Current(x))
    {
      latest, eventsProcessed := Current(id).watermark, 0;
      while eventsProcessed < |entries| && throwsAt != Some(eventsProcessed)
        invariant eventsProcessed <= |entries|
        invariant throwsAt.Some? ==> throwsAt.value >= eventsProcessed
        invariant Current(id) == UpsertAll(old(Current(id)), entries[..eventsProcessed])
        invariant latest == Latest(entries[..eventsProcessed], today, old(Current(id)).watermark)
        invariant forall x | x != id :: Current(x) == old(Current(x))
      {
        var e := entries[eventsProcessed];
        UpsertDailyCostEvent(id, e);
        assert entries[..eventsProcessed + 1][..eventsProcessed] == entries[..eventsProcessed];
        eventsProcessed := eventsProcessed + 1;
        if e.date != today && (latest.None? || e.date > latest.value) {
          latest := Some(e.date);
        }
      }
    }

    method SyncInstance(id: Id, run: Run) returns (eventsProcessed: nat, threw: bool)
      modifies this`accounts
      ensures Current(id) == SyncOnce(old(Current(id)), run)
      ensures forall x | x != id :: Current(x) == old(Current(x))
      ensures threw <==> run.throwsAt.Some? && run.throwsAt.value <= |ToProcess(old(Current(id)), run)|
      ensures !threw ==> eventsProcessed == |ToProcess(old(Current(id)), run)|
    {
      ghost var a := Current(id);
      var lastSyncDate := Current(id).watermark;
      var entries := LastDays(Filtered(run.daily, run.today, lastSyncDate));
      var latest;
      latest, eventsProcessed := SyncEntries(id, entries, run.today, run.throwsAt);
      if eventsProcessed < |entries| && run.recorded {
        RecordEvent(id, entries[eventsProcessed]);
      }
      WatermarkBeside(a, entries, run.today);
      assert entries[..|entries|] == entries;
      threw := run.throwsAt == Some(eventsProcessed);
      if !threw && latest.Some? && latest != lastSyncDate {
        accounts := accounts[id := Current(id).(watermark := latest)];
      }
    }

    /** Skipped while another collection runs; otherwise the running instances on the one
        page that is read are synced, and a failure of one does not keep the others from
        it.  `listed` are all running instances, in the order of the query. */
    method CollectCosts(listed: seq<Id>, runs: Id -> Run)
      requires forall i, j | 0 <= i < j < |listed| :: listed[i] != listed[j]
      modifies this
      ensures running == old(running)
      ensures old(running) ==> accounts == old(accounts)
      ensures !old(running) ==>
                forall id :: Current(id) == Collected(old(Current(id)), id, Collection(listed, runs))
    {
      if running { return; }
      running := true;
      var instances := Page(listed);
      for i := 0 to |instances|
        invariant running
        invariant forall id :: Current(id) == if id in instances[..i] then SyncOnce(old(Current(id)), runs(id))
                                              else old(Current(id))
      {
        assert instances[i] !in instances[..i];
        var _, _ := SyncInstance(instances[i], runs(instances[i]));
        assert instances[..i + 1] == instances[..i] + [instances[i]];
      }
      assert instances[..|instances|] == instances;
      running := false;
    }
  }

  lemma {:induction false} WatermarkBeside(a: Account, entries: seq<Entry>, today: int)
    ensures UpsertAll(a, entries).watermark == a.watermark
    ensures a.watermark.Some? ==> Latest(entries, today, a.watermark).Some?
  {
    if entries != [] {
      WatermarkBeside(a, entries[..|entries| - 1], today);
    }
  }
}
