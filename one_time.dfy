/**
 * The one-time entry commands, as the steps they take on the loaded
 * ledger: add, edit and delete return the ledger to save or the error that
 * stops the command; list returns the entries in display order, optionally
 * only the upcoming ones. The UUID, decimal and date parsers are passed in.
 */
module OneTime {
  import opened Wrappers
  import opened Calendar
  import opened Ids
  import opened Models
  import opened StableSort
  import opened Balance

  /** A typed identifier resolved against the stored entries. */
  function ResolveEntryId(idStr: string, entries: seq<OneTimeTransaction>, parseFull: string -> Option<Uuid>): Result<Uuid, CommandError> {
    match ParseUuid(idStr, EntryIds(entries), parseFull)
    case Ok(id) => Ok(id)
    case Err(e) => Err(Id(e))
  }

  /** The search for the first entry with an id, as the commands walk the list. */
  method FindEntry(entries: seq<OneTimeTransaction>, id: Uuid) returns (k: Option<nat>)
    ensures k == EntryIndex(entries, id)
  {
    var i := 0;
    while i < |entries| && entries[i].id != id
      invariant 0 <= i <= |entries|
      invariant forall j :: 0 <= j < i ==> entries[j].id != id
    {
      i := i + 1;
    }
    if i < |entries| {
      k := Some(i);
      assert IsFirstEntryWithId(entries, id, i);
      var f := EntryIndex(entries, id).value;
      assert IsFirstEntryWithId(entries, id, f);
    } else {
      k := None;
    }
  }

  // ---------------------------------------------------------------------
  // one-time add

  /** one-time add: the amount is parsed first, then the date; the new entry goes last. */
  method Add(data: CashflowData, description: string, amountStr: string, dateStr: string,
             id: Uuid, createdAt: int, decimal: string -> Option<real>, czech: string -> Option<Date>, iso: string -> Option<Date>)
    returns (r: Result<CashflowData, CommandError>)
    ensures ParseAmount(amountStr, decimal).None? ==> r == Err(InvalidAmount)
    ensures ParseAmount(amountStr, decimal).Some? && ParseDate(dateStr, czech, iso).None? ==> r == Err(InvalidDate)
    ensures ParseAmount(amountStr, decimal).Some? && ParseDate(dateStr, czech, iso).Some? ==>
      r == Ok(data.(oneTime := data.oneTime
        + [NewOneTime(id, createdAt, description, ParseAmount(amountStr, decimal).value, ParseDate(dateStr, czech, iso).value)]))
  {
    var amount := ParseAmount(amountStr, decimal);
    if amount.None? {
      return Err(InvalidAmount);
    }
    var date := ParseDate(dateStr, czech, iso);
    if date.None? {
      return Err(InvalidDate);
    }
    var transaction := NewOneTime(id, createdAt, description, amount.value, date.value);
    r := Ok(data.(oneTime := data.oneTime + [transaction]));
  }

  /** An entry added under a fresh id is the one a later lookup of that id finds. */
  lemma AddedEntryIsFound(entries: seq<OneTimeTransaction>, x: OneTimeTransaction)
    requires forall j :: 0 <= j < |entries| ==> entries[j].id != x.id
    ensures EntryIndex(entries + [x], x.id) == Some(|entries|)
  {
    var s := entries + [x];
    assert IsFirstEntryWithId(s, x.id, |entries|);
    var f := EntryIndex(s, x.id).value;
    assert IsFirstEntryWithId(s, x.id, f);
  }

  // ---------------------------------------------------------------------
  // one-time list

  /** The entries dated today or later, in stored order. */
  function Upcoming(entries: seq<OneTimeTransaction>, today: Date): seq<OneTimeTransaction>
    decreases |entries|
  {
    if entries == [] then []
    else
      var n := |entries| - 1;
      Upcoming(entries[..n], today) + (if NotAfter(today, entries[n].date) then [entries[n]] else [])
  }

  /** Keeps the entries dated today or later, as the in-place retain does. */
  method RetainUpcoming(entries: seq<OneTimeTransaction>, today: Date) returns (kept: seq<OneTimeTransaction>)
    ensures kept == Upcoming(entries, today)
  {
    kept := [];
    var i := 0;
    while i < |entries|
      invariant 0 <= i <= |entries|
      invariant kept == Upcoming(entries[..i], today)
    {
      assert entries[..i + 1][..i] == entries[..i];
      if NotAfter(today, entries[i].date) {
        kept := kept + [entries[i]];
      }
      i := i + 1;
    }
    assert entries[..i] == entries;
  }

  /**
   * The upcoming filter keeps exactly the entries dated today or later, each
   * as often as it is stored, and drops every other one.
   */
  lemma {:induction false} UpcomingKeepsExactly(entries: seq<OneTimeTransaction>, today: Date, x: OneTimeTransaction)
    ensures multiset(Upcoming(entries, today))[x] == if NotAfter(today, x.date) then multiset(entries)[x] else 0
    ensures x in Upcoming(entries, today) <==> x in entries && NotAfter(today, x.date)
    decreases |entries|
  {
    if entries != [] {
      var n := |entries| - 1;
      UpcomingKeepsExactly(entries[..n], today, x);
      assert entries == entries[..n] + [entries[n]];
    }
  }

  function DateKey(e: OneTimeTransaction): Date {
    e.date
  }

  /** one-time list: the entries (only the upcoming ones on request), stably sorted by date. */
  method List(data: CashflowData, upcoming: bool, today: Date) returns (shown: seq<OneTimeTransaction>)
    ensures shown == SortBy(if upcoming then Upcoming(data.oneTime, today) else data.oneTime, DateKey, Before)
  {
    var transactions := data.oneTime;
    if upcoming {
      transactions := RetainUpcoming(transactions, today);
    }
    shown := SortBy(transactions, DateKey, Before);
  }

  /**
   * The listed entries are the chosen ones, each as often, in non-decreasing
   * date order, entries of the same date in their stored order.
   */
  lemma ListedOrder(entries: seq<OneTimeTransaction>)
    ensures multiset(SortBy(entries, DateKey, Before)) == multiset(entries)
    ensures forall i, j :: 0 <= i < j < |entries| ==>
      NotAfter(SortBy(entries, DateKey, Before)[i].date, SortBy(entries, DateKey, Before)[j].date)
    ensures forall d :: WithKey(SortBy(entries, DateKey, Before), DateKey, d) == WithKey(entries, DateKey, d)
  {
    BeforeIsOrder();
    SortBySorted(entries, DateKey, Before);
    var r := SortBy(entries, DateKey, Before);
    forall i, j | 0 <= i < j < |r| ensures NotAfter(r[i].date, r[j].date) {
      assert !Before(DateKey(r[j]), DateKey(r[i]));
      BeforeIsStrictTotalOrder(r[i].date, r[j].date, r[j].date);
    }
    forall d ensures WithKey(r, DateKey, d) == WithKey(entries, DateKey, d) {
      SortByIsStable(entries, DateKey, Before, d);
    }
  }

  // ---------------------------------------------------------------------
  // one-time edit

  /** The entry with the supplied fields replaced; the id and creation time stay. */
  function EditEntry(entry: OneTimeTransaction, amount: Option<real>, date: Option<Date>, description: Option<string>): (e: OneTimeTransaction)
    ensures e.id == entry.id && e.createdAt == entry.createdAt
    ensures e.amount == (if amount.Some? then amount.value else entry.amount)
    ensures e.date == (if date.Some? then date.value else entry.date)
    ensures e.description == (if description.Some? then description.value else entry.description)
    ensures amount.None? && date.None? && description.None? ==> e == entry
  {
    var e1 := if amount.Some? then entry.(amount := amount.value) else entry;
    var e2 := if date.Some? then e1.(date := date.value) else e1;
    if description.Some? then e2.(description := description.value) else e2
  }

  /**
   * one-time edit: after the id is resolved and found, a supplied amount is
   * parsed, then a supplied date, then the description is set. The first
   * failure stops the command, so nothing is saved.
   */
  method Edit(data: CashflowData, idStr: string, amountStr: Option<string>, dateStr: Option<string>, description: Option<string>,
              parseFull: string -> Option<Uuid>, decimal: string -> Option<real>, czech: string -> Option<Date>, iso: string -> Option<Date>)
    returns (r: Result<CashflowData, CommandError>)
    ensures ResolveEntryId(idStr, data.oneTime, parseFull).Err? ==>
      r == Err(ResolveEntryId(idStr, data.oneTime, parseFull).error)
    ensures ResolveEntryId(idStr, data.oneTime, parseFull).Ok? ==>
      var id := ResolveEntryId(idStr, data.oneTime, parseFull).value;
      var amount := if amountStr.Some? then ParseAmount(amountStr.value, decimal) else None;
      var date := if dateStr.Some? then ParseDate(dateStr.value, czech, iso) else None;
      && (EntryIndex(data.oneTime, id).None? ==> r == Err(NotFound))
      && (EntryIndex(data.oneTime, id).Some? ==>
            var k := EntryIndex(data.oneTime, id).value;
            if amountStr.Some? && amount.None? then r == Err(InvalidAmount)
            else if dateStr.Some? && date.None? then r == Err(InvalidDate)
            else r == Ok(data.(oneTime := data.oneTime[k := EditEntry(data.oneTime[k], amount, date, description)])))
  {
    var id := ResolveEntryId(idStr, data.oneTime, parseFull);
    if id.Err? {
      return Err(id.error);
    }
    var k := FindEntry(data.oneTime, id.value);
    if k.None? {
      return Err(NotFound);
    }
    var transaction := data.oneTime[k.value];
    var amount: Option<real> := None;
    if amountStr.Some? {
      amount := ParseAmount(amountStr.value, decimal);
      if amount.None? {
        return Err(InvalidAmount);
      }
      transaction := transaction.(amount := amount.value);
    }
    var date: Option<Date> := None;
    if dateStr.Some? {
      date := ParseDate(dateStr.value, czech, iso);
      if date.None? {
        return Err(InvalidDate);
      }
      transaction := transaction.(date := date.value);
    }
    if description.Some? {
      transaction := transaction.(description := description.value);
    }
    r := Ok(data.(oneTime := data.oneTime[k.value := transaction]));
  }

  /** An edit keeps every id in place; an empty edit changes nothing. */
  lemma EditKeepsIds(entries: seq<OneTimeTransaction>, k: int, amount: Option<real>, date: Option<Date>, description: Option<string>)
    requires 0 <= k < |entries|
    ensures EntryIds(entries[k := EditEntry(entries[k], amount, date, description)]) == EntryIds(entries)
    ensures amount.None? && date.None? && description.None? ==> entries[k := EditEntry(entries[k], amount, date, description)] == entries
  {
  }

  // ---------------------------------------------------------------------
  // one-time delete

  /** one-time delete: removes the first entry with the resolved id. */
  method Delete(data: CashflowData, idStr: string, parseFull: string -> Option<Uuid>)
    returns (r: Result<CashflowData, CommandError>)
    ensures ResolveEntryId(idStr, data.oneTime, parseFull).Err? ==>
      r == Err(ResolveEntryId(idStr, data.oneTime, parseFull).error)
    ensures ResolveEntryId(idStr, data.oneTime, parseFull).Ok? ==>
      var id := ResolveEntryId(idStr, data.oneTime, parseFull).value;
      && (EntryIndex(data.oneTime, id).None? ==> r == Err(NotFound))
      && (EntryIndex(data.oneTime, id).Some? ==>
            var k := EntryIndex(data.oneTime, id).value;
            r == Ok(data.(oneTime := data.oneTime[..k] + data.oneTime[k + 1..])))
  {
    var id := ResolveEntryId(idStr, data.oneTime, parseFull);
    if id.Err? {
      return Err(id.error);
    }
    var k := FindEntry(data.oneTime, id.value);
    if k.None? {
      return Err(NotFound);
    }
    r := Ok(data.(oneTime := data.oneTime[..k.value] + data.oneTime[k.value + 1..]));
  }

  /** Deleting position k drops exactly that entry and keeps the rest in order. */
  lemma DeleteRemovesOne(entries: seq<OneTimeTransaction>, k: int)
    requires 0 <= k < |entries|
    ensures var r := entries[..k] + entries[k + 1..];
      && |r| == |entries| - 1
      && (forall j :: 0 <= j < k ==> r[j] == entries[j])
      && (forall j :: k < j < |entries| ==> r[j - 1] == entries[j])
      && multiset(r) + multiset{entries[k]} == multiset(entries)
  {
    assert entries == entries[..k] + [entries[k]] + entries[k + 1..];
  }
}
