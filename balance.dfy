/**
 * The balance commands: setting the balance for a date, which replaces the
 * snapshot of that date or records a new one, showing the latest snapshot,
 * and the amount parser the other commands share. The decimal parser and
 * the date parser are library calls, passed in as functions.
 */
module Balance {
  import opened Wrappers
  import opened Calendar
  import opened Ids
  import opened Models
  import opened Text
  import opened Cashflow

  /** Why a command stops before saving anything. */
  datatype CommandError =
    | InvalidAmount       // the amount does not parse as a decimal
    | InvalidDate         // the date matches neither accepted format
    | InvalidDay          // a day of the month outside 1..31
    | Id(error: IdError)  // the typed identifier does not resolve
    | NotFound            // no stored transaction has the resolved id

  /** parse_amount: every space is removed, the rest goes to the decimal parser. */
  function ParseAmount(s: string, decimal: string -> Option<real>): (r: Option<real>)
    ensures ' ' !in s ==> r == decimal(s)
  {
    StripSpacesOfSpaceFree(s);
    decimal(StripSpaces(s))
  }

  /** Spaces anywhere in an amount make no difference to its value or to its rejection. */
  lemma ParseAmountIgnoresSpaces(s: string, t: string, decimal: string -> Option<real>)
    ensures ParseAmount(s, decimal) == ParseAmount(StripSpaces(s), decimal)
    ensures StripSpaces(s) == StripSpaces(t) ==> ParseAmount(s, decimal) == ParseAmount(t, decimal)
  {
    StripSpacesIdempotent(s);
  }

  lemma ParseAmountExamplePositive(decimal: string -> Option<real>)
    ensures ParseAmount("22 158", decimal) == ParseAmount("22158", decimal) == decimal("22158")
  {
    StripAroundSpace("22", "158");
    assert "22" + " " + "158" == "22 158" && "22" + "158" == "22158";
    StripSpacesOfSpaceFree("22158");
  }

  lemma ParseAmountExampleNegative(decimal: string -> Option<real>)
    ensures ParseAmount("- 478", decimal) == ParseAmount("-478", decimal) == decimal("-478")
  {
    StripAroundSpace("-", "478");
    StripSpacesOfSpaceFree("-478");
  }

  /** parse_date: the Czech format first, then the ISO one. */
  function ParseDate(s: string, czech: string -> Option<Date>, iso: string -> Option<Date>): (r: Option<Date>)
    ensures r.Some? <==> czech(s).Some? || iso(s).Some?
    ensures czech(s).Some? ==> r == czech(s)
    ensures czech(s).None? ==> r == iso(s)
  {
    if czech(s).Some? then czech(s) else iso(s)
  }

  // ---------------------------------------------------------------------
  // balance set

  /** Position i holds the first snapshot of the date. */
  predicate IsFirstSnapshotAt(snaps: seq<BalanceSnapshot>, date: Date, i: int) {
    0 <= i < |snaps| && snaps[i].date == date && forall j :: 0 <= j < i ==> snaps[j].date != date
  }

  function SnapshotIndex(snaps: seq<BalanceSnapshot>, date: Date): (r: Option<nat>)
    ensures r.Some? ==> IsFirstSnapshotAt(snaps, date, r.value)
    ensures r.None? <==> forall j :: 0 <= j < |snaps| ==> snaps[j].date != date
  {
    if snaps == [] then None
    else if snaps[0].date == date then Some(0)
    else match SnapshotIndex(snaps[1..], date)
      case None =>
        assert forall j :: 1 <= j < |snaps| ==> snaps[j] == snaps[1..][j - 1];
        None
      case Some(k) =>
        assert forall j :: 1 <= j < |snaps| ==> snaps[j] == snaps[1..][j - 1];
        Some(k + 1)
  }

  /** The snapshots after the balance of date is set to amount. */
  function Upsert(snaps: seq<BalanceSnapshot>, date: Date, amount: real, id: Uuid, createdAt: int): seq<BalanceSnapshot> {
    match SnapshotIndex(snaps, date)
    case Some(k) => snaps[k := snaps[k].(balance := amount)]
    case None => snaps + [NewSnapshot(id, createdAt, date, amount)]
  }

  /** The search for the first snapshot of a date, as the command walks the list. */
  method FindSnapshot(snaps: seq<BalanceSnapshot>, date: Date) returns (k: Option<nat>)
    ensures k == SnapshotIndex(snaps, date)
  {
    var i := 0;
    while i < |snaps| && snaps[i].date != date
      invariant 0 <= i <= |snaps|
      invariant forall j :: 0 <= j < i ==> snaps[j].date != date
    {
      i := i + 1;
    }
    if i < |snaps| {
      k := Some(i);
      assert IsFirstSnapshotAt(snaps, date, i);
    } else {
      k := None;
    }
  }

  /**
   * balance set: the amount is parsed first, then the date (today when none
   * is given); the snapshot of that date gets the amount, or a new snapshot
   * is recorded. Ok carries the ledger to save.
   */
  method SetBalance(data: CashflowData, amountStr: string, dateStr: Option<string>, today: Date,
                    id: Uuid, createdAt: int, decimal: string -> Option<real>, czech: string -> Option<Date>, iso: string -> Option<Date>)
    returns (r: Result<CashflowData, CommandError>)
    ensures ParseAmount(amountStr, decimal).None? ==> r == Err(InvalidAmount)
    ensures ParseAmount(amountStr, decimal).Some? && dateStr.Some? && ParseDate(dateStr.value, czech, iso).None? ==>
      r == Err(InvalidDate)
    ensures ParseAmount(amountStr, decimal).Some? && (dateStr.None? || ParseDate(dateStr.value, czech, iso).Some?) ==>
      var date := if dateStr.Some? then ParseDate(dateStr.value, czech, iso).value else today;
      r == Ok(data.(balanceSnapshots := Upsert(data.balanceSnapshots, date, ParseAmount(amountStr, decimal).value, id, createdAt)))
  {
    var amount := ParseAmount(amountStr, decimal);
    if amount.None? {
      return Err(InvalidAmount);
    }
    var date := today;
    if dateStr.Some? {
      var parsed := ParseDate(dateStr.value, czech, iso);
      if parsed.None? {
        return Err(InvalidDate);
      }
      date := parsed.value;
    }
    var snaps := data.balanceSnapshots;
    var k := FindSnapshot(snaps, date);
    if k.Some? {
      snaps := snaps[k.value := snaps[k.value].(balance := amount.value)];
    } else {
      snaps := snaps + [NewSnapshot(id, createdAt, date, amount.value)];
    }
    r := Ok(data.(balanceSnapshots := snaps));
  }

  /**
   * Setting the balance of a recorded date replaces the balance of its first
   * snapshot and nothing else; a new date appends exactly one snapshot.
   */
  lemma UpsertEffect(snaps: seq<BalanceSnapshot>, date: Date, amount: real, id: Uuid, createdAt: int)
    ensures var r := Upsert(snaps, date, amount, id, createdAt);
      && (forall k :: IsFirstSnapshotAt(snaps, date, k) ==>
            && |r| == |snaps|
            && r[k] == BalanceSnapshot(snaps[k].id, date, amount, snaps[k].createdAt)
            && forall j :: 0 <= j < |snaps| && j != k ==> r[j] == snaps[j])
      && ((forall j :: 0 <= j < |snaps| ==> snaps[j].date != date) ==>
            && |r| == |snaps| + 1
            && r[..|snaps|] == snaps
            && r[|snaps|].date == date && r[|snaps|].balance == amount)
  {
    forall k | IsFirstSnapshotAt(snaps, date, k) ensures SnapshotIndex(snaps, date) == Some(k) {
      var i := SnapshotIndex(snaps, date).value;
      assert IsFirstSnapshotAt(snaps, date, i);
    }
  }

  predicate DistinctDates(snaps: seq<BalanceSnapshot>) {
    forall i, j :: 0 <= i < j < |snaps| ==> snaps[i].date != snaps[j].date
  }

  /**
   * Distinct snapshot dates stay distinct, and afterwards the date has
   * exactly one snapshot, holding the new amount.
   */
  lemma UpsertKeepsDatesDistinct(snaps: seq<BalanceSnapshot>, date: Date, amount: real, id: Uuid, createdAt: int)
    requires DistinctDates(snaps)
    ensures var r := Upsert(snaps, date, amount, id, createdAt);
      && DistinctDates(r)
      && (exists k :: 0 <= k < |r| && r[k].date == date)
      && (forall k :: 0 <= k < |r| && r[k].date == date ==> r[k].balance == amount)
  {
    UpsertEffect(snaps, date, amount, id, createdAt);
    var r := Upsert(snaps, date, amount, id, createdAt);
    match SnapshotIndex(snaps, date)
    case Some(k) =>
      assert r[k].date == date;
    case None =>
      assert r[|snaps|].date == date;
  }

  /** Setting the same date twice keeps only the second amount, and the first call's snapshot. */
  lemma UpsertLastWriteWins(snaps: seq<BalanceSnapshot>, date: Date, a1: real, a2: real,
                            id1: Uuid, c1: int, id2: Uuid, c2: int)
    ensures Upsert(Upsert(snaps, date, a1, id1, c1), date, a2, id2, c2) == Upsert(snaps, date, a2, id1, c1)
  {
    var r1 := Upsert(snaps, date, a1, id1, c1);
    match SnapshotIndex(snaps, date)
    case Some(k) =>
      assert IsFirstSnapshotAt(r1, date, k);
      var i := SnapshotIndex(r1, date).value;
      assert IsFirstSnapshotAt(r1, date, i);
    case None =>
      var n := |snaps|;
      assert IsFirstSnapshotAt(r1, date, n);
      var i := SnapshotIndex(r1, date).value;
      assert IsFirstSnapshotAt(r1, date, i);
  }

  // ---------------------------------------------------------------------
  // balance show

  /** balance show: nothing on an empty list, else the latest snapshot, the last one on a tie. */
  function ShowBalance(data: CashflowData): (r: Option<BalanceSnapshot>)
    ensures r.None? <==> data.balanceSnapshots == []
    ensures r.Some? ==> exists i :: IsLatestAt(data.balanceSnapshots, i) && r.value == data.balanceSnapshots[i]
  {
    if data.balanceSnapshots == [] then None
    else Some(data.balanceSnapshots[LatestIndex(data.balanceSnapshots)])
  }

  /** The balance shown is the snapshot a projection starts from. */
  lemma ShowBalanceIsProjectionAnchor(data: CashflowData)
    ensures ShowBalance(data).Some? <==> FindLatestBalanceSnapshot(data).Ok?
    ensures ShowBalance(data).Some? ==> ShowBalance(data).value == FindLatestBalanceSnapshot(data).value
  {
  }
}
