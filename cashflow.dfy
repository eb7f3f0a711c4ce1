/**
 * The cash-flow projection engine. From the latest balance snapshot it
 * reconciles the balance forward to today, then lists the recurring
 * occurrences and one-time entries of the next days in (date, creation time)
 * order with the running balance after each.
 *
 * Each loop of the engine is a method proved equal to a specification
 * function; the properties of those functions are proved in
 * CashflowProperties.
 */
module Cashflow {
  import opened Wrappers
  import opened Calendar
  import opened Ids
  import opened Models
  import opened StableSort

  /**
   * A dated item of a projection: a one-time entry, or one occurrence of a
   * rule dressed as a one-time entry; isRecurring tells which.
   */
  datatype Occurrence = Occurrence(date: Date, txn: OneTimeTransaction, isRecurring: bool)

  /** The occurrence of a rule on a date: it carries the rule's id, text, amount and creation time. */
  function OccurrenceOf(rule: RecurringTransaction, date: Date): (o: Occurrence)
    ensures o.date == date && o.txn.date == date && o.isRecurring
    ensures o.txn.id == rule.id && o.txn.description == rule.description
    ensures o.txn.amount == rule.amount && o.txn.createdAt == rule.createdAt
  {
    Occurrence(date, OneTimeTransaction(rule.id, rule.description, rule.amount, date, rule.createdAt), true)
  }

  /** A one-time entry as an item of a projection. */
  function EntryOccurrence(e: OneTimeTransaction): (o: Occurrence)
    ensures o.date == e.date && o.txn == e && !o.isRecurring
  {
    Occurrence(e.date, e, false)
  }

  // ---------------------------------------------------------------------
  // Expansion of one rule

  /**
   * The occurrence of a rule in the month with index k, when its clamped date
   * lies in the half-open window (start, end].
   */
  function OccurrenceInMonth(rule: RecurringTransaction, start: Date, end: Date, k: int): seq<Occurrence> {
    match TransactionDateInMonth(MonthStart(k), rule.dayOfMonth)
    case None => []
    case Some(d) => if Before(start, d) && NotAfter(d, end) then [OccurrenceOf(rule, d)] else []
  }

  /** The occurrences in the months from index k to the month of end, in month order. */
  function ExpansionFrom(rule: RecurringTransaction, start: Date, end: Date, k: int): seq<Occurrence>
    decreases MonthIndex(end) + 1 - k
  {
    if k > MonthIndex(end) then []
    else OccurrenceInMonth(rule, start, end, k) + ExpansionFrom(rule, start, end, k + 1)
  }

  /** Every occurrence of a rule in (start, end], one per calendar month, in date order. */
  function Expansion(rule: RecurringTransaction, start: Date, end: Date): seq<Occurrence> {
    ExpansionFrom(rule, start, end, MonthIndex(start))
  }

  lemma ConcatAssociative<T>(a: seq<T>, b: seq<T>, c: seq<T>)
    ensures (a + b) + c == a + (b + c)
  {
  }

  /** Only the year and month of the base date matter for the clamped date. */
  lemma TransactionDateDependsOnMonth(baseDate: Date, dayOfMonth: U8)
    ensures TransactionDateInMonth(baseDate, dayOfMonth) == TransactionDateInMonth(MonthStart(MonthIndex(baseDate)), dayOfMonth)
  {
    MonthIndexOrder(baseDate, MonthStart(MonthIndex(baseDate)));
  }

  /** What the loop keeps in the month of current, as the occurrences of that month. */
  function KeptInMonth(rule: RecurringTransaction, start: Date, end: Date, current: Date): (r: seq<Occurrence>)
    ensures r == OccurrenceInMonth(rule, start, end, MonthIndex(current))
    ensures MonthIndex(current) > MonthIndex(end) ==> r == []
  {
    TransactionDateDependsOnMonth(current, rule.dayOfMonth);
    match TransactionDateInMonth(current, rule.dayOfMonth)
    case None => []
    case Some(d) =>
      MonthIndexOrder(start, end);
      MonthIndexOrder(d, current);
      if Before(start, d) && NotAfter(d, end) then [OccurrenceOf(rule, d)] else []
  }

  /** One step of the loop: the month of current, then the months after it. */
  lemma ExpansionStep(rule: RecurringTransaction, start: Date, end: Date, current: Date)
    requires MonthIndex(current) <= MonthIndex(end)
    ensures ExpansionFrom(rule, start, end, MonthIndex(current))
      == KeptInMonth(rule, start, end, current) + ExpansionFrom(rule, start, end, MonthIndex(current) + 1)
  {
  }

  /** A window whose end lies in an earlier month than its start holds nothing. */
  lemma ExpansionOfReversedWindow(rule: RecurringTransaction, start: Date, end: Date)
    requires MonthIndex(start) > MonthIndex(end)
    ensures Expansion(rule, start, end) == []
  {
  }

  /** The loop's exit test compares months by their indices. */
  lemma PastEndMonth(current: Date, end: Date)
    ensures (current.year > end.year || (current.year == end.year && current.month > end.month))
      <==> MonthIndex(current) > MonthIndex(end)
  {
  }

  /** How one pass of the loop below carries its invariant to the next month or to the exit. */
  lemma LoopStep(rule: RecurringTransaction, start: Date, end: Date, current: Date, before: seq<Occurrence>)
    requires MonthIndex(current) <= MonthIndex(end) || (current == start && before == [])
    requires MonthIndex(current) <= MonthIndex(end) ==>
      before + ExpansionFrom(rule, start, end, MonthIndex(current)) == Expansion(rule, start, end)
    ensures var after := before + KeptInMonth(rule, start, end, current);
      var next := NextMonth(current);
      && MonthIndex(next) == MonthIndex(current) + 1
      && ((next.year > end.year || (next.year == end.year && next.month > end.month)) <==> MonthIndex(next) > MonthIndex(end))
      && (MonthIndex(next) > MonthIndex(end) ==> after == Expansion(rule, start, end))
      && (MonthIndex(next) <= MonthIndex(end) ==> after + ExpansionFrom(rule, start, end, MonthIndex(next)) == Expansion(rule, start, end))
  {
    var kept := KeptInMonth(rule, start, end, current);
    var next := NextMonth(current);
    PastEndMonth(next, end);
    if MonthIndex(current) <= MonthIndex(end) {
      ExpansionStep(rule, start, end, current);
      ConcatAssociative(before, kept, ExpansionFrom(rule, start, end, MonthIndex(current) + 1));
      if MonthIndex(next) > MonthIndex(end) {
        assert ExpansionFrom(rule, start, end, MonthIndex(next)) == [];
        assert before + kept + [] == before + kept;
      }
    } else {
      ExpansionOfReversedWindow(rule, start, end);
      assert kept == [];
      assert before + kept == [];
    }
  }

  /**
   * The month-stepping loop: it visits the month of start and every month
   * up to the month of end, keeping the clamped dates that fall in (start, end].
   */
  method GenerateRecurringTransactions(recurring: RecurringTransaction, startDate: Date, endDate: Date)
    returns (transactions: seq<Occurrence>)
    ensures transactions == Expansion(recurring, startDate, endDate)
  {
    transactions := [];
    var currentDate := startDate;
    while true
      invariant MonthIndex(currentDate) <= MonthIndex(endDate) || (currentDate == startDate && transactions == [])
      invariant MonthIndex(currentDate) <= MonthIndex(endDate) ==>
        transactions + ExpansionFrom(recurring, startDate, endDate, MonthIndex(currentDate)) == Expansion(recurring, startDate, endDate)
      decreases if MonthIndex(currentDate) <= MonthIndex(endDate) then MonthIndex(endDate) - MonthIndex(currentDate) + 1 else 0
    {
      ghost var kept := KeptInMonth(recurring, startDate, endDate, currentDate);
      ghost var before := transactions;
      LoopStep(recurring, startDate, endDate, currentDate, before);
      match TransactionDateInMonth(currentDate, recurring.dayOfMonth) {
        case Some(txnDate) =>
          if Before(startDate, txnDate) && NotAfter(txnDate, endDate) {
            var oneTime := OneTimeTransaction(recurring.id, recurring.description, recurring.amount, txnDate, recurring.createdAt);
            transactions := transactions + [Occurrence(txnDate, oneTime, true)];
          }
        case None =>
      }
      assert transactions == before + kept;
      currentDate := NextMonth(currentDate);
      if currentDate.year > endDate.year || (currentDate.year == endDate.year && currentDate.month > endDate.month) {
        break;
      }
    }
  }

  // ---------------------------------------------------------------------
  // The anchor snapshot

  /**
   * Position i holds a snapshot with the greatest date, and every later
   * position holds a strictly earlier one: the last of several latest dates.
   */
  predicate IsLatestAt(snaps: seq<BalanceSnapshot>, i: int) {
    && 0 <= i < |snaps|
    && (forall j :: 0 <= j < |snaps| ==> NotAfter(snaps[j].date, snaps[i].date))
    && (forall j :: i < j < |snaps| ==> Before(snaps[j].date, snaps[i].date))
  }

  /** The maximum by date, a later position winning a tie. */
  function LatestIndex(snaps: seq<BalanceSnapshot>): (i: nat)
    requires snaps != []
    ensures IsLatestAt(snaps, i)
    decreases |snaps|
  {
    if |snaps| == 1 then 0
    else
      var n := |snaps| - 1;
      var i := LatestIndex(snaps[..n]);
      assert forall j :: 0 <= j < n ==> snaps[..n][j] == snaps[j];
      if NotAfter(snaps[i].date, snaps[n].date) then n else i
  }

  datatype ProjectionError = NoBalanceSnapshots

  function FindLatestBalanceSnapshot(data: CashflowData): (r: Result<BalanceSnapshot, ProjectionError>)
    ensures r.Err? <==> data.balanceSnapshots == []
    ensures r.Ok? ==> exists i :: IsLatestAt(data.balanceSnapshots, i) && r.value == data.balanceSnapshots[i]
  {
    if data.balanceSnapshots == [] then Err(NoBalanceSnapshots)
    else Ok(data.balanceSnapshots[LatestIndex(data.balanceSnapshots)])
  }

  // ---------------------------------------------------------------------
  // The items of a window

  /** The occurrences of the active rules in (start, end], rule by rule in list order. */
  function RecurringOccurrences(rules: seq<RecurringTransaction>, start: Date, end: Date): seq<Occurrence>
    decreases |rules|
  {
    if rules == [] then []
    else
      var rule := rules[|rules| - 1];
      RecurringOccurrences(rules[..|rules| - 1], start, end) + (if rule.active then Expansion(rule, start, end) else [])
  }

  /** The one-time entries dated strictly between from and today, in list order. */
  function PastOneTime(entries: seq<OneTimeTransaction>, from: Date, today: Date): seq<Occurrence>
    decreases |entries|
  {
    if entries == [] then []
    else
      var e := entries[|entries| - 1];
      PastOneTime(entries[..|entries| - 1], from, today)
        + (if Before(from, e.date) && Before(e.date, today) then [EntryOccurrence(e)] else [])
  }

  /** The one-time entries dated from today to end inclusive, in list order. */
  function FutureOneTime(entries: seq<OneTimeTransaction>, today: Date, end: Date): seq<Occurrence>
    decreases |entries|
  {
    if entries == [] then []
    else
      var e := entries[|entries| - 1];
      FutureOneTime(entries[..|entries| - 1], today, end)
        + (if NotAfter(today, e.date) && NotAfter(e.date, end) then [EntryOccurrence(e)] else [])
  }

  /** Items are ordered by date, then by creation time. */
  datatype SortKey = SortKey(date: Date, createdAt: int)

  function OccurrenceKey(o: Occurrence): SortKey {
    SortKey(o.date, o.txn.createdAt)
  }

  predicate KeyLess(a: SortKey, b: SortKey) {
    Before(a.date, b.date) || (a.date == b.date && a.createdAt < b.createdAt)
  }

  lemma KeyLessIsStrictTotalOrder()
    ensures IsStrictTotalOrder(KeyLess)
  {
    forall a: SortKey, b: SortKey, c: SortKey ensures KeyLess(a, b) && KeyLess(b, c) ==> KeyLess(a, c) {
      BeforeIsStrictTotalOrder(a.date, b.date, c.date);
    }
    forall a: SortKey, b: SortKey ensures a == b || KeyLess(a, b) || KeyLess(b, a) {
      BeforeIsStrictTotalOrder(a.date, b.date, b.date);
    }
  }

  /** The stable sort of the items by (date, creation time). */
  function SortOccurrences(items: seq<Occurrence>): seq<Occurrence> {
    SortBy(items, OccurrenceKey, KeyLess)
  }

  function SumAmounts(items: seq<Occurrence>): real
    decreases |items|
  {
    if items == [] then 0.0 else SumAmounts(items[..|items| - 1]) + items[|items| - 1].txn.amount
  }

  /** The items between the snapshot and today: recurring in (from, today], one-time in (from, today). */
  function PastItems(data: CashflowData, from: Date, today: Date): seq<Occurrence> {
    SortOccurrences(RecurringOccurrences(data.recurring, from, today) + PastOneTime(data.oneTime, from, today))
  }

  /** The items of the projection: recurring in (today, end], one-time in [today, end]. */
  function FutureItems(data: CashflowData, today: Date, end: Date): seq<Occurrence> {
    SortOccurrences(RecurringOccurrences(data.recurring, today, end) + FutureOneTime(data.oneTime, today, end))
  }

  /** The balance on today: the snapshot's, plus the items since the snapshot when it is older than today. */
  function ReconciledBalance(data: CashflowData, snapshot: BalanceSnapshot, today: Date): real {
    if Before(snapshot.date, today) then snapshot.balance + SumAmounts(PastItems(data, snapshot.date, today))
    else snapshot.balance
  }

  // ---------------------------------------------------------------------
  // Rows

  /**
   * The row of one item given the balance after it. A recurring item takes
   * its description, amount and day from the first rule with its id, and
   * has no row when no rule has that id.
   */
  function RowOf(rules: seq<RecurringTransaction>, o: Occurrence, balanceAfter: real): seq<TransactionView> {
    if o.isRecurring then
      match RuleIndex(rules, o.txn.id)
      case Some(i) => [FromRecurring(rules[i], o.date, balanceAfter)]
      case None => []
    else [FromOneTime(o.txn, balanceAfter)]
  }

  /** The rows of the items, the running balance starting at balance. */
  function RowsFrom(rules: seq<RecurringTransaction>, items: seq<Occurrence>, balance: real): seq<TransactionView>
    decreases |items|
  {
    if items == [] then []
    else
      var after := balance + items[0].txn.amount;
      RowOf(rules, items[0], after) + RowsFrom(rules, items[1..], after)
  }

  /** What a projection of the next days from today returns: starting balance, today and the rows. */
  function Projection(data: CashflowData, days: int, today: Date): Result<(real, Date, seq<TransactionView>), ProjectionError> {
    match FindLatestBalanceSnapshot(data)
    case Err(e) => Err(e)
    case Ok(snapshot) =>
      var starting := ReconciledBalance(data, snapshot, today);
      Ok((starting, today, RowsFrom(data.recurring, FutureItems(data, today, AddDays(today, days)), starting)))
  }

  /** Collects the occurrences of the active rules, as both windows of a projection do. */
  method CollectRecurring(rules: seq<RecurringTransaction>, start: Date, end: Date) returns (items: seq<Occurrence>)
    ensures items == RecurringOccurrences(rules, start, end)
  {
    items := [];
    var i := 0;
    while i < |rules|
      invariant 0 <= i <= |rules|
      invariant items == RecurringOccurrences(rules[..i], start, end)
    {
      var recurring := rules[i];
      assert rules[..i + 1][..i] == rules[..i];
      if !recurring.active {
        i := i + 1;
        continue;
      }
      var recurringTxns := GenerateRecurringTransactions(recurring, start, end);
      items := items + recurringTxns;
      i := i + 1;
    }
    assert rules[..i] == rules;
  }

  /** Adds the amounts of the items to balance, one by one. */
  method ApplyAmounts(balance: real, items: seq<Occurrence>) returns (total: real)
    ensures total == balance + SumAmounts(items)
  {
    total := balance;
    var k := 0;
    while k < |items|
      invariant 0 <= k <= |items|
      invariant total == balance + SumAmounts(items[..k])
    {
      assert items[..k + 1][..k] == items[..k];
      total := total + items[k].txn.amount;
      k := k + 1;
    }
    assert items[..k] == items;
  }

  /** Step 1: the balance on today, reconciled forward from the snapshot. */
  method ReconcileBalance(data: CashflowData, snapshot: BalanceSnapshot, today: Date) returns (currentBalance: real)
    ensures currentBalance == ReconciledBalance(data, snapshot, today)
  {
    currentBalance := snapshot.balance;
    if Before(snapshot.date, today) {
      var balanceCalcEnd := today;
      var pastTransactions := CollectRecurring(data.recurring, snapshot.date, balanceCalcEnd);
      var j := 0;
      while j < |data.oneTime|
        invariant 0 <= j <= |data.oneTime|
        invariant pastTransactions == RecurringOccurrences(data.recurring, snapshot.date, today)
          + PastOneTime(data.oneTime[..j], snapshot.date, today)
      {
        var oneTime := data.oneTime[j];
        assert data.oneTime[..j + 1][..j] == data.oneTime[..j];
        if Before(snapshot.date, oneTime.date) && Before(oneTime.date, today) {
          pastTransactions := pastTransactions + [Occurrence(oneTime.date, oneTime, false)];
        }
        j := j + 1;
      }
      assert data.oneTime[..j] == data.oneTime;
      pastTransactions := SortOccurrences(pastTransactions);
      currentBalance := ApplyAmounts(currentBalance, pastTransactions);
    }
  }

  /** Step 2: the items of the projection window, sorted. */
  method CollectFuture(data: CashflowData, today: Date, endDate: Date) returns (transactions: seq<Occurrence>)
    ensures transactions == FutureItems(data, today, endDate)
  {
    transactions := CollectRecurring(data.recurring, today, endDate);
    var j := 0;
    while j < |data.oneTime|
      invariant 0 <= j <= |data.oneTime|
      invariant transactions == RecurringOccurrences(data.recurring, today, endDate)
        + FutureOneTime(data.oneTime[..j], today, endDate)
    {
      var oneTime := data.oneTime[j];
      assert data.oneTime[..j + 1][..j] == data.oneTime[..j];
      if NotAfter(today, oneTime.date) && NotAfter(oneTime.date, endDate) {
        transactions := transactions + [Occurrence(oneTime.date, oneTime, false)];
      }
      j := j + 1;
    }
    assert data.oneTime[..j] == data.oneTime;
    transactions := SortOccurrences(transactions);
  }

  lemma RowsFromStep(rules: seq<RecurringTransaction>, items: seq<Occurrence>, n: int, balance: real)
    requires 0 <= n < |items|
    ensures RowsFrom(rules, items[n..], balance)
      == RowOf(rules, items[n], balance + items[n].txn.amount) + RowsFrom(rules, items[n + 1..], balance + items[n].txn.amount)
  {
    assert items[n..][1..] == items[n + 1..];
  }

  /** Step 3: the running balance and the rows. */
  method BuildRows(rules: seq<RecurringTransaction>, transactions: seq<Occurrence>, startingBalance: real)
    returns (projected: seq<TransactionView>)
    ensures projected == RowsFrom(rules, transactions, startingBalance)
  {
    var currentBalance := startingBalance;
    projected := [];
    var n := 0;
    while n < |transactions|
      invariant 0 <= n <= |transactions|
      invariant projected + RowsFrom(rules, transactions[n..], currentBalance)
        == RowsFrom(rules, transactions, startingBalance)
    {
      var item := transactions[n];
      RowsFromStep(rules, transactions, n, currentBalance);
      currentBalance := currentBalance + item.txn.amount;
      var row: seq<TransactionView>;
      if item.isRecurring {
        match RuleIndex(rules, item.txn.id) {
          case Some(i) =>
            row := [FromRecurring(rules[i], item.date, currentBalance)];
          case None =>
            assert RowOf(rules, item, currentBalance) == [];
            assert projected + [] == projected;
            n := n + 1;
            continue;
        }
      } else {
        row := [FromOneTime(item.txn, currentBalance)];
      }
      assert row == RowOf(rules, item, currentBalance);
      ConcatAssociative(projected, row, RowsFrom(rules, transactions[n + 1..], currentBalance));
      projected := projected + row;
      n := n + 1;
    }
  }

  /**
   * The projection of the next days from today. The clock is not part of the
   * model: today is a parameter.
   */
  method ProjectCashflow(data: CashflowData, days: int, today: Date)
    returns (r: Result<(real, Date, seq<TransactionView>), ProjectionError>)
    ensures r == Projection(data, days, today)
  {
    var found := FindLatestBalanceSnapshot(data);
    if found.Err? {
      return Err(found.error);
    }
    var snapshot := found.value;
    var currentBalance := ReconcileBalance(data, snapshot, today);
    var endDate := AddDays(today, days);
    var transactions := CollectFuture(data, today, endDate);
    var startingBalance := currentBalance;
    var projected := BuildRows(data.recurring, transactions, startingBalance);
    r := Ok((startingBalance, today, projected));
  }
}
