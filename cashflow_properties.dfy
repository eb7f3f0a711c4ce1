/**
 * What the projection engine promises, proved about its specification
 * functions: the expansion of one rule, the windows of the two steps, the
 * reconciled balance and the rows with their running balance.
 */
module CashflowProperties {
  import opened Wrappers
  import opened Calendar
  import opened Ids
  import opened Models
  import opened StableSort
  import opened Cashflow

  // ---------------------------------------------------------------------
  // Expansion of one rule

  /** What an occurrence of a rule in the window (start, end] is. */
  predicate IsOccurrenceIn(rule: RecurringTransaction, start: Date, end: Date, o: Occurrence) {
    && o == OccurrenceOf(rule, o.date)
    && Before(start, o.date) && NotAfter(o.date, end)
    && IsClampedDay(o.date, rule.dayOfMonth)
  }

  lemma OccurrenceInMonthSound(rule: RecurringTransaction, start: Date, end: Date, k: int)
    ensures |OccurrenceInMonth(rule, start, end, k)| <= 1
    ensures forall o :: o in OccurrenceInMonth(rule, start, end, k) ==>
      IsOccurrenceIn(rule, start, end, o) && MonthIndex(o.date) == k
  {
    var base := MonthStart(k);
    match TransactionDateInMonth(base, rule.dayOfMonth)
    case None =>
    case Some(d) =>
      TransactionDateIsLatestNotAfterTarget(base, rule.dayOfMonth, d);
      MonthIndexOrder(d, base);
  }

  lemma {:induction false} ExpansionFromSound(rule: RecurringTransaction, start: Date, end: Date, k: int)
    ensures forall o :: o in ExpansionFrom(rule, start, end, k) ==>
      IsOccurrenceIn(rule, start, end, o) && k <= MonthIndex(o.date)
    decreases MonthIndex(end) + 1 - k
  {
    if k <= MonthIndex(end) {
      OccurrenceInMonthSound(rule, start, end, k);
      ExpansionFromSound(rule, start, end, k + 1);
    }
  }

  lemma {:induction false} ExpansionFromIncreasing(rule: RecurringTransaction, start: Date, end: Date, k: int)
    ensures forall i, j :: 0 <= i < j < |ExpansionFrom(rule, start, end, k)| ==>
      MonthIndex(ExpansionFrom(rule, start, end, k)[i].date) < MonthIndex(ExpansionFrom(rule, start, end, k)[j].date)
    decreases MonthIndex(end) + 1 - k
  {
    if k <= MonthIndex(end) {
      var here := OccurrenceInMonth(rule, start, end, k);
      var rest := ExpansionFrom(rule, start, end, k + 1);
      OccurrenceInMonthSound(rule, start, end, k);
      ExpansionFromSound(rule, start, end, k + 1);
      ExpansionFromIncreasing(rule, start, end, k + 1);
      var all := here + rest;
      assert all == ExpansionFrom(rule, start, end, k);
      forall i, j | 0 <= i < j < |all| ensures MonthIndex(all[i].date) < MonthIndex(all[j].date) {
        if j < |here| {
          assert false;
        } else if i < |here| {
          assert all[i] in here;
          assert all[j] == rest[j - |here|];
          assert all[j] in rest;
        } else {
          assert all[i] == rest[i - |here|];
          assert all[j] == rest[j - |here|];
        }
      }
    }
  }

  /**
   * Every emitted occurrence carries the rule's id, text, amount and creation
   * time and the recurring flag, lies in (start, end] and falls on the clamped
   * day; the dates are strictly increasing, at most one per calendar month.
   */
  lemma ExpansionSound(rule: RecurringTransaction, start: Date, end: Date)
    ensures forall o :: o in Expansion(rule, start, end) ==> IsOccurrenceIn(rule, start, end, o)
    ensures forall i, j :: 0 <= i < j < |Expansion(rule, start, end)| ==>
      && MonthIndex(Expansion(rule, start, end)[i].date) < MonthIndex(Expansion(rule, start, end)[j].date)
      && Before(Expansion(rule, start, end)[i].date, Expansion(rule, start, end)[j].date)
  {
    ExpansionFromSound(rule, start, end, MonthIndex(start));
    ExpansionFromIncreasing(rule, start, end, MonthIndex(start));
    var x := Expansion(rule, start, end);
    forall i, j | 0 <= i < j < |x| ensures Before(x[i].date, x[j].date) {
      MonthIndexOrder(x[i].date, x[j].date);
    }
  }

  lemma {:induction false} ExpansionFromComplete(rule: RecurringTransaction, start: Date, end: Date, k: int, d: Date)
    requires Before(start, d) && NotAfter(d, end) && IsClampedDay(d, rule.dayOfMonth)
    requires k <= MonthIndex(d)
    ensures OccurrenceOf(rule, d) in ExpansionFrom(rule, start, end, k)
    decreases MonthIndex(d) - k
  {
    MonthIndexOrder(d, end);
    if k == MonthIndex(d) {
      var base := MonthStart(k);
      MonthIndexOrder(d, base);
      TransactionDateIsLatestNotAfterTarget(base, rule.dayOfMonth, d);
      assert OccurrenceInMonth(rule, start, end, k) == [OccurrenceOf(rule, d)];
    } else {
      ExpansionFromComplete(rule, start, end, k + 1, d);
    }
  }

  /**
   * For a rule with a day of at least 1, every month whose clamped date lies
   * in (start, end] yields its occurrence.
   */
  lemma ExpansionComplete(rule: RecurringTransaction, start: Date, end: Date, d: Date)
    requires Before(start, d) && NotAfter(d, end) && IsClampedDay(d, rule.dayOfMonth)
    ensures OccurrenceOf(rule, d) in Expansion(rule, start, end)
  {
    MonthIndexOrder(start, d);
    ExpansionFromComplete(rule, start, end, MonthIndex(start), d);
  }

  lemma {:induction false} ExpansionFromOfDayZero(rule: RecurringTransaction, start: Date, end: Date, k: int)
    requires rule.dayOfMonth == 0
    ensures ExpansionFrom(rule, start, end, k) == []
    decreases MonthIndex(end) + 1 - k
  {
    if k <= MonthIndex(end) {
      ExpansionFromOfDayZero(rule, start, end, k + 1);
    }
  }

  /** A rule whose day of the month is 0 never occurs. */
  lemma ExpansionOfDayZero(rule: RecurringTransaction, start: Date, end: Date)
    requires rule.dayOfMonth == 0
    ensures Expansion(rule, start, end) == []
  {
    ExpansionFromOfDayZero(rule, start, end, MonthIndex(start));
  }

  // ---------------------------------------------------------------------
  // The anchor snapshot

  /** The latest position is unique: ties go to the last of the latest dates. */
  lemma LatestIsUnique(snaps: seq<BalanceSnapshot>, i: int, j: int)
    requires IsLatestAt(snaps, i) && IsLatestAt(snaps, j)
    ensures i == j
  {
    var di, dj := snaps[i].date, snaps[j].date;
    assert NotAfter(di, dj) && NotAfter(dj, di);
  }

  // ---------------------------------------------------------------------
  // The windows

  /** Only active rules contribute, each with the occurrences of its expansion. */
  lemma {:induction false} RecurringOccurrencesMembers(rules: seq<RecurringTransaction>, start: Date, end: Date, o: Occurrence)
    ensures o in RecurringOccurrences(rules, start, end) <==>
      exists k :: 0 <= k < |rules| && rules[k].active && o in Expansion(rules[k], start, end)
    decreases |rules|
  {
    if rules != [] {
      var n := |rules| - 1;
      var init := rules[..n];
      RecurringOccurrencesMembers(init, start, end, o);
      assert forall k :: 0 <= k < n ==> init[k] == rules[k];
      if o in RecurringOccurrences(rules, start, end) {
        if o !in RecurringOccurrences(init, start, end) {
          assert rules[n].active && o in Expansion(rules[n], start, end);
        }
      }
      if k :| 0 <= k < |rules| && rules[k].active && o in Expansion(rules[k], start, end) {
        if k < n {
          assert init[k] == rules[k];
        }
      }
    }
  }

  lemma {:induction false} FutureOneTimeMembers(entries: seq<OneTimeTransaction>, today: Date, end: Date, o: Occurrence)
    ensures o in FutureOneTime(entries, today, end) <==>
      exists k :: 0 <= k < |entries| && o == EntryOccurrence(entries[k])
        && NotAfter(today, entries[k].date) && NotAfter(entries[k].date, end)
    decreases |entries|
  {
    if entries != [] {
      var n := |entries| - 1;
      var init := entries[..n];
      FutureOneTimeMembers(init, today, end, o);
      assert forall k :: 0 <= k < n ==> init[k] == entries[k];
      if k :| (0 <= k < |entries| && o == EntryOccurrence(entries[k])
          && NotAfter(today, entries[k].date) && NotAfter(entries[k].date, end)) {
        if k < n {
          assert init[k] == entries[k];
        }
      }
    }
  }

  lemma {:induction false} PastOneTimeMembers(entries: seq<OneTimeTransaction>, from: Date, today: Date, o: Occurrence)
    ensures o in PastOneTime(entries, from, today) <==>
      exists k :: 0 <= k < |entries| && o == EntryOccurrence(entries[k])
        && Before(from, entries[k].date) && Before(entries[k].date, today)
    decreases |entries|
  {
    if entries != [] {
      var n := |entries| - 1;
      var init := entries[..n];
      PastOneTimeMembers(init, from, today, o);
      assert forall k :: 0 <= k < n ==> init[k] == entries[k];
      if k :| (0 <= k < |entries| && o == EntryOccurrence(entries[k])
          && Before(from, entries[k].date) && Before(entries[k].date, today)) {
        if k < n {
          assert init[k] == entries[k];
        }
      }
    }
  }

  // ---------------------------------------------------------------------
  // Sums

  lemma {:induction false} SumAppend(a: seq<Occurrence>, b: seq<Occurrence>)
    ensures SumAmounts(a + b) == SumAmounts(a) + SumAmounts(b)
    decreases |b|
  {
    if b == [] {
      assert a + b == a;
    } else {
      var n := |b| - 1;
      SumAppend(a, b[..n]);
      assert (a + b)[..|a + b| - 1] == a + b[..n];
    }
  }

  lemma {:induction false} SumInsert(t: seq<Occurrence>, x: Occurrence)
    ensures SumAmounts(Insert(t, x, OccurrenceKey, KeyLess)) == SumAmounts(t) + x.txn.amount
    decreases |t|
  {
    if t != [] && KeyLess(OccurrenceKey(x), OccurrenceKey(t[|t| - 1])) {
      var n := |t| - 1;
      SumInsert(t[..n], x);
      var inserted := Insert(t[..n], x, OccurrenceKey, KeyLess);
      assert Insert(t, x, OccurrenceKey, KeyLess) == inserted + [t[n]];
      assert (inserted + [t[n]])[..|inserted|] == inserted;
    } else {
      assert (t + [x])[..|t|] == t;
    }
  }

  /** Sorting the items does not change their total. */
  lemma {:induction false} SumSorted(s: seq<Occurrence>)
    ensures SumAmounts(SortOccurrences(s)) == SumAmounts(s)
    decreases |s|
  {
    if s != [] {
      var n := |s| - 1;
      SumSorted(s[..n]);
      SumInsert(SortBy(s[..n], OccurrenceKey, KeyLess), s[n]);
    }
  }

  /**
   * The starting balance is the snapshot's when the snapshot is not older than
   * today; otherwise it adds the active rules' occurrences in (snapshot, today]
   * and the one-time entries strictly between the snapshot and today.
   */
  lemma ReconciledBalanceValue(data: CashflowData, snapshot: BalanceSnapshot, today: Date)
    ensures !Before(snapshot.date, today) ==> ReconciledBalance(data, snapshot, today) == snapshot.balance
    ensures Before(snapshot.date, today) ==>
      ReconciledBalance(data, snapshot, today) == snapshot.balance
        + SumAmounts(RecurringOccurrences(data.recurring, snapshot.date, today))
        + SumAmounts(PastOneTime(data.oneTime, snapshot.date, today))
  {
    var rec := RecurringOccurrences(data.recurring, snapshot.date, today);
    var one := PastOneTime(data.oneTime, snapshot.date, today);
    SumSorted(rec + one);
    SumAppend(rec, one);
  }

  // ---------------------------------------------------------------------
  // Empty windows

  lemma {:induction false} ExpansionFromOfEmptyWindow(rule: RecurringTransaction, start: Date, end: Date, k: int)
    requires NotAfter(end, start)
    ensures ExpansionFrom(rule, start, end, k) == []
    decreases MonthIndex(end) + 1 - k
  {
    if k <= MonthIndex(end) {
      ExpansionFromOfEmptyWindow(rule, start, end, k + 1);
      match TransactionDateInMonth(MonthStart(k), rule.dayOfMonth)
      case None =>
      case Some(d) =>
        BeforeIsStrictTotalOrder(start, d, end);
    }
  }

  lemma {:induction false} RecurringOccurrencesOfEmptyWindow(rules: seq<RecurringTransaction>, start: Date, end: Date)
    requires NotAfter(end, start)
    ensures RecurringOccurrences(rules, start, end) == []
    decreases |rules|
  {
    if rules != [] {
      RecurringOccurrencesOfEmptyWindow(rules[..|rules| - 1], start, end);
      ExpansionFromOfEmptyWindow(rules[|rules| - 1], start, end, MonthIndex(start));
    }
  }

  lemma {:induction false} FutureOneTimeOfEmptyWindow(entries: seq<OneTimeTransaction>, today: Date, end: Date)
    requires Before(end, today)
    ensures FutureOneTime(entries, today, end) == []
    decreases |entries|
  {
    if entries != [] {
      FutureOneTimeOfEmptyWindow(entries[..|entries| - 1], today, end);
      BeforeIsStrictTotalOrder(today, entries[|entries| - 1].date, end);
    }
  }

  // ---------------------------------------------------------------------
  // Items of the projection

  /** An item sits at its own date, and a recurring item finds a rule with its id. */
  predicate ItemResolves(rules: seq<RecurringTransaction>, o: Occurrence) {
    o.date == o.txn.date && (o.isRecurring ==> RuleIndex(rules, o.txn.id).Some?)
  }

  /** ... and that first rule with its id has the item's amount. */
  predicate ItemAgrees(rules: seq<RecurringTransaction>, o: Occurrence) {
    && ItemResolves(rules, o)
    && (o.isRecurring ==> rules[RuleIndex(rules, o.txn.id).value].amount == o.txn.amount)
  }

  /** No two rules share an id. */
  predicate UniqueIds(rules: seq<RecurringTransaction>) {
    forall i, j :: 0 <= i < j < |rules| ==> rules[i].id != rules[j].id
  }

  /**
   * The items of a projection are its recurring and one-time items, sorted by
   * (date, creation time); every item finds its rule, and with unique ids the
   * rule found is the one it came from.
   */
  lemma FutureItemsProperties(data: CashflowData, today: Date, end: Date)
    ensures var items := FutureItems(data, today, end);
      && multiset(items) == multiset(RecurringOccurrences(data.recurring, today, end) + FutureOneTime(data.oneTime, today, end))
      && SortedBy(items, OccurrenceKey, KeyLess)
      && (forall i, j :: 0 <= i < j < |items| ==> NotAfter(items[i].date, items[j].date))
      && (forall o :: o in items ==> ItemResolves(data.recurring, o))
      && (UniqueIds(data.recurring) ==> forall o :: o in items ==> ItemAgrees(data.recurring, o))
  {
    var rules := data.recurring;
    var rec := RecurringOccurrences(rules, today, end);
    var one := FutureOneTime(data.oneTime, today, end);
    var items := FutureItems(data, today, end);
    KeyLessIsStrictTotalOrder();
    SortBySorted(rec + one, OccurrenceKey, KeyLess);
    forall i, j | 0 <= i < j < |items| ensures NotAfter(items[i].date, items[j].date) {
      assert !KeyLess(OccurrenceKey(items[j]), OccurrenceKey(items[i]));
    }
    forall o | o in items ensures ItemResolves(rules, o) && (UniqueIds(rules) ==> ItemAgrees(rules, o)) {
      assert o in multiset(rec + one);
      assert o in rec + one;
      RecurringOccurrencesMembers(rules, today, end, o);
      FutureOneTimeMembers(data.oneTime, today, end, o);
      if o in rec {
        var k :| 0 <= k < |rules| && rules[k].active && o in Expansion(rules[k], today, end);
        ExpansionSound(rules[k], today, end);
        assert rules[k].id == o.txn.id;
        if UniqueIds(rules) {
          var i := RuleIndex(rules, o.txn.id).value;
          assert i == k;
        }
      }
    }
  }

  /**
   * The items between the snapshot and today: sorted, and made of the active
   * rules' occurrences and the one-time entries of that window.
   */
  lemma PastItemsProperties(data: CashflowData, from: Date, today: Date)
    ensures var items := PastItems(data, from, today);
      && multiset(items) == multiset(RecurringOccurrences(data.recurring, from, today) + PastOneTime(data.oneTime, from, today))
      && SortedBy(items, OccurrenceKey, KeyLess)
  {
    KeyLessIsStrictTotalOrder();
    SortBySorted(RecurringOccurrences(data.recurring, from, today) + PastOneTime(data.oneTime, from, today), OccurrenceKey, KeyLess);
  }

  lemma MultisetMembers<T>(a: seq<T>, b: seq<T>, x: T)
    requires multiset(a) == multiset(b)
    ensures x in a <==> x in b
  {
    assert x in a <==> x in multiset(a);
    assert x in b <==> x in multiset(b);
  }

  /** Every recurring item lies in its window, is marked recurring and sits at its own date. */
  lemma RecurringOccurrenceWindow(rules: seq<RecurringTransaction>, start: Date, end: Date, o: Occurrence)
    requires o in RecurringOccurrences(rules, start, end)
    ensures Before(start, o.date) && NotAfter(o.date, end) && o.isRecurring && o.date == o.txn.date
  {
    RecurringOccurrencesMembers(rules, start, end, o);
    var k :| 0 <= k < |rules| && rules[k].active && o in Expansion(rules[k], start, end);
    ExpansionSound(rules[k], start, end);
  }

  /**
   * A rule falling due on today itself counts in the starting balance when
   * the snapshot is older, and never makes a row: the future window of
   * recurring items opens after today.
   */
  lemma AnchorDayRecurring(data: CashflowData, from: Date, today: Date, end: Date, k: int)
    requires 0 <= k < |data.recurring| && data.recurring[k].active
    requires IsClampedDay(today, data.recurring[k].dayOfMonth) && Before(from, today)
    ensures OccurrenceOf(data.recurring[k], today) in PastItems(data, from, today)
    ensures OccurrenceOf(data.recurring[k], today) !in FutureItems(data, today, end)
  {
    var rules := data.recurring;
    var o := OccurrenceOf(rules[k], today);
    var rec := RecurringOccurrences(rules, from, today);
    ExpansionComplete(rules[k], from, today, today);
    RecurringOccurrencesMembers(rules, from, today, o);
    assert o in rec + PastOneTime(data.oneTime, from, today);
    MultisetMembers(PastItems(data, from, today), rec + PastOneTime(data.oneTime, from, today), o);
    var future := RecurringOccurrences(rules, today, end);
    if o in future {
      RecurringOccurrenceWindow(rules, today, end, o);
    }
    FutureOneTimeMembers(data.oneTime, today, end, o);
    assert o !in future + FutureOneTime(data.oneTime, today, end);
    MultisetMembers(FutureItems(data, today, end), future + FutureOneTime(data.oneTime, today, end), o);
  }

  /**
   * A one-time entry dated today makes a row when today lies in the window,
   * and never counts in the starting balance: the past window of one-time
   * entries closes before today.
   */
  lemma AnchorDayOneTime(data: CashflowData, from: Date, today: Date, end: Date, k: int)
    requires 0 <= k < |data.oneTime| && data.oneTime[k].date == today
    ensures NotAfter(today, end) ==> EntryOccurrence(data.oneTime[k]) in FutureItems(data, today, end)
    ensures EntryOccurrence(data.oneTime[k]) !in PastItems(data, from, today)
  {
    var rules := data.recurring;
    var o := EntryOccurrence(data.oneTime[k]);
    var future := FutureOneTime(data.oneTime, today, end);
    FutureOneTimeMembers(data.oneTime, today, end, o);
    MultisetMembers(FutureItems(data, today, end), RecurringOccurrences(rules, today, end) + future, o);
    var rec := RecurringOccurrences(rules, from, today);
    if o in rec {
      RecurringOccurrenceWindow(rules, from, today, o);
    }
    PastOneTimeMembers(data.oneTime, from, today, o);
    assert o !in rec + PastOneTime(data.oneTime, from, today);
    MultisetMembers(PastItems(data, from, today), rec + PastOneTime(data.oneTime, from, today), o);
  }

  // ---------------------------------------------------------------------
  // Rows

  lemma SumCons(x: Occurrence, t: seq<Occurrence>)
    ensures SumAmounts([x] + t) == x.txn.amount + SumAmounts(t)
  {
    SumAppend([x], t);
    assert [x][..0] == [];
  }

  lemma SumPrefixCons(items: seq<Occurrence>, k: int)
    requires 0 <= k < |items|
    ensures SumAmounts(items[..k + 1]) == items[0].txn.amount + SumAmounts(items[1..][..k])
  {
    assert items[..k + 1] == [items[0]] + items[1..][..k];
    SumCons(items[0], items[1..][..k]);
  }

  /** The row an item that finds its rule makes, with the given balance after it. */
  function RowFor(rules: seq<RecurringTransaction>, o: Occurrence, balanceAfter: real): (v: TransactionView)
    requires ItemResolves(rules, o)
    ensures v.date == o.date && v.isOneTime == !o.isRecurring && v.balanceAfter == balanceAfter
    ensures ItemAgrees(rules, o) ==> v.amount == o.txn.amount
  {
    if o.isRecurring then FromRecurring(rules[RuleIndex(rules, o.txn.id).value], o.date, balanceAfter)
    else FromOneTime(o.txn, balanceAfter)
  }

  /** Items that find their rules make one row each. */
  lemma {:induction false} RowsFromLength(rules: seq<RecurringTransaction>, items: seq<Occurrence>, balance: real)
    requires forall o :: o in items ==> ItemResolves(rules, o)
    ensures |RowsFrom(rules, items, balance)| == |items|
    decreases |items|
  {
    if items != [] {
      var after := balance + items[0].txn.amount;
      assert items[0] in items;
      assert |RowOf(rules, items[0], after)| == 1;
      assert forall o :: o in items[1..] ==> o in items;
      RowsFromLength(rules, items[1..], after);
    }
  }

  /**
   * Row k is the row of item k, with the opening balance plus the amounts of
   * the items up to and including it as the balance after it.
   */
  lemma {:induction false} RowsFromAt(rules: seq<RecurringTransaction>, items: seq<Occurrence>, balance: real, k: int)
    requires forall o :: o in items ==> ItemResolves(rules, o)
    requires 0 <= k < |items|
    ensures |RowsFrom(rules, items, balance)| == |items|
    ensures RowsFrom(rules, items, balance)[k] == RowFor(rules, items[k], balance + SumAmounts(items[..k + 1]))
    decreases k
  {
    RowsFromLength(rules, items, balance);
    var x := items[0];
    var tail := items[1..];
    var after := balance + x.txn.amount;
    assert x in items;
    assert RowOf(rules, x, after) == [RowFor(rules, x, after)];
    assert RowsFrom(rules, items, balance) == [RowFor(rules, x, after)] + RowsFrom(rules, tail, after);
    SumPrefixCons(items, k);
    if k > 0 {
      assert forall o :: o in tail ==> o in items;
      RowsFromAt(rules, tail, after, k - 1);
      assert items[k] == tail[k - 1];
    }
  }

  function SumRowAmounts(rows: seq<TransactionView>): real
    decreases |rows|
  {
    if rows == [] then 0.0 else SumRowAmounts(rows[..|rows| - 1]) + rows[|rows| - 1].amount
  }

  lemma {:induction false} SumRowsOfItems(rows: seq<TransactionView>, items: seq<Occurrence>)
    requires |rows| == |items| && forall k :: 0 <= k < |items| ==> rows[k].amount == items[k].txn.amount
    ensures SumRowAmounts(rows) == SumAmounts(items)
    decreases |items|
  {
    if items != [] {
      var n := |items| - 1;
      SumRowsOfItems(rows[..n], items[..n]);
    }
  }

  /**
   * One row per item, each at its item's date and of its kind, with the
   * running balance after it: the opening balance plus the amounts of the
   * items up to and including it.
   */
  lemma RowsFromShape(rules: seq<RecurringTransaction>, items: seq<Occurrence>, balance: real)
    requires forall o :: o in items ==> ItemResolves(rules, o)
    ensures var rows := RowsFrom(rules, items, balance);
      && |rows| == |items|
      && (forall k :: 0 <= k < |items| ==>
            && rows[k].date == items[k].date
            && rows[k].isOneTime == !items[k].isRecurring
            && rows[k].balanceAfter == balance + SumAmounts(items[..k + 1]))
  {
    RowsFromLength(rules, items, balance);
    var rows := RowsFrom(rules, items, balance);
    forall k | 0 <= k < |items|
      ensures rows[k].date == items[k].date && rows[k].isOneTime == !items[k].isRecurring
      ensures rows[k].balanceAfter == balance + SumAmounts(items[..k + 1])
    {
      RowsFromAt(rules, items, balance, k);
    }
  }

  /** When every item's rule has the item's amount, each row has its item's amount. */
  lemma RowsFromAmounts(rules: seq<RecurringTransaction>, items: seq<Occurrence>, balance: real)
    requires forall o :: o in items ==> ItemAgrees(rules, o)
    ensures var rows := RowsFrom(rules, items, balance);
      && |rows| == |items|
      && forall k :: 0 <= k < |rows| ==>
           rows[k].amount == items[k].txn.amount && rows[k].balanceAfter == balance + SumAmounts(items[..k + 1])
  {
    RowsFromLength(rules, items, balance);
    var rows := RowsFrom(rules, items, balance);
    forall k | 0 <= k < |rows|
      ensures rows[k].amount == items[k].txn.amount
      ensures rows[k].balanceAfter == balance + SumAmounts(items[..k + 1])
    {
      assert items[k] in items;
      RowsFromAt(rules, items, balance, k);
    }
  }

  lemma SumPrefixStep(items: seq<Occurrence>, k: int)
    requires 0 <= k < |items|
    ensures SumAmounts(items[..k + 1]) == SumAmounts(items[..k]) + items[k].txn.amount
  {
    assert items[..k + 1][..k] == items[..k];
  }

  /**
   * When every item's rule has the item's amount, each row's balance is the
   * previous row's (the opening balance for the first) plus the row's amount,
   * and the last balance minus the opening one is the total of the rows.
   */
  lemma RowsBalanceChain(rules: seq<RecurringTransaction>, items: seq<Occurrence>, balance: real)
    requires forall o :: o in items ==> ItemAgrees(rules, o)
    ensures var rows := RowsFrom(rules, items, balance);
      && (rows != [] ==> rows[0].balanceAfter == balance + rows[0].amount)
      && (forall k :: 0 < k < |rows| ==> rows[k].balanceAfter == rows[k - 1].balanceAfter + rows[k].amount)
      && (rows != [] ==> rows[|rows| - 1].balanceAfter - balance == SumRowAmounts(rows))
  {
    RowsFromAmounts(rules, items, balance);
    var rows := RowsFrom(rules, items, balance);
    forall k | 0 <= k < |rows| ensures rows[k].balanceAfter == balance + SumAmounts(items[..k]) + rows[k].amount {
      SumPrefixStep(items, k);
    }
    if rows != [] {
      assert items[..0] == [];
      SumRowsOfItems(rows, items);
      assert items[..|items|] == items;
    }
  }

  // ---------------------------------------------------------------------
  // The projection

  /**
   * A projection fails exactly when there is no snapshot. Otherwise it is
   * dated today, has one row per item of the window, in non-decreasing date
   * order, and each row's balance is the starting balance plus the amounts of
   * the items up to it.
   */
  lemma ProjectionProperties(data: CashflowData, days: int, today: Date)
    ensures Projection(data, days, today).Err? <==> data.balanceSnapshots == []
    ensures Projection(data, days, today).Ok? ==>
      var (starting, date, rows) := Projection(data, days, today).value;
      var items := FutureItems(data, today, AddDays(today, days));
      && date == today
      && |rows| == |items|
      && (forall i, j :: 0 <= i < j < |rows| ==> NotAfter(rows[i].date, rows[j].date))
      && (forall k :: 0 <= k < |rows| ==> rows[k].balanceAfter == starting + SumAmounts(items[..k + 1]))
  {
    if data.balanceSnapshots != [] {
      var end := AddDays(today, days);
      var (starting, date, rows) := Projection(data, days, today).value;
      FutureItemsProperties(data, today, end);
      RowsFromShape(data.recurring, FutureItems(data, today, end), starting);
    }
  }

  /**
   * With unique rule ids the running balance moves by each row's own amount,
   * and the last balance minus the starting balance is the total of the rows.
   */
  lemma ProjectionBalanceChain(data: CashflowData, days: int, today: Date)
    requires UniqueIds(data.recurring)
    ensures Projection(data, days, today).Ok? ==>
      var (starting, date, rows) := Projection(data, days, today).value;
      && (rows != [] ==> rows[0].balanceAfter == starting + rows[0].amount)
      && (forall k :: 0 < k < |rows| ==> rows[k].balanceAfter == rows[k - 1].balanceAfter + rows[k].amount)
      && (rows != [] ==> rows[|rows| - 1].balanceAfter - starting == SumRowAmounts(rows))
  {
    if data.balanceSnapshots != [] {
      var end := AddDays(today, days);
      var (starting, date, rows) := Projection(data, days, today).value;
      FutureItemsProperties(data, today, end);
      RowsBalanceChain(data.recurring, FutureItems(data, today, end), starting);
    }
  }

  /**
   * Why the chain needs unique ids: the balance moves by the occurrence's own
   * amount, but its row shows the first rule with that id. Two rules sharing
   * an id with amounts one apart give a row whose balance is off by one.
   */
  lemma SharedIdBreaksChain(a: RecurringTransaction, d: Date, balance: real)
    ensures var rules := [a, a.(amount := a.amount + 1.0)];
      var rows := RowsFrom(rules, [OccurrenceOf(rules[1], d)], balance);
      && !UniqueIds(rules)
      && |rows| == 1
      && rows[0].amount == a.amount
      && rows[0].balanceAfter == balance + rows[0].amount + 1.0
  {
    var rules := [a, a.(amount := a.amount + 1.0)];
    var o := OccurrenceOf(rules[1], d);
    assert RuleIndex(rules, o.txn.id) == Some(0);
    assert [o][1..] == [];
  }

  /** A negative number of days gives no rows. */
  lemma ProjectionOfNegativeDays(data: CashflowData, days: int, today: Date)
    requires days < 0
    ensures Projection(data, days, today).Ok? ==> Projection(data, days, today).value.2 == []
  {
    var end := AddDays(today, days);
    BeforeIsStrictTotalOrder(end, today, today);
    RecurringOccurrencesOfEmptyWindow(data.recurring, today, end);
    FutureOneTimeOfEmptyWindow(data.oneTime, today, end);
    assert FutureItems(data, today, end) == SortOccurrences([] + []);
  }
}
