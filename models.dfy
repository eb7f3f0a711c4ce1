/**
 * The persisted ledger: recurring rules, one-time entries and balance
 * snapshots, and the display row of a projection. Identifiers and creation
 * times come from the random-id generator and the clock, which are not part
 * of this model, so every constructor takes them as parameters. Amounts are
 * exact decimals, modelled as reals; creation times are instants, modelled as
 * integers in their chronological order.
 */
module Models {
  import opened Wrappers
  import opened Calendar
  import opened Ids

  /** A monthly rule: the amount falls due on its day of the month while it is active. */
  datatype RecurringTransaction = RecurringTransaction(
    id: Uuid,
    description: string,
    amount: real,      // positive for income, negative for expenses
    dayOfMonth: U8,
    active: bool,
    createdAt: int)

  datatype OneTimeTransaction = OneTimeTransaction(
    id: Uuid,
    description: string,
    amount: real,
    date: Date,
    createdAt: int)

  /** The account balance as known on a date: the anchor of a projection. */
  datatype BalanceSnapshot = BalanceSnapshot(
    id: Uuid,
    date: Date,
    balance: real,
    createdAt: int)

  /** One row of a projection, with the running balance after it. */
  datatype TransactionView = TransactionView(
    date: Date,
    dayOfMonth: U8,
    description: string,
    amount: real,
    isOneTime: bool,
    balanceAfter: real)

  datatype CashflowData = CashflowData(
    recurring: seq<RecurringTransaction>,
    oneTime: seq<OneTimeTransaction>,
    balanceSnapshots: seq<BalanceSnapshot>)

  /** The ledger before anything was recorded. */
  function DefaultData(): (d: CashflowData)
    ensures d.recurring == [] && d.oneTime == [] && d.balanceSnapshots == []
  {
    CashflowData([], [], [])
  }

  /** A new rule keeps what it was given and starts active. */
  function NewRecurring(id: Uuid, createdAt: int, description: string, amount: real, dayOfMonth: U8): (r: RecurringTransaction)
    ensures r.active
    ensures r.description == description && r.amount == amount && r.dayOfMonth == dayOfMonth
    ensures r.id == id && r.createdAt == createdAt
  {
    RecurringTransaction(id, description, amount, dayOfMonth, true, createdAt)
  }

  function NewOneTime(id: Uuid, createdAt: int, description: string, amount: real, date: Date): (r: OneTimeTransaction)
    ensures r.description == description && r.amount == amount && r.date == date
    ensures r.id == id && r.createdAt == createdAt
  {
    OneTimeTransaction(id, description, amount, date, createdAt)
  }

  function NewSnapshot(id: Uuid, createdAt: int, date: Date, balance: real): (s: BalanceSnapshot)
    ensures s.date == date && s.balance == balance
    ensures s.id == id && s.createdAt == createdAt
  {
    BalanceSnapshot(id, date, balance, createdAt)
  }

  /**
   * The row of a rule's occurrence on date. Its day of the month is the rule's,
   * even when the date was moved to the end of a short month.
   */
  function FromRecurring(txn: RecurringTransaction, date: Date, balanceAfter: real): (v: TransactionView)
    ensures v.date == date && v.balanceAfter == balanceAfter
    ensures v.dayOfMonth == txn.dayOfMonth && !v.isOneTime
    ensures v.description == txn.description && v.amount == txn.amount
  {
    TransactionView(date, txn.dayOfMonth, txn.description, txn.amount, false, balanceAfter)
  }

  /** The row of a one-time entry: its day of the month is that of its date. */
  function FromOneTime(txn: OneTimeTransaction, balanceAfter: real): (v: TransactionView)
    ensures v.date == txn.date && v.balanceAfter == balanceAfter
    ensures v.dayOfMonth == txn.date.day && v.isOneTime
    ensures v.description == txn.description && v.amount == txn.amount
  {
    TransactionView(txn.date, txn.date.day, txn.description, txn.amount, true, balanceAfter)
  }

  /** The row of a clamped occurrence keeps the rule's day, not the date's. */
  lemma FromRecurringKeepsRuleDay(txn: RecurringTransaction, balanceAfter: real)
    requires txn.dayOfMonth == 31
    ensures FromRecurring(txn, YMD(2025, 2, 28), balanceAfter).dayOfMonth == 31
    ensures FromRecurring(txn, YMD(2025, 2, 28), balanceAfter).date.day == 28
  {
  }

  /** Position i holds the first rule with the given id. */
  predicate IsFirstRuleWithId(rules: seq<RecurringTransaction>, id: Uuid, i: int) {
    0 <= i < |rules| && rules[i].id == id && forall j :: 0 <= j < i ==> rules[j].id != id
  }

  /** The position of the first rule with the given id, if any. */
  function RuleIndex(rules: seq<RecurringTransaction>, id: Uuid): (r: Option<nat>)
    ensures r.Some? ==> IsFirstRuleWithId(rules, id, r.value)
    ensures r.None? <==> forall j :: 0 <= j < |rules| ==> rules[j].id != id
  {
    if rules == [] then None
    else if rules[0].id == id then Some(0)
    else match RuleIndex(rules[1..], id)
      case None =>
        assert forall j :: 1 <= j < |rules| ==> rules[j] == rules[1..][j - 1];
        None
      case Some(k) =>
        assert forall j :: 1 <= j < |rules| ==> rules[j] == rules[1..][j - 1];
        Some(k + 1)
  }

  /** Position i holds the first one-time entry with the given id. */
  predicate IsFirstEntryWithId(entries: seq<OneTimeTransaction>, id: Uuid, i: int) {
    0 <= i < |entries| && entries[i].id == id && forall j :: 0 <= j < i ==> entries[j].id != id
  }

  /** The position of the first one-time entry with the given id, if any. */
  function EntryIndex(entries: seq<OneTimeTransaction>, id: Uuid): (r: Option<nat>)
    ensures r.Some? ==> IsFirstEntryWithId(entries, id, r.value)
    ensures r.None? <==> forall j :: 0 <= j < |entries| ==> entries[j].id != id
  {
    if entries == [] then None
    else if entries[0].id == id then Some(0)
    else match EntryIndex(entries[1..], id)
      case None =>
        assert forall j :: 1 <= j < |entries| ==> entries[j] == entries[1..][j - 1];
        None
      case Some(k) =>
        assert forall j :: 1 <= j < |entries| ==> entries[j] == entries[1..][j - 1];
        Some(k + 1)
  }

  /** The first position with an id is unique, so the lookups above are determined. */
  lemma FirstRuleWithIdIsUnique(rules: seq<RecurringTransaction>, id: Uuid, i: int, k: int)
    requires IsFirstRuleWithId(rules, id, i) && IsFirstRuleWithId(rules, id, k)
    ensures i == k
  {
  }

  function RuleIds(rules: seq<RecurringTransaction>): (ids: seq<Uuid>)
    ensures |ids| == |rules| && forall i :: 0 <= i < |rules| ==> ids[i] == rules[i].id
  {
    seq(|rules|, i requires 0 <= i < |rules| => rules[i].id)
  }

  function EntryIds(entries: seq<OneTimeTransaction>): (ids: seq<Uuid>)
    ensures |ids| == |entries| && forall i :: 0 <= i < |entries| ==> ids[i] == entries[i].id
  {
    seq(|entries|, i requires 0 <= i < |entries| => entries[i].id)
  }
}
