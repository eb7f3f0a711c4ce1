/**
 * The recurring-rule commands, as the steps they take on the loaded ledger:
 * add, disable, enable, delete and edit return the ledger to save, or the
 * error that stops the command before anything is saved; list returns the
 * rules in display order. The UUID and decimal parsers are passed in.
 */
module Recurring {
  import opened Wrappers
  import opened Calendar
  import opened Ids
  import opened Models
  import opened StableSort
  import opened Cashflow
  import opened CashflowProperties
  import opened Balance

  /** A typed identifier resolved against the stored rules. */
  function ResolveRuleId(idStr: string, rules: seq<RecurringTransaction>, parseFull: string -> Option<Uuid>): Result<Uuid, CommandError> {
    match ParseUuid(idStr, RuleIds(rules), parseFull)
    case Ok(id) => Ok(id)
    case Err(e) => Err(Id(e))
  }

  /** The search for the first rule with an id, as the commands walk the list. */
  method FindRule(rules: seq<RecurringTransaction>, id: Uuid) returns (k: Option<nat>)
    ensures k == RuleIndex(rules, id)
  {
    var i := 0;
    while i < |rules| && rules[i].id != id
      invariant 0 <= i <= |rules|
      invariant forall j :: 0 <= j < i ==> rules[j].id != id
    {
      i := i + 1;
    }
    if i < |rules| {
      k := Some(i);
      assert IsFirstRuleWithId(rules, id, i);
      FirstRuleWithIdIsUnique(rules, id, i, RuleIndex(rules, id).value);
    } else {
      k := None;
    }
  }

  predicate ValidDay(day: U8) {
    1 <= day <= 31
  }

  // ---------------------------------------------------------------------
  // recurring add

  /** recurring add: the day is checked first, then the amount; the new rule goes last. */
  method Add(data: CashflowData, description: string, amountStr: string, day: U8,
             id: Uuid, createdAt: int, decimal: string -> Option<real>)
    returns (r: Result<CashflowData, CommandError>)
    ensures !ValidDay(day) ==> r == Err(InvalidDay)
    ensures ValidDay(day) && ParseAmount(amountStr, decimal).None? ==> r == Err(InvalidAmount)
    ensures ValidDay(day) && ParseAmount(amountStr, decimal).Some? ==>
      r == Ok(data.(recurring := data.recurring
        + [NewRecurring(id, createdAt, description, ParseAmount(amountStr, decimal).value, day)]))
  {
    if !ValidDay(day) {
      return Err(InvalidDay);
    }
    var amount := ParseAmount(amountStr, decimal);
    if amount.None? {
      return Err(InvalidAmount);
    }
    var transaction := NewRecurring(id, createdAt, description, amount.value, day);
    r := Ok(data.(recurring := data.recurring + [transaction]));
  }

  /** A rule added under a fresh id is the one a later lookup of that id finds. */
  lemma AddedRuleIsFound(rules: seq<RecurringTransaction>, x: RecurringTransaction)
    requires forall j :: 0 <= j < |rules| ==> rules[j].id != x.id
    ensures RuleIndex(rules + [x], x.id) == Some(|rules|)
    ensures UniqueIds(rules) ==> UniqueIds(rules + [x])
  {
    var s := rules + [x];
    assert IsFirstRuleWithId(s, x.id, |rules|);
    FirstRuleWithIdIsUnique(s, x.id, |rules|, RuleIndex(s, x.id).value);
  }

  /** An active rule contributes every date of the window that falls on its day. */
  lemma ActiveRuleContributes(rules: seq<RecurringTransaction>, k: int, start: Date, end: Date, d: Date)
    requires 0 <= k < |rules| && rules[k].active
    requires Before(start, d) && NotAfter(d, end) && IsClampedDay(d, rules[k].dayOfMonth)
    ensures OccurrenceOf(rules[k], d) in RecurringOccurrences(rules, start, end)
  {
    ExpansionComplete(rules[k], start, end, d);
    RecurringOccurrencesMembers(rules, start, end, OccurrenceOf(rules[k], d));
  }

  /** The rule just added takes part in every later projection window. */
  lemma AddedRuleContributes(rules: seq<RecurringTransaction>, x: RecurringTransaction, start: Date, end: Date, d: Date)
    requires x.active && Before(start, d) && NotAfter(d, end) && IsClampedDay(d, x.dayOfMonth)
    ensures OccurrenceOf(x, d) in RecurringOccurrences(rules + [x], start, end)
  {
    ActiveRuleContributes(rules + [x], |rules|, start, end, d);
  }

  // ---------------------------------------------------------------------
  // recurring disable / enable

  /** Sets the active flag of the first rule with the resolved id. */
  method SetActive(data: CashflowData, idStr: string, active: bool, parseFull: string -> Option<Uuid>)
    returns (r: Result<CashflowData, CommandError>)
    ensures ResolveRuleId(idStr, data.recurring, parseFull).Err? ==>
      r == Err(ResolveRuleId(idStr, data.recurring, parseFull).error)
    ensures ResolveRuleId(idStr, data.recurring, parseFull).Ok? ==>
      var id := ResolveRuleId(idStr, data.recurring, parseFull).value;
      && (RuleIndex(data.recurring, id).None? ==> r == Err(NotFound))
      && (RuleIndex(data.recurring, id).Some? ==>
            var k := RuleIndex(data.recurring, id).value;
            r == Ok(data.(recurring := data.recurring[k := data.recurring[k].(active := active)])))
  {
    var id := ResolveRuleId(idStr, data.recurring, parseFull);
    if id.Err? {
      return Err(id.error);
    }
    var k := FindRule(data.recurring, id.value);
    if k.None? {
      return Err(NotFound);
    }
    var rules := data.recurring;
    rules := rules[k.value := rules[k.value].(active := active)];
    r := Ok(data.(recurring := rules));
  }

  method Disable(data: CashflowData, idStr: string, parseFull: string -> Option<Uuid>)
    returns (r: Result<CashflowData, CommandError>)
    ensures ResolveRuleId(idStr, data.recurring, parseFull).Err? ==>
      r == Err(ResolveRuleId(idStr, data.recurring, parseFull).error)
    ensures ResolveRuleId(idStr, data.recurring, parseFull).Ok? ==>
      var id := ResolveRuleId(idStr, data.recurring, parseFull).value;
      && (RuleIndex(data.recurring, id).None? ==> r == Err(NotFound))
      && (RuleIndex(data.recurring, id).Some? ==>
            var k := RuleIndex(data.recurring, id).value;
            r == Ok(data.(recurring := data.recurring[k := data.recurring[k].(active := false)])))
  {
    r := SetActive(data, idStr, false, parseFull);
  }

  method Enable(data: CashflowData, idStr: string, parseFull: string -> Option<Uuid>)
    returns (r: Result<CashflowData, CommandError>)
    ensures ResolveRuleId(idStr, data.recurring, parseFull).Err? ==>
      r == Err(ResolveRuleId(idStr, data.recurring, parseFull).error)
    ensures ResolveRuleId(idStr, data.recurring, parseFull).Ok? ==>
      var id := ResolveRuleId(idStr, data.recurring, parseFull).value;
      && (RuleIndex(data.recurring, id).None? ==> r == Err(NotFound))
      && (RuleIndex(data.recurring, id).Some? ==>
            var k := RuleIndex(data.recurring, id).value;
            r == Ok(data.(recurring := data.recurring[k := data.recurring[k].(active := true)])))
  {
    r := SetActive(data, idStr, true, parseFull);
  }

  /** With unique ids, a disabled rule contributes no occurrence to any window. */
  lemma DisabledRuleContributesNothing(rules: seq<RecurringTransaction>, k: int, start: Date, end: Date, o: Occurrence)
    requires 0 <= k < |rules| && UniqueIds(rules)
    requires o in RecurringOccurrences(rules[k := rules[k].(active := false)], start, end)
    ensures o.txn.id != rules[k].id
  {
    var after := rules[k := rules[k].(active := false)];
    RecurringOccurrencesMembers(after, start, end, o);
    var j :| 0 <= j < |after| && after[j].active && o in Expansion(after[j], start, end);
    ExpansionSound(after[j], start, end);
    assert j != k && o.txn.id == rules[j].id;
  }

  /** An enabled rule contributes every date of the window that falls on its day. */
  lemma EnabledRuleContributes(rules: seq<RecurringTransaction>, k: int, start: Date, end: Date, d: Date)
    requires 0 <= k < |rules|
    requires Before(start, d) && NotAfter(d, end) && IsClampedDay(d, rules[k].dayOfMonth)
    ensures OccurrenceOf(rules[k].(active := true), d) in RecurringOccurrences(rules[k := rules[k].(active := true)], start, end)
  {
    ActiveRuleContributes(rules[k := rules[k].(active := true)], k, start, end, d);
  }

  // ---------------------------------------------------------------------
  // recurring delete

  /** recurring delete: removes the first rule with the resolved id. */
  method Delete(data: CashflowData, idStr: string, parseFull: string -> Option<Uuid>)
    returns (r: Result<CashflowData, CommandError>)
    ensures ResolveRuleId(idStr, data.recurring, parseFull).Err? ==>
      r == Err(ResolveRuleId(idStr, data.recurring, parseFull).error)
    ensures ResolveRuleId(idStr, data.recurring, parseFull).Ok? ==>
      var id := ResolveRuleId(idStr, data.recurring, parseFull).value;
      && (RuleIndex(data.recurring, id).None? ==> r == Err(NotFound))
      && (RuleIndex(data.recurring, id).Some? ==>
            var k := RuleIndex(data.recurring, id).value;
            r == Ok(data.(recurring := data.recurring[..k] + data.recurring[k + 1..])))
  {
    var id := ResolveRuleId(idStr, data.recurring, parseFull);
    if id.Err? {
      return Err(id.error);
    }
    var k := FindRule(data.recurring, id.value);
    if k.None? {
      return Err(NotFound);
    }
    r := Ok(data.(recurring := data.recurring[..k.value] + data.recurring[k.value + 1..]));
  }

  /**
   * Deleting position k drops exactly that rule: one fewer rule, the others
   * in their order, and with unique ids the deleted id is no longer found.
   */
  lemma DeleteRemovesOne(rules: seq<RecurringTransaction>, k: int)
    requires 0 <= k < |rules|
    ensures var r := rules[..k] + rules[k + 1..];
      && |r| == |rules| - 1
      && (forall j :: 0 <= j < k ==> r[j] == rules[j])
      && (forall j :: k < j < |rules| ==> r[j - 1] == rules[j])
      && multiset(r) + multiset{rules[k]} == multiset(rules)
      && (UniqueIds(rules) ==> RuleIndex(r, rules[k].id).None? && UniqueIds(r))
  {
    var r := rules[..k] + rules[k + 1..];
    assert rules == rules[..k] + [rules[k]] + rules[k + 1..];
    if UniqueIds(rules) {
      DeleteKeepsUniqueIds(rules, k);
    }
  }

  lemma DeleteKeepsUniqueIds(rules: seq<RecurringTransaction>, k: int)
    requires 0 <= k < |rules| && UniqueIds(rules)
    ensures var r := rules[..k] + rules[k + 1..];
      RuleIndex(r, rules[k].id).None? && UniqueIds(r)
  {
    var r := rules[..k] + rules[k + 1..];
    forall j | 0 <= j < |r| ensures r[j].id != rules[k].id {
      if j >= k {
        assert r[j] == rules[j + 1];
      }
    }
    forall i, j | 0 <= i < j < |r| ensures r[i].id != r[j].id {
      var i', j' := if i < k then i else i + 1, if j < k then j else j + 1;
      assert r[i] == rules[i'] && r[j] == rules[j'];
    }
  }

  // ---------------------------------------------------------------------
  // recurring edit

  /** The rule with the supplied fields replaced; the id, active flag and creation time stay. */
  function EditRule(rule: RecurringTransaction, amount: Option<real>, day: Option<U8>, description: Option<string>): (e: RecurringTransaction)
    ensures e.id == rule.id && e.active == rule.active && e.createdAt == rule.createdAt
    ensures e.amount == (if amount.Some? then amount.value else rule.amount)
    ensures e.dayOfMonth == (if day.Some? then day.value else rule.dayOfMonth)
    ensures e.description == (if description.Some? then description.value else rule.description)
    ensures amount.None? && day.None? && description.None? ==> e == rule
  {
    var r1 := if amount.Some? then rule.(amount := amount.value) else rule;
    var r2 := if day.Some? then r1.(dayOfMonth := day.value) else r1;
    if description.Some? then r2.(description := description.value) else r2
  }

  /**
   * recurring edit: after the id is resolved and found, a supplied amount is
   * parsed, then a supplied day is checked, then the description is set.
   * The first failure stops the command, so nothing is saved.
   */
  method Edit(data: CashflowData, idStr: string, amountStr: Option<string>, day: Option<U8>, description: Option<string>,
              parseFull: string -> Option<Uuid>, decimal: string -> Option<real>)
    returns (r: Result<CashflowData, CommandError>)
    ensures ResolveRuleId(idStr, data.recurring, parseFull).Err? ==>
      r == Err(ResolveRuleId(idStr, data.recurring, parseFull).error)
    ensures ResolveRuleId(idStr, data.recurring, parseFull).Ok? ==>
      var id := ResolveRuleId(idStr, data.recurring, parseFull).value;
      var amount := if amountStr.Some? then ParseAmount(amountStr.value, decimal) else None;
      && (RuleIndex(data.recurring, id).None? ==> r == Err(NotFound))
      && (RuleIndex(data.recurring, id).Some? ==>
            var k := RuleIndex(data.recurring, id).value;
            if amountStr.Some? && amount.None? then r == Err(InvalidAmount)
            else if day.Some? && !ValidDay(day.value) then r == Err(InvalidDay)
            else r == Ok(data.(recurring := data.recurring[k := EditRule(data.recurring[k], amount, day, description)])))
  {
    var id := ResolveRuleId(idStr, data.recurring, parseFull);
    if id.Err? {
      return Err(id.error);
    }
    var k := FindRule(data.recurring, id.value);
    if k.None? {
      return Err(NotFound);
    }
    var transaction := data.recurring[k.value];
    var amount: Option<real> := None;
    if amountStr.Some? {
      amount := ParseAmount(amountStr.value, decimal);
      if amount.None? {
        return Err(InvalidAmount);
      }
      transaction := transaction.(amount := amount.value);
    }
    if day.Some? {
      if !ValidDay(day.value) {
        return Err(InvalidDay);
      }
      transaction := transaction.(dayOfMonth := day.value);
    }
    if description.Some? {
      transaction := transaction.(description := description.value);
    }
    r := Ok(data.(recurring := data.recurring[k.value := transaction]));
  }

  /** An edit keeps every id in place, so unique ids stay unique; an empty edit changes nothing. */
  lemma EditKeepsIds(rules: seq<RecurringTransaction>, k: int, amount: Option<real>, day: Option<U8>, description: Option<string>)
    requires 0 <= k < |rules|
    ensures RuleIds(rules[k := EditRule(rules[k], amount, day, description)]) == RuleIds(rules)
    ensures UniqueIds(rules) ==> UniqueIds(rules[k := EditRule(rules[k], amount, day, description)])
    ensures amount.None? && day.None? && description.None? ==> rules[k := EditRule(rules[k], amount, day, description)] == rules
  {
  }

  // ---------------------------------------------------------------------
  // recurring list

  function DayKey(rule: RecurringTransaction): int {
    rule.dayOfMonth as int
  }

  function IntLess(a: int, b: int): bool {
    a < b
  }

  /** The rules in the order the list shows them: a stable sort by day of the month. */
  function ListOrder(rules: seq<RecurringTransaction>): seq<RecurringTransaction> {
    SortBy(rules, DayKey, IntLess)
  }

  lemma IntLessIsStrictTotalOrder()
    ensures IsStrictTotalOrder(IntLess)
  {
  }

  /** The listed rules are the stored ones, each as often, in non-decreasing day order. */
  lemma ListOrderSorted(rules: seq<RecurringTransaction>)
    ensures multiset(ListOrder(rules)) == multiset(rules)
    ensures forall i, j :: 0 <= i < j < |ListOrder(rules)| ==> ListOrder(rules)[i].dayOfMonth <= ListOrder(rules)[j].dayOfMonth
  {
    IntLessIsStrictTotalOrder();
    SortBySorted(rules, DayKey, IntLess);
    var r := ListOrder(rules);
    forall i, j | 0 <= i < j < |r| ensures r[i].dayOfMonth <= r[j].dayOfMonth {
      assert !IntLess(DayKey(r[j]), DayKey(r[i]));
    }
  }

  /**
   * Rules of the same day keep their stored order, and that makes the listed
   * order the only sorted one.
   */
  lemma ListOrderStable(rules: seq<RecurringTransaction>, u: seq<RecurringTransaction>)
    ensures forall d :: WithKey(ListOrder(rules), DayKey, d) == WithKey(rules, DayKey, d)
    ensures SortedBy(u, DayKey, IntLess) && (forall d :: WithKey(u, DayKey, d) == WithKey(rules, DayKey, d)) ==>
      u == ListOrder(rules)
  {
    forall d ensures WithKey(ListOrder(rules), DayKey, d) == WithKey(rules, DayKey, d) {
      SortByIsStable(rules, DayKey, IntLess, d);
    }
    if SortedBy(u, DayKey, IntLess) && (forall d :: WithKey(u, DayKey, d) == WithKey(rules, DayKey, d)) {
      IntLessIsStrictTotalOrder();
      SortedStableResultIsUnique(rules, u, DayKey, IntLess);
    }
  }

  // ---------------------------------------------------------------------
  // Short ids

  /** The id column of the list: the first eight characters of the canonical rendering. */
  function ShortId(u: Uuid): (s: string)
    ensures |s| == 8
    ensures s <= ToString(u)
  {
    ToString(u)[..8]
  }

  /**
   * Typing the short id the list shows resolves to that rule, provided the
   * UUID parser rejects it and no other stored id starts with it.
   */
  lemma ShortIdResolves(rules: seq<RecurringTransaction>, k: int, parseFull: string -> Option<Uuid>)
    requires 0 <= k < |rules|
    requires parseFull(ShortId(rules[k].id)).None?
    requires forall j :: 0 <= j < |rules| && j != k ==> !Matches(ShortId(rules[k].id), rules[j].id)
    ensures ResolveRuleId(ShortId(rules[k].id), rules, parseFull) == Ok(rules[k].id)
  {
    var u := rules[k].id;
    var s := ShortId(u);
    var ids := RuleIds(rules);
    ToStringAlphabet(u);
    ToStringIsLowerCase(u);
    forall i | 0 <= i < 8 ensures s[i] as int < 0x80 && ToLowerChar(s[i]) == s[i] {
      assert s[i] == ToString(u)[i] && ToString(u)[i] in ToString(u);
    }
    assert ToLower(s) == s;
    assert Matches(s, u);
    var test := MatchesPrefix(s);
    assert OnlyPassAt(ids, test, k);
    var r := ParseUuid(s, ids, parseFull);
    assert r.Ok?;
    var i :| OnlyPassAt(ids, test, i) && ids[i] == r.value;
  }
}
