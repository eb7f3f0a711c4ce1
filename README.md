# cashflow-cli, modelled in Dafny

cashflow-cli is a personal cash-flow planner for the command line. It keeps
three lists:

- monthly recurring rules: an amount due on a day of the month, which can be switched on and off;
- one-time entries on a fixed date;
- balance snapshots: the account balance as known on a date.

From these it projects the balance over the next N days.

The projection has four steps:

1. Take the latest snapshot.
2. Bring it forward to today, when the snapshot is older than today. The occurrences of every active rule in (snapshot date, today] are applied, and so is every one-time entry in (snapshot date, today).
3. Expand the rules over the window (today, today + N] and take the one-time entries in [today, today + N].
4. Sort by date, then by creation time, and accumulate a running balance.

The commands add, edit, enable, disable and delete rules and entries. When a
command takes an identifier, it accepts either a full UUID or an unambiguous
prefix of at least eight bytes. The table printer formats amounts as Czech
crowns, with spaces as thousand separators, and tracks the lowest balance
shown.

Files and modules:

- `calendar.dfy` (`Calendar`): Gregorian dates, their order, month lengths, and the month arithmetic of the projection (clamping a day of the month to the month's end, stepping to the next month).
- `ids.dfy` (`Ids`): UUIDs, their canonical rendering, and the resolution of a typed identifier (`parse_uuid`).
- `models.dfy` (`Models`): the persisted records, their constructors, and the display row of a projection.
- `stable_sort.dfy` (`StableSort`): a stable sort by key. It stands for `sort_by` and `sort_by_key` and is proved to be sorted, a permutation and stable. It is also proved to be the only sequence with those properties.
- `cashflow.dfy` (`Cashflow`): the projection. It holds the loops of the source as methods. Each method is proved equal to a specification function.
- `cashflow_properties.dfy` (`CashflowProperties`): what the projection means. It covers:
  - soundness and completeness of the monthly expansion;
  - membership of every window;
  - sums;
  - the running-balance chain;
  - the treatment of today.
- `text.dfy` (`Text`): removing spaces and reversing a sequence.
- `output.dfy` (`Output`): thousand separators, amount formatting and reading an amount back, colours, and the minimum and summary of the plan table.
- `balance.dfy` (`Balance`): amount and date parsing, `balance set` and `balance show`.
- `recurring.dfy` (`Recurring`), `one_time.dfy` (`OneTime`): the rule and entry commands.
- `wrappers.dfy` (`Wrappers`): `Option` and `Result`.

How the model is built:

- Each command is a method on a `CashflowData` value.
- It returns `Err` with the reason the source would fail with.
- Otherwise it returns `Ok` with the data the source would save.
- Loading and saving the file is not modelled.
- The following become parameters:
  - today's date;
  - a newly generated id and its creation time;
  - the library parsers: the decimal parser, the UUID parser and the two date-format parsers, which `Balance.ParseDate` combines for every command that reads a date.

## Model

| member | source | states |
|---|---|---|
| Calendar.DaysInMonth | src/projection/cashflow.rs:175-185 | 31 days exactly for months 1, 3, 5, 7, 8, 10 and 12; 30 exactly for 4, 6, 9 and 11; February has 29 days exactly in a leap year, else 28 |
| Calendar.DaysInMonthIsDayBeforeNextFirst | src/projection/cashflow.rs:175-185 | the month length is the day number of the day before the first of the next month, which is how the source computes it |
| Calendar.DaysInMonthExamples | src/projection/cashflow.rs:214-220 | the source's unit test: January 2025 has 31 days, February 2025 has 28, February 2024 has 29, April has 30 |
| Calendar.FromYmd | src/projection/cashflow.rs:162-172 | a date exists exactly when the month is 1..12 and the day is 1..month length |
| Calendar.BeforeIsStrictTotalOrder | src/projection/cashflow.rs:76-79 | date order is irreflexive, transitive and total |
| Calendar.BeforeIsOrder | src/commands/one_time.rs:65 | date order is a strict total order in the form the sort requires of a key order |
| Calendar.TransactionDateInMonth | src/projection/cashflow.rs:162-172 | day 0 gives no date; otherwise the date is in the base month, on the rule's day when the month has it, else on the month's last day |
| Calendar.TransactionDateIsLatestNotAfterTarget | src/projection/cashflow.rs:162-172 | the result is exactly the one date of the month that is the rule's day clamped to the month length |
| Calendar.TransactionDateExamples | src/projection/cashflow.rs:222-236 | the source's unit test (day 14 stays, day 31 becomes 28 February 2025), plus 29 February 2024 for day 31 and no date for day 0 |
| Calendar.NextMonth | src/projection/cashflow.rs:188-204 | moves to the following month, keeping the day when that month has it, else the 1st |
| Calendar.NextMonthVisitsEveryMonth | src/projection/cashflow.rs:188-204 | n steps advance the month index by exactly n, so no month is skipped |
| Calendar.MonthIndexOrder | src/projection/cashflow.rs:148-154 | an earlier month means an earlier date; equal month index means same year and month |
| Calendar.AddDays | src/projection/cashflow.rs:55 | adding a positive number of days moves later, a negative one earlier, zero nowhere |
| Calendar.AddDaysAdd | src/projection/cashflow.rs:55 | adding a days and then b days is adding a + b days |
| Calendar.AddDaysSteps | src/projection/cashflow.rs:55 | one day more is the next day and one day less the previous day, so the result is exactly n days from the date |
| Calendar.AddDaysFromNextDay | src/projection/cashflow.rs:55 | starting a day later is adding one more day |
| Calendar.AddDaysFromPrevDay | src/projection/cashflow.rs:55 | starting a day earlier is adding one day less |
| Calendar.NextDayPrevDayInverse | src/projection/cashflow.rs:55 | the day steps that `AddDays` uses are inverse to each other |
| Calendar.NextDay | src/projection/cashflow.rs:55 | the next day is after the date and no later than any date after it |
| Calendar.PrevDay | src/projection/cashflow.rs:55 | the previous day is before the date and no earlier than any date before it |
| Ids.ToString | src/commands/recurring.rs:208 | the canonical UUID rendering has 36 characters, with dashes at positions 8, 13, 18 and 23 |
| Ids.ToStringIsLowerCase | src/commands/recurring.rs:208 | lower-casing the canonical rendering changes nothing |
| Ids.SelectCount | src/commands/recurring.rs:205-227 | the number of matching ids is 0 exactly when none matches, at least 2 exactly when two positions match, and 1 gives the one matching position |
| Ids.ParseUuid | src/commands/recurring.rs:196-233 | a full UUID is accepted as it is. Under 8 bytes is an invalid format. Otherwise the result is no match exactly when no id starts with the lower-cased prefix, ambiguous exactly when two do, and the unique match when one does |
| Ids.Utf8Length | src/commands/recurring.rs:203 | the byte length is between the character count and four times it, and equals it for ASCII |
| Models.DefaultData | src/models/data.rs:15-23 | the initial ledger has no rules, entries or snapshots |
| Models.NewRecurring | src/models/data.rs:41-50 | a new rule keeps its description, amount and day, and starts active |
| Models.NewOneTime | src/models/data.rs:65-73 | a new entry keeps its description, amount and date |
| Models.NewSnapshot | src/models/data.rs:87-94 | a new snapshot keeps its date and balance |
| Models.FromRecurring | src/models/data.rs:112-125 | a rule's row shows the occurrence date, the rule's own day of the month, its description and amount, not one-time |
| Models.FromRecurringKeepsRuleDay | src/models/data.rs:112-125 | a day-31 rule clamped to 28 February still shows day 31 |
| Models.FromOneTime | src/models/data.rs:127-136 | an entry's row shows its date, its date's day, its description and amount, and is one-time |
| Models.RuleIndex | src/projection/cashflow.rs:91 | finds the first rule with the id, and finds none exactly when no rule has it |
| Models.FirstRuleWithIdIsUnique | src/projection/cashflow.rs:91 | the first position with an id is unique |
| StableSort.SortBy | src/projection/cashflow.rs:76-79 | the sorted sequence is a permutation of its input |
| StableSort.SortBySorted | src/projection/cashflow.rs:76-79 | under a strict total order, the sorted sequence is ordered by key |
| StableSort.SortByIsStable | src/projection/cashflow.rs:76-79 | items with equal keys keep their input order |
| StableSort.SortedStableResultIsUnique | src/projection/cashflow.rs:76-79 | any ordered sequence that keeps every key's items in input order is the sort's result |
| Cashflow.GenerateRecurringTransactions | src/projection/cashflow.rs:117-158 | the month-stepping loop yields exactly the month-by-month expansion of the rule over the window |
| Cashflow.FindLatestBalanceSnapshot | src/projection/cashflow.rs:108-113 | fails exactly when there is no snapshot; otherwise returns the snapshot with the latest date, the last one among equal dates |
| Cashflow.CollectRecurring | src/projection/cashflow.rs:59-66 | concatenates the expansions of the active rules in list order |
| Cashflow.ReconcileBalance | src/projection/cashflow.rs:19-52 | today's balance is the reconciled balance of the snapshot |
| Cashflow.CollectFuture | src/projection/cashflow.rs:56-79 | the future items are the sorted recurring and one-time occurrences of the window |
| Cashflow.BuildRows | src/projection/cashflow.rs:82-102 | the rows are the running-balance rows of the sorted items |
| Cashflow.ProjectCashflow | src/projection/cashflow.rs:9-105 | the command's result is the projection function |
| Cashflow.KeyLessIsStrictTotalOrder | src/projection/cashflow.rs:76-79 | date-then-creation-time is a strict total order on sort keys |
| Cashflow.LatestIndex | src/projection/cashflow.rs:108-113 | the chosen position has the latest date and no later position has an equal date |
| CashflowProperties.LatestIsUnique | src/projection/cashflow.rs:108-113 | at most one position is the latest snapshot |
| CashflowProperties.ExpansionSound | src/projection/cashflow.rs:117-158 | every expanded date is after the start, no later than the end and on the rule's clamped day; the dates strictly increase, one per month |
| CashflowProperties.ExpansionComplete | src/projection/cashflow.rs:117-158 | every date in the window on the rule's clamped day is expanded |
| CashflowProperties.ExpansionOfDayZero | src/projection/cashflow.rs:162-172 | a stored day 0 yields no occurrences |
| CashflowProperties.ExpansionFromOfEmptyWindow | src/projection/cashflow.rs:126-155 | a window whose end is not after its start yields no occurrences |
| CashflowProperties.RecurringOccurrencesMembers | src/projection/cashflow.rs:27-34 | an occurrence is collected exactly when it is in the expansion of some active rule |
| CashflowProperties.RecurringOccurrencesOfEmptyWindow | src/projection/cashflow.rs:59-66 | no rule contributes to an empty window |
| CashflowProperties.PastOneTimeMembers | src/projection/cashflow.rs:37-41 | an entry counts toward today's balance exactly when its date is after the snapshot and before today |
| CashflowProperties.FutureOneTimeMembers | src/projection/cashflow.rs:69-73 | an entry is projected exactly when its date is between today and the end, both included |
| CashflowProperties.FutureOneTimeOfEmptyWindow | src/projection/cashflow.rs:69-73 | no entry is projected when the end is before today |
| CashflowProperties.SumSorted | src/projection/cashflow.rs:44-51 | sorting does not change the sum of the amounts |
| CashflowProperties.ReconciledBalanceValue | src/projection/cashflow.rs:19-52 | with a snapshot not before today, the balance is the snapshot's; otherwise the snapshot's balance plus the amounts of the active rules' occurrences in (snapshot date, today] and of the one-time entries in (snapshot date, today) |
| CashflowProperties.PastItemsProperties | src/projection/cashflow.rs:26-47 | the past items are a sorted permutation of the recurring and one-time items between snapshot and today |
| CashflowProperties.FutureItemsProperties | src/projection/cashflow.rs:56-79 | the future items are a sorted permutation of the window's occurrences, in date order, and each recurring item finds its rule; with unique rule ids the rule's amount is the item's |
| CashflowProperties.AnchorDayRecurring | src/projection/cashflow.rs:26-34 | an active rule falling due today is counted in today's balance and not projected again |
| CashflowProperties.AnchorDayOneTime | src/projection/cashflow.rs:37-41 | an entry dated today is projected, not counted in today's balance |
| CashflowProperties.RowFor | src/projection/cashflow.rs:85-102 | a row shows the item's date, kind and running balance, and the item's amount when its rule agrees |
| CashflowProperties.RowsFromShape | src/projection/cashflow.rs:85-102 | one row per item; row k has item k's date and kind, and the starting balance plus the first k+1 amounts |
| CashflowProperties.RowsFromAmounts | src/projection/cashflow.rs:85-102 | each row shows its item's amount |
| CashflowProperties.RowsBalanceChain | src/projection/cashflow.rs:85-102 | each row's balance is the previous balance plus its amount, and the last minus the start is the sum of the row amounts |
| CashflowProperties.ProjectionProperties | src/projection/cashflow.rs:9-105 | fails exactly without snapshots. Otherwise the date is today, there is one row per future item, the rows are in date order, and each row's balance is the starting balance plus the amounts so far |
| CashflowProperties.ProjectionBalanceChain | src/projection/cashflow.rs:85-102 | with unique rule ids, the projected rows form a running-balance chain from the starting balance |
| CashflowProperties.SharedIdBreaksChain | src/projection/cashflow.rs:86-92 | two rules sharing an id, with amounts one apart: the row of the second rule's occurrence shows the first rule's amount, while the balance moved by the second's, so the chain is off by one |
| CashflowProperties.ProjectionOfNegativeDays | src/projection/cashflow.rs:55-79 | a negative horizon projects no rows |
| Text.StripSpacesIdempotent | src/commands/balance.rs:83 | removing spaces twice is removing them once |
| Text.StripSpaces | src/commands/balance.rs:83 | the result has no space and is no longer than the input |
| Text.StripSpacesKeepsOthers | src/commands/balance.rs:83 | every character other than a space occurs as often as in the input |
| Text.StripSpacesAppend | src/commands/balance.rs:83 | removing spaces from a concatenation is removing them from each part; with `StripSpacesOfSpace` and `StripSpacesOfSpaceFree` this fixes the result as the input's non-space characters in their order |
| Text.StripSpacesOfSpace | src/commands/balance.rs:83 | a lone space strips to the empty string |
| Text.StripSpacesOfSpaceFree | src/commands/balance.rs:83 | a string without spaces is unchanged |
| Text.StripJoin | src/commands/balance.rs:83 | removing spaces from two strings joined by a space is removing them from each |
| Output.AddThousandSeparators | src/cli/output.rs:35-47 | the reversed walk yields the digits grouped in threes from the right |
| Output.GroupedLength | src/cli/output.rs:35-47 | n digits become n + (n−1)/3 characters |
| Output.GroupedStrip | src/cli/output.rs:35-47 | removing the separators gives back the digits |
| Output.GroupedEnds | src/cli/output.rs:35-47 | the first and last characters are unchanged |
| Output.GroupedExamples | src/cli/output.rs:211-217 | the source's unit test: "1000" becomes "1 000", "22158" becomes "22 158", "1000000" becomes "1 000 000", "123" stays |
| Output.NatToStringRoundTrip | src/cli/output.rs:17 | the decimal digits of a number read back as that number |
| Output.FormatAmount | src/cli/output.rs:15-32 | the text ends in " Kč"; with the lemmas below it reads back as the amount truncated toward zero and starts with a minus exactly for a negative amount |
| Output.FormatAmountReadsBack | src/cli/output.rs:15-32 | a formatted amount reads back as the amount truncated toward zero |
| Output.FormatAmountSign | src/cli/output.rs:27-31 | the text starts with a minus exactly for a negative amount |
| Output.FormatAmountExamplePositive | src/cli/output.rs:222-230 | the source's unit test: 22158 is "22 158 Kč", 1000000 is "1 000 000 Kč" |
| Output.FormatAmountExampleNegative | src/cli/output.rs:226 | the source's unit test: −478 is "-478 Kč"; −478.9 is too, the fraction being dropped |
| Output.AmountColor | src/cli/output.rs:63-69 | red exactly for a negative amount, green otherwise |
| Output.BalanceColor | src/cli/output.rs:71-79 | red exactly below zero; yellow exactly from zero up to the threshold; cyan exactly from the threshold |
| Output.BalanceColorMonotone | src/cli/output.rs:71-79 | a lower balance never gets a calmer colour |
| Output.TrackRow | src/cli/output.rs:101-105 | the tracked minimum never rises and becomes the row only when the row is lower |
| Output.MinFoldIsMinimum | src/cli/output.rs:130-167 | the minimum is at most the start and every row. It stays the start on a tie, else it is the first row reaching it |
| Output.TrackMinimum | src/cli/output.rs:130-167 | the loop computes the minimum fold over the rows |
| Output.PlanSummary | src/cli/output.rs:130-190 | the minimum is that of the start and the shown rows; a total exists exactly with future rows and is the last balance minus the start; the warning shows exactly below the threshold |
| Balance.ParseAmountIgnoresSpaces | src/commands/balance.rs:81-86 | spaces anywhere in the input do not change the parse |
| Balance.ParseAmountExamplePositive | src/commands/balance.rs:110-128 | "22 158" parses as "22158" |
| Balance.ParseAmountExampleNegative | src/commands/balance.rs:110-128 | "- 478" parses as "-478" |
| Balance.ParseAmount | src/commands/balance.rs:81-86 | an amount without spaces goes to the decimal parser unchanged; with `ParseAmountIgnoresSpaces`, any spacing of the same characters parses the same |
| Balance.ParseDate | src/commands/balance.rs:91-103 | succeeds exactly when one of the two formats accepts the text; the Czech parse when it succeeds, else the ISO parse |
| Balance.SnapshotIndex | src/commands/balance.rs:26 | finds the first snapshot of the date, and finds none exactly when no snapshot has it |
| Balance.FindSnapshot | src/commands/balance.rs:26 | the search loop finds the first snapshot of the date |
| Balance.SetBalance | src/commands/balance.rs:11-49 | an invalid amount fails first, then a date that `ParseDate` rejects; otherwise the snapshot of the date (today when none is given) is overwritten or appended |
| Balance.UpsertEffect | src/commands/balance.rs:26-43 | an existing snapshot of the date gets the new balance and keeps its id and creation time, all else unchanged; otherwise a new snapshot is appended |
| Balance.UpsertKeepsDatesDistinct | src/commands/balance.rs:26-43 | snapshot dates stay distinct, and the date's one snapshot has the new balance |
| Balance.UpsertLastWriteWins | src/commands/balance.rs:26-43 | setting a date twice leaves what setting it once to the second amount would |
| Balance.ShowBalance | src/commands/balance.rs:55-67 | nothing exactly when there are no snapshots, else the latest one |
| Balance.ShowBalanceIsProjectionAnchor | src/commands/balance.rs:55-67 | the balance shown is the snapshot the projection starts from |
| Recurring.FindRule | src/commands/recurring.rs:99-103 | the search loop finds the first rule with the id |
| Recurring.Add | src/commands/recurring.rs:11-38 | a day outside 1..31 fails first, then an invalid amount; otherwise a new active rule is appended |
| Recurring.AddedRuleIsFound | src/commands/recurring.rs:11-38 | an added rule with a fresh id is found at the end and keeps ids unique |
| Recurring.AddedRuleContributes | src/commands/recurring.rs:11-38 | an added rule contributes every clamped day of a window |
| Recurring.ActiveRuleContributes | src/projection/cashflow.rs:59-66 | an active rule contributes every clamped day of a window |
| Recurring.Disable | src/commands/recurring.rs:95-113 | an identifier error or an unknown id fails; otherwise only the found rule is deactivated |
| Recurring.DisabledRuleContributesNothing | src/commands/recurring.rs:95-113 | with unique ids, a disabled rule contributes no occurrence |
| Recurring.Enable | src/commands/recurring.rs:116-134 | an identifier error or an unknown id fails; otherwise only the found rule is activated |
| Recurring.EnabledRuleContributes | src/commands/recurring.rs:116-134 | an enabled rule contributes every clamped day of a window |
| Recurring.SetActive | src/commands/recurring.rs:95-134 | the shared body of both commands: it fails on an identifier error or an unknown id, else sets the found rule's flag |
| Recurring.Delete | src/commands/recurring.rs:137-153 | an identifier error or an unknown id fails; otherwise the found rule is removed |
| Recurring.DeleteRemovesOne | src/commands/recurring.rs:137-153 | removal keeps the order of the rest and removes one copy; with unique ids the id is gone and ids stay unique |
| Recurring.DeleteKeepsUniqueIds | src/commands/recurring.rs:137-153 | with unique ids, the deleted id is no longer found and the remaining ids stay unique |
| Recurring.EditRule | src/commands/recurring.rs:171-187 | each given field is replaced, every other field is kept, and nothing given changes nothing |
| Recurring.Edit | src/commands/recurring.rs:156-193 | an identifier error, then an unknown id, then an invalid amount, then a day outside 1..31 fails; otherwise the found rule is edited |
| Recurring.EditKeepsIds | src/commands/recurring.rs:156-193 | an edit keeps every id, so it keeps ids unique |
| Recurring.ListOrderSorted | src/commands/recurring.rs:52-53 | the listing is a permutation ordered by day of the month |
| Recurring.ListOrderStable | src/commands/recurring.rs:52-53 | listed rules with the same day keep their stored order, and that order is the only one satisfying both |
| Recurring.ShortId | src/commands/recurring.rs:67 | the short id shown in the list is the first 8 characters of the canonical rendering |
| Recurring.ShortIdResolves | src/commands/recurring.rs:67 | a listed short id that no other rule's id starts with resolves to its rule |
| OneTime.FindEntry | src/commands/one_time.rs:110-114 | the search loop finds the first entry with the id |
| OneTime.Add | src/commands/one_time.rs:12-39 | an invalid amount fails first, then a date that `ParseDate` rejects; otherwise the new entry is appended |
| OneTime.AddedEntryIsFound | src/commands/one_time.rs:12-39 | an added entry with a fresh id is found at the end |
| OneTime.RetainUpcoming | src/commands/one_time.rs:48-51 | the filter loop computes the upcoming entries |
| OneTime.UpcomingKeepsExactly | src/commands/one_time.rs:48-51 | exactly the entries dated today or later are kept, each as often as stored |
| OneTime.List | src/commands/one_time.rs:42-65 | the listing is the stable sort by date of all or of the upcoming entries |
| OneTime.ListedOrder | src/commands/one_time.rs:65 | the listing is a permutation in date order, and entries of one date keep their stored order |
| OneTime.EditEntry | src/commands/one_time.rs:116-129 | each given field is replaced, every other field is kept, and nothing given changes nothing |
| OneTime.Edit | src/commands/one_time.rs:101-135 | an identifier error, then an unknown id, then an invalid amount, then a date that `ParseDate` rejects fails; otherwise the found entry is edited |
| OneTime.EditKeepsIds | src/commands/one_time.rs:101-135 | an edit keeps every id |
| OneTime.Delete | src/commands/one_time.rs:138-154 | an identifier error or an unknown id fails; otherwise the found entry is removed |
| OneTime.DeleteRemovesOne | src/commands/one_time.rs:138-154 | removal keeps the order of the rest and removes exactly one copy |

## Left out

Behaviour of the code worth knowing:

- The latest snapshot. `max_by_key` returns the last of several snapshots with the same latest date, so `FindLatestBalanceSnapshot` takes the last one, not the first.
- Month stepping never skips a month. A day kept in the next month stays, and otherwise the step goes to the 1st (`NextMonthVisitsEveryMonth`).
- A recurring amount that falls due on today, with a snapshot older than today. It belongs to the window (snapshot date, today], so it goes into today's starting balance and is not projected again (`AnchorDayRecurring`).
- With a snapshot dated today, a recurring amount due today is neither counted nor projected. No balance is carried forward when the snapshot is not older than today (cashflow.rs:21), and the projection window starts after today (cashflow.rs:131).
- A one-time entry dated today is projected and is not counted in the starting balance (`AnchorDayOneTime`).
- The unit test `test_projection_with_recurring` passes only when the current month has at most 30 days. Its rule falls due on today's day, so today's occurrence goes into the starting balance and the projection must find next month's. In a 31-day month, a day that exists in the next month falls on today + 31, outside the 30-day window. A day that does not exist there is clamped, and then the row's date fails the test's same-day check. The model makes no claim about that test.
- Two rules sharing an id break the running balance. The balance moves by the occurrence's own amount (cashflow.rs:86), while the row shows the first rule with that id (cashflow.rs:91-92). Ids are random UUIDs, so the source does not expect this; `ProjectionBalanceChain` requires unique ids and `SharedIdBreaksChain` exhibits the break.

Not modelled:

- Loading and saving the data file, the storage format, and the configuration file. Commands return the data that would be saved.
- The command-line parser, `src/main.rs`, `src/commands/plan.rs`, `src/commands/config.rs` and the `export` command. They only wire the modelled parts together, or are I/O.
- The clock (`Local::now`), random UUID generation (`Uuid::new_v4`) and the timestamp `created_at`. These are parameters.
- Library parsers are parameters:
  - `Decimal::from_str`, parameter `decimal`
  - `Uuid::parse_str`, parameter `parseFull`
  - chrono's two date formats, parameters `czech` and `iso`
  `Balance.ParseDate` states which of them decides the result, not which texts each format accepts.
- Decimal arithmetic becomes exact `real` arithmetic, with no 96-bit range and no scale. `FormatAmount`, `AmountColor` and `BalanceColor` use `a < 0` where the source uses `is_sign_negative` (output.rs:27, :65, :73), which also holds for a negative zero. So for −0 the model prints no minus and colours it green (an amount) or yellow or cyan (a balance), where the source prints a minus and colours it red.
- chrono's year range. Dates have unbounded years, and `AddDays` cannot overflow.
- `Balance.ParseAmount`'s contract says only that an amount without spaces is passed unchanged. What the stripped text is comes from the `Text` lemmas, not from a clause of its own.
- `Ids.ToLower`: only ASCII letters are lower-cased, where the source uses Unicode lower-casing. No non-ASCII character lower-cases to a hex digit or a dash, so prefix matching is unaffected.
- `StableSort.SortBy`: a stable insertion sort stands for the library's sort. The model proves that the result is the only sorted, stable permutation, so both sorts return the same sequence.
- Table rendering, per-row colours of past rows, `format_date`, the green heart on one-time rows, and all `println!` messages.
  - The heading rows for the snapshot balance and the current balance are not modelled.
  - `Output.PlanSummary` takes the fields of the projection it prints as parameters.
- The `continue` in the row loop for an item whose rule is missing. No item reaches it, because every recurring item is expanded from a rule in the data (`FutureItemsProperties`).
