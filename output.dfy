/**
 * Rendering of amounts as Czech currency, the colours of the amount and
 * balance cells, and the summary under the plan table: the period total and
 * the lowest balance shown. The table itself is not modelled.
 */
module Output {
  import opened Wrappers
  import opened Calendar
  import opened Models
  import opened Text

  // ---------------------------------------------------------------------
  // Thousand separators

  /** s with a space before every group of three characters counted from the right. */
  function Grouped(s: string): string
    decreases |s|
  {
    if |s| <= 3 then s else Grouped(s[..|s| - 3]) + " " + s[|s| - 3..]
  }

  /** Putting one more character in front adds a separator exactly when the rest fills whole groups. */
  lemma {:induction false} GroupedCons(c: char, t: string)
    ensures Grouped([c] + t) == [c] + (if |t| > 0 && |t| % 3 == 0 then " " else "") + Grouped(t)
    decreases |t|
  {
    var s := [c] + t;
    if |t| > 3 {
      var n := |t| - 3;
      assert s[..|s| - 3] == [c] + t[..n];
      assert s[|s| - 3..] == t[n..];
      GroupedCons(c, t[..n]);
    } else if |t| == 3 {
      assert s[..|s| - 3] == [c];
      assert s[|s| - 3..] == t;
    }
  }

  /** One step of the walk from the right: the separated suffix grows by one character. */
  lemma SeparatorStep(s: string, i: int, result: string)
    requires 0 <= i < |s|
    requires result == Reverse(Grouped(s[|s| - i..]))
    ensures result + (if i > 0 && i % 3 == 0 then " " else "") + [s[|s| - 1 - i]] == Reverse(Grouped(s[|s| - (i + 1)..]))
  {
    var c := s[|s| - 1 - i];
    var t := s[|s| - i..];
    assert s[|s| - (i + 1)..] == [c] + t;
    GroupedCons(c, t);
    var sep: string := if i > 0 && i % 3 == 0 then " " else "";
    ReverseAppend([c] + sep, Grouped(t));
    ReverseAppend([c], sep);
  }

  /**
   * Builds the separated form by walking the characters from the right and
   * pushing a space before every third one, then reversing the result.
   */
  method AddThousandSeparators(s: string) returns (r: string)
    ensures r == Grouped(s)
  {
    var result: string := [];
    var i := 0;
    while i < |s|
      invariant 0 <= i <= |s|
      invariant result == Reverse(Grouped(s[|s| - i..]))
    {
      SeparatorStep(s, i, result);
      if i > 0 && i % 3 == 0 {
        result := result + " ";
      }
      result := result + [s[|s| - 1 - i]];
      i := i + 1;
    }
    assert s[|s| - i..] == s;
    ReverseReverse(Grouped(s));
    r := Reverse(result);
  }

  /** One space per full group after the first: n + (n - 1) / 3 characters. */
  lemma {:induction false} GroupedLength(s: string)
    ensures |s| == 0 ==> Grouped(s) == []
    ensures |s| >= 1 ==> |Grouped(s)| == |s| + (|s| - 1) / 3
    decreases |s|
  {
    if |s| > 3 {
      GroupedLength(s[..|s| - 3]);
    }
  }

  /** Removing the spaces of the separated form gives back the stripped input. */
  lemma {:induction false} GroupedStrip(s: string)
    ensures StripSpaces(Grouped(s)) == StripSpaces(s)
    decreases |s|
  {
    if |s| > 3 {
      var pre, suf := s[..|s| - 3], s[|s| - 3..];
      var g := Grouped(pre);
      assert Grouped(s) == g + " " + suf;
      GroupedStrip(pre);
      StripJoin(g, suf);
      assert s == pre + suf;
      StripSpacesAppend(pre, suf);
    }
  }

  /** No leading or trailing space: the first and last characters are the input's. */
  lemma {:induction false} GroupedEnds(s: string)
    requires s != []
    ensures Grouped(s) != [] && Grouped(s)[0] == s[0] && Grouped(s)[|Grouped(s)| - 1] == s[|s| - 1]
    decreases |s|
  {
    if |s| > 3 {
      GroupedEnds(s[..|s| - 3]);
    }
  }

  lemma GroupedExamples()
    ensures Grouped("1000") == "1 000"
    ensures Grouped("22158") == "22 158"
    ensures Grouped("1000000") == "1 000 000"
    ensures Grouped("123") == "123"
  {
    assert Grouped("1") == "1";
    assert Grouped("1000") == "1 000";
    assert Grouped("22") == "22";
    assert Grouped("1000000") == Grouped("1000") + " " + "000";
  }

  // ---------------------------------------------------------------------
  // Amounts

  function DigitChar(d: int): (c: char)
    requires 0 <= d < 10
    ensures '0' <= c <= '9' && c as int - '0' as int == d
  {
    "0123456789"[d]
  }

  predicate IsDigits(s: string) {
    forall i :: 0 <= i < |s| ==> '0' <= s[i] <= '9'
  }

  /** The decimal digits of n, without leading zeros. */
  function NatToString(n: nat): (s: string)
    ensures s != [] && IsDigits(s)
    ensures n > 0 ==> s[0] != '0'
  {
    if n < 10 then [DigitChar(n)] else NatToString(n / 10) + [DigitChar(n % 10)]
  }

  /** The value of a string of decimal digits. */
  function DigitsValue(s: string): nat
    requires IsDigits(s)
    decreases |s|
  {
    if s == [] then 0 else DigitsValue(s[..|s| - 1]) * 10 + (s[|s| - 1] as int - '0' as int)
  }

  lemma {:induction false} NatToStringRoundTrip(n: nat)
    ensures DigitsValue(NatToString(n)) == n
    decreases n
  {
    if n >= 10 {
      var s := NatToString(n);
      assert s[..|s| - 1] == NatToString(n / 10);
      NatToStringRoundTrip(n / 10);
    }
  }

  /** The integer part of |a|: the amount with its fraction dropped. */
  function Magnitude(a: real): (m: nat)
    ensures m as real <= (if a < 0.0 then -a else a) < m as real + 1.0
  {
    var abs := if a < 0.0 then -a else a;
    abs.Floor
  }

  /**
   * An amount in Czech currency: a minus sign for a negative amount, the
   * integer part of its magnitude with thousand separators, then " Kč".
   */
  function FormatAmount(a: real): (r: string)
    ensures |r| > 3 && r[|r| - 3..] == " Kč"
  {
    (if a < 0.0 then "-" else "") + Grouped(NatToString(Magnitude(a))) + " Kč"
  }

  /** The value of digits with spaces between them. */
  function ReadDigits(t: string): Option<nat> {
    var digits := StripSpaces(t);
    if digits != [] && IsDigits(digits) then Some(DigitsValue(digits)) else None
  }

  /** An optional minus sign, then digits with spaces between them. */
  function ReadSigned(body: string): Option<int> {
    if body != [] && body[0] == '-' then
      match ReadDigits(body[1..])
      case Some(n) => Some(-(n as int))
      case None => None
    else
      match ReadDigits(body)
      case Some(n) => Some(n as int)
      case None => None
  }

  /**
   * Reads a rendered amount back: an optional minus, digits with spaces
   * between them, then " Kč". Independent of the formatter.
   */
  function ReadAmount(s: string): Option<int> {
    if |s| >= 3 && s[|s| - 3..] == " Kč" then ReadSigned(s[..|s| - 3]) else None
  }

  /** The amount truncated toward zero. */
  function Truncate(a: real): int {
    if a < 0.0 then -(Magnitude(a) as int) else Magnitude(a)
  }

  /** The separated digits of n: non-empty, not starting with a minus, and read back as n. */
  lemma GroupedDigits(n: nat)
    ensures var g := Grouped(NatToString(n));
      g != [] && g[0] != '-' && ReadDigits(g) == Some(n)
  {
    var digits := NatToString(n);
    GroupedEnds(digits);
    GroupedStrip(digits);
    StripSpacesOfSpaceFree(digits);
    NatToStringRoundTrip(n);
  }

  /** Reading strips the currency suffix. */
  lemma ReadAmountOfBody(body: string)
    ensures ReadAmount(body + " Kč") == ReadSigned(body)
  {
    var s := body + " Kč";
    assert s[|s| - 3..] == " Kč" && s[..|s| - 3] == body;
  }

  lemma ReadSignedOf(negative: bool, g: string, n: nat)
    requires g != [] && g[0] != '-' && ReadDigits(g) == Some(n)
    ensures ReadSigned((if negative then "-" else "") + g) == Some(if negative then -(n as int) else n)
  {
    var body := (if negative then "-" else "") + g;
    if negative {
      assert body[0] == '-' && body[1..] == g;
      assert ReadSigned(body) == Some(-(n as int));
    } else {
      assert body == g && body[0] != '-';
      assert ReadSigned(body) == Some(n as int);
    }
  }

  /**
   * Reading a rendered amount back gives the amount truncated toward zero:
   * the fraction is dropped, not rounded, and the sign survives.
   */
  lemma FormatAmountReadsBack(a: real)
    ensures ReadAmount(FormatAmount(a)) == Some(Truncate(a))
  {
    var n := Magnitude(a);
    var g := Grouped(NatToString(n));
    var body := (if a < 0.0 then "-" else "") + g;
    GroupedDigits(n);
    ReadSignedOf(a < 0.0, g, n);
    ReadAmountOfBody(body);
    assert FormatAmount(a) == body + " Kč";
  }

  /** The rendering starts with a minus sign exactly when the amount is negative. */
  lemma FormatAmountSign(a: real)
    ensures FormatAmount(a)[0] == '-' <==> a < 0.0
  {
    var g := Grouped(NatToString(Magnitude(a)));
    GroupedDigits(Magnitude(a));
    if a >= 0.0 {
      assert FormatAmount(a)[0] == g[0];
    }
  }

  lemma NatToStringExamples()
    ensures NatToString(22158) == "22158"
    ensures NatToString(478) == "478"
    ensures NatToString(1000000) == "1000000"
  {
    assert NatToString(22) == "22";
    assert NatToString(221) == "221";
    assert NatToString(2215) == "2215";
    assert NatToString(47) == "47";
    assert NatToString(10) == "10";
    assert NatToString(100) == "100";
    assert NatToString(1000) == "1000";
    assert NatToString(10000) == "10000";
    assert NatToString(100000) == "100000";
  }

  lemma FormatAmountExamplePositive()
    ensures FormatAmount(22158.0) == "22 158 Kč"
    ensures FormatAmount(1000000.0) == "1 000 000 Kč"
  {
    GroupedExamples();
    NatToStringExamples();
    assert Magnitude(22158.0) == 22158;
    assert Magnitude(1000000.0) == 1000000;
    assert FormatAmount(22158.0) == "" + "22 158" + " Kč";
    assert FormatAmount(1000000.0) == "" + "1 000 000" + " Kč";
  }

  lemma FormatAmountExampleNegative()
    ensures FormatAmount(-478.0) == "-478 Kč"
    ensures FormatAmount(-478.9) == "-478 Kč"
  {
    NatToStringExamples();
    assert Magnitude(-478.0) == 478 && Magnitude(-478.9) == 478;
    assert Grouped("478") == "478";
  }

  // ---------------------------------------------------------------------
  // Colours

  datatype Color = Red | Green | Yellow | Cyan

  /** An amount cell is red exactly when the amount is negative, green otherwise. */
  function AmountColor(amount: real): (c: Color)
    ensures c == Red <==> amount < 0.0
    ensures c == Green <==> amount >= 0.0
  {
    if amount < 0.0 then Red else Green
  }

  /** A balance cell is red when negative, yellow when below the threshold, cyan otherwise. */
  function BalanceColor(balance: real, threshold: real): (c: Color)
    ensures c == Red <==> balance < 0.0
    ensures c == Yellow <==> 0.0 <= balance < threshold
    ensures c == Cyan <==> 0.0 <= balance && threshold <= balance
  {
    if balance < 0.0 then Red else if balance < threshold then Yellow else Cyan
  }

  /** How alarming a colour is. */
  function Severity(c: Color): nat {
    match c
    case Red => 2
    case Yellow => 1
    case Green => 0
    case Cyan => 0
  }

  /** A lower balance is never shown in a calmer colour. */
  lemma BalanceColorMonotone(low: real, high: real, threshold: real)
    requires low <= high
    ensures Severity(BalanceColor(high, threshold)) <= Severity(BalanceColor(low, threshold))
    ensures threshold <= 0.0 ==> BalanceColor(low, threshold) != Yellow
  {
  }

  // ---------------------------------------------------------------------
  // Summary

  /** The lowest balance seen so far and the date it was seen on. */
  datatype MinBalance = MinBalance(balance: real, date: Date)

  /** A shown row replaces the minimum only with a strictly lower balance. */
  function TrackRow(m: MinBalance, row: TransactionView): (r: MinBalance)
    ensures r.balance <= m.balance && r.balance <= row.balanceAfter
    ensures r == m || r == MinBalance(row.balanceAfter, row.date)
  {
    if row.balanceAfter < m.balance then MinBalance(row.balanceAfter, row.date) else m
  }

  /** The minimum after the rows, tracked in order from m. */
  function MinFold(rows: seq<TransactionView>, m: MinBalance): MinBalance
    decreases |rows|
  {
    if rows == [] then m else MinFold(rows[1..], TrackRow(m, rows[0]))
  }

  lemma {:induction false} MinFoldAppend(a: seq<TransactionView>, b: seq<TransactionView>, m: MinBalance)
    ensures MinFold(a + b, m) == MinFold(b, MinFold(a, m))
    decreases |a|
  {
    if a != [] {
      assert (a + b)[1..] == a[1..] + b;
      MinFoldAppend(a[1..], b, TrackRow(m, a[0]));
    } else {
      assert a + b == b;
    }
  }

  /**
   * The tracked minimum is the least of the starting balance and every row's
   * balance. It stays the starting one on a tie, and otherwise it is the
   * first row that reaches it, with that row's date.
   */
  lemma {:induction false} MinFoldIsMinimum(rows: seq<TransactionView>, m: MinBalance)
    ensures MinFold(rows, m).balance <= m.balance
    ensures forall k :: 0 <= k < |rows| ==> MinFold(rows, m).balance <= rows[k].balanceAfter
    ensures MinFold(rows, m).balance == m.balance ==> MinFold(rows, m) == m
    ensures MinFold(rows, m).balance < m.balance ==>
      exists k :: 0 <= k < |rows| && MinFold(rows, m) == MinBalance(rows[k].balanceAfter, rows[k].date)
        && forall j :: 0 <= j < k ==> MinFold(rows, m).balance < rows[j].balanceAfter
    decreases |rows|
  {
    if rows != [] {
      var tail := rows[1..];
      var m1 := TrackRow(m, rows[0]);
      var r := MinFold(tail, m1);
      MinFoldIsMinimum(tail, m1);
      forall k | 0 < k < |rows| ensures r.balance <= rows[k].balanceAfter {
        assert rows[k] == tail[k - 1];
      }
      if r.balance < m1.balance {
        var k :| 0 <= k < |tail| && r == MinBalance(tail[k].balanceAfter, tail[k].date)
          && forall j :: 0 <= j < k ==> r.balance < tail[j].balanceAfter;
        assert rows[k + 1] == tail[k];
        forall j | 0 <= j < k + 1 ensures r.balance < rows[j].balanceAfter {
          if j > 0 {
            assert rows[j] == tail[j - 1];
          }
        }
      } else if r.balance < m.balance {
        assert r == m1 == MinBalance(rows[0].balanceAfter, rows[0].date);
      }
    }
  }

  /** Walks the rows as the table does, tracking the minimum balance. */
  method TrackMinimum(rows: seq<TransactionView>, m: MinBalance) returns (r: MinBalance)
    ensures r == MinFold(rows, m)
  {
    r := m;
    var i := 0;
    while i < |rows|
      invariant 0 <= i <= |rows|
      invariant MinFold(rows[i..], r) == MinFold(rows, m)
    {
      assert rows[i..][1..] == rows[i + 1..];
      r := TrackRow(r, rows[i]);
      i := i + 1;
    }
  }

  /** The rows the table shows: the past ones only on request, then the future ones. */
  function ShownRows(past: seq<TransactionView>, future: seq<TransactionView>, showPast: bool): seq<TransactionView> {
    (if showPast then past else []) + future
  }

  datatype Summary = Summary(minimum: MinBalance, total: Option<real>, lowWarning: bool)

  /**
   * The summary under the plan table: the minimum over the starting balance
   * and the shown rows, the period total when there is a future row, and
   * whether the minimum is below the warning threshold.
   */
  method PlanSummary(starting: real, startDate: Date, past: seq<TransactionView>, future: seq<TransactionView>,
                     showPast: bool, threshold: real) returns (s: Summary)
    ensures s.minimum == MinFold(ShownRows(past, future, showPast), MinBalance(starting, startDate))
    ensures s.total.Some? <==> future != []
    ensures future != [] ==> s.total == Some(future[|future| - 1].balanceAfter - starting)
    ensures s.lowWarning <==> s.minimum.balance < threshold
  {
    var m := MinBalance(starting, startDate);
    if showPast {
      m := TrackMinimum(past, m);
    }
    m := TrackMinimum(future, m);
    MinFoldAppend(if showPast then past else [], future, MinBalance(starting, startDate));
    var total: Option<real> := None;
    if |future| > 0 {
      total := Some(future[|future| - 1].balanceAfter - starting);
    }
    s := Summary(m, total, m.balance < threshold);
  }
}
