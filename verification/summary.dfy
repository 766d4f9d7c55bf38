/**
 * `GET /api/summary`: income, expense and net over an optional month,
 * expense per category, and the budget limit per category.
 */
module Summary {
  import opened Wrappers
  import opened Text
  import opened Dicts
  import opened Calendar
  import opened Schemas
  import opened Store

  /** The budget keys the summary indexes directly; a missing one raises `KeyError`. */
  datatype BudgetKey = CategoryKey | LimitKey

  /** Why a summary request fails (surfaced as a server error carrying the exception text). */
  datatype SummaryError =
    | MalformedMonth                     // `split`, `int` or the two-name unpacking raised
    | MonthOutOfRange                    // a `datetime(...)` construction raised
    | MissingBudgetField(key: BudgetKey) // `b["limit"]` or `b["category"]` raised

  datatype Summary = Summary(
    income: real,
    expense: real,
    net: real,
    categories: Dict<string, real>,
    budgets: Dict<string, real>)

  /** Python truthiness of the optional month: absent and `""` both mean all time. */
  predicate Given(month: Option<string>) {
    month.Some? && month.value != ""
  }

  // ---------------------------------------------------------------------------
  // The month range

  /** `year, m = map(int, month.split("-"))`: exactly two parts, each an integer. */
  function ParseMonth(s: string): (r: Option<(int, int)>)
    ensures r.Some? ==> Count(s, '-') == 1
  {
    var parts := Split(s, '-');
    if |parts| != 2 then None
    else
      match (PyInt(parts[0]), PyInt(parts[1]))
      case (Some(y), Some(m)) => Some((y, m))
      case _ => None
  }

  /** Position of the first `-` (or `|s|` when there is none). */
  function IndexOfDash(s: string): (i: nat)
    ensures i <= |s|
    ensures forall j :: 0 <= j < i ==> s[j] != '-'
    ensures i < |s| ==> s[i] == '-'
    ensures i == |s| ==> Count(s, '-') == 0
  {
    if |s| == 0 || s[0] == '-' then 0 else 1 + IndexOfDash(s[1..])
  }

  lemma {:induction false} CountSplitAtDash(s: string)
    ensures IndexOfDash(s) < |s| ==> Count(s, '-') == 1 + Count(s[IndexOfDash(s) + 1..], '-')
  {
    if |s| > 0 && s[0] != '-' {
      CountSplitAtDash(s[1..]);
      if IndexOfDash(s[1..]) < |s[1..]| {
        assert s[1..][IndexOfDash(s[1..]) + 1..] == s[IndexOfDash(s) + 1..];
      }
    }
  }

  lemma {:induction false} CountZeroNoDash(s: string)
    requires Count(s, '-') == 0
    ensures '-' !in s
  {
    if |s| > 0 {
      CountZeroNoDash(s[1..]);
      assert forall j :: 1 <= j < |s| ==> s[j] == s[1..][j - 1];
    }
  }

  /** With a single `-`, the two parts are the text on either side of it. */
  lemma {:induction false} OneDashParts(s: string)
    requires Count(s, '-') == 1
    ensures Split(s, '-') == [s[..IndexOfDash(s)], s[IndexOfDash(s) + 1..]]
  {
    CountSplitAtDash(s);
    var i := IndexOfDash(s);
    CountZeroNoDash(s[i + 1..]);
    assert '-' !in s[..i];
    SplitAtOne(s[..i], s[i + 1..], '-');
    assert s == s[..i] + ['-'] + s[i + 1..];
  }

  /** With one `-`, the month reads as the integers on either side of it. */
  lemma {:induction false} ParseMonthParts(s: string)
    requires Count(s, '-') == 1
    ensures var i := IndexOfDash(s);
      ParseMonth(s).Some? <==> PyInt(s[..i]).Some? && PyInt(s[i + 1..]).Some?
    ensures var i := IndexOfDash(s);
      ParseMonth(s).Some? ==> ParseMonth(s).value == (PyInt(s[..i]).value, PyInt(s[i + 1..]).value)
  {
    OneDashParts(s);
  }

  /** The date range a month query filters on, or why building it raised. */
  function MonthRange(s: string): (r: Result<Interval, SummaryError>)
    ensures r.Failure? ==> r.error == MalformedMonth || r.error == MonthOutOfRange
    ensures r.Failure? && r.error == MalformedMonth <==> ParseMonth(s).None?
    ensures r.Success? ==> ValidDate(r.value.start) && Before(r.value.start, r.value.end)
  {
    match ParseMonth(s)
    case None => Failure(MalformedMonth)
    case Some((y, m)) =>
      match MonthInterval(y, m)
      case None => Failure(MonthOutOfRange)
      case Some(iv) => Success(iv)
  }

  /** Without exactly one `-` there is no summary. */
  lemma {:induction false} NoSingleDashFails(s: string)
    requires Count(s, '-') != 1
    ensures MonthRange(s) == Failure(MalformedMonth)
  {
  }

  /** A month number outside 1..12, or a year outside 1..9999, or December 9999, makes the request fail. */
  lemma {:induction false} OutOfRangeFails(s: string, y: int, m: int)
    requires ParseMonth(s) == Some((y, m))
    ensures MonthRange(s).Success? <==> 1 <= y <= 9999 && 1 <= m <= 12 && !(y == 9999 && m == 12)
    ensures MonthRange(s).Failure? ==> MonthRange(s).error == MonthOutOfRange
  {
  }

  /** Text around a single `-` reads as a month exactly when both sides pass `int()`. */
  lemma {:induction false} ParseMonthAround(y: string, m: string)
    requires '-' !in y && '-' !in m
    ensures ParseMonth(y + "-" + m) ==
      if PyInt(y).Some? && PyInt(m).Some? then Some((PyInt(y).value, PyInt(m).value)) else None
  {
    SplitAtOne(y, m, '-');
    assert y + "-" + m == y + ['-'] + m;
  }

  /** Two non-empty digit runs within the digit limit around a `-` read as their decimal values, padded or not. */
  lemma {:induction false} ParseMonthDigits(y: string, m: string)
    requires AllDigits(y) && AllDigits(m) && 0 < |y| <= MaxStrDigits && 0 < |m| <= MaxStrDigits
    ensures ParseMonth(y + "-" + m) == Some((DigitsValue(y), DigitsValue(m)))
  {
    assert '-' !in y && '-' !in m;
    ParseMonthAround(y, m);
    PyIntOfDigits(y);
    PyIntOfDigits(m);
  }

  /** A year or month written with more digits than `int()` allows makes the month malformed. */
  lemma {:induction false} ParseMonthTooManyDigits(y: string, m: string)
    requires AllDigits(y) && AllDigits(m)
    requires |y| > MaxStrDigits || |m| > MaxStrDigits
    ensures MonthRange(y + "-" + m) == Failure(MalformedMonth)
  {
    assert '-' !in y && '-' !in m;
    ParseMonthAround(y, m);
    if |y| > MaxStrDigits {
      PyIntTooManyDigits(y);
    } else {
      PyIntTooManyDigits(m);
    }
  }

  /** `int()` strips white space, so spaces around a month change nothing. */
  lemma {:induction false} ParsePaddedMonth(y: string, m: string)
    requires AllDigits(y) && AllDigits(m) && |y| > 0 && |m| > 0
    ensures ParseMonth(" " + y + "-" + m + " ") == ParseMonth(y + "-" + m)
  {
    var y', m' := " " + y, m + " ";
    assert " " + y + "-" + m + " " == y' + "-" + m';
    PyIntSpaced(y);
    PyIntSpaced(m);
    assert '-' !in y && '-' !in m;
    assert '-' !in y' && '-' !in m';
    ParseMonthAround(y', m');
    ParseMonthAround(y, m);
  }

  /** A `YYYY-MM` string (the budget month shape) reads as its two digit fields. */
  lemma {:induction false} ParseMonthShape(s: string)
    requires MonthShape(s)
    ensures ParseMonth(s) == Some((DigitsValue(s[0..4]), DigitsValue(s[5..7])))
  {
    ParseMonthDigits(s[0..4], s[5..7]);
    assert s == s[0..4] + "-" + s[5..7];
  }

  /** `FormatMonth(y, m)` is the canonical `YYYY-MM` text of a month. */
  function FormatMonth(y: nat, m: nat): (s: string)
    requires y < 10000 && m < 100
    ensures MonthShape(s)
  {
    var s := FixedDigits(y, 4) + "-" + FixedDigits(m, 2);
    assert s[0..4] == FixedDigits(y, 4) && s[5..7] == FixedDigits(m, 2);
    s
  }

  /** The canonical text of every month datetime can represent yields that month's interval. */
  lemma {:induction false} FormatMonthRange(y: nat, m: nat)
    requires 1 <= y <= 9999 && 1 <= m <= 12 && !(y == 9999 && m == 12)
    ensures MonthRange(FormatMonth(y, m)).Success?
    ensures MonthRange(FormatMonth(y, m)).value.start == Date(y, m, 1)
    ensures MonthRange(FormatMonth(y, m)).value.end == if m == 12 then Date(y + 1, 1, 1) else Date(y, m + 1, 1)
  {
    var ys, ms := FixedDigits(y, 4), FixedDigits(m, 2);
    ParseMonthDigits(ys, ms);
    FixedDigitsValue(y, 4);
    FixedDigitsValue(m, 2);
    assert ParseMonth(FormatMonth(y, m)) == Some((y, m));
  }

  // ---------------------------------------------------------------------------
  // Transaction totals

  /** `d.get("amount", 0)` */
  function AmountOf(d: TxnDoc): real {
    d.amount.GetOr(0.0)
  }

  /** `d.get("category", "Other")` */
  function CategoryOf(d: TxnDoc): string {
    d.category.GetOr("Other")
  }

  predicate IsKind(d: TxnDoc, kind: string) {
    d.kind == Some(kind)
  }

  /** `sum(d.get("amount", 0) for d in docs if d.get("type") == kind)` */
  function KindTotal(docs: seq<TxnDoc>, kind: string): real {
    if |docs| == 0 then 0.0
    else
      var d := docs[|docs| - 1];
      KindTotal(docs[..|docs| - 1], kind) + (if IsKind(d, kind) then AmountOf(d) else 0.0)
  }

  /** The total of the expense documents whose category reads as `c`. */
  function CategoryTotal(docs: seq<TxnDoc>, c: string): real {
    if |docs| == 0 then 0.0
    else
      var d := docs[|docs| - 1];
      CategoryTotal(docs[..|docs| - 1], c) + (if IsKind(d, "expense") && CategoryOf(d) == c then AmountOf(d) else 0.0)
  }

  /** Some expense document has category `c`. */
  ghost predicate HasExpenseIn(docs: seq<TxnDoc>, c: string) {
    exists i :: 0 <= i < |docs| && IsKind(docs[i], "expense") && CategoryOf(docs[i]) == c
  }

  /** The `by_cat` loop: expense amounts grouped by category, in first-seen order. */
  function ByCategory(docs: seq<TxnDoc>): (cats: Dict<string, real>)
    ensures Distinct(Keys(cats))
  {
    if |docs| == 0 then []
    else
      var prev := ByCategory(docs[..|docs| - 1]);
      var d := docs[|docs| - 1];
      if IsKind(d, "expense") then
        PutKeepsDistinct(prev, CategoryOf(d), Get(prev, CategoryOf(d)).GetOr(0.0) + AmountOf(d));
        Accumulate(prev, CategoryOf(d), AmountOf(d))
      else prev
  }

  /** The category totals add up to the expense total. */
  lemma {:induction false} CategoriesSumToExpense(docs: seq<TxnDoc>)
    ensures SumValues(ByCategory(docs)) == KindTotal(docs, "expense")
  {
    if |docs| > 0 {
      var prev := docs[..|docs| - 1];
      CategoriesSumToExpense(prev);
      var d := docs[|docs| - 1];
      if IsKind(d, "expense") {
        AccumulateSum(ByCategory(prev), CategoryOf(d), AmountOf(d));
      }
    }
  }

  /** A category appears exactly when some expense has it, and then maps to that category's expense total. */
  lemma {:induction false} CategoryLookup(docs: seq<TxnDoc>, c: string)
    ensures Get(ByCategory(docs), c) == if HasExpenseIn(docs, c) then Some(CategoryTotal(docs, c)) else None
  {
    if |docs| > 0 {
      var prev := docs[..|docs| - 1];
      var d := docs[|docs| - 1];
      var cats := ByCategory(prev);
      CategoryLookup(prev, c);
      HasExpenseSnoc(docs, c);
      if IsKind(d, "expense") {
        assert ByCategory(docs) == Accumulate(cats, CategoryOf(d), AmountOf(d));
        AccumulateGet(cats, CategoryOf(d), AmountOf(d), c);
        if CategoryOf(d) == c {
          if !HasExpenseIn(prev, c) {
            CategoryTotalAbsent(prev, c);
          }
          assert CategoryTotal(docs, c) == CategoryTotal(prev, c) + AmountOf(d);
        } else {
          assert CategoryTotal(docs, c) == CategoryTotal(prev, c);
        }
      } else {
        assert ByCategory(docs) == cats;
        assert CategoryTotal(docs, c) == CategoryTotal(prev, c);
      }
    }
  }

  lemma {:induction false} HasExpenseSnoc(docs: seq<TxnDoc>, c: string)
    requires |docs| > 0
    ensures var d := docs[|docs| - 1];
      HasExpenseIn(docs, c) <==> HasExpenseIn(docs[..|docs| - 1], c) || (IsKind(d, "expense") && CategoryOf(d) == c)
  {
    var prev := docs[..|docs| - 1];
    assert forall i :: 0 <= i < |prev| ==> prev[i] == docs[i];
  }

  lemma {:induction false} CategoryTotalAbsent(docs: seq<TxnDoc>, c: string)
    requires !HasExpenseIn(docs, c)
    ensures CategoryTotal(docs, c) == 0.0
  {
    if |docs| > 0 {
      var prev := docs[..|docs| - 1];
      HasExpenseSnoc(docs, c);
      CategoryTotalAbsent(prev, c);
      assert !(IsKind(docs[|docs| - 1], "expense") && CategoryOf(docs[|docs| - 1]) == c);
    }
  }

  /** Income documents never touch the category breakdown. */
  lemma {:induction false} IncomeNotCategorised(docs: seq<TxnDoc>, d: TxnDoc)
    requires IsKind(d, "income")
    ensures ByCategory(docs + [d]) == ByCategory(docs)
    ensures KindTotal(docs + [d], "expense") == KindTotal(docs, "expense")
  {
    assert (docs + [d])[..|docs|] == docs;
  }

  /** Some expense of category `c` comes before every expense of category `c2`. */
  ghost predicate SeenBefore(docs: seq<TxnDoc>, c: string, c2: string) {
    exists p :: 0 <= p < |docs| && IsKind(docs[p], "expense") && CategoryOf(docs[p]) == c
      && forall q :: 0 <= q <= p ==> !(IsKind(docs[q], "expense") && CategoryOf(docs[q]) == c2)
  }

  /** Reading one more document appends its category to the keys when it is a new expense category. */
  lemma {:induction false} ByCategoryKeysSnoc(docs: seq<TxnDoc>)
    requires |docs| > 0
    ensures var cats := ByCategory(docs[..|docs| - 1]); var d := docs[|docs| - 1];
      Keys(ByCategory(docs)) ==
        if IsKind(d, "expense") && CategoryOf(d) !in Keys(cats) then Keys(cats) + [CategoryOf(d)] else Keys(cats)
  {
    var cats := ByCategory(docs[..|docs| - 1]);
    var d := docs[|docs| - 1];
    if IsKind(d, "expense") {
      assert ByCategory(docs) == Accumulate(cats, CategoryOf(d), AmountOf(d));
    }
  }

  lemma {:induction false} SeenBeforeSnoc(docs: seq<TxnDoc>, c: string, c2: string)
    requires |docs| > 0 && SeenBefore(docs[..|docs| - 1], c, c2)
    ensures SeenBefore(docs, c, c2)
  {
    var prev := docs[..|docs| - 1];
    var p :| 0 <= p < |prev| && IsKind(prev[p], "expense") && CategoryOf(prev[p]) == c
      && forall q :: 0 <= q <= p ==> !(IsKind(prev[q], "expense") && CategoryOf(prev[q]) == c2);
    assert forall q :: 0 <= q <= p ==> docs[q] == prev[q];
  }

  lemma {:induction false} SeenBeforeNew(docs: seq<TxnDoc>, c: string, c2: string)
    requires |docs| > 0
    requires HasExpenseIn(docs[..|docs| - 1], c) && !HasExpenseIn(docs[..|docs| - 1], c2)
    ensures SeenBefore(docs, c, c2)
  {
    var prev := docs[..|docs| - 1];
    var p :| 0 <= p < |prev| && IsKind(prev[p], "expense") && CategoryOf(prev[p]) == c;
    assert forall q :: 0 <= q <= p ==> docs[q] == prev[q];
  }

  /** The grouping lists the categories in the order their first expense was read. */
  lemma {:induction false} ByCategoryFirstSeen(docs: seq<TxnDoc>, i: nat, j: nat)
    requires i < j < |ByCategory(docs)|
    ensures SeenBefore(docs, ByCategory(docs)[i].key, ByCategory(docs)[j].key)
  {
    var prev := docs[..|docs| - 1];
    var cats := ByCategory(prev);
    var all := ByCategory(docs);
    ByCategoryKeysSnoc(docs);
    var ki, kj := Keys(all)[i], Keys(all)[j];
    assert ki == Keys(cats)[i] == cats[i].key;
    if j < |cats| {
      assert kj == Keys(cats)[j] == cats[j].key;
      ByCategoryFirstSeen(prev, i, j);
      SeenBeforeSnoc(docs, ki, kj);
    } else {
      assert kj !in Keys(cats);
      GetNone(cats, ki);
      GetNone(cats, kj);
      CategoryLookup(prev, ki);
      CategoryLookup(prev, kj);
      SeenBeforeNew(docs, ki, kj);
    }
  }

  // ---------------------------------------------------------------------------
  // Budget limits

  /** A budget document has both keys the summary indexes. */
  predicate Complete(b: BudgetDoc) {
    b.limit.Some? && b.category.Some?
  }

  predicate AllComplete(docs: seq<BudgetDoc>) {
    forall i :: 0 <= i < |docs| ==> Complete(docs[i])
  }

  lemma {:induction false} AllCompleteSnoc(docs: seq<BudgetDoc>)
    requires |docs| > 0
    ensures AllComplete(docs) <==> AllComplete(docs[..|docs| - 1]) && Complete(docs[|docs| - 1])
  {
    var prev := docs[..|docs| - 1];
    assert forall i :: 0 <= i < |prev| ==> prev[i] == docs[i];
  }

  /** The `budgets[b["category"]] = b["limit"]` loop; the limit is read first, so its absence is reported first. */
  function BuildBudgets(docs: seq<BudgetDoc>): (r: Result<Dict<string, real>, SummaryError>)
    ensures r.Success? <==> AllComplete(docs)
    ensures r.Success? ==> Distinct(Keys(r.value))
    ensures r.Failure? ==> r.error.MissingBudgetField?
  {
    if |docs| == 0 then Success([])
    else
      var prefix := docs[..|docs| - 1];
      var b := docs[|docs| - 1];
      AllCompleteSnoc(docs);
      match BuildBudgets(prefix)
      case Failure(e) => Failure(e)
      case Success(prev) =>
        if b.limit.None? then Failure(MissingBudgetField(LimitKey))
        else if b.category.None? then Failure(MissingBudgetField(CategoryKey))
        else
          PutKeepsDistinct(prev, b.category.value, b.limit.value);
          Success(Put(prev, b.category.value, b.limit.value))
  }

  /** The key reported for an incomplete document: `limit` is looked up first. */
  function KeyMissing(b: BudgetDoc): BudgetKey {
    if b.limit.None? then LimitKey else CategoryKey
  }

  /** Document `i` is the first one missing a key. */
  predicate FirstIncomplete(docs: seq<BudgetDoc>, i: int) {
    0 <= i < |docs| && !Complete(docs[i]) && AllComplete(docs[..i])
  }

  /** A failed budget read reports the first incomplete document, naming `limit` when that is missing (it is read first). */
  lemma {:induction false} FirstIncompleteReported(docs: seq<BudgetDoc>)
    requires !AllComplete(docs)
    ensures exists i :: FirstIncomplete(docs, i) && BuildBudgets(docs) == Failure(MissingBudgetField(KeyMissing(docs[i])))
  {
    var prefix := docs[..|docs| - 1];
    AllCompleteSnoc(docs);
    if AllComplete(prefix) {
      var i := |docs| - 1;
      assert docs[..i] == prefix;
    } else {
      FirstIncompleteReported(prefix);
      var i :| FirstIncomplete(prefix, i) && BuildBudgets(prefix) == Failure(MissingBudgetField(KeyMissing(prefix[i])));
      assert docs[i] == prefix[i] && docs[..i] == prefix[..i];
    }
  }

  /** `i` is the last document for category `c`. */
  ghost predicate LastFor(docs: seq<BudgetDoc>, c: string, i: int) {
    && 0 <= i < |docs|
    && docs[i].category == Some(c)
    && forall j :: i < j < |docs| ==> docs[j].category != Some(c)
  }

  /** Some document names category `c`. */
  ghost predicate Names(docs: seq<BudgetDoc>, c: string) {
    exists i :: 0 <= i < |docs| && docs[i].category == Some(c)
  }

  /** Last writer wins: a category has a limit exactly when some document names it, and the limit is the last such document's. */
  lemma {:induction false} LastWriterWins(docs: seq<BudgetDoc>, c: string)
    requires BuildBudgets(docs).Success?
    ensures Get(BuildBudgets(docs).value, c).Some? <==> Names(docs, c)
    ensures forall i :: LastFor(docs, c, i) ==> Get(BuildBudgets(docs).value, c) == docs[i].limit
  {
    if |docs| > 0 {
      var prefix := docs[..|docs| - 1];
      var b := docs[|docs| - 1];
      AllCompleteSnoc(docs);
      LastWriterWins(prefix, c);
      var prev := BuildBudgets(prefix).value;
      assert BuildBudgets(docs).value == Put(prev, b.category.value, b.limit.value);
      LastStep(docs, c);
    }
  }

  lemma {:induction false} LastStep(docs: seq<BudgetDoc>, c: string)
    requires |docs| > 0
    ensures Names(docs, c) <==> Names(docs[..|docs| - 1], c) || docs[|docs| - 1].category == Some(c)
    ensures docs[|docs| - 1].category == Some(c) ==> forall i :: LastFor(docs, c, i) <==> i == |docs| - 1
    ensures docs[|docs| - 1].category != Some(c) ==> forall i :: LastFor(docs, c, i) <==> LastFor(docs[..|docs| - 1], c, i)
  {
    var prefix := docs[..|docs| - 1];
    assert forall i :: 0 <= i < |prefix| ==> prefix[i] == docs[i];
  }

  /** Some document names category `c` before any document names `c2`. */
  ghost predicate NamedBefore(docs: seq<BudgetDoc>, c: string, c2: string) {
    exists p :: 0 <= p < |docs| && docs[p].category == Some(c)
      && forall q :: 0 <= q <= p ==> docs[q].category != Some(c2)
  }

  /** Reading one more budget document appends its category to the keys when that category is new. */
  lemma {:induction false} BudgetKeysSnoc(docs: seq<BudgetDoc>)
    requires |docs| > 0 && BuildBudgets(docs).Success?
    ensures BuildBudgets(docs[..|docs| - 1]).Success?
    ensures var prev := BuildBudgets(docs[..|docs| - 1]).value; var c := docs[|docs| - 1].category.value;
      Keys(BuildBudgets(docs).value) == if c !in Keys(prev) then Keys(prev) + [c] else Keys(prev)
  {
    var b := docs[|docs| - 1];
    AllCompleteSnoc(docs);
    var prev := BuildBudgets(docs[..|docs| - 1]).value;
    assert BuildBudgets(docs).value == Put(prev, b.category.value, b.limit.value);
  }

  lemma {:induction false} NamedBeforeSnoc(docs: seq<BudgetDoc>, c: string, c2: string)
    requires |docs| > 0 && NamedBefore(docs[..|docs| - 1], c, c2)
    ensures NamedBefore(docs, c, c2)
  {
    var prev := docs[..|docs| - 1];
    var p :| 0 <= p < |prev| && prev[p].category == Some(c)
      && forall q :: 0 <= q <= p ==> prev[q].category != Some(c2);
    assert forall q :: 0 <= q <= p ==> docs[q] == prev[q];
  }

  lemma {:induction false} NamedBeforeNew(docs: seq<BudgetDoc>, c: string, c2: string)
    requires |docs| > 0
    requires Names(docs[..|docs| - 1], c) && !Names(docs[..|docs| - 1], c2)
    ensures NamedBefore(docs, c, c2)
  {
    var prev := docs[..|docs| - 1];
    var p :| 0 <= p < |prev| && prev[p].category == Some(c);
    assert forall q :: 0 <= q <= p ==> docs[q] == prev[q];
  }

  /**
   * The budget map lists the categories in the order they were first named:
   * a later document for a known category keeps the key where it was.
   */
  lemma {:induction false} BudgetsFirstNamed(docs: seq<BudgetDoc>, i: nat, j: nat)
    requires BuildBudgets(docs).Success?
    requires i < j < |BuildBudgets(docs).value|
    ensures NamedBefore(docs, BuildBudgets(docs).value[i].key, BuildBudgets(docs).value[j].key)
  {
    var prefix := docs[..|docs| - 1];
    BudgetKeysSnoc(docs);
    var prev := BuildBudgets(prefix).value;
    var all := BuildBudgets(docs).value;
    var ki, kj := Keys(all)[i], Keys(all)[j];
    assert ki == Keys(prev)[i] == prev[i].key;
    if j < |prev| {
      assert kj == Keys(prev)[j] == prev[j].key;
      BudgetsFirstNamed(prefix, i, j);
      NamedBeforeSnoc(docs, ki, kj);
    } else {
      assert kj !in Keys(prev);
      GetNone(prev, ki);
      GetNone(prev, kj);
      LastWriterWins(prefix, ki);
      LastWriterWins(prefix, kj);
      NamedBeforeNew(docs, ki, kj);
    }
  }

  // ---------------------------------------------------------------------------
  // The summary

  /** The reduction of fetched transactions and budget documents. */
  function Aggregate(txns: seq<TxnDoc>, bdocs: seq<BudgetDoc>): (r: Result<Summary, SummaryError>)
    ensures r.Success? <==> AllComplete(bdocs)
    ensures r.Failure? ==> r.error.MissingBudgetField?
    ensures r.Success? ==> r.value.income == KindTotal(txns, "income")
    ensures r.Success? ==> r.value.expense == KindTotal(txns, "expense")
    ensures r.Success? ==> r.value.net == r.value.income - r.value.expense
    ensures r.Success? ==> SumValues(r.value.categories) == r.value.expense
    ensures r.Success? ==> Distinct(Keys(r.value.categories)) && Distinct(Keys(r.value.budgets))
  {
    match BuildBudgets(bdocs)
    case Failure(e) => Failure(e)
    case Success(budgets) =>
      var income := KindTotal(txns, "income");
      var expense := KindTotal(txns, "expense");
      CategoriesSumToExpense(txns);
      Success(Summary(income, expense, income - expense, ByCategory(txns), budgets))
  }

  /** The transactions a summary covers: a month's range when one is given, otherwise all of them. */
  function Scope(s: Store, month: Option<string>): seq<TxnDoc>
    requires Given(month) ==> MonthRange(month.value).Success?
  {
    if Given(month) then FetchInInterval(s.transactions, MonthRange(month.value).value) else s.transactions
  }

  /** The budget documents a summary reads: those of exactly that month text, otherwise all of them. */
  function BudgetScope(s: Store, month: Option<string>): seq<BudgetDoc> {
    if Given(month) then FetchForMonth(s.budgets, month.value) else s.budgets
  }

  /** `GET /api/summary?month=...` */
  function Summarize(s: Store, month: Option<string>): (r: Result<Summary, SummaryError>)
    ensures Given(month) && MonthRange(month.value).Failure? ==> r == Failure(MonthRange(month.value).error)
    ensures r.Failure? && r.error.MissingBudgetField? <==>
      (!Given(month) || MonthRange(month.value).Success?) && exists b :: b in BudgetScope(s, month) && !Complete(b)
    ensures r.Success? ==> r.value.net == r.value.income - r.value.expense
    ensures r.Success? ==> SumValues(r.value.categories) == r.value.expense
    ensures WellFormed(s) ==> (r.Success? <==> !Given(month) || MonthRange(month.value).Success?)
  {
    if Given(month) then
      match MonthRange(month.value)
      case Failure(e) => Failure(e)
      case Success(iv) =>
        FetchForMonthMembers(s.budgets, month.value);
        Aggregate(FetchInInterval(s.transactions, iv), FetchForMonth(s.budgets, month.value))
    else Aggregate(s.transactions, s.budgets)
  }

  /** A summary is the aggregate of its scope. */
  lemma {:induction false} SummaryOfScope(s: Store, month: Option<string>)
    requires !Given(month) || MonthRange(month.value).Success?
    ensures Summarize(s, month) == Aggregate(Scope(s, month), BudgetScope(s, month))
  {
  }

  /** A month's summary covers exactly the stored transactions dated in that calendar month. */
  lemma {:induction false} MonthScope(s: Store, month: string, y: int, m: int, x: TxnDoc)
    requires WellFormed(s)
    requires ParseMonth(month) == Some((y, m)) && MonthRange(month).Success?
    requires month != ""
    ensures x in Scope(s, Some(month)) <==> x in s.transactions && x.date.At? && x.date.date.year == y && x.date.date.month == m
  {
    FetchInIntervalMembers(s.transactions, MonthRange(month).value);
    if x in s.transactions && x.date.At? {
      var i :| 0 <= i < |s.transactions| && s.transactions[i] == x;
      assert WellFormedTxn(s.transactions[i]);
      InMonthInterval(x.date.date, y, m);
    }
  }

  /** An empty store summarises to zero everywhere. */
  lemma {:induction false} EmptySummary(month: Option<string>)
    requires !Given(month) || MonthRange(month.value).Success?
    ensures Summarize(Store([], []), month) == Success(Summary(0.0, 0.0, 0.0, [], []))
  {
  }
}
