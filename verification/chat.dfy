/**
 * `POST /api/chat`: a rule-based responder that classifies the message by
 * keyword and narrates the summary for the requested month.
 */
module Responder {
  import opened Wrappers
  import opened Text
  import opened Dicts
  import opened Store
  import opened Summary

  // ---------------------------------------------------------------------------
  // Intent

  datatype Intent = SpendingQuery | IncomeQuery | BudgetQuery | Fallback

  /** The lower-cased message contains `w`. */
  ghost predicate Mentions(message: string, w: string) {
    exists k :: OccursAt(Lower(message), w, k)
  }

  /** Keyword routing on the lower-cased message; the first rule that matches wins. */
  function Classify(message: string): (i: Intent)
    ensures i == SpendingQuery <==> Mentions(message, "spend") || Mentions(message, "expense")
    ensures i == IncomeQuery <==>
      !Mentions(message, "spend") && !Mentions(message, "expense") && Mentions(message, "income")
    ensures i == BudgetQuery <==>
      !Mentions(message, "spend") && !Mentions(message, "expense") && !Mentions(message, "income")
      && Mentions(message, "budget")
    ensures i == Fallback <==>
      !Mentions(message, "spend") && !Mentions(message, "expense") && !Mentions(message, "income")
      && !Mentions(message, "budget")
  {
    var text := Lower(message);
    if Contains(text, "spend") || Contains(text, "expense") then SpendingQuery
    else if Contains(text, "income") then IncomeQuery
    else if Contains(text, "budget") then BudgetQuery
    else Fallback
  }

  /** Messages that differ only in the case of ASCII letters get the same intent. */
  lemma {:induction false} ClassifyIgnoresCase(a: string, b: string)
    requires Lower(a) == Lower(b)
    ensures Classify(a) == Classify(b)
  {
  }

  /** Lower-casing the message before it is posted changes nothing: the endpoint lower-cases it anyway. */
  lemma {:induction false} ClassifyLowered(message: string)
    ensures Classify(Lower(message)) == Classify(message)
  {
    LowerIdempotent(message);
  }

  // ---------------------------------------------------------------------------
  // Top category

  /**
   * The scan `max(categories, key=...)` performs: keep the first entry and
   * replace it only by a strictly larger one. `best` is the running maximum
   * among the first `i` entries.
   */
  function ScanMax(d: Dict<string, real>, best: nat, i: nat): (k: nat)
    requires best < i <= |d|
    requires forall j :: 0 <= j < i ==> d[j].value <= d[best].value
    requires forall j :: 0 <= j < best ==> d[j].value < d[best].value
    ensures best <= k < |d|
    ensures forall j :: 0 <= j < |d| ==> d[j].value <= d[k].value
    ensures forall j :: 0 <= j < k ==> d[j].value < d[k].value
    decreases |d| - i
  {
    if i == |d| then best
    else if d[i].value > d[best].value then ScanMax(d, i, i + 1)
    else ScanMax(d, best, i + 1)
  }

  /** Entry `k` has the largest amount and every entry before it is strictly smaller. */
  ghost predicate FirstMaxAt(cats: Dict<string, real>, k: int) {
    && 0 <= k < |cats|
    && (forall j :: 0 <= j < |cats| ==> cats[j].value <= cats[k].value)
    && (forall j :: 0 <= j < k ==> cats[j].value < cats[k].value)
  }

  /** The category with the largest amount, the earliest one on a tie; none when there are no categories. */
  function TopCategory(cats: Dict<string, real>): (r: Option<Entry<string, real>>)
    ensures r.None? <==> |cats| == 0
    ensures r.Some? ==> exists k :: FirstMaxAt(cats, k) && cats[k] == r.value
  {
    if |cats| == 0 then None else Some(cats[ScanMax(cats, 0, 1)])
  }

  // ---------------------------------------------------------------------------
  // Replies

  /** `month or 'all time'`. */
  datatype Period = ForMonth(month: string) | AllTime

  function PeriodOf(month: Option<string>): (p: Period)
    ensures p.AllTime? <==> !Given(month)
  {
    if Given(month) then ForMonth(month.value) else AllTime
  }

  /** One `- <category>: $<spent> / $<limit> (over|under)` line. */
  datatype BudgetLine = BudgetLine(category: string, spent: real, limit: real, over: bool)

  /** The reply, with the numbers it renders to two decimals kept as numbers. */
  datatype Reply =
    | SpendingReply(period: Period, expense: real, top: Option<Entry<string, real>>)
    | IncomeReply(period: Period, income: real, net: real)
    | BudgetReply(lines: seq<BudgetLine>)
    | NoBudgetsReply
    | HelpReply

  /** One status line per budget, in the budgets' order; a category with no expense has spent 0. */
  function BudgetLines(budgets: Dict<string, real>, cats: Dict<string, real>): (lines: seq<BudgetLine>)
    ensures |lines| == |budgets|
    ensures forall i :: 0 <= i < |budgets| ==> lines[i].category == budgets[i].key && lines[i].limit == budgets[i].value
    ensures forall i :: 0 <= i < |budgets| ==> lines[i].spent == Get(cats, budgets[i].key).GetOr(0.0)
    ensures forall i :: 0 <= i < |budgets| ==> (lines[i].over <==> lines[i].spent > lines[i].limit)
  {
    if |budgets| == 0 then []
    else
      var e := budgets[0];
      var spent := Get(cats, e.key).GetOr(0.0);
      [BudgetLine(e.key, spent, e.value, spent > e.value)] + BudgetLines(budgets[1..], cats)
  }

  /** The reply text for an intent, grounded in a summary. */
  function Respond(intent: Intent, period: Period, s: Summary): (r: Reply)
    ensures r.SpendingReply? <==> intent == SpendingQuery
    ensures r.IncomeReply? <==> intent == IncomeQuery
    ensures r.BudgetReply? || r.NoBudgetsReply? <==> intent == BudgetQuery
    ensures r.HelpReply? <==> intent == Fallback
    ensures r.NoBudgetsReply? <==> intent == BudgetQuery && |s.budgets| == 0
    ensures r.BudgetReply? ==> |s.budgets| > 0 && r.lines == BudgetLines(s.budgets, s.categories)
    ensures r.SpendingReply? ==> r.expense == s.expense && r.period == period
    ensures r.SpendingReply? && r.top.Some? ==> r.top.value.key != "" && TopCategory(s.categories) == r.top
    ensures r.SpendingReply? && r.top.None? ==> |s.categories| == 0 || TopCategory(s.categories).value.key == ""
    ensures r.IncomeReply? ==> r.income == s.income && r.net == s.net && r.period == period
  {
    match intent
    case SpendingQuery =>
      var top := TopCategory(s.categories);
      SpendingReply(period, s.expense, if top.Some? && top.value.key != "" then top else None)
    case IncomeQuery => IncomeReply(period, s.income, s.net)
    case BudgetQuery =>
      if |s.budgets| == 0 then NoBudgetsReply else BudgetReply(BudgetLines(s.budgets, s.categories))
    case Fallback => HelpReply
  }

  /** What the endpoint returns: the reply and the summary it was grounded in. */
  datatype ChatResult = ChatResult(reply: Reply, summary: Summary)

  /** `POST /api/chat`; it fails exactly when the summary for the month fails. */
  function Chat(s: Store, message: string, month: Option<string>): (r: Result<ChatResult, SummaryError>)
    ensures r.Success? <==> Summarize(s, month).Success?
    ensures r.Failure? ==> r.error == Summarize(s, month).error
    ensures r.Success? ==> r.value.summary == Summarize(s, month).value
    ensures r.Success? ==> r.value.reply == Respond(Classify(message), PeriodOf(month), r.value.summary)
  {
    var intent := Classify(message);
    match Summarize(s, month)
    case Failure(e) => Failure(e)
    case Success(sum) => Success(ChatResult(Respond(intent, PeriodOf(month), sum), sum))
  }
}
