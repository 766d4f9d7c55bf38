/**
 * What the chat replies say about the stored documents: each number a reply
 * narrates is the corresponding total over the transactions and budgets the
 * requested month selects.
 */
module Grounding {
  import opened Wrappers
  import opened Text
  import opened Dicts
  import opened Store
  import opened Summary
  import opened Responder

  /** A successful chat was grounded in a successful summary, so the month (if any) parsed. */
  lemma {:induction false} ChatScoped(s: Store, message: string, month: Option<string>)
    requires Chat(s, message, month).Success?
    ensures !Given(month) || MonthRange(month.value).Success?
    ensures Summarize(s, month) == Aggregate(Scope(s, month), BudgetScope(s, month))
    ensures BuildBudgets(BudgetScope(s, month)).Success?
    ensures Chat(s, message, month).value.summary.categories == ByCategory(Scope(s, month))
    ensures Chat(s, message, month).value.summary.budgets == BuildBudgets(BudgetScope(s, month)).value
  {
    SummaryOfScope(s, month);
  }

  /** A key of a dict with distinct keys sits at some index. */
  lemma {:induction false} KeyIndex(d: Dict<string, real>, c: string) returns (j: nat)
    requires c in Keys(d)
    ensures j < |d| && d[j].key == c
  {
    var ks := Keys(d);
    j :| 0 <= j < |ks| && ks[j] == c;
  }

  /** The top category of a grouping is a category that occurs, with the largest expense total of all. */
  lemma {:induction false} TopCategoryGrounded(docs: seq<TxnDoc>)
    requires |ByCategory(docs)| > 0
    ensures var e := TopCategory(ByCategory(docs)).value;
      HasExpenseIn(docs, e.key) && e.value == CategoryTotal(docs, e.key)
    ensures var e := TopCategory(ByCategory(docs)).value;
      forall c :: HasExpenseIn(docs, c) ==> CategoryTotal(docs, c) <= e.value
  {
    var cats := ByCategory(docs);
    var e := TopCategory(cats).value;
    var k :| FirstMaxAt(cats, k) && cats[k] == e;
    GetAt(cats, k);
    CategoryLookup(docs, e.key);
    forall c | HasExpenseIn(docs, c)
      ensures CategoryTotal(docs, c) <= e.value
    {
      CategoryLookup(docs, c);
      GetNone(cats, c);
      var j := KeyIndex(cats, c);
      GetAt(cats, j);
    }
  }

  /**
   * The spending reply reports the expense total of the month, and its top
   * category has the largest expense total of all categories that occur.
   */
  lemma {:induction false} SpendingGrounded(s: Store, message: string, month: Option<string>)
    requires Chat(s, message, month).Success?
    requires Chat(s, message, month).value.reply.SpendingReply?
    ensures Chat(s, message, month).value.reply.expense == KindTotal(Scope(s, month), "expense")
    ensures var top := Chat(s, message, month).value.reply.top;
      top.Some? ==> HasExpenseIn(Scope(s, month), top.value.key) && top.value.value == CategoryTotal(Scope(s, month), top.value.key)
    ensures var top := Chat(s, message, month).value.reply.top;
      top.Some? ==> forall c :: HasExpenseIn(Scope(s, month), c) ==> CategoryTotal(Scope(s, month), c) <= top.value.value
  {
    ChatScoped(s, message, month);
    var top := Chat(s, message, month).value.reply.top;
    if top.Some? {
      TopCategoryGrounded(Scope(s, month));
    }
  }

  /** The income reply reports the month's income and its income minus its expense. */
  lemma {:induction false} IncomeGrounded(s: Store, message: string, month: Option<string>)
    requires Chat(s, message, month).Success?
    requires Chat(s, message, month).value.reply.IncomeReply?
    ensures Chat(s, message, month).value.reply.income == KindTotal(Scope(s, month), "income")
    ensures Chat(s, message, month).value.reply.net == KindTotal(Scope(s, month), "income") - KindTotal(Scope(s, month), "expense")
  {
    ChatScoped(s, message, month);
  }

  /** A budget map is empty exactly when no budget document was read. */
  lemma {:induction false} BudgetsEmptyIff(docs: seq<BudgetDoc>)
    requires BuildBudgets(docs).Success?
    ensures |BuildBudgets(docs).value| == 0 <==> |docs| == 0
  {
    if |docs| > 0 {
      var c := docs[|docs| - 1].category;
      assert Complete(docs[|docs| - 1]);
      LastWriterWins(docs, c.value);
      assert Names(docs, c.value);
    }
  }

  /**
   * Each line of the budget reply names a category some budget document of
   * the month names, shows the limit of the last such document, shows that
   * category's expense total (zero when it has none), and says "over"
   * exactly when that total exceeds the limit.
   */
  lemma {:induction false} BudgetGrounded(s: Store, message: string, month: Option<string>)
    requires Chat(s, message, month).Success?
    requires Chat(s, message, month).value.reply.BudgetReply?
    ensures var lines := Chat(s, message, month).value.reply.lines;
      forall i :: 0 <= i < |lines| ==> Names(BudgetScope(s, month), lines[i].category)
    ensures var lines := Chat(s, message, month).value.reply.lines;
      forall i, j :: 0 <= i < |lines| && LastFor(BudgetScope(s, month), lines[i].category, j) ==>
        BudgetScope(s, month)[j].limit == Some(lines[i].limit)
    ensures var lines := Chat(s, message, month).value.reply.lines;
      forall i :: 0 <= i < |lines| ==> lines[i].spent == CategoryTotal(Scope(s, month), lines[i].category)
    ensures var lines := Chat(s, message, month).value.reply.lines;
      forall i :: 0 <= i < |lines| ==> (lines[i].over <==> CategoryTotal(Scope(s, month), lines[i].category) > lines[i].limit)
  {
    ChatScoped(s, message, month);
    var scope := Scope(s, month);
    var bscope := BudgetScope(s, month);
    var b := BuildBudgets(bscope).value;
    var cats := ByCategory(scope);
    var lines := Chat(s, message, month).value.reply.lines;
    assert lines == BudgetLines(b, cats);
    forall i | 0 <= i < |lines|
      ensures Names(bscope, lines[i].category)
      ensures forall j :: LastFor(bscope, lines[i].category, j) ==> bscope[j].limit == Some(lines[i].limit)
      ensures lines[i].spent == CategoryTotal(scope, lines[i].category)
    {
      var c := b[i].key;
      GetAt(b, i);
      LastWriterWins(bscope, c);
      CategoryLookup(scope, c);
      if !HasExpenseIn(scope, c) {
        CategoryTotalAbsent(scope, c);
      }
    }
  }

  /** The budget query answers "No budgets set yet." exactly when the month has no budget documents. */
  lemma {:induction false} NoBudgetsGrounded(s: Store, message: string, month: Option<string>)
    requires Chat(s, message, month).Success?
    requires Classify(message) == BudgetQuery
    ensures Chat(s, message, month).value.reply.NoBudgetsReply? <==> |BudgetScope(s, month)| == 0
  {
    ChatScoped(s, message, month);
    BudgetsEmptyIff(BudgetScope(s, month));
  }

  /** Every category a budget document of the month names gets a line. */
  lemma {:induction false} EveryBudgetListed(s: Store, message: string, month: Option<string>, c: string)
    requires Chat(s, message, month).Success?
    requires Chat(s, message, month).value.reply.BudgetReply?
    requires Names(BudgetScope(s, month), c)
    ensures exists i :: 0 <= i < |Chat(s, message, month).value.reply.lines| && Chat(s, message, month).value.reply.lines[i].category == c
  {
    ChatScoped(s, message, month);
    var b := BuildBudgets(BudgetScope(s, month)).value;
    LastWriterWins(BudgetScope(s, month), c);
    GetNone(b, c);
    var j := KeyIndex(b, c);
    assert Chat(s, message, month).value.reply.lines[j].category == c;
  }
}
