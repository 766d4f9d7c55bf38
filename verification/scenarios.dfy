/** Worked examples of the endpoints on small stores. */
module Scenarios {
  import opened Wrappers
  import opened Text
  import opened Dicts
  import opened Calendar
  import opened Schemas
  import opened Store
  import opened Summary
  import opened Responder

  const Groceries: Transaction := Transaction(50.0, "expense", "groceries", "2025-01-05", None)
  const GroceriesBudget: Budget := Budget("2025-01", "groceries", 40.0)

  lemma {:induction false} JanuaryParse()
    ensures ParseMonth("2025-01") == Some((2025, 1))
  {
    assert "2025" + "-" + "01" == "2025-01";
    ParseMonthDigits("2025", "01");
    SmallDigits();
  }

  lemma {:induction false} JanuaryRange()
    ensures MonthRange("2025-01") == Success(Interval(Date(2025, 1, 1), Date(2025, 2, 1)))
  {
    JanuaryParse();
  }

  lemma {:induction false} SmallDigits()
    ensures DigitsValue("2025") == 2025
    ensures DigitsValue("01") == 1
    ensures DigitsValue("05") == 5
    ensures DigitsValue("1") == 1
  {
    assert "2025"[..3] == "202" && "202"[..2] == "20" && "20"[..1] == "2" && "2"[..0] == "";
    assert "01"[..1] == "0" && "05"[..1] == "0" && "0"[..0] == "" && "1"[..0] == "";
  }

  lemma {:induction false} GroceriesDate()
    ensures IsoDateShape(Groceries.date)
    ensures ParseIsoDate(Groceries.date) == Some(Date(2025, 1, 5))
  {
    var d := Groceries.date;
    assert d[0..4] == "2025";
    assert d[5..7] == "01";
    assert d[8..10] == "05";
    SmallDigits();
  }

  /** The posted date names a real day, so it is stored as a timestamp. */
  lemma {:induction false} GroceriesStored()
    ensures ValidTransaction(Groceries)
    ensures StoredTransaction(Groceries) == TxnDoc(Some(50.0), Some("expense"), Some("groceries"), At(Date(2025, 1, 5)))
  {
    GroceriesDate();
    ValidTransactionIff(Groceries);
  }

  const GroceriesDoc: TxnDoc := TxnDoc(Some(50.0), Some("expense"), Some("groceries"), At(Date(2025, 1, 5)))

  lemma {:induction false} GroceriesAggregate()
    ensures Aggregate([GroceriesDoc], []) == Success(Summary(0.0, 50.0, -50.0, [Entry("groceries", 50.0)], []))
  {
    var docs := [GroceriesDoc];
    assert docs[..0] == [];
    assert ByCategory(docs) == [Entry("groceries", 50.0)];
    assert KindTotal(docs, "expense") == 50.0;
    assert KindTotal(docs, "income") == 0.0;
  }

  /** Posting the expense stores it with its date as a timestamp. */
  lemma {:induction false} PostGroceries()
    ensures PostTransaction(Store([], []), Groceries) == Success(Store([GroceriesDoc], []))
  {
    GroceriesStored();
    var r := PostTransaction(Store([], []), Groceries);
    assert r.Success? && r.value.transactions == [] + [GroceriesDoc];
    assert r.value == Store([GroceriesDoc], []);
  }

  lemma {:induction false} JanuaryExpenses()
    ensures FetchInInterval([GroceriesDoc], Interval(Date(2025, 1, 1), Date(2025, 2, 1))) == [GroceriesDoc]
  {
    var docs := [GroceriesDoc];
    assert docs[..0] == [];
  }

  /** Summarising January over that store gives expense 50, income 0, net -50 and one category. */
  lemma {:induction false} JanuarySummary()
    ensures Summarize(Store([GroceriesDoc], []), Some("2025-01"))
      == Success(Summary(0.0, 50.0, -50.0, [Entry("groceries", 50.0)], []))
  {
    JanuaryRange();
    var s, month := Store([GroceriesDoc], []), Some("2025-01");
    SummaryOfScope(s, month);
    JanuaryExpenses();
    assert Scope(s, month) == [GroceriesDoc];
    assert BudgetScope(s, month) == [];
    GroceriesAggregate();
  }

  lemma {:induction false} HelloIsFallback()
    ensures Classify("hello") == Fallback
  {
    LowerOfLower("hello");
  }

  /**
   * A short budget question. It stands in for a longer one such as "how is
   * my budget?", which routes the same way (it contains "budget" and none of
   * "spend", "expense", "income"), because a concrete proof about the
   * lower-cased text of a literal costs the verifier more the longer it is.
   * The capital letter shows that the keyword is matched case-insensitively.
   */
  const BudgetMessage: string := "Budget?"

  lemma {:induction false} BudgetMessageLower()
    ensures Lower(BudgetMessage) == "budget?"
  {
    assert LowerChar('B') == 'b';
  }

  lemma {:induction false} BudgetMessageWords()
    ensures Contains("budget?", "budget")
    ensures !Contains("budget?", "spend") && !Contains("budget?", "expense") && !Contains("budget?", "income")
  {
    var s := "budget?";
    assert s[..6] == "budget";
    assert 'p' !in s && 'x' !in s && 'n' !in s;
    MissingCharNotContained(s, "spend", 'p');
    MissingCharNotContained(s, "expense", 'x');
    MissingCharNotContained(s, "income", 'n');
  }

  lemma {:induction false} BudgetQuestion()
    ensures Classify(BudgetMessage) == BudgetQuery
  {
    BudgetMessageLower();
    BudgetMessageWords();
  }

  const JanuaryBudgetDoc: BudgetDoc := BudgetDoc(Some("2025-01"), Some("groceries"), Some(40.0))

  /** The store after posting the expense and a January groceries budget of 40. */
  const BudgetedStore: Store := Store([GroceriesDoc], [JanuaryBudgetDoc])

  lemma {:induction false} PostGroceriesBudget()
    ensures PostBudget(Store([GroceriesDoc], []), GroceriesBudget) == Success(BudgetedStore)
  {
    var m := GroceriesBudget.month;
    assert m[0..4] == "2025" && m[5..7] == "01";
    assert MonthShape(m);
    ValidBudgetIff(GroceriesBudget);
    assert ValidBudget(GroceriesBudget);
    var r := PostBudget(Store([GroceriesDoc], []), GroceriesBudget);
    assert r.Success?;
    assert r.value.transactions == [GroceriesDoc];
    assert r.value.budgets == [JanuaryBudgetDoc];
  }

  const JanuarySummaryValue: Summary := Summary(0.0, 50.0, -50.0, [Entry("groceries", 50.0)], [Entry("groceries", 40.0)])

  lemma {:induction false} JanuaryBudgets()
    ensures FetchForMonth([JanuaryBudgetDoc], "2025-01") == [JanuaryBudgetDoc]
    ensures BuildBudgets([JanuaryBudgetDoc]) == Success([Entry("groceries", 40.0)])
  {
    var bdocs := [JanuaryBudgetDoc];
    assert bdocs[..0] == [];
  }

  lemma {:induction false} BudgetedAggregate()
    ensures Aggregate([GroceriesDoc], [JanuaryBudgetDoc]) == Success(JanuarySummaryValue)
  {
    JanuaryBudgets();
    var docs := [GroceriesDoc];
    assert docs[..0] == [];
    assert ByCategory(docs) == [Entry("groceries", 50.0)];
    assert KindTotal(docs, "expense") == 50.0;
    assert KindTotal(docs, "income") == 0.0;
  }

  lemma {:induction false} BudgetedJanuary()
    ensures Summarize(BudgetedStore, Some("2025-01")) == Success(JanuarySummaryValue)
  {
    JanuaryRange();
    var month := Some("2025-01");
    SummaryOfScope(BudgetedStore, month);
    JanuaryExpenses();
    JanuaryBudgets();
    assert Scope(BudgetedStore, month) == [GroceriesDoc];
    assert BudgetScope(BudgetedStore, month) == [JanuaryBudgetDoc];
    BudgetedAggregate();
  }

  lemma {:induction false} JanuaryBudgetLines()
    ensures BudgetLines([Entry("groceries", 40.0)], [Entry("groceries", 50.0)]) == [BudgetLine("groceries", 50.0, 40.0, true)]
  {
    var b: Dict<string, real> := [Entry("groceries", 40.0)];
    assert b[1..] == [];
  }

  /** Asking about the budget for January: groceries spent 50 against a limit of 40, so it is over. */
  lemma {:induction false} BudgetChatOver()
    ensures Chat(BudgetedStore, BudgetMessage, Some("2025-01"))
      == Success(ChatResult(BudgetReply([BudgetLine("groceries", 50.0, 40.0, true)]), JanuarySummaryValue))
  {
    BudgetQuestion();
    BudgetedJanuary();
    JanuaryBudgetLines();
  }

  /** A greeting without a month gets the help text. */
  lemma {:induction false} HelloChat()
    ensures Chat(BudgetedStore, "hello", None).Success?
    ensures Chat(BudgetedStore, "hello", None).value.reply == HelpReply
  {
    HelloIsFallback();
    var bdocs := [JanuaryBudgetDoc];
    assert bdocs[..0] == [];
    assert BuildBudgets(bdocs).Success?;
  }

  /** Spaces around the month text still select January 2025. */
  lemma {:induction false} PaddedRange()
    ensures MonthRange(" 2025-01 ") == MonthRange("2025-01")
  {
    assert " " + "2025" + "-" + "01" + " " == " 2025-01 ";
    assert "2025" + "-" + "01" == "2025-01";
    ParsePaddedMonth("2025", "01");
  }

  /** Without the leading zero the month still reads as January 2025. */
  lemma {:induction false} UnpaddedParse()
    ensures ParseMonth("2025-1") == Some((2025, 1))
  {
    assert "2025" + "-" + "1" == "2025-1";
    SmallDigits();
    ParseMonthDigits("2025", "1");
  }

  lemma {:induction false} UnpaddedRange()
    ensures MonthRange("2025-1") == Success(Interval(Date(2025, 1, 1), Date(2025, 2, 1)))
  {
    UnpaddedParse();
  }

  /**
   * "2025-1" selects the same January range as "2025-01", but budgets are
   * matched on the month text, so the stored "2025-01" budget is not read.
   */
  lemma {:induction false} UnpaddedMonthMissesBudgets()
    ensures MonthRange("2025-1") == MonthRange("2025-01")
    ensures Summarize(BudgetedStore, Some("2025-1")) == Success(Summary(0.0, 50.0, -50.0, [Entry("groceries", 50.0)], []))
  {
    UnpaddedRange();
    JanuaryRange();
    var month := Some("2025-1");
    SummaryOfScope(BudgetedStore, month);
    JanuaryExpenses();
    assert Scope(BudgetedStore, month) == [GroceriesDoc];
    UnpaddedBudgets();
    GroceriesAggregate();
  }

  lemma {:induction false} UnpaddedBudgets()
    ensures BudgetScope(BudgetedStore, Some("2025-1")) == []
  {
    var bdocs := [JanuaryBudgetDoc];
    assert bdocs[..0] == [];
  }
}
