/**
 * The document store, seen as two ordered collections. Writes append a
 * document; a read with a filter returns the matching documents in stored
 * order. Identifiers and the database connection are not modelled.
 */
module Store {
  import opened Wrappers
  import opened Text
  import opened Calendar
  import opened Schemas

  /** A transaction's `date` as stored: a midnight timestamp, or the posted text when `strptime` raised. */
  datatype StoredDate = At(date: Date) | Raw(text: string)

  /** A transaction document as read back; `amount`, `type` and `category` are looked up with `.get`, so each may be absent. */
  datatype TxnDoc = TxnDoc(amount: Option<real>, kind: Option<string>, category: Option<string>, date: StoredDate)

  /** A budget document as read back; the summary indexes `category` and `limit` directly. */
  datatype BudgetDoc = BudgetDoc(month: Option<string>, category: Option<string>, limit: Option<real>)

  /** The `transaction` and `budget` collections, in the order the store returns them. */
  datatype Store = Store(transactions: seq<TxnDoc>, budgets: seq<BudgetDoc>)

  /** Why a write was refused: the fields that failed validation. */
  datatype Rejected = Rejected(fields: seq<Field>)

  // ---------------------------------------------------------------------------
  // Writes

  /**
   * The document `add_transaction` stores for a validated transaction: the
   * date becomes a timestamp when `strptime` accepts it and otherwise stays
   * the posted text.
   */
  function StoredTransaction(t: Transaction): (d: TxnDoc)
    requires ValidTransaction(t)
    ensures d.amount == Some(t.amount) && d.kind == Some(t.kind) && d.category == Some(t.category)
    ensures d.date.At? ==> ValidDate(d.date.date) && IsoFormat(d.date.date) == t.date
    ensures d.date.Raw? ==> d.date.text == t.date
  {
    ValidTransactionIff(t);
    var date := (match ParseIsoDate(t.date)
      case Some(day) => IsoFormatParse(t.date); At(day)
      case None => Raw(t.date));
    TxnDoc(Some(t.amount), Some(t.kind), Some(t.category), date)
  }

  /** A posted date is stored as a timestamp exactly when it names a real calendar day. */
  lemma {:induction false} StoredDateIff(t: Transaction)
    requires ValidTransaction(t)
    ensures IsoDateShape(t.date)
    ensures StoredTransaction(t).date.At? <==> ParseIsoDate(t.date).Some?
  {
    ValidTransactionIff(t);
  }

  /** `POST /api/transactions`: validate, then append the stored form. */
  function PostTransaction(s: Store, t: Transaction): (r: Result<Store, Rejected>)
    ensures r.Failure? <==> !ValidTransaction(t)
    ensures r.Failure? ==> r.error.fields == TransactionErrors(t) && r.error.fields != []
    ensures r.Success? ==> r.value.budgets == s.budgets
    ensures r.Success? ==> r.value.transactions == s.transactions + [StoredTransaction(t)]
  {
    if ValidTransaction(t) then
      Success(Store(s.transactions + [StoredTransaction(t)], s.budgets))
    else Failure(Rejected(TransactionErrors(t)))
  }

  /** `POST /api/budgets`: validate, then append. Duplicates for a month and category coexist. */
  function PostBudget(s: Store, b: Budget): (r: Result<Store, Rejected>)
    ensures r.Failure? <==> !ValidBudget(b)
    ensures r.Failure? ==> r.error.fields == BudgetErrors(b) && r.error.fields != []
    ensures r.Success? ==> r.value.transactions == s.transactions
    ensures r.Success? ==> r.value.budgets == s.budgets + [BudgetDoc(Some(b.month), Some(b.category), Some(b.limit))]
  {
    if ValidBudget(b) then
      Success(Store(s.transactions, s.budgets + [BudgetDoc(Some(b.month), Some(b.category), Some(b.limit))]))
    else Failure(Rejected(BudgetErrors(b)))
  }

  /** What every document written through the two endpoints satisfies. */
  predicate WellFormedTxn(d: TxnDoc) {
    && d.amount.Some? && d.amount.value > 0.0
    && d.kind.Some? && (d.kind.value == "expense" || d.kind.value == "income")
    && d.category.Some?
    && (d.date.At? ==> ValidDate(d.date.date))
  }

  predicate WellFormedBudget(b: BudgetDoc) {
    && b.month.Some? && MonthShape(b.month.value)
    && b.category.Some?
    && b.limit.Some? && b.limit.value >= 0.0
  }

  predicate WellFormed(s: Store) {
    && (forall i :: 0 <= i < |s.transactions| ==> WellFormedTxn(s.transactions[i]))
    && (forall i :: 0 <= i < |s.budgets| ==> WellFormedBudget(s.budgets[i]))
  }

  /** Accepted writes keep the store well formed. */
  lemma {:induction false} PostsPreserveWellFormed(s: Store, t: Transaction, b: Budget)
    requires WellFormed(s)
    ensures PostTransaction(s, t).Success? ==> WellFormed(PostTransaction(s, t).value)
    ensures PostBudget(s, b).Success? ==> WellFormed(PostBudget(s, b).value)
  {
    ValidTransactionIff(t);
    ValidBudgetIff(b);
  }

  // ---------------------------------------------------------------------------
  // Reads

  /** The range filter `{"date": {"$gte": start, "$lt": end}}`; a date kept as text never matches a timestamp range. */
  predicate DateMatches(d: TxnDoc, iv: Interval) {
    d.date.At? && InInterval(d.date.date, iv)
  }

  /** `get_documents("transaction", flt)` for a month's range, in stored order. */
  function FetchInInterval(docs: seq<TxnDoc>, iv: Interval): (r: seq<TxnDoc>)
    ensures |r| <= |docs|
  {
    if |docs| == 0 then []
    else
      var prev := FetchInInterval(docs[..|docs| - 1], iv);
      var last := docs[|docs| - 1];
      if DateMatches(last, iv) then prev + [last] else prev
  }

  /** The transactions fetched for a range are exactly the stored ones dated inside it. */
  lemma {:induction false} FetchInIntervalMembers(docs: seq<TxnDoc>, iv: Interval)
    ensures forall x :: x in FetchInInterval(docs, iv) <==> x in docs && DateMatches(x, iv)
  {
    if |docs| > 0 {
      FetchInIntervalMembers(docs[..|docs| - 1], iv);
      assert docs == docs[..|docs| - 1] + [docs[|docs| - 1]];
    }
  }

  /** The equality filter `{"month": month}`: the stored month text is exactly `month`. */
  predicate MonthMatches(d: BudgetDoc, month: string) {
    d.month == Some(month)
  }

  /** `get_documents("budget", {"month": month})`, in stored order. */
  function FetchForMonth(docs: seq<BudgetDoc>, month: string): (r: seq<BudgetDoc>)
    ensures |r| <= |docs|
  {
    if |docs| == 0 then []
    else
      var prev := FetchForMonth(docs[..|docs| - 1], month);
      var last := docs[|docs| - 1];
      if MonthMatches(last, month) then prev + [last] else prev
  }

  /** The budgets fetched for a month are exactly the stored ones with that month text. */
  lemma {:induction false} FetchForMonthMembers(docs: seq<BudgetDoc>, month: string)
    ensures forall x :: x in FetchForMonth(docs, month) <==> x in docs && MonthMatches(x, month)
  {
    if |docs| > 0 {
      FetchForMonthMembers(docs[..|docs| - 1], month);
      assert docs == docs[..|docs| - 1] + [docs[|docs| - 1]];
    }
  }

  /** Fetching keeps stored order: the matches of a concatenation are the matches of each part, in turn. */
  lemma {:induction false} FetchInIntervalAppend(a: seq<TxnDoc>, b: seq<TxnDoc>, iv: Interval)
    ensures FetchInInterval(a + b, iv) == FetchInInterval(a, iv) + FetchInInterval(b, iv)
    decreases |b|
  {
    if |b| == 0 {
      assert a + b == a;
    } else {
      var b' := b[..|b| - 1];
      FetchInIntervalAppend(a, b', iv);
      assert (a + b)[..|a + b| - 1] == a + b';
      assert (a + b)[|a + b| - 1] == b[|b| - 1];
    }
  }

  /** The same holds for budgets fetched by month. */
  lemma {:induction false} FetchForMonthAppend(a: seq<BudgetDoc>, b: seq<BudgetDoc>, month: string)
    ensures FetchForMonth(a + b, month) == FetchForMonth(a, month) + FetchForMonth(b, month)
    decreases |b|
  {
    if |b| == 0 {
      assert a + b == a;
    } else {
      var b' := b[..|b| - 1];
      FetchForMonthAppend(a, b', month);
      assert (a + b)[..|a + b| - 1] == a + b';
      assert (a + b)[|a + b| - 1] == b[|b| - 1];
    }
  }
}
