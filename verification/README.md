# Personal finance assistant: summary, chat replies and record validation

This project is a Dafny model of the logic at the centre of a small personal-finance web API:

- **Validation.** Transaction, budget and chat-message records are validated field by field: a positive amount, a type of `expense` or `income`, a `YYYY-MM-DD` date, a `YYYY-MM` month, a non-negative limit, and a role of `user` or `assistant`.
- **Storage.** Accepted records are appended to a document store. A transaction's date is stored as a timestamp when it names a real calendar day. Otherwise the posted text is kept as it was.
- **Summary.** `GET /api/summary?month=YYYY-MM` works in four steps:
  - It turns the month into the half-open interval [first of the month, first of the next month). December rolls over into January of the next year.
  - It fetches the transactions dated in that interval.
  - It totals income and expense and computes `net = income - expense`.
  - It groups expense amounts by category, with `"Other"` for a missing category. It then builds a category → limit map from that month's budget documents, where the last document for a category wins.
- **Chat.** `POST /api/chat` lower-cases the message and picks the first matching intent: spend/expense, then income, then budget, then fallback. It replies from the summary of the requested month:
  - the expense total and the top category (the first maximal one);
  - the income total and net;
  - one over/under line per budget.

The document store is a pair of ordered sequences. A fetch is an order-preserving filter over them. Amounts are `real`s, and a reply is a datatype holding the numbers it would render.

Modules, in dependency order:

| file | module | what it holds |
|---|---|---|
| wrappers.dfy | `Wrappers` | `Option`, `Result` |
| dicts.dfy | `Dicts` | insertion-ordered dictionaries: `Get`, `Put` (`d[k] = v`), `Accumulate` (`d[k] = d.get(k, 0) + a`), `SumValues` |
| text.dfy | `Text` | `str.lower()`, substring test, `str.split`, `int()` on text, fixed-width decimal digits |
| calendar.dfy | `Calendar` | proleptic Gregorian dates, `datetime(y, m, d)`, the month interval, `strptime`/`isoformat` for `%Y-%m-%d` |
| schemas.dfy | `Schemas` | the anchored field patterns and the three record validators |
| store.dfy | `Store` | stored documents, the two POST endpoints, the two filtered fetches |
| summary.dfy | `Summary` | month parsing, totals, the category grouping, the budget map, `Summarize` |
| chat.dfy | `Responder` | intent classification, top category, budget lines, the reply, `Chat` |
| grounding.dfy | `Grounding` | what each reply says about the stored documents |
| scenarios.dfy | `Scenarios` | worked examples on a one-transaction, one-budget store |

Behaviour the model makes explicit:

- **Month text.** The month text goes through Python's `int()`, so `"2025-1"` and `" 2025-01 "` select the same transactions as `"2025-01"` (`Summary.ParseMonthDigits`, `Summary.ParsePaddedMonth`). The budget fetch, however, compares the month text exactly, so those spellings see no budgets (`Scenarios.UnpaddedMonthMissesBudgets`).
- **Empty month.** An empty month string behaves like no month.
- **Very long numbers.** `int()` refuses text with more than 4300 digits (the default of `sys.get_int_max_str_digits()`, leading zeros counted), so a month whose year or month field is that long fails as malformed (`Summary.ParseMonthTooManyDigits`).
- **December 9999.** `"9999-12"` fails, because the end of its interval would be in year 10000.
- **Dates kept as text.** A date that passes the pattern but names no real day (`2025-02-30`) is stored as text. Such a date never falls inside a month's interval, but it is counted when no month is given.
- **Failing budget documents.** A budget document without `limit` or `category` makes the summary fail. `limit` is read first, so it is the key reported.

## Model

| member | source | states |
|---|---|---|
| Dicts.Put | main.py:114 | `d[k] = v` keeps the key order when `k` is present and appends `k` otherwise. Afterwards `k` maps to `v` and every other key keeps its value |
| Dicts.AccumulateGet | main.py:114 | accumulating `a` under `k` makes `k` map to its old value (0 when absent) plus `a` and changes no other key |
| Dicts.AccumulateSum | main.py:114 | accumulating `a` under one key raises the sum of all values by exactly `a` |
| Text.Lower | main.py:169 | lower-casing keeps the length and maps each character to its lower-case form |
| Text.LowerIdempotent | main.py:169 | lower-casing twice is the same as lower-casing once |
| Text.Contains | main.py:173 | `w in s` holds exactly when `w` occurs in `s` at some index |
| Text.MissingCharNotContained | main.py:173 | a word with a character the text lacks is not contained in it |
| Text.Split | main.py:100 | `s.split(sep)` has one more part than `sep` has occurrences, and no part contains `sep` |
| Text.JoinSplit | main.py:100 | joining the parts of a split with the separator gives back the original string |
| Text.SplitAtOne | main.py:100 | a string with exactly one separator splits into the text before it and the text after it |
| Text.PyIntSpec | main.py:100 | `int()` succeeds exactly when the stripped text is digit groups joined by single underscores, with an optional sign and at most 4300 digits; the value is those digits read in decimal, negated after `-`, and more digits make it fail |
| Text.PyIntSpaced | main.py:100 | a space before or after a run of digits does not change what `int()` reads |
| Text.PyIntOfDigits | main.py:100 | `int()` of a non-empty run of at most 4300 digits is its decimal value |
| Text.PyIntTooManyDigits | main.py:100 | `int()` of a run of more than 4300 digits fails |
| Text.DigitsRoundTrip | main.py:68 | a digit field read as a number and written back at the same width is unchanged |
| Calendar.MonthInterval | main.py:101-106 | the interval exists exactly when `datetime` accepts both ends. It starts on the 1st of the month and ends on the 1st of the next month (January of the next year for December); both ends are real dates and start is before end |
| Calendar.InMonthInterval | main.py:101-106 | a date lies in a month's interval exactly when it has that year and month |
| Calendar.ParseIsoDate | main.py:68 | `strptime` on a `YYYY-MM-DD` string succeeds exactly when its three fields name a real calendar day |
| Calendar.ParseIsoFormat | main.py:68 | parsing the ISO rendering of a real date gives back that date |
| Calendar.IsoFormatParse | main.py:68 | rendering a parsed date gives back the posted text |
| Schemas.MatchOneOf | schemas.py:26 | the anchored alternation matches exactly the listed words |
| Schemas.MatchDatePattern | schemas.py:28 | `^\d{4}-\d{2}-\d{2}$` matches exactly the strings of four digits, dash, two digits, dash, two digits |
| Schemas.MatchMonthPattern | schemas.py:34 | `^\d{4}-\d{2}$` matches exactly the strings of four digits, dash, two digits |
| Schemas.TransactionErrors | schemas.py:25-28 | a transaction's amount, type and date fields are reported exactly when they break their constraint, and no other field is ever reported |
| Schemas.BudgetErrors | schemas.py:34-36 | the month is reported exactly when it is not `YYYY-MM`, and the limit exactly when it is negative (zero is allowed) |
| Schemas.ChatMessageErrors | schemas.py:41 | a chat message is valid exactly when its role is `user` or `assistant` |
| Schemas.ValidTransactionIff | schemas.py:25-28 | a transaction is valid exactly when amount > 0, its type is `expense` or `income`, and its date has the ISO shape |
| Schemas.ValidBudgetIff | schemas.py:34-36 | a budget is valid exactly when its month has the `YYYY-MM` shape and its limit is at least 0 |
| Schemas.NewChatMessage | schemas.py:39-43 | a message built from role and content has no session id, and it is valid exactly when the role is `user` or `assistant` |
| Schemas.LoggedMessagesValid | schemas.py:41 | the `user` and `assistant` messages the chat endpoint builds always pass validation |
| Store.StoredTransaction | main.py:65-71 | the stored document keeps amount, type and category. Its date is a real day whose ISO text is the posted date, or else the posted text itself |
| Store.StoredDateIff | main.py:67-70 | the date is stored as a timestamp exactly when `strptime` accepts it |
| Store.PostTransaction | main.py:62-72 | an invalid transaction is rejected with its failing fields. A valid one is stored in its converted form (`Store.StoredTransaction`) after all existing transactions, and the budgets are left alone |
| Store.PostBudget | main.py:135-139 | an invalid budget is rejected with its failing fields. A valid one is appended as a document and leaves the transactions alone |
| Store.PostsPreserveWellFormed | main.py:62-139 | accepted writes keep every stored document well formed: positive amount, known type, real dates, complete budgets |
| Store.FetchInIntervalMembers | main.py:106-107 | the range fetch returns exactly the stored transactions whose timestamp lies in the interval |
| Store.FetchInIntervalAppend | main.py:107 | the range fetch keeps stored order: fetching a concatenation gives the fetches of its parts, in order |
| Store.FetchForMonthMembers | main.py:116 | the month fetch returns exactly the budget documents whose month text equals the requested one |
| Store.FetchForMonthAppend | main.py:116 | the month fetch keeps stored order over concatenations |
| Summary.ParseMonthParts | main.py:100 | a month with one dash parses exactly when both sides are integers, and then it reads as those integers |
| Summary.MonthRange | main.py:100-106 | the month either gives an interval whose start is a real date before its end, or it fails as malformed exactly when it does not parse |
| Summary.NoSingleDashFails | main.py:100 | month text without exactly one `-` fails as malformed |
| Summary.OutOfRangeFails | main.py:101-105 | a parsed month gives a range exactly when the year is 1..9999, the month is 1..12 and it is not December 9999; otherwise it fails as out of range |
| Summary.ParseMonthAround | main.py:100 | text around a single dash reads as a month exactly when both sides pass `int()`, and then as those two values |
| Summary.ParsePaddedMonth | main.py:100 | spaces around a month of digit runs change nothing: it reads as the bare month |
| Summary.ParseMonthDigits | main.py:100 | two digit runs of at most 4300 digits around a dash read as their values, zero-padded or not |
| Summary.ParseMonthTooManyDigits | main.py:100 | a month whose year or month field has more than 4300 digits fails as malformed |
| Summary.ParseMonthShape | main.py:100 | a `YYYY-MM` month reads as its two digit fields |
| Summary.FormatMonthRange | main.py:100-106 | the `YYYY-MM` text of every representable month yields that month's interval |
| Summary.ByCategory | main.py:110-114 | the category grouping never repeats a key |
| Summary.ByCategoryFirstSeen | main.py:110-114 | of two categories in the grouping, the earlier one has an expense before the first expense of the later one: keys come in first-seen order |
| Summary.CategoriesSumToExpense | main.py:109-114 | the category totals add up to the expense total |
| Summary.CategoryLookup | main.py:110-114 | a category appears exactly when some expense has it (with `"Other"` for a missing one). Its value is the total of that category's expenses |
| Summary.IncomeNotCategorised | main.py:111-114 | appending an income document changes neither the grouping nor the expense total |
| Summary.BuildBudgets | main.py:117-119 | the budget map exists exactly when every document has both a limit and a category, and its keys are distinct |
| Summary.FirstIncompleteReported | main.py:119 | a failing budget read reports the first incomplete document, naming `limit` when that key is missing |
| Summary.LastWriterWins | main.py:116-119 | a category has a limit exactly when some document names it, and the limit is that of the last such document |
| Summary.BudgetsFirstNamed | main.py:116-119 | of two categories in the budget map, the earlier one is named by a document before any document names the later one: keys come in first-named order |
| Summary.Aggregate | main.py:107-126 | the result exists exactly when all budgets are complete. Income and expense are the per-type sums, `net = income - expense`, the category values sum to the expense, and keys are distinct |
| Summary.Summarize | main.py:91-128 | a bad month fails with the month's error. Otherwise it fails exactly when a budget document in scope is incomplete. On success `net = income - expense` and the categories sum to the expense. On a well-formed store it succeeds exactly when the month is absent or valid |
| Summary.SummaryOfScope | main.py:97-116 | the summary is the aggregate of the month's transactions and that month's budget documents, or of everything when no month is given |
| Summary.MonthScope | main.py:98-107 | on a well-formed store, a month's summary covers exactly the transactions stored as timestamps in that calendar month |
| Summary.EmptySummary | main.py:107-126 | an empty store summarises to zero income, expense and net, with no categories and no budgets |
| Responder.Classify | main.py:169-193 | the intent is spending when the lower-cased message has "spend" or "expense". Otherwise it is income when it has "income", then budget for "budget", else fallback; each stated as an if-and-only-if |
| Responder.ClassifyIgnoresCase | main.py:169 | messages with the same lower-case text get the same intent |
| Responder.ClassifyLowered | main.py:169 | a message that is lower-cased before it is sent gets the same intent as the original |
| Responder.TopCategory | main.py:174-176 | there is a top category exactly when there are categories. It is the first entry whose amount is at least every other amount |
| Responder.BudgetLines | main.py:184-187 | there is one line per budget, in map order, with its category and limit. Spent is the category's total or 0, and the status is over exactly when spent > limit |
| Responder.Respond | main.py:173-193 | each intent gets its own reply kind, and the budget query gets "no budgets" exactly when the map is empty and otherwise the lines `BudgetLines` builds from the summary's budgets and categories. The numbers are the summary's, and the top category is shown only when it is a non-empty name |
| Responder.Chat | main.py:166-200 | the chat succeeds exactly when the month's summary does. It returns that summary and the reply for the message's intent |
| Grounding.ChatScoped | main.py:172 | a successful chat's summary is the aggregate of the month's documents |
| Grounding.TopCategoryGrounded | main.py:174-179 | the top category occurs among the expenses, its amount is its expense total, and no category has a larger total |
| Grounding.SpendingGrounded | main.py:173-180 | the spending reply's expense is the month's expense total, and its top category has the largest category total |
| Grounding.IncomeGrounded | main.py:181-182 | the income reply shows the month's income total and income minus expense |
| Grounding.BudgetsEmptyIff | main.py:116-119 | the budget map is empty exactly when no budget document was read |
| Grounding.BudgetGrounded | main.py:183-188 | every budget line names a category from the month's budget documents and shows the last such document's limit. Its spent is that category's expense total, and it is over exactly when that total exceeds the limit |
| Grounding.NoBudgetsGrounded | main.py:188 | the budget query answers "No budgets set yet." exactly when the month has no budget documents |
| Grounding.EveryBudgetListed | main.py:185-187 | every category named by a budget document of the month gets a line |
| Scenarios.JanuaryRange | main.py:100-106 | `"2025-01"` gives the interval [2025-01-01, 2025-02-01) |
| Scenarios.GroceriesStored | main.py:65-71 | an expense of 50 on `2025-01-05` is valid and is stored with a timestamp |
| Scenarios.JanuarySummary | main.py:91-126 | January over that store has income 0, expense 50, net -50 and one category |
| Scenarios.PostGroceriesBudget | main.py:135-139 | a January groceries budget of 40 is accepted and appended |
| Scenarios.BudgetQuestion | main.py:169-183 | `"Budget?"` is a budget query: the capital is lower-cased before matching |
| Scenarios.BudgetChatOver | main.py:183-188 | asking about the January budget gives one line: groceries, spent 50 of 40, over |
| Scenarios.HelloChat | main.py:189-193 | a greeting gets the help reply |
| Scenarios.PaddedRange | main.py:100-106 | `" 2025-01 "` gives the same range as `"2025-01"` |
| Scenarios.UnpaddedMonthMissesBudgets | main.py:100-116 | `"2025-1"` selects the January transactions but not the budget stored under `"2025-01"` |

## Left out

- The `database` module (`db`, `create_document`, `get_documents`) is not part of this model. The store is two ordered sequences, a write appends, and a fetch is an order-preserving filter. The fetch's `limit` argument and document identifiers are not modelled.
- A date stored as text never matches a timestamp range. This assumes the database compares a range only against values of the same type, as MongoDB does.
- FastAPI routing, CORS and the `HTTPException(500)` wrapping: a failure is a `Failure` result naming its cause, and the HTTP status and message text are not modelled.
- The root and `/test` endpoints: they only report status and read environment variables and the live database.
- Chat message persistence: it is best-effort I/O whose errors are swallowed. Only the validity of the two messages it builds is stated (`Schemas.LoggedMessagesValid`).
- The list endpoints' rewriting of `_id` to `id` and of timestamps to ISO text: this only reshapes documents for output.
- `uvicorn` start-up and port configuration.
- Floating point and `:.2f` formatting: amounts are exact reals, and a reply carries the numbers it would print rather than the text.
- pydantic coercion of numbers and booleans written as text, and NaN or infinite amounts: amounts arrive as reals.
- The `User` schema: it is declared but never used.
- Text.Lower: only ASCII letters are lower-cased, and Unicode case mapping is not modelled.
- Text.PyIntSpec: only ASCII white space and ASCII digits are accepted, whereas Python's `int()` also accepts other Unicode white space and digits.
- Schemas.MatchDatePattern: `\d` is taken as the ASCII digits, whereas pydantic's regex engine (Rust `regex`, used for `pattern=` in pydantic 2) also matches other Unicode decimal digits. Its `$` matches only at the very end, so the fixed-length shape is exact.
- Schemas.MatchMonthPattern: `\d` is taken as the ASCII digits, for the same reason as `Schemas.MatchDatePattern`; a month written with non-ASCII digits is accepted by the source but rejected here.
- Calendar.ParseIsoDate: it is defined only on strings of the validated `YYYY-MM-DD` shape. Validation always runs first, so `strptime` on any other text cannot occur.
- Summary.ParseMonth: its own contract states only that a parsed month has one dash. What the parse yields is stated by `Summary.ParseMonthParts`, `Summary.ParseMonthDigits` and `Summary.ParseMonthShape`.
