/**
 * The request schemas and their field constraints: `Transaction`, `Budget`
 * and `ChatMessage`. Each `pattern=` constraint is an anchored regular
 * expression, modelled here as a small pattern language with a matcher.
 */
module Schemas {
  import opened Wrappers
  import opened Text
  import opened Calendar

  // ---------------------------------------------------------------------------
  // Anchored patterns

  /** `\d`, a literal character, or a group of alternatives `(w1|w2|...)`. */
  datatype Atom = AnyDigit | Char(c: char) | OneOf(words: seq<string>)

  type Pattern = seq<Atom>

  /** `^p$` matches all of `s`. */
  function FullMatch(p: Pattern, s: string): bool
    decreases |p|
  {
    if |p| == 0 then |s| == 0
    else match p[0]
      case AnyDigit => |s| > 0 && IsDigit(s[0]) && FullMatch(p[1..], s[1..])
      case Char(c) => |s| > 0 && s[0] == c && FullMatch(p[1..], s[1..])
      case OneOf(ws) =>
        exists i :: 0 <= i < |ws| && |ws[i]| <= |s| && s[..|ws[i]|] == ws[i] && FullMatch(p[1..], s[|ws[i]|..])
  }

  /** `\d{n}`. */
  function Digits(n: nat): (p: Pattern)
    ensures |p| == n && forall i :: 0 <= i < n ==> p[i] == AnyDigit
  {
    if n == 0 then [] else [AnyDigit] + Digits(n - 1)
  }

  /** `^(expense|income)$` */
  const KindPattern: Pattern := [OneOf(["expense", "income"])]

  /** `^\d{4}-\d{2}-\d{2}$` */
  const DatePattern: Pattern := Digits(4) + [Char('-')] + Digits(2) + [Char('-')] + Digits(2)

  /** `^\d{4}-\d{2}$` */
  const MonthPattern: Pattern := Digits(4) + [Char('-')] + Digits(2)

  /** `^(user|assistant)$` */
  const RolePattern: Pattern := [OneOf(["user", "assistant"])]

  /** Four digits, `-`, two digits. */
  predicate MonthShape(s: string) {
    |s| == 7 && s[4] == '-' && AllDigits(s[0..4]) && AllDigits(s[5..7])
  }

  /** A single group of alternatives matches exactly the listed words. */
  lemma {:induction false} MatchOneOf(ws: seq<string>, s: string)
    ensures FullMatch([OneOf(ws)], s) <==> s in ws
  {
    if s in ws {
      var i :| 0 <= i < |ws| && ws[i] == s;
      assert s[..|ws[i]|] == ws[i];
      assert FullMatch([OneOf(ws)][1..], s[|ws[i]|..]);
    }
    if FullMatch([OneOf(ws)], s) {
      var i :| 0 <= i < |ws| && |ws[i]| <= |s| && s[..|ws[i]|] == ws[i] && FullMatch([OneOf(ws)][1..], s[|ws[i]|..]);
      assert s == s[..|ws[i]|];
    }
  }

  /** A literal character consumes exactly that character. */
  lemma {:induction false} MatchChar(c: char, rest: Pattern, s: string)
    ensures FullMatch([Char(c)] + rest, s) <==> |s| > 0 && s[0] == c && FullMatch(rest, s[1..])
  {
    assert ([Char(c)] + rest)[0] == Char(c);
    assert ([Char(c)] + rest)[1..] == rest;
  }

  /** `\d{n}` consumes exactly `n` digits. */
  lemma {:induction false} MatchDigits(n: nat, rest: Pattern, s: string)
    ensures FullMatch(Digits(n) + rest, s) <==> n <= |s| && AllDigits(s[..n]) && FullMatch(rest, s[n..])
  {
    if n > 0 {
      var p := Digits(n) + rest;
      assert p[0] == AnyDigit;
      assert p[1..] == Digits(n - 1) + rest;
      if |s| > 0 {
        MatchDigits(n - 1, rest, s[1..]);
        if n <= |s| {
          assert s[1..][..n - 1] == s[1..n];
          assert s[1..][n - 1..] == s[n..];
          assert AllDigits(s[..n]) <==> IsDigit(s[0]) && AllDigits(s[1..n]) by {
            assert forall i :: 1 <= i < n ==> s[..n][i] == s[1..n][i - 1];
          }
        }
      }
    } else {
      assert Digits(0) + rest == rest;
      assert s[0..] == s;
    }
  }

  /** The transaction date pattern admits exactly the ISO date shape. */
  lemma {:induction false} MatchDatePattern(s: string)
    ensures FullMatch(DatePattern, s) <==> IsoDateShape(s)
  {
    var tail2 := Digits(2);
    var tail1 := [Char('-')] + tail2;
    var mid := Digits(2) + tail1;
    var tail0 := [Char('-')] + mid;
    assert DatePattern == Digits(4) + tail0;
    MatchDigits(4, tail0, s);
    if 4 <= |s| {
      var s1 := s[4..];
      MatchChar('-', mid, s1);
      if |s1| > 0 {
        var s2 := s1[1..];
        MatchDigits(2, tail1, s2);
        if 2 <= |s2| {
          var s3 := s2[2..];
          MatchChar('-', tail2, s3);
          if |s3| > 0 {
            var s4 := s3[1..];
            MatchDigits(2, [], s4);
            assert Digits(2) + [] == Digits(2);
            assert s4 == s[8..];
            assert s2[..2] == s[5..7];
            assert s[..4] == s[0..4];
            if 2 <= |s4| {
              assert s4[..2] == s[8..10];
            }
          }
        }
      }
    }
  }

  /** The budget month pattern admits exactly the `YYYY-MM` shape. */
  lemma {:induction false} MatchMonthPattern(s: string)
    ensures FullMatch(MonthPattern, s) <==> MonthShape(s)
  {
    var tail := [Char('-')] + Digits(2);
    assert MonthPattern == Digits(4) + tail;
    MatchDigits(4, tail, s);
    if 4 <= |s| {
      var s1 := s[4..];
      MatchChar('-', Digits(2), s1);
      if |s1| > 0 {
        var s2 := s1[1..];
        MatchDigits(2, [], s2);
        assert Digits(2) + [] == Digits(2);
        assert s2 == s[5..];
        assert s[..4] == s[0..4];
        if 2 <= |s2| {
          assert s2[..2] == s[5..7];
        }
      }
    }
  }

  // ---------------------------------------------------------------------------
  // Records and validators

  /** A field that can fail validation. */
  datatype Field = AmountField | KindField | DateField | MonthField | LimitField | RoleField

  /** A transaction as posted; `kind` is the `type` field. */
  datatype Transaction = Transaction(amount: real, kind: string, category: string, date: string, notes: Option<string>)

  /** A monthly spending limit for one category. */
  datatype Budget = Budget(month: string, category: string, limit: real)

  /** A stored chat line; `sessionId` defaults to absent. */
  datatype ChatMessage = ChatMessage(role: string, content: string, sessionId: Option<string>)

  /** The fields of `t` that violate their constraints, in declaration order. */
  function TransactionErrors(t: Transaction): (errs: seq<Field>)
    ensures AmountField in errs <==> !(t.amount > 0.0)
    ensures KindField in errs <==> t.kind != "expense" && t.kind != "income"
    ensures DateField in errs <==> !IsoDateShape(t.date)
    ensures forall f :: f in errs ==> f in {AmountField, KindField, DateField}
  {
    MatchOneOf(["expense", "income"], t.kind);
    MatchDatePattern(t.date);
    (if t.amount > 0.0 then [] else [AmountField])
    + (if FullMatch(KindPattern, t.kind) then [] else [KindField])
    + (if FullMatch(DatePattern, t.date) then [] else [DateField])
  }

  /** The fields of `b` that violate their constraints, in declaration order. */
  function BudgetErrors(b: Budget): (errs: seq<Field>)
    ensures MonthField in errs <==> !MonthShape(b.month)
    ensures LimitField in errs <==> b.limit < 0.0
    ensures forall f :: f in errs ==> f in {MonthField, LimitField}
  {
    MatchMonthPattern(b.month);
    (if FullMatch(MonthPattern, b.month) then [] else [MonthField])
    + (if b.limit >= 0.0 then [] else [LimitField])
  }

  /** The fields of `m` that violate their constraints. */
  function ChatMessageErrors(m: ChatMessage): (errs: seq<Field>)
    ensures errs == [] <==> m.role == "user" || m.role == "assistant"
    ensures forall f :: f in errs ==> f == RoleField
  {
    MatchOneOf(["user", "assistant"], m.role);
    if FullMatch(RolePattern, m.role) then [] else [RoleField]
  }

  predicate ValidTransaction(t: Transaction) {
    TransactionErrors(t) == []
  }

  predicate ValidBudget(b: Budget) {
    BudgetErrors(b) == []
  }

  predicate ValidChatMessage(m: ChatMessage) {
    ChatMessageErrors(m) == []
  }

  /** A transaction is accepted exactly when its amount is positive, its type is one of the two words and its date has the ISO shape. */
  lemma {:induction false} ValidTransactionIff(t: Transaction)
    ensures ValidTransaction(t) <==> t.amount > 0.0 && (t.kind == "expense" || t.kind == "income") && IsoDateShape(t.date)
  {
    var errs := TransactionErrors(t);
    if errs != [] {
      assert errs[0] in errs;
    }
  }

  /** A budget is accepted exactly when its month has the `YYYY-MM` shape and its limit is not negative. */
  lemma {:induction false} ValidBudgetIff(b: Budget)
    ensures ValidBudget(b) <==> MonthShape(b.month) && b.limit >= 0.0
  {
    var errs := BudgetErrors(b);
    if errs != [] {
      assert errs[0] in errs;
    }
  }

  /** `ChatMessage(role=..., content=...)` with the optional session left at its default. */
  function NewChatMessage(role: string, content: string): (m: ChatMessage)
    ensures m.sessionId.None?
    ensures ValidChatMessage(m) <==> role == "user" || role == "assistant"
  {
    ChatMessage(role, content, None)
  }

  /** The two messages the chat endpoint logs (the user's and the reply) always validate, whatever their text. */
  lemma {:induction false} LoggedMessagesValid(message: string, reply: string)
    ensures ValidChatMessage(NewChatMessage("user", message))
    ensures ValidChatMessage(NewChatMessage("assistant", reply))
  {
  }
}
