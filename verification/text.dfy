/**
 * The handful of Python string built-ins the finance endpoints rely on:
 * `str.lower`, the `in` substring test, `str.split(sep)` and `int(str)`.
 */
module Text {
  import opened Wrappers

  predicate IsDigit(c: char) {
    '0' <= c <= '9'
  }

  predicate AllDigits(s: string) {
    forall i :: 0 <= i < |s| ==> IsDigit(s[i])
  }

  function DigitValue(c: char): nat
    requires IsDigit(c)
  {
    c as nat - '0' as nat
  }

  function DigitChar(n: nat): (c: char)
    requires n < 10
    ensures IsDigit(c) && DigitValue(c) == n
  {
    ('0' as nat + n) as char
  }

  // ---------------------------------------------------------------------------
  // Lower-casing and substring search

  function LowerChar(c: char): char {
    if 'A' <= c <= 'Z' then (c as nat + 32) as char else c
  }

  /** `s.lower()` on the ASCII letters. */
  function Lower(s: string): (r: string)
    ensures |r| == |s|
    ensures forall i :: 0 <= i < |s| ==> r[i] == LowerChar(s[i])
  {
    if |s| == 0 then [] else [LowerChar(s[0])] + Lower(s[1..])
  }

  /** Lower-casing twice is lower-casing once. */
  lemma {:induction false} LowerIdempotent(s: string)
    ensures Lower(Lower(s)) == Lower(s)
  {
  }

  /** Text without upper-case letters is its own lower-case form. */
  lemma {:induction false} LowerOfLower(s: string)
    requires forall i :: 0 <= i < |s| ==> !('A' <= s[i] <= 'Z')
    ensures Lower(s) == s
  {
  }

  /** Lower-casing works character by character, so it distributes over concatenation. */
  lemma {:induction false} LowerAppend(a: string, b: string)
    ensures Lower(a + b) == Lower(a) + Lower(b)
  {
    assert forall i :: 0 <= i < |a + b| ==> Lower(a + b)[i] == (Lower(a) + Lower(b))[i];
  }

  /** `w` occurs in `s` starting at index `i`. */
  ghost predicate OccursAt(s: string, w: string, i: int) {
    0 <= i && i + |w| <= |s| && s[i..i + |w|] == w
  }

  /** Python's `w in s` for strings, as a left-to-right scan. */
  function Contains(s: string, w: string): (b: bool)
    ensures b <==> exists i :: OccursAt(s, w, i)
    decreases |s|
  {
    if |s| < |w| then
      assert forall i :: !OccursAt(s, w, i);
      false
    else if s[..|w|] == w then
      assert OccursAt(s, w, 0);
      true
    else
      var b := Contains(s[1..], w);
      forall i | 0 <= i
        ensures OccursAt(s[1..], w, i) <==> OccursAt(s, w, i + 1)
      {
        OccursShift(s, w, i);
      }
      assert !OccursAt(s, w, 0);
      assert forall i :: OccursAt(s, w, i) && i != 0 ==> OccursAt(s[1..], w, i - 1);
      b
  }

  lemma {:induction false} OccursShift(s: string, w: string, i: int)
    requires |s| > 0 && 0 <= i
    ensures OccursAt(s[1..], w, i) <==> OccursAt(s, w, i + 1)
  {
    if 0 <= i && i + |w| <= |s| - 1 {
      assert s[1..][i..i + |w|] == s[i + 1..i + 1 + |w|];
    }
  }

  /** A word with a character the text lacks does not occur in it. */
  lemma {:induction false} MissingCharNotContained(s: string, w: string, c: char)
    requires c in w && c !in s
    ensures !Contains(s, w)
  {
    var j :| 0 <= j < |w| && w[j] == c;
    forall k | 0 <= k && k + |w| <= |s|
      ensures !OccursAt(s, w, k)
    {
      assert s[k..k + |w|][j] == s[k + j];
    }
  }

  // ---------------------------------------------------------------------------
  // str.split(sep)

  /** Number of occurrences of `c` in `s`. */
  function Count(s: string, c: char): nat {
    if |s| == 0 then 0 else (if s[0] == c then 1 else 0) + Count(s[1..], c)
  }

  /** `s.split(sep)` for a one-character separator: every occurrence cuts. */
  function Split(s: string, sep: char): (parts: seq<string>)
    ensures |parts| == Count(s, sep) + 1
    ensures forall i :: 0 <= i < |parts| ==> sep !in parts[i]
  {
    if |s| == 0 then [""]
    else
      var rest := Split(s[1..], sep);
      if s[0] == sep then [""] + rest
      else
        var r := [[s[0]] + rest[0]] + rest[1..];
        assert forall i :: 1 <= i < |r| ==> r[i] == rest[i];
        r
  }

  /** `sep.join(parts)`. */
  function Join(parts: seq<string>, sep: char): string
    requires |parts| > 0
  {
    if |parts| == 1 then parts[0] else parts[0] + [sep] + Join(parts[1..], sep)
  }

  /** Splitting and re-joining gives back the original text. */
  lemma {:induction false} JoinSplit(s: string, sep: char)
    ensures Join(Split(s, sep), sep) == s
  {
    if |s| > 0 {
      JoinSplit(s[1..], sep);
      var rest := Split(s[1..], sep);
      if s[0] == sep {
        assert ([""] + rest)[1..] == rest;
        assert s == [sep] + s[1..];
      } else {
        var r := [[s[0]] + rest[0]] + rest[1..];
        if |rest| == 1 {
          assert s == [s[0]] + s[1..];
        } else {
          assert r[1..] == rest[1..];
          assert Join(rest, sep) == rest[0] + [sep] + Join(rest[1..], sep);
          assert s == [s[0]] + s[1..];
        }
      }
    }
  }

  /** A prefix free of the separator sticks to the first part. */
  lemma {:induction false} SplitPrefix(a: string, t: string, sep: char)
    requires sep !in a
    ensures Split(a + t, sep) == [a + Split(t, sep)[0]] + Split(t, sep)[1..]
  {
    if |a| > 0 {
      SplitPrefix(a[1..], t, sep);
      var p := Split(t, sep);
      var rest := Split(a[1..] + t, sep);
      assert (a + t)[1..] == a[1..] + t;
      assert (a + t)[0] == a[0] && a[0] != sep;
      assert rest == [a[1..] + p[0]] + p[1..];
      assert rest[0] == a[1..] + p[0] && rest[1..] == p[1..];
      assert Split(a + t, sep) == [[a[0]] + rest[0]] + rest[1..];
      assert [a[0]] + (a[1..] + p[0]) == a + p[0];
    } else {
      var p := Split(t, sep);
      assert a + t == t;
      assert a + p[0] == p[0];
      assert p == [p[0]] + p[1..];
    }
  }

  /** Text with exactly one separator between two separator-free halves splits into those halves. */
  lemma {:induction false} SplitAtOne(a: string, b: string, sep: char)
    requires sep !in a && sep !in b
    ensures Split(a + [sep] + b, sep) == [a, b]
  {
    var t := [sep] + b;
    assert a + [sep] + b == a + t;
    assert Split(b, sep) == [b] by {
      SplitPrefix(b, "", sep);
      assert b + "" == b;
    }
    assert t[1..] == b;
    assert Split(t, sep) == [""] + Split(b, sep);
    SplitPrefix(a, t, sep);
    assert a + "" == a;
  }

  // ---------------------------------------------------------------------------
  // int(str)

  /** The white-space characters `int()` strips (ASCII only). */
  predicate IsSpace(c: char) {
    c == ' ' || c == '\t' || c == '\n' || c == '\r' || c as nat == 11 || c as nat == 12
  }

  function TrimLeft(s: string): (r: string)
    ensures |r| <= |s|
  {
    if |s| > 0 && IsSpace(s[0]) then TrimLeft(s[1..]) else s
  }

  function TrimRight(s: string): (r: string)
    ensures |r| <= |s|
  {
    if |s| > 0 && IsSpace(s[|s| - 1]) then TrimRight(s[..|s| - 1]) else s
  }

  /** `s.strip()`. */
  function Strip(s: string): string {
    TrimRight(TrimLeft(s))
  }

  /** Decimal value of a string of digits, most significant first. */
  function DigitsValue(s: string): nat
    requires AllDigits(s)
  {
    if |s| == 0 then 0 else DigitsValue(s[..|s| - 1]) * 10 + DigitValue(s[|s| - 1])
  }

  function DropUnderscores(s: string): string {
    if |s| == 0 then [] else (if s[0] == '_' then [] else [s[0]]) + DropUnderscores(s[1..])
  }

  /** Digits, optionally grouped by single underscores, with a digit at both ends. */
  predicate Grouped(b: string) {
    && |b| > 0
    && IsDigit(b[0])
    && IsDigit(b[|b| - 1])
    && (forall i :: 0 <= i < |b| ==> IsDigit(b[i]) || b[i] == '_')
    && (forall i :: 0 <= i < |b| - 1 ==> b[i] == '_' ==> b[i + 1] != '_')
  }

  lemma {:induction false} DropUnderscoresDigits(s: string)
    requires forall i :: 0 <= i < |s| ==> IsDigit(s[i]) || s[i] == '_'
    ensures AllDigits(DropUnderscores(s))
  {
    if |s| > 0 {
      DropUnderscoresDigits(s[1..]);
    }
  }

  /** The value of grouped digits; the underscores only separate groups. */
  function GroupedValue(b: string): nat
    requires Grouped(b)
  {
    DropUnderscoresDigits(b);
    DigitsValue(DropUnderscores(b))
  }

  /** Stripped text `t` is the grouped digits `b`, possibly after a `+` or `-`. */
  predicate SignedGrouped(t: string, b: string) {
    Grouped(b) && (t == b || t == "+" + b || t == "-" + b)
  }

  /**
   * The default of `sys.get_int_max_str_digits()`: `int()` on text with more
   * digits than this (underscores not counted, leading zeros counted) raises.
   */
  const MaxStrDigits: nat := 4300

  /** `int(s)` in base 10: surrounding white space, an optional sign, grouped digits, at most `MaxStrDigits` of them. */
  function PyInt(s: string): (r: Option<int>)
    ensures r.Some? ==> exists b :: Grouped(b) && (Strip(s) == b || Strip(s) == "+" + b || Strip(s) == "-" + b)
  {
    var t := Strip(s);
    var signed := |t| > 0 && (t[0] == '+' || t[0] == '-');
    var body := if signed then t[1..] else t;
    if Grouped(body) && |DropUnderscores(body)| <= MaxStrDigits then
      assert SignedGrouped(t, body) by {
        if signed {
          assert t == [t[0]] + body;
        }
      }
      var v: int := if signed && t[0] == '-' then -(GroupedValue(body) as int) else GroupedValue(body);
      Some(v)
    else
      None
  }

  /**
   * `int()` succeeds exactly on text that strips to grouped digits, within
   * the digit limit, with an optional sign; it then gives their value,
   * negated after a `-`. Too many digits make it raise.
   */
  lemma {:induction false} PyIntSpec(s: string)
    ensures PyInt(s).Some? <==> exists b :: SignedGrouped(Strip(s), b) && |DropUnderscores(b)| <= MaxStrDigits
    ensures forall b :: SignedGrouped(Strip(s), b) && |DropUnderscores(b)| <= MaxStrDigits ==>
      PyInt(s) == Some(if Strip(s) == "-" + b then -(GroupedValue(b) as int) else GroupedValue(b))
    ensures forall b :: SignedGrouped(Strip(s), b) && |DropUnderscores(b)| > MaxStrDigits ==> PyInt(s).None?
  {
    var t := Strip(s);
    forall b | SignedGrouped(t, b)
      ensures PyInt(s) == if |DropUnderscores(b)| <= MaxStrDigits
        then Some(if t == "-" + b then -(GroupedValue(b) as int) else GroupedValue(b))
        else None
    {
      if t != b {
        assert t[1..] == b;
      }
    }
  }

  lemma {:induction false} TrimLeftNoSpace(s: string)
    requires AllDigits(s)
    ensures TrimLeft(s) == s
  {
  }

  lemma {:induction false} TrimRightNoSpace(s: string)
    requires AllDigits(s)
    ensures TrimRight(s) == s
  {
  }

  /** `int()` sees only the stripped text. */
  lemma {:induction false} PyIntSameStrip(a: string, b: string)
    requires Strip(a) == Strip(b)
    ensures PyInt(a) == PyInt(b)
  {
  }

  /** A space before or after a run of digits does not change what `int()` reads. */
  lemma {:induction false} PyIntSpaced(s: string)
    requires AllDigits(s)
    ensures PyInt(" " + s) == PyInt(s)
    ensures PyInt(s + " ") == PyInt(s)
  {
    TrimLeftNoSpace(s);
    TrimRightNoSpace(s);
    var a, b := " " + s, s + " ";
    assert Strip(a) == Strip(s) by {
      assert a[1..] == s;
    }
    assert Strip(b) == Strip(s) by {
      assert b[..|b| - 1] == s;
      if |s| > 0 {
        assert b[0] == s[0];
      } else {
        assert b == " ";
      }
    }
    PyIntSameStrip(a, s);
    PyIntSameStrip(b, s);
  }

  lemma {:induction false} DropUnderscoresNone(s: string)
    requires AllDigits(s)
    ensures DropUnderscores(s) == s
  {
    if |s| > 0 {
      DropUnderscoresNone(s[1..]);
      assert s == [s[0]] + s[1..];
    }
  }

  /** A plain non-empty run of digits within the digit limit reads as its decimal value. */
  lemma {:induction false} PyIntOfDigits(s: string)
    requires AllDigits(s) && 0 < |s| <= MaxStrDigits
    ensures PyInt(s) == Some(DigitsValue(s))
  {
    TrimLeftNoSpace(s);
    assert TrimRight(s) == s;
    assert Strip(s) == s;
    assert !(s[0] == '+' || s[0] == '-');
    assert Grouped(s);
    DropUnderscoresNone(s);
  }

  /** A run of digits longer than the limit makes `int()` raise. */
  lemma {:induction false} PyIntTooManyDigits(s: string)
    requires AllDigits(s) && |s| > MaxStrDigits
    ensures PyInt(s).None?
  {
    TrimLeftNoSpace(s);
    assert TrimRight(s) == s;
    assert Strip(s) == s;
    assert !(s[0] == '+' || s[0] == '-');
    DropUnderscoresNone(s);
  }

  // ---------------------------------------------------------------------------
  // Fixed-width decimal rendering, as the `\d{n}` date and month fields are written

  function Pow10(w: nat): (p: nat)
    ensures p >= 1
  {
    if w == 0 then 1 else 10 * Pow10(w - 1)
  }

  /** `n` written with exactly `w` digits, zero-padded on the left. */
  function FixedDigits(n: nat, w: nat): (s: string)
    requires n < Pow10(w)
    ensures |s| == w && AllDigits(s)
  {
    if w == 0 then "" else FixedDigits(n / 10, w - 1) + [DigitChar(n % 10)]
  }

  /** Reading a zero-padded rendering gives back the number. */
  lemma {:induction false} FixedDigitsValue(n: nat, w: nat)
    requires n < Pow10(w)
    ensures DigitsValue(FixedDigits(n, w)) == n
  {
    if w > 0 {
      FixedDigitsValue(n / 10, w - 1);
      var s := FixedDigits(n, w);
      assert s[..|s| - 1] == FixedDigits(n / 10, w - 1);
    }
  }

  /** A string of digits is the zero-padded rendering of its own value. */
  lemma {:induction false} DigitsRoundTrip(s: string)
    requires AllDigits(s)
    ensures DigitsValue(s) < Pow10(|s|)
    ensures FixedDigits(DigitsValue(s), |s|) == s
  {
    if |s| > 0 {
      var p := s[..|s| - 1];
      DigitsRoundTrip(p);
      var n := DigitsValue(s);
      assert n / 10 == DigitsValue(p) && n % 10 == DigitValue(s[|s| - 1]);
      assert s == p + [s[|s| - 1]];
    }
  }
}
