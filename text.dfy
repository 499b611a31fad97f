/** String helpers the content engine relies on: JavaScript's
    `String.prototype.trim` and the decimal rendering of an integer
    inside a template literal. */
module JsText {

  /** The characters `trim` removes: the WhiteSpace and LineTerminator
      code points of ECMAScript (section 22.1.3.32 of ECMA-262). */
  predicate IsWhitespace(c: char) {
    || c == '\t' || c == '\n' || c == '\U{B}' || c == '\U{C}' || c == '\r' || c == ' '
    || c == '\U{A0}' || c == '\U{1680}' || ('\U{2000}' <= c <= '\U{200A}')
    || c == '\U{2028}' || c == '\U{2029}' || c == '\U{202F}' || c == '\U{205F}'
    || c == '\U{3000}' || c == '\U{FEFF}'
  }

  predicate AllWhitespace(s: string) {
    forall i :: 0 <= i < |s| ==> IsWhitespace(s[i])
  }

  /** Drops leading whitespace: the result is a suffix of `s`, everything
      dropped is whitespace, and what is kept does not start with whitespace. */
  function TrimStart(s: string): (r: string)
    ensures |r| <= |s| && r == s[|s| - |r|..]
    ensures forall i :: 0 <= i < |s| - |r| ==> IsWhitespace(s[i])
    ensures r != [] ==> !IsWhitespace(r[0])
  {
    if s != [] && IsWhitespace(s[0]) then TrimStart(s[1..]) else s
  }

  /** Drops trailing whitespace: the result is a prefix of `s`, everything
      dropped is whitespace, and what is kept does not end with whitespace. */
  function TrimEnd(s: string): (r: string)
    ensures |r| <= |s| && r == s[..|r|]
    ensures forall i :: |r| <= i < |s| ==> IsWhitespace(s[i])
    ensures r != [] ==> !IsWhitespace(r[|r| - 1])
  {
    if s != [] && IsWhitespace(s[|s| - 1]) then TrimEnd(s[..|s| - 1]) else s
  }

  /** `r` is what remains of `s` once the whitespace before index `k` and
      after index `k + |r|` is removed. */
  predicate TrimmedAt(s: string, r: string, k: nat) {
    && k + |r| <= |s|
    && s[k..k + |r|] == r
    && (forall i :: 0 <= i < k ==> IsWhitespace(s[i]))
    && (forall i :: k + |r| <= i < |s| ==> IsWhitespace(s[i]))
  }

  /** `s.trim()`: an infix of `s` that neither starts nor ends with
      whitespace, only whitespace having been removed around it; it is empty
      exactly when `s` is all whitespace. */
  function Trim(s: string): (r: string)
    ensures TrimmedAt(s, r, |s| - |TrimStart(s)|)
    ensures r != [] ==> !IsWhitespace(r[0]) && !IsWhitespace(r[|r| - 1])
    ensures r == [] <==> AllWhitespace(s)
  {
    var t := TrimStart(s);
    TrimFacts(s, t, TrimEnd(t));
    TrimEnd(t)
  }

  /** Trimming both ends, stated on the two halves' own contracts. */
  lemma TrimFacts(s: string, t: string, r: string)
    requires |t| <= |s| && t == s[|s| - |t|..]
    requires forall i :: 0 <= i < |s| - |t| ==> IsWhitespace(s[i])
    requires t != [] ==> !IsWhitespace(t[0])
    requires |r| <= |t| && r == t[..|r|]
    requires forall i :: |r| <= i < |t| ==> IsWhitespace(t[i])
    ensures TrimmedAt(s, r, |s| - |t|)
    ensures r == [] <==> AllWhitespace(s)
  {
  }

  /** Whitespace around a string, such as the indentation of an HTML
      template around a paragraph, does not change what `trim` returns. */
  lemma {:induction false} TrimIgnoresPadding(before: string, s: string, after: string)
    requires AllWhitespace(before) && AllWhitespace(after)
    ensures Trim(before + s + after) == Trim(s)
  {
    assert before + s + after == before + (s + after);
    TrimStartPadding(before, s + after);
    var t := TrimStart(s);
    if t != [] {
      TrimStartKeepsSuffix(s, after);
      TrimEndPadding(t, after);
    } else {
      TrimStartKeepsSuffix(s, after);
      TrimStartPadding(after, []);
      assert after + [] == after;
    }
  }

  lemma {:induction false} TrimStartPadding(before: string, s: string)
    requires AllWhitespace(before)
    ensures TrimStart(before + s) == TrimStart(s)
    decreases |before|
  {
    if before != [] {
      assert (before + s)[1..] == before[1..] + s;
      TrimStartPadding(before[1..], s);
    } else {
      assert before + s == s;
    }
  }

  lemma {:induction false} TrimEndPadding(s: string, after: string)
    requires AllWhitespace(after)
    ensures TrimEnd(s + after) == TrimEnd(s)
    decreases |after|
  {
    if after != [] {
      var n := |after| - 1;
      assert (s + after)[..|s + after| - 1] == s + after[..n];
      TrimEndPadding(s, after[..n]);
    } else {
      assert s + after == s;
    }
  }

  /** What TrimStart keeps of `s + after`: the kept part of `s` followed by
      `after`, or, when `s` is all whitespace, what it keeps of `after`. */
  lemma {:induction false} TrimStartKeepsSuffix(s: string, after: string)
    ensures TrimStart(s) != [] ==> TrimStart(s + after) == TrimStart(s) + after
    ensures TrimStart(s) == [] ==> TrimStart(s + after) == TrimStart(after)
    decreases |s|
  {
    if s == [] {
      assert s + after == after;
    } else if IsWhitespace(s[0]) {
      assert (s + after)[1..] == s[1..] + after;
      TrimStartKeepsSuffix(s[1..], after);
    }
  }

  /** The character for a decimal digit. */
  function DigitChar(d: nat): (c: char)
    requires d < 10
    ensures '0' <= c <= '9'
  {
    ('0' as int + d) as char
  }

  predicate IsDigits(s: string) {
    forall i :: 0 <= i < |s| ==> '0' <= s[i] <= '9'
  }

  /** `${n}` for a non-negative integer: its shortest decimal numeral. */
  function Decimal(n: nat): (s: string)
    ensures s != [] && IsDigits(s)
    ensures s[0] == '0' ==> n == 0
  {
    if n < 10 then [DigitChar(n)] else Decimal(n / 10) + [DigitChar(n % 10)]
  }

  /** The value of a decimal numeral, the reading `parseInt(s, 10)` gives. */
  function DecimalValue(s: string): nat
    requires IsDigits(s)
  {
    if s == [] then 0 else DecimalValue(s[..|s| - 1]) * 10 + (s[|s| - 1] as int - '0' as int)
  }

  /** Reading back the numeral of `n` gives `n`. */
  lemma {:induction false} DecimalRoundTrip(n: nat)
    ensures DecimalValue(Decimal(n)) == n
  {
    if n >= 10 {
      DecimalRoundTrip(n / 10);
      var s := Decimal(n);
      assert s[..|s| - 1] == Decimal(n / 10);
    }
  }

  /** Distinct numbers have distinct numerals. */
  lemma DecimalInjective(a: nat, b: nat)
    requires Decimal(a) == Decimal(b)
    ensures a == b
  {
    DecimalRoundTrip(a);
    DecimalRoundTrip(b);
  }
}
