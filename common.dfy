/** Values and helpers shared by every screen of the laundry client: optional
    values, the three outcomes of a request to the remote API, JavaScript
    truthiness of stored strings, the string operations the screens use
    (lower-casing, `includes`, `trim`, `Number`), and order-preserving filters. */
module Common {

  datatype Option<+T> = None | Some(value: T)

  /** The outcome of one `fetch` as a screen sees it: a 2xx response with its
      decoded body, a non-2xx response whose body may carry an `error` string,
      or a thrown exception (network failure). */
  datatype Response<+T> = Ok(data: T) | NotOk(error: Option<string>) | NetworkError

  /** Looking up a key of browser storage: `localStorage.getItem(key)`. */
  function Get(m: map<string, string>, key: string): (r: Option<string>)
    ensures r.Some? <==> key in m
    ensures r.Some? ==> r.value == m[key]
  {
    if key in m then Some(m[key]) else None
  }

  /** JavaScript truthiness of a stored string: `null` and `""` are falsy. */
  predicate Truthy(v: Option<string>)
  {
    v.Some? && v.value != ""
  }

  /** `data.error || fallback`: the server's message when it sent a non-empty
      one, the screen's own message otherwise. */
  function ErrorOr(e: Option<string>, fallback: string): (r: string)
    ensures Truthy(e) ==> r == e.value
    ensures !Truthy(e) ==> r == fallback
    ensures fallback != "" ==> r != ""
  {
    if e.Some? && e.value != "" then e.value else fallback
  }

  // ---------------------------------------------------------------------
  // Strings
  // ---------------------------------------------------------------------

  /** `toLowerCase` on one character; only ASCII letters are folded. */
  function Lower(c: char): char
  {
    if 'A' <= c <= 'Z' then (c as int + 32) as char else c
  }

  function ToLower(s: string): (r: string)
    ensures |r| == |s|
    ensures forall i :: 0 <= i < |s| ==> r[i] == Lower(s[i])
  {
    seq(|s|, i requires 0 <= i < |s| => Lower(s[i]))
  }

  predicate StartsWith(s: string, prefix: string)
  {
    |prefix| <= |s| && s[..|prefix|] == prefix
  }

  /** `s.includes(sub)`: `sub` occurs in `s` at some offset. */
  predicate Includes(s: string, sub: string)
    decreases |s|
  {
    StartsWith(s, sub) || (|s| > 0 && Includes(s[1..], sub))
  }

  /** `includes` holds exactly when some window of `s` spells `sub`. */
  lemma {:induction false} IncludesAt(s: string, sub: string, i: nat)
    requires i + |sub| <= |s|
    requires s[i..i + |sub|] == sub
    ensures Includes(s, sub)
  {
    if i > 0 {
      assert s[1..][i - 1..i - 1 + |sub|] == sub;
      IncludesAt(s[1..], sub, i - 1);
    }
  }

  lemma {:induction false} IncludesWitness(s: string, sub: string) returns (i: nat)
    requires Includes(s, sub)
    ensures i + |sub| <= |s| && s[i..i + |sub|] == sub
    decreases |s|
  {
    if StartsWith(s, sub) {
      i := 0;
    } else {
      var j := IncludesWitness(s[1..], sub);
      assert s[1..][j..j + |sub|] == s[j + 1..j + 1 + |sub|];
      i := j + 1;
    }
  }

  /** The empty string is contained in every string. */
  lemma IncludesEmpty(s: string)
    ensures Includes(s, "")
  {
    IncludesAt(s, "", 0);
  }

  /** The characters `String.prototype.trim` removes: white space and line
      terminators. */
  predicate IsWhitespace(c: char)
  {
    c == '\t' || c == '\n' || c == '\U{B}' || c == '\U{C}' || c == '\r' || c == ' '
    || c == '\U{A0}' || c == '\U{1680}' || ('\U{2000}' <= c <= '\U{200A}')
    || c == '\U{2028}' || c == '\U{2029}' || c == '\U{202F}' || c == '\U{205F}'
    || c == '\U{3000}' || c == '\U{FEFF}'
  }

  /** `!s.trim()`: nothing is left once surrounding white space is removed. */
  predicate Blank(s: string)
  {
    forall i :: 0 <= i < |s| ==> IsWhitespace(s[i])
  }

  /** White space removed from the front of `s`. */
  function TrimStart(s: string): (r: string)
    ensures |r| <= |s|
    ensures r == s[|s| - |r|..]
    ensures r != "" ==> !IsWhitespace(r[0])
  {
    if |s| > 0 && IsWhitespace(s[0]) then TrimStart(s[1..]) else s
  }

  /** White space removed from the back of `s`. */
  function TrimEnd(s: string): (r: string)
    ensures |r| <= |s|
    ensures r == s[..|r|]
    ensures r != "" ==> !IsWhitespace(r[|r| - 1])
  {
    if |s| > 0 && IsWhitespace(s[|s| - 1]) then TrimEnd(s[..|s| - 1]) else s
  }

  /** `String.prototype.trim`. */
  function Trim(s: string): string
  {
    TrimEnd(TrimStart(s))
  }

  /** Stripping white space from the front keeps a string blank or not. */
  lemma {:induction false} TrimStartKeepsBlank(s: string)
    ensures Blank(TrimStart(s)) <==> Blank(s)
  {
    if |s| > 0 && IsWhitespace(s[0]) {
      TrimStartKeepsBlank(s[1..]);
      if Blank(s[1..]) {
        assert forall i :: 0 <= i < |s| ==> IsWhitespace(s[i]) by {
          forall i | 0 <= i < |s| ensures IsWhitespace(s[i]) {
            if i > 0 { assert s[i] == s[1..][i - 1]; }
          }
        }
      }
      if Blank(s) {
        assert forall i :: 0 <= i < |s[1..]| ==> IsWhitespace(s[1..][i]) by {
          forall i | 0 <= i < |s[1..]| ensures IsWhitespace(s[1..][i]) {
            assert s[1..][i] == s[i + 1];
          }
        }
      }
    }
  }

  /** Stripping white space from the back keeps a string blank or not. */
  lemma {:induction false} TrimEndKeepsBlank(s: string)
    ensures Blank(TrimEnd(s)) <==> Blank(s)
  {
    if |s| > 0 && IsWhitespace(s[|s| - 1]) {
      var init := s[..|s| - 1];
      TrimEndKeepsBlank(init);
      assert forall i :: 0 <= i < |init| ==> init[i] == s[i];
    }
  }

  /** `!s.trim()` is `Blank(s)`: the trimmed text is empty exactly when every
      character of `s` is white space. */
  lemma TrimEmptyIffBlank(s: string)
    ensures Trim(s) == "" <==> Blank(s)
  {
    TrimStartKeepsBlank(s);
    TrimEndKeepsBlank(TrimStart(s));
    var r := Trim(s);
    if r != "" {
      assert !IsWhitespace(r[|r| - 1]);
    }
  }

  // ---------------------------------------------------------------------
  // Decimal numbers (`Number(text)` on the digits a number input produces)
  // ---------------------------------------------------------------------

  predicate IsDigit(c: char)
  {
    '0' <= c <= '9'
  }

  predicate AllDigits(s: string)
  {
    forall i :: 0 <= i < |s| ==> IsDigit(s[i])
  }

  function DigitValue(c: char): nat
    requires IsDigit(c)
  {
    c as int - '0' as int
  }

  function DigitChar(d: nat): (c: char)
    requires d < 10
    ensures IsDigit(c) && DigitValue(c) == d
  {
    ('0' as int + d) as char
  }

  /** The value of a string of decimal digits, read left to right. */
  function DigitsValue(s: string): nat
    requires AllDigits(s)
  {
    if |s| == 0 then 0 else DigitsValue(s[..|s| - 1]) * 10 + DigitValue(s[|s| - 1])
  }

  /** `String(n)` for a natural number. */
  function NatToString(n: nat): (s: string)
    ensures |s| > 0 && AllDigits(s)
  {
    if n < 10 then [DigitChar(n)] else NatToString(n / 10) + [DigitChar(n % 10)]
  }

  /** `Number(text)`: the empty text is 0, an optionally negated run of
      digits is its value, anything else is NaN (`None`). */
  function ParseNumber(text: string): (r: Option<int>)
    ensures text == "" ==> r == Some(0)
    ensures AllDigits(text) ==> r == Some(DigitsValue(text))
    ensures r.Some? && text != "" && text[0] != '-' ==> AllDigits(text) && r.value >= 0
    ensures |text| > 1 && text[0] == '-' && AllDigits(text[1..]) ==> r == Some(-(DigitsValue(text[1..]) as int))
    ensures r.Some? ==> text == "" || AllDigits(text) || (|text| > 1 && text[0] == '-' && AllDigits(text[1..]))
  {
    if text == "" then Some(0)
    else if AllDigits(text) then Some(DigitsValue(text))
    else if text[0] == '-' && |text| > 1 && AllDigits(text[1..]) then var v: int := DigitsValue(text[1..]); Some(-v)
    else None
  }

  /** Writing a number out and reading it back gives the number. */
  lemma {:induction false} DigitsRoundTrip(n: nat)
    ensures DigitsValue(NatToString(n)) == n
  {
    if n >= 10 {
      var s := NatToString(n);
      assert s[..|s| - 1] == NatToString(n / 10);
      DigitsRoundTrip(n / 10);
    }
  }

  lemma ParseNumberRoundTrip(n: nat)
    ensures ParseNumber(NatToString(n)) == Some(n)
  {
    DigitsRoundTrip(n);
  }

  // ---------------------------------------------------------------------
  // Order-preserving filters (`Array.prototype.filter`)
  // ---------------------------------------------------------------------

  function Filter<T(!new)>(p: T -> bool, s: seq<T>): (r: seq<T>)
    ensures |r| <= |s|
    ensures forall x :: x in r <==> x in s && p(x)
    decreases |s|
  {
    if |s| == 0 then []
    else if p(s[0]) then [s[0]] + Filter(p, s[1..])
    else Filter(p, s[1..])
  }

  /** `r` is `s` with some elements dropped and the rest in their original order. */
  ghost predicate IsSubsequence<T>(r: seq<T>, s: seq<T>)
    decreases |s|
  {
    |r| == 0 || (|s| > 0 && if r[0] == s[0] then IsSubsequence(r[1..], s[1..]) else IsSubsequence(r, s[1..]))
  }

  lemma {:induction false} FilterIsSubsequence<T(!new)>(p: T -> bool, s: seq<T>)
    ensures IsSubsequence(Filter(p, s), s)
    decreases |s|
  {
    if |s| > 0 {
      FilterIsSubsequence(p, s[1..]);
      if p(s[0]) {
        assert Filter(p, s)[1..] == Filter(p, s[1..]);
      } else if |Filter(p, s)| > 0 {
        SubsequenceSkip(Filter(p, s), s);
      }
    }
  }

  /** A subsequence of `s[1..]` is a subsequence of `s`. */
  lemma {:induction false} SubsequenceSkip<T>(r: seq<T>, s: seq<T>)
    requires |s| > 0 && IsSubsequence(r, s[1..])
    ensures IsSubsequence(r, s)
    decreases |s|, |r|
  {
    if |r| > 0 && r[0] == s[0] {
      SubsequenceTail(r, s[1..]);
    }
  }

  /** Dropping the first element of a subsequence keeps it a subsequence. */
  lemma {:induction false} SubsequenceTail<T>(r: seq<T>, s: seq<T>)
    requires |r| > 0 && IsSubsequence(r, s)
    ensures IsSubsequence(r[1..], s)
    decreases |s|, |r|
  {
    if |r| > 1 {
      if r[0] != s[0] {
        SubsequenceTail(r, s[1..]);
      }
      SubsequenceSkip(r[1..], s);
    }
  }

  /** Filtering by a condition and by its negation splits the sequence. */
  lemma {:induction false} FilterComplement<T(!new)>(p: T -> bool, q: T -> bool, s: seq<T>)
    requires forall x :: x in s ==> q(x) == !p(x)
    ensures |Filter(p, s)| + |Filter(q, s)| == |s|
    ensures forall x :: x in Filter(p, s) ==> x !in Filter(q, s)
    decreases |s|
  {
    if |s| > 0 {
      FilterComplement(p, q, s[1..]);
    }
  }

  /** Three conditions that are mutually exclusive and together equal a fourth
      split that fourth condition's filter. */
  lemma {:induction false} FilterThreeWay<T(!new)>(p: T -> bool, a: T -> bool, b: T -> bool, c: T -> bool, s: seq<T>)
    requires forall x :: x in s ==> (p(x) == (a(x) || b(x) || c(x)))
    requires forall x :: x in s ==> !(a(x) && b(x)) && !(a(x) && c(x)) && !(b(x) && c(x))
    ensures |Filter(a, s)| + |Filter(b, s)| + |Filter(c, s)| == |Filter(p, s)|
    decreases |s|
  {
    if |s| > 0 {
      FilterThreeWay(p, a, b, c, s[1..]);
    }
  }

  /** Keeping everything keeps the sequence as it is. */
  lemma {:induction false} FilterAll<T(!new)>(p: T -> bool, s: seq<T>)
    requires forall x :: x in s ==> p(x)
    ensures Filter(p, s) == s
    decreases |s|
  {
    if |s| > 0 {
      FilterAll(p, s[1..]);
    }
  }
}
