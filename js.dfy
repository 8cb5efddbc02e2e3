/** The few JavaScript string and number built-ins that the modelled code
    relies on, stated exactly enough to reason about its branches. */
module Js {
  import opened Common

  /** The WhiteSpace and LineTerminator code points of ECMAScript, the set
      that `String.prototype.trim` removes. */
  predicate IsWhitespace(c: char) {
    c == ' ' || c == '\t' || c == '\n' || c == '\r' || c == '\U{000B}' || c == '\U{000C}'
    || c == '\U{00A0}' || c == '\U{1680}' || ('\U{2000}' <= c <= '\U{200A}')
    || c == '\U{2028}' || c == '\U{2029}' || c == '\U{202F}' || c == '\U{205F}'
    || c == '\U{3000}' || c == '\U{FEFF}'
  }

  predicate AllWhitespace(s: string) {
    forall i :: 0 <= i < |s| ==> IsWhitespace(s[i])
  }

  /** How many whitespace characters `s` starts with. */
  function LeadingSpaces(s: string): (n: nat)
    ensures n <= |s| && AllWhitespace(s[..n])
    ensures n < |s| ==> !IsWhitespace(s[n])
  {
    if s != [] && IsWhitespace(s[0]) then
      var t := s[1..];
      var k := LeadingSpaces(t);
      assert s[..k + 1] == [s[0]] + t[..k];
      WhitespaceJoin([s[0]], t[..k]);
      assert k + 1 < |s| ==> s[k + 1] == t[k];
      k + 1
    else 0
  }

  /** How many whitespace characters `s` ends with. */
  function TrailingSpaces(s: string): (n: nat)
    ensures n <= |s| && AllWhitespace(s[|s| - n..])
    ensures n < |s| ==> !IsWhitespace(s[|s| - n - 1])
  {
    if s != [] && IsWhitespace(s[|s| - 1]) then
      var t := s[..|s| - 1];
      var k := TrailingSpaces(t);
      assert s[|s| - (k + 1)..] == t[|t| - k..] + [s[|s| - 1]];
      WhitespaceJoin(t[|t| - k..], [s[|s| - 1]]);
      assert k + 1 < |s| ==> s[|s| - k - 2] == t[|t| - k - 1];
      k + 1
    else 0
  }

  /** `s.trimStart()`: `s` without its leading whitespace. */
  function TrimStart(s: string): (r: string)
    ensures |r| <= |s| && AllWhitespace(s[..|s| - |r|])
    ensures r == [] || !IsWhitespace(r[0])
  {
    s[LeadingSpaces(s)..]
  }

  /** `s.trimEnd()`: `s` without its trailing whitespace. */
  function TrimEnd(s: string): (r: string)
    ensures |r| <= |s| && AllWhitespace(s[|r|..])
    ensures r == [] || !IsWhitespace(r[|r| - 1])
  {
    s[..|s| - TrailingSpaces(s)]
  }

  /** `s.trim()`: never longer than `s`, empty for whitespace-only text,
      and otherwise ending in a non-space. */
  function Trim(s: string): (r: string)
    ensures |r| <= |s|
    ensures AllWhitespace(s) ==> r == []
    ensures r == [] || !IsWhitespace(r[|r| - 1])
  {
    TrimEnd(TrimStart(s))
  }

  /** `s.trim()` is empty exactly when `s` is made of whitespace only, and
      otherwise neither starts nor ends with whitespace. */
  lemma TrimEmptyIff(s: string)
    ensures Trim(s) == [] <==> AllWhitespace(s)
    ensures Trim(s) != [] ==> !IsWhitespace(Trim(s)[0]) && !IsWhitespace(Trim(s)[|Trim(s)| - 1])
  {
    if Trim(s) == [] {
      TrimEmptyWhitespace(s);
    } else {
      TrimNonEmptyEnds(s);
    }
  }

  /** Only whitespace trims to nothing. */
  lemma TrimEmptyWhitespace(s: string)
    requires Trim(s) == []
    ensures AllWhitespace(s)
  {
    var n := LeadingSpaces(s);
    var t := s[n..];
    TrimEndEmpty(t);
    forall i | 0 <= i < |s|
      ensures IsWhitespace(s[i])
    {
      if i < n { assert s[..n][i] == s[i]; }
    }
  }

  /** Text that trims to something keeps a non-space at both ends. */
  lemma TrimNonEmptyEnds(s: string)
    requires Trim(s) != []
    ensures !AllWhitespace(s)
    ensures !IsWhitespace(Trim(s)[0]) && !IsWhitespace(Trim(s)[|Trim(s)| - 1])
  {
    var n := LeadingSpaces(s);
    var t := TrimStart(s);
    var r := TrimEnd(t);
    assert r == t[..|r|];
    assert r[0] == t[0] == s[n];
    WhitespaceAt(s, n);
  }

  /** `trimStart` keeps a suffix of `s`. */
  lemma TrimStartSuffix(s: string)
    ensures TrimStart(s) == s[|s| - |TrimStart(s)|..]
  {
  }

  /** `trimEnd` keeps a prefix of `s`. */
  lemma TrimEndPrefix(s: string)
    ensures TrimEnd(s) == s[..|TrimEnd(s)|]
  {
  }

  /** `trim` keeps the slice of `s` that starts after its leading
      whitespace. */
  lemma TrimSlice(s: string)
    ensures LeadingSpaces(s) + |Trim(s)| <= |s|
    ensures Trim(s) == s[LeadingSpaces(s)..LeadingSpaces(s) + |Trim(s)|]
  {
    var n := LeadingSpaces(s);
    var u := s[n..];
    var r := TrimEnd(u);
    TrimEndPrefix(u);
    assert u[..|r|] == s[n..n + |r|];
  }

  /** The leading-whitespace count is the one position where a whitespace
      prefix meets a non-space. */
  lemma {:induction false} LeadingSpacesExact(s: string, k: nat)
    requires k <= |s| && AllWhitespace(s[..k])
    requires k < |s| ==> !IsWhitespace(s[k])
    ensures LeadingSpaces(s) == k
  {
  }

  /** The trailing-whitespace count is the one position where a whitespace
      suffix meets a non-space. */
  lemma {:induction false} TrailingSpacesExact(s: string, k: nat)
    requires k <= |s| && AllWhitespace(s[|s| - k..])
    requires k < |s| ==> !IsWhitespace(s[|s| - k - 1])
    ensures TrailingSpaces(s) == k
  {
  }

  /** Whitespace on either side of a text with non-space ends is exactly
      what `trim` removes: `"  ab "` trims to `"ab"`. */
  lemma TrimPadded(w1: string, t: string, w2: string)
    requires AllWhitespace(w1) && AllWhitespace(w2)
    requires t != [] && !IsWhitespace(t[0]) && !IsWhitespace(t[|t| - 1])
    ensures Trim(w1 + t + w2) == t
  {
    var s := w1 + t + w2;
    assert s[..|w1|] == w1 && s[|w1|] == t[0];
    LeadingSpacesExact(s, |w1|);
    var u := TrimStart(s);
    assert u == t + w2;
    assert u[|u| - |w2|..] == w2 && u[|u| - |w2| - 1] == t[|t| - 1];
    TrailingSpacesExact(u, |w2|);
    assert u[..|u| - |w2|] == t;
  }

  lemma WhitespaceJoin(a: string, b: string)
    requires AllWhitespace(a) && AllWhitespace(b)
    ensures AllWhitespace(a + b)
  {
    forall i | 0 <= i < |a + b|
      ensures IsWhitespace((a + b)[i])
    {
      if i < |a| { assert (a + b)[i] == a[i]; } else { assert (a + b)[i] == b[i - |a|]; }
    }
  }

  lemma WhitespaceAt(s: string, i: int)
    requires 0 <= i < |s| && !IsWhitespace(s[i])
    ensures !AllWhitespace(s)
  {
  }

  /** `trimEnd` removes everything only from whitespace. */
  lemma TrimEndEmpty(t: string)
    requires TrimEnd(t) == []
    ensures AllWhitespace(t)
  {
    assert t[|TrimEnd(t)|..] == t;
  }

  /** Trimming twice is trimming once. */
  lemma TrimIdempotent(s: string)
    ensures Trim(Trim(s)) == Trim(s)
  {
    var r := Trim(s);
    TrimEmptyIff(s);
    if r != [] {
      assert TrimStart(r) == r;
      assert TrimEnd(r) == r;
    }
  }

  /** `s.includes(sub)`. */
  predicate Includes(s: string, sub: string)
    decreases |s|
  {
    sub <= s || (s != [] && Includes(s[1..], sub))
  }

  /** An occurrence of `sub` in `s` is a position where it starts. */
  lemma {:induction false} IncludesAt(s: string, sub: string)
    ensures Includes(s, sub) <==> exists i :: 0 <= i <= |s| && sub <= s[i..]
    decreases |s|
  {
    if sub <= s {
      assert sub <= s[0..];
    } else if s != [] {
      IncludesAt(s[1..], sub);
      if Includes(s[1..], sub) {
        var i :| 0 <= i <= |s[1..]| && sub <= s[1..][i..];
        assert s[1..][i..] == s[i + 1..];
      }
      if exists i :: 0 <= i <= |s| && sub <= s[i..] {
        var i :| 0 <= i <= |s| && sub <= s[i..];
        assert i != 0;
        assert s[1..][i - 1..] == s[i..];
      }
    }
  }

  /** A string includes every string it starts with. */
  lemma IncludesPrefix(s: string, sub: string)
    requires sub <= s
    ensures Includes(s, sub)
  {
  }

  /** `s.split(c)[0]`: the text before the first `c`, or all of `s`. */
  function BeforeFirst(s: string, c: char): (r: string)
    ensures r <= s
    ensures c !in r
    ensures |r| < |s| ==> s[|r|] == c
  {
    if s == [] || s[0] == c then [] else [s[0]] + BeforeFirst(s[1..], c)
  }

  /** Cutting at the first `c` twice is cutting once, and text without `c`
      is kept whole. */
  lemma BeforeFirstKeeps(s: string, c: char)
    ensures BeforeFirst(BeforeFirst(s, c), c) == BeforeFirst(s, c)
    ensures c !in s ==> BeforeFirst(s, c) == s
  {
    var r := BeforeFirst(s, c);
    if c !in s {
      assert r == s[..|r|];
    }
  }

  /** `BeforeFirst` puts back exactly the text that precedes the first `c`. */
  lemma {:induction false} BeforeFirstOfJoin(a: string, c: char, b: string)
    requires c !in a
    ensures BeforeFirst(a + [c] + b, c) == a
  {
    if a != [] {
      assert (a + [c] + b)[1..] == a[1..] + [c] + b;
      BeforeFirstOfJoin(a[1..], c, b);
    }
  }

  // ---- Number(...) ----

  /** The result of JavaScript's `Number(text)`. */
  datatype JsNumber = Finite(value: int) | NotANumber

  predicate IsDigit(c: char) { '0' <= c <= '9' }

  predicate AllDigits(s: string) { forall i :: 0 <= i < |s| ==> IsDigit(s[i]) }

  function DigitsValue(s: string): (n: nat)
    requires AllDigits(s)
  {
    if s == [] then 0 else DigitsValue(s[..|s| - 1]) * 10 + (s[|s| - 1] as int - '0' as int)
  }

  /** `Number(text)` on the forms ids take: text that trims to nothing is 0,
      decimal digits are their value, and anything else is NaN. */
  function ToNumber(text: string): (r: JsNumber)
    ensures AllWhitespace(text) ==> r == Finite(0)
    ensures text != [] && AllDigits(text) ==> r == Finite(DigitsValue(text))
    ensures Trim(text) != [] && AllDigits(Trim(text)) ==> r == Finite(DigitsValue(Trim(text)))
    ensures Trim(text) != [] && !AllDigits(Trim(text)) ==> r == NotANumber
    ensures r.Finite? ==> r.value >= 0
  {
    TrimDigits(text);
    var t := Trim(text);
    if t == [] then Finite(0)
    else if AllDigits(t) then Finite(DigitsValue(t))
    else NotANumber
  }

  /** Decimal digits have nothing to trim. */
  lemma TrimDigits(s: string)
    ensures s != [] && AllDigits(s) ==> Trim(s) == s
  {
    if s != [] && AllDigits(s) {
      assert !IsWhitespace(s[0]) && !IsWhitespace(s[|s| - 1]);
      assert TrimStart(s) == s;
      assert TrimEnd(s) == s;
    }
  }

  /** Digits with whitespace around them read as their value, as in
      `Number(" 12 ") == 12`. */
  lemma NumberOfPadded(w1: string, d: string, w2: string)
    requires AllWhitespace(w1) && AllWhitespace(w2)
    requires d != [] && AllDigits(d)
    ensures ToNumber(w1 + d + w2) == Finite(DigitsValue(d))
  {
    assert !IsWhitespace(d[0]) && !IsWhitespace(d[|d| - 1]);
    TrimPadded(w1, d, w2);
  }

  /** Text with a non-digit, non-space character is not a number, as in
      `Number("12a") ` being NaN. */
  lemma NumberOfNonDigit(text: string, i: nat)
    requires i < |text| && !IsDigit(text[i]) && !IsWhitespace(text[i])
    ensures ToNumber(text) == NotANumber
  {
    var n := LeadingSpaces(text);
    var t := Trim(text);
    TrimSlice(text);
    TrimEmptyIff(text);
    WhitespaceAt(text, i);
    if n <= i < n + |t| {
      assert t[i - n] == text[i];
    }
  }

  /** A JavaScript number as a dynamic value. */
  function NumberValue(n: JsNumber): (v: Value)
    ensures n.NotANumber? <==> v == NaN
    ensures n.Finite? ==> v == Num(n.value)
  {
    match n
    case Finite(k) => Num(k)
    case NotANumber => NaN
  }

  /** `String(n)` for a non-negative integer. */
  function DecimalString(n: nat): (s: string)
    ensures s != [] && AllDigits(s)
  {
    if n < 10 then [('0' as int + n) as char]
    else DecimalString(n / 10) + [('0' as int + n % 10) as char]
  }

  lemma {:induction false} DigitsValueOfDecimal(n: nat)
    ensures DigitsValue(DecimalString(n)) == n
  {
    if n >= 10 {
      var s := DecimalString(n);
      assert s[..|s| - 1] == DecimalString(n / 10);
      DigitsValueOfDecimal(n / 10);
    }
  }

  /** `Number(String(n)) == n` for every non-negative integer: ids written
      out as text by the agent come back unchanged. */
  lemma NumberOfDecimal(n: nat)
    ensures ToNumber(DecimalString(n)) == Finite(n)
  {
    DigitsValueOfDecimal(n);
  }

  /** `String(n)` (or a template literal) for any integer. */
  function IntString(n: int): (s: string)
    ensures s != []
  {
    if n < 0 then "-" + DecimalString(-n) else DecimalString(n)
  }

  // ---- toUpperCase ----

  /** `toUpperCase` on one character, for the ASCII letters. */
  function UpperChar(c: char): (u: char)
    ensures 'a' <= c <= 'z' ==> u != c && 'A' <= u <= 'Z' && u as int == c as int - 32
    ensures !('a' <= c <= 'z') ==> u == c
  {
    if 'a' <= c <= 'z' then (c as int - 'a' as int + 'A' as int) as char else c
  }

  /** `s.charAt(0).toUpperCase()`: empty for an empty string. */
  function InitialUpper(s: string): (r: string)
    ensures s == [] <==> r == []
    ensures s != [] ==> r == [UpperChar(s[0])]
  {
    if s == [] then [] else [UpperChar(s[0])]
  }
}
