/** Text primitives the source relies on: Python's `keyword in text` and
    `str.lower()`, JavaScript's `toLowerCase()`, `endsWith()`, `trim()`, and the
    decimal rendering of a number inside a template literal. Characters are
    Unicode scalar values; case mapping covers ASCII letters only. */
module Strings {

  /** `word` occurs in `text` starting at position `i`. */
  predicate OccursAt(text: string, word: string, i: int) {
    0 <= i && i + |word| <= |text| && text[i..i + |word|] == word
  }

  /** `p` is a prefix of `s`. */
  predicate IsPrefix(p: string, s: string) {
    |p| <= |s| && s[..|p|] == p
  }

  /** Substring containment: Python's `word in text`. The empty word occurs in
      every text, as in Python. */
  predicate Contains(text: string, word: string)
    decreases |text|
  {
    IsPrefix(word, text) || (|text| > 0 && Contains(text[1..], word))
  }

  /** An occurrence at a known position proves containment. */
  lemma {:induction false} ContainsAt(text: string, word: string, i: int)
    requires OccursAt(text, word, i)
    ensures Contains(text, word)
    decreases i
  {
    if i == 0 {
      assert IsPrefix(word, text);
    } else {
      assert text[1..][i - 1..i - 1 + |word|] == text[i..i + |word|];
      ContainsAt(text[1..], word, i - 1);
    }
  }

  /** `Contains` is exactly "occurs at some position". */
  lemma {:induction false} ContainsIff(text: string, word: string)
    ensures Contains(text, word) <==> exists i :: OccursAt(text, word, i)
    decreases |text|
  {
    if IsPrefix(word, text) {
      assert OccursAt(text, word, 0);
    } else if Contains(text, word) {
      ContainsIff(text[1..], word);
      var i :| OccursAt(text[1..], word, i);
      assert text[i + 1..i + 1 + |word|] == text[1..][i..i + |word|];
      assert OccursAt(text, word, i + 1);
    }
    forall i | OccursAt(text, word, i) ensures Contains(text, word) {
      ContainsAt(text, word, i);
    }
  }

  /** A word that occurs inside another occurs in every text containing the
      latter: this is how "bright" also matches "right". */
  lemma {:induction false} ContainsTransitive(text: string, outer: string, inner: string)
    requires Contains(text, outer) && Contains(outer, inner)
    ensures Contains(text, inner)
  {
    ContainsIff(text, outer);
    ContainsIff(outer, inner);
    var i :| OccursAt(text, outer, i);
    var j :| OccursAt(outer, inner, j);
    assert forall k :: 0 <= k < |inner| ==> text[i + j + k] == outer[j + k] == inner[k];
    assert text[i + j..i + j + |inner|] == inner;
    ContainsAt(text, inner, i + j);
  }

  /** A word with two consecutive characters that never stand side by side
      in `text` does not occur in `text`. */
  lemma MissingPairExcludes(text: string, word: string, k: int)
    requires 0 <= k && k + 1 < |word|
    requires forall i :: 0 <= i < |text| - 1 ==> text[i] != word[k] || text[i + 1] != word[k + 1]
    ensures !Contains(text, word)
  {
    ContainsIff(text, word);
    forall i | 0 <= i && i + |word| <= |text| ensures !OccursAt(text, word, i) {
      assert text[i..i + |word|][k] == text[i + k];
      assert text[i..i + |word|][k + 1] == text[i + k + 1];
    }
  }

  /** A word holding a character outside the alphabet of `text` does not
      occur in `text`. */
  lemma OutsideAlphabetExcludes(text: string, alphabet: set<char>, word: string, k: int)
    requires forall i :: 0 <= i < |text| ==> text[i] in alphabet
    requires 0 <= k < |word| && word[k] !in alphabet
    ensures !Contains(text, word)
  {
    ContainsIff(text, word);
    forall i | 0 <= i && i + |word| <= |text| ensures !OccursAt(text, word, i) {
      assert text[i..i + |word|][k] == text[i + k];
    }
  }

  /** Lower-casing of one character (ASCII letters only). */
  function LowerChar(c: char): char {
    if 'A' <= c <= 'Z' then (c as int + 32) as char else c
  }

  /** `s.lower()` in Python, `s.toLowerCase()` in JavaScript, for ASCII letters. */
  function ToLower(s: string): (r: string)
    ensures |r| == |s|
    ensures forall i :: 0 <= i < |s| ==> r[i] == LowerChar(s[i])
  {
    seq(|s|, i requires 0 <= i < |s| => LowerChar(s[i]))
  }

  /** Lower-casing twice is lower-casing once. */
  lemma ToLowerIdempotent(s: string)
    ensures ToLower(ToLower(s)) == ToLower(s)
  {
    var once := ToLower(s);
    forall i | 0 <= i < |s| ensures ToLower(once)[i] == once[i] {
      assert LowerChar(LowerChar(s[i])) == LowerChar(s[i]);
    }
  }

  /** JavaScript's `s.endsWith(suffix)`. */
  predicate EndsWith(s: string, suffix: string) {
    |suffix| <= |s| && s[|s| - |suffix|..] == suffix
  }

  /** The characters JavaScript's `trim()` removes: the ECMAScript WhiteSpace
      and LineTerminator code points. */
  predicate IsWhitespace(c: char) {
    c == ' ' || c == '\t' || c == '\n' || c == '\r' || c == '\U{0B}' || c == '\U{0C}'
    || c == '\U{A0}' || c == '\U{1680}' || ('\U{2000}' <= c <= '\U{200A}')
    || c == '\U{2028}' || c == '\U{2029}' || c == '\U{202F}' || c == '\U{205F}'
    || c == '\U{3000}' || c == '\U{FEFF}'
  }

  function TrimStart(s: string): (r: string)
    ensures r != [] ==> !IsWhitespace(r[0])
  {
    if s != [] && IsWhitespace(s[0]) then TrimStart(s[1..]) else s
  }

  function TrimEnd(s: string): string {
    if s != [] && IsWhitespace(s[|s| - 1]) then TrimEnd(s[..|s| - 1]) else s
  }

  /** JavaScript's `s.trim()`. */
  function Trim(s: string): string {
    TrimEnd(TrimStart(s))
  }

  predicate IsBlank(s: string) {
    forall i :: 0 <= i < |s| ==> IsWhitespace(s[i])
  }

  lemma {:induction false} TrimStartBlank(s: string)
    ensures TrimStart(s) == [] <==> IsBlank(s)
  {
    if s != [] && IsWhitespace(s[0]) {
      TrimStartBlank(s[1..]);
      assert IsBlank(s) <==> IsBlank(s[1..]) by {
        if IsBlank(s[1..]) {
          forall i | 0 <= i < |s| ensures IsWhitespace(s[i]) {
            if i > 0 { assert s[i] == s[1..][i - 1]; }
          }
        }
      }
    } else if s != [] {
      assert !IsWhitespace(s[0]);
    }
  }

  lemma {:induction false} TrimEndBlank(s: string)
    ensures TrimEnd(s) == [] <==> IsBlank(s)
  {
    if s != [] && IsWhitespace(s[|s| - 1]) {
      var init := s[..|s| - 1];
      TrimEndBlank(init);
      assert IsBlank(s) <==> IsBlank(init) by {
        if IsBlank(init) {
          forall i | 0 <= i < |s| ensures IsWhitespace(s[i]) {
            if i < |s| - 1 { assert s[i] == init[i]; }
          }
        }
      }
    } else if s != [] {
      assert !IsWhitespace(s[|s| - 1]);
    }
  }

  /** `s.trim()` is the empty string exactly when every character of `s` is
      whitespace; so `s.trim()` is truthy exactly when `s` has a visible
      character. */
  lemma TrimEmptyIffBlank(s: string)
    ensures Trim(s) == [] <==> IsBlank(s)
  {
    TrimStartBlank(s);
    TrimEndBlank(TrimStart(s));
    if TrimStart(s) != [] {
      assert !IsBlank(TrimStart(s));
    }
  }

  /** The decimal digit for `d`. */
  function DigitChar(d: nat): char
    requires d < 10
  {
    "0123456789"[d]
  }

  /** The decimal rendering of `n`, as a template literal `${n}` produces it. */
  function NatToString(n: nat): (r: string)
    ensures |r| > 0
    ensures forall i :: 0 <= i < |r| ==> '0' <= r[i] <= '9'
    decreases n
  {
    if n < 10 then [DigitChar(n)] else NatToString(n / 10) + [DigitChar(n % 10)]
  }

  /** The number that a string of decimal digits denotes. */
  function DecimalValue(s: string): nat
    requires forall i :: 0 <= i < |s| ==> '0' <= s[i] <= '9'
  {
    if s == [] then 0
    else DecimalValue(s[..|s| - 1]) * 10 + (s[|s| - 1] as int - '0' as int)
  }

  /** Reading back a rendered number gives the number. */
  lemma {:induction false} DecimalRoundTrip(n: nat)
    ensures DecimalValue(NatToString(n)) == n
    decreases n
  {
    if n >= 10 {
      var s := NatToString(n);
      assert s[..|s| - 1] == NatToString(n / 10);
      DecimalRoundTrip(n / 10);
    }
  }

  /** Distinct numbers render as distinct strings. */
  lemma NatToStringInjective(m: nat, n: nat)
    requires m != n
    ensures NatToString(m) != NatToString(n)
  {
    DecimalRoundTrip(m);
    DecimalRoundTrip(n);
  }
}
