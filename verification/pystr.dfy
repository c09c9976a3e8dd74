/** The two Python string built-ins the download routine relies on:
    `str.strip()` and the acceptance test of `int(str)`. */
module PyStr {

  /** `str.isspace()` for one character: the Unicode white-space set Python strips. */
  predicate IsSpace(c: char) {
    ('\t' <= c <= '\r') || ('\U{1C}' <= c <= '\U{1F}') || c == ' ' ||
    c == '\U{85}' || c == '\U{A0}' || c == '\U{1680}' ||
    ('\U{2000}' <= c <= '\U{200A}') || c == '\U{2028}' || c == '\U{2029}' ||
    c == '\U{202F}' || c == '\U{205F}' || c == '\U{3000}'
  }

  /** Number of leading white-space characters. */
  function LeadingSpaces(s: string): (k: nat)
    ensures k <= |s|
    ensures forall i :: 0 <= i < k ==> IsSpace(s[i])
    ensures k < |s| ==> !IsSpace(s[k])
  {
    if s != [] && IsSpace(s[0]) then 1 + LeadingSpaces(s[1..]) else 0
  }

  /** Number of trailing white-space characters. */
  function TrailingSpaces(s: string): (k: nat)
    ensures k <= |s|
    ensures forall i :: |s| - k <= i < |s| ==> IsSpace(s[i])
    ensures k < |s| ==> !IsSpace(s[|s| - k - 1])
  {
    if s != [] && IsSpace(s[|s| - 1]) then 1 + TrailingSpaces(s[..|s| - 1]) else 0
  }

  /** `t.rstrip()`: `t` without its trailing white space. */
  function RStrip(t: string): (r: string)
    ensures |r| <= |t| && r == t[..|r|]
    ensures r == [] || !IsSpace(r[|r| - 1])
    ensures forall k :: |r| <= k < |t| ==> IsSpace(t[k])
  {
    t[..|t| - TrailingSpaces(t)]
  }

  /** `s.strip()`: `s` without its leading and trailing white space. */
  function Strip(s: string): (r: string)
    ensures r == [] || (!IsSpace(r[0]) && !IsSpace(r[|r| - 1]))
    ensures LeadingSpaces(s) + |r| <= |s| && r == s[LeadingSpaces(s)..LeadingSpaces(s) + |r|]
    ensures forall k :: LeadingSpaces(s) + |r| <= k < |s| ==> IsSpace(s[k])
  {
    var i := LeadingSpaces(s);
    var t := s[i..];
    var r := RStrip(t);
    assert forall k :: i + |r| <= k < |s| ==> s[k] == t[k - i];
    assert r != [] ==> r[0] == s[i];
    assert r == s[i..i + |r|];
    r
  }

  /** Stripping is idempotent. */
  lemma StripIdempotent(s: string)
    ensures Strip(Strip(s)) == Strip(s)
  {
    var r := Strip(s);
    assert LeadingSpaces(r) == 0;
    assert TrailingSpaces(r) == 0;
  }

  /** A string with no white space at either end is its own strip. */
  lemma StripTrimmed(s: string)
    requires s == [] || (!IsSpace(s[0]) && !IsSpace(s[|s| - 1]))
    ensures Strip(s) == s
  {
    assert LeadingSpaces(s) == 0;
    assert TrailingSpaces(s) == 0;
  }

  /** A character absent from `s` is absent from its strip. */
  lemma StripKeepsAbsent(s: string, c: char)
    requires forall i :: 0 <= i < |s| ==> s[i] != c
    ensures forall i :: 0 <= i < |Strip(s)| ==> Strip(s)[i] != c
  {
    var r := Strip(s);
    assert forall i :: 0 <= i < |r| ==> r[i] == s[LeadingSpaces(s) + i];
  }

  predicate IsDigit(c: char) {
    '0' <= c <= '9'
  }

  /** Decimal digits, with single underscores allowed between two digits. */
  predicate IsDigitGroups(u: string) {
    u != [] && IsDigit(u[0]) && IsDigit(u[|u| - 1]) &&
    (forall i :: 0 <= i < |u| ==> IsDigit(u[i]) || u[i] == '_') &&
    (forall i :: 0 <= i < |u| - 1 ==> !(u[i] == '_' && u[i + 1] == '_'))
  }

  /** The default limit on the number of digits `int()` converts from a string. */
  const MaxStrDigits: nat := 4300

  /** The number of decimal digits in `u` (underscores not counted). */
  function DigitCount(u: string): (n: nat)
    ensures n <= |u|
  {
    if u == [] then 0 else DigitCount(u[..|u| - 1]) + (if IsDigit(u[|u| - 1]) then 1 else 0)
  }

  /** The four information separators U+001C..U+001F: `str.isspace` accepts
      them, but `int()` does not skip them, since its parser skips only the
      ASCII white space tab, line feed, vertical tab, form feed, carriage
      return and space (and the non-ASCII white space it first maps to a space). */
  predicate IsInfoSeparator(c: char) {
    '\U{1C}' <= c <= '\U{1F}'
  }

  /** Whether `int(s)` accepts `s` in base 10: optional surrounding white space
      other than an information separator, an optional sign, then digit groups
      of at most `MaxStrDigits` digits. */
  predicate IsIntText(s: string) {
    var t := Strip(s);
    var u := if t != [] && (t[0] == '+' || t[0] == '-') then t[1..] else t;
    (forall i :: 0 <= i < |s| ==> !IsInfoSeparator(s[i])) &&
    IsDigitGroups(u) && DigitCount(u) <= MaxStrDigits
  }

  /** An information separator anywhere in the text makes `int()` fail, even
      where `strip()` would remove it. */
  lemma SeparatorRejected(s: string, i: nat)
    requires i < |s| && IsInfoSeparator(s[i])
    ensures IsSpace(s[i]) && !IsIntText(s)
  {
  }

  /** In a string of digits, every character counts. */
  lemma {:induction false} AllDigitsCount(s: string)
    requires forall i :: 0 <= i < |s| ==> IsDigit(s[i])
    ensures DigitCount(s) == |s|
  {
    if s != [] {
      AllDigitsCount(s[..|s| - 1]);
    }
  }

  /** A plain string of ASCII digits, as a `Content-Length` field holds, is
      accepted exactly when it is non-empty and within the digit limit. */
  lemma DigitsAccepted(s: string)
    requires forall i :: 0 <= i < |s| ==> IsDigit(s[i])
    ensures IsIntText(s) <==> 1 <= |s| <= MaxStrDigits
  {
    if s != [] {
      StripTrimmed(s);
    }
    AllDigitsCount(s);
  }
}
