/**
 * Character classes and the Python string operations the extractor relies on:
 * `str.strip()`, `str.replace(old, '')`, and maximal runs of one class of
 * characters (what a greedy regular-expression quantifier consumes).
 */
module TextUtil {

  /** Python's `str.isspace()`: the characters `\s` matches in a str pattern
      and the characters `str.strip()` removes. */
  predicate IsSpace(c: char) {
    || ('\t' <= c <= '\r')
    || ('\U{1C}' <= c <= ' ')
    || c == '\U{85}' || c == '\U{A0}' || c == '\U{1680}'
    || ('\U{2000}' <= c <= '\U{200A}')
    || c == '\U{2028}' || c == '\U{2029}' || c == '\U{202F}' || c == '\U{205F}' || c == '\U{3000}'
  }

  /** `\d`, restricted to the ASCII digits. */
  predicate IsDigit(c: char) {
    '0' <= c <= '9'
  }

  /** The character class `[\d,.-]` of the financial patterns. */
  predicate IsAmountChar(c: char) {
    IsDigit(c) || c == ',' || c == '.' || c == '-'
  }

  /** ASCII lower-casing, the folding `re.IGNORECASE` applies to the labels. */
  function Lower(c: char): (r: char)
    ensures 'A' <= c <= 'Z' ==> 'a' <= r <= 'z'
    ensures !('A' <= c <= 'Z') ==> r == c
  {
    if 'A' <= c <= 'Z' then (c as int + 32) as char else c
  }

  /** Does text character `c` match pattern character `p`, with or without `re.IGNORECASE`? */
  predicate CharMatches(c: char, p: char, ignoreCase: bool) {
    c == p || (ignoreCase && Lower(c) == Lower(p))
  }

  /** The literal `word` occurs in `text` at position `p`. */
  predicate LabelAt(text: string, p: nat, word: string, ignoreCase: bool) {
    p + |word| <= |text| &&
    forall k :: 0 <= k < |word| ==> CharMatches(text[p + k], word[k], ignoreCase)
  }

  predicate AllSpaces(s: string) {
    forall k :: 0 <= k < |s| ==> IsSpace(s[k])
  }

  predicate AllDigits(s: string) {
    forall k :: 0 <= k < |s| ==> IsDigit(s[k])
  }

  predicate AllAmountChars(s: string) {
    forall k :: 0 <= k < |s| ==> IsAmountChar(s[k])
  }

  predicate NoNewline(s: string) {
    forall k :: 0 <= k < |s| ==> s[k] != '\n'
  }

  /** The three classes a greedy quantifier of the extractor runs over:
      `\s`, `[\d,.-]` and `[^\n]` (the last is also what `.` matches). */
  datatype CharClass = Space | Amount | NotNewline

  predicate InClass(cls: CharClass, c: char) {
    match cls
    case Space => IsSpace(c)
    case Amount => IsAmountChar(c)
    case NotNewline => c != '\n'
  }

  /** The end of the maximal run of `cls` characters that starts at `i`:
      where a greedy `cls*` started at `i` stops. */
  function RunEnd(cls: CharClass, text: string, i: nat): (e: nat)
    requires i <= |text|
    ensures i <= e <= |text|
    ensures forall k :: i <= k < e ==> InClass(cls, text[k])
    ensures e == |text| || !InClass(cls, text[e])
    decreases |text| - i
  {
    if i == |text| || !InClass(cls, text[i]) then i else RunEnd(cls, text, i + 1)
  }

  /** The start of the maximal run of spaces that ends at `j` and does not reach below `lo`. */
  function TrailingSpaceStart(s: string, lo: nat, j: nat): (k: nat)
    requires lo <= j <= |s|
    ensures lo <= k <= j
    ensures forall m :: k <= m < j ==> IsSpace(s[m])
    ensures k == lo || !IsSpace(s[k - 1])
    decreases j
  {
    if j == lo || !IsSpace(s[j - 1]) then j else TrailingSpaceStart(s, lo, j - 1)
  }

  /** Python's `s.strip()`: `s` without its leading and trailing whitespace. */
  function Strip(s: string): (r: string)
    ensures exists i, j :: 0 <= i <= j <= |s| && r == s[i..j] && AllSpaces(s[..i]) && AllSpaces(s[j..])
    ensures r == [] || (!IsSpace(r[0]) && !IsSpace(r[|r| - 1]))
    ensures r == [] <==> AllSpaces(s)
  {
    var i := RunEnd(Space, s, 0);
    var j := TrailingSpaceStart(s, i, |s|);
    assert AllSpaces(s[..i]) && AllSpaces(s[j..]);
    assert AllSpaces(s) ==> i == |s|;
    assert i < j ==> !AllSpaces(s) by {
      if i < j { assert !IsSpace(s[i]); }
    }
    s[i..j]
  }

  /** Python's `s.replace(t, '')` for a non-empty `t`: occurrences of `t` are
      found left to right, without overlap, and dropped. */
  function RemoveAll(s: string, t: string): (r: string)
    requires |t| > 0
    ensures |r| <= |s|
    decreases |s|
  {
    if |s| < |t| then s
    else if s[..|t|] == t then RemoveAll(s[|t|..], t)
    else [s[0]] + RemoveAll(s[1..], t)
  }

  /** Removing a string whose first character does not occur leaves the text as it is. */
  lemma {:induction false} RemoveAllAbsent(s: string, t: string)
    requires |t| > 0 && t[0] !in s
    ensures RemoveAll(s, t) == s
    decreases |s|
  {
    if |s| >= |t| {
      assert s[0] != t[0];
      assert s[..|t|] != t;
      assert t[0] !in s[1..];
      RemoveAllAbsent(s[1..], t);
      assert [s[0]] + s[1..] == s;
    }
  }

  /** Removing one character keeps every other character, in order. */
  lemma {:induction false} RemoveCharKeepsOthers(s: string, c: char)
    ensures c !in RemoveAll(s, [c])
    ensures forall d :: d != c ==> multiset(RemoveAll(s, [c]))[d] == multiset(s)[d]
    decreases |s|
  {
    if |s| >= 1 {
      RemoveCharKeepsOthers(s[1..], c);
      assert s == [s[0]] + s[1..];
      if s[..1] == [c] {
        assert s[0] == c;
      } else {
        assert s[0] != c;
      }
    }
  }

  /** Removing one character distributes over concatenation. */
  lemma {:induction false} RemoveCharAppend(a: string, b: string, c: char)
    ensures RemoveAll(a + b, [c]) == RemoveAll(a, [c]) + RemoveAll(b, [c])
    decreases |a|
  {
    if |a| == 0 {
      assert a + b == b;
    } else {
      RemoveCharAppend(a[1..], b, c);
      assert (a + b)[1..] == a[1..] + b;
      assert (a + b)[..1] == a[..1];
    }
  }
}
