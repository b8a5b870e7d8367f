/**
 * The regular expressions of the extractor, written out as hand-made matchers.
 *
 * Each pattern is given twice. `Candidate` (and `PeriodLayout`) say which
 * substrings the regular expression can match at a position, with its capture
 * group where; `Chosen` adds the preference of Python's backtracking engine
 * (a greedy quantifier takes as much as it can, the lazy `.*?` as little).
 * `FieldSpanAt`, `PeriodAt` and `Search` compute the match and are proved
 * to return exactly the one that `re.search` reports: the leftmost position
 * where the pattern succeeds, and there the preferred candidate.
 */
module Patterns {
  import opened Wrappers
  import opened TextUtil

  /** What stands between a financial label and its amount. */
  datatype AmountGap =
    | Spaces          // `\s+`
    | SpacesCurrency  // `\s+S?\$?`
    | AnyOnLine       // `.*?`: lazy, and `.` never matches a newline

  /** A pattern with one capture group. */
  datatype FieldPattern =
      /** `title\s*:\s*([^\n]+)`, matched case-sensitively. */
    | LineField(title: string)
      /** `title<gap>([\d,.-]+)`, or `title<gap>(-?[\d,.-]+)` when `optMinus`,
          matched under `re.IGNORECASE`. */
    | AmountField(title: string, gap: AmountGap, optMinus: bool)

  predicate IgnoreCase(f: FieldPattern) {
    f.AmountField?
  }

  /** A half-open range `[start, end)` of the text: where a capture group matched. */
  datatype Span = Span(start: nat, end: nat)

  /** `S?\$?` under `re.IGNORECASE`. */
  predicate IsCurrencyMark(m: string) {
    || m == []
    || m == "$"
    || (CharMatches(m[0], 'S', true) && (|m| == 1 || (|m| == 2 && m[1] == '$')))
  }

  /** The text `w` between the title and the capture group fits the pattern. */
  ghost predicate GapMatches(f: FieldPattern, w: string) {
    match f
    case LineField(_) =>
      exists n :: 0 <= n < |w| && w[n] == ':' && forall k :: 0 <= k < |w| && k != n ==> IsSpace(w[k])
    case AmountField(_, gap, _) =>
      match gap
      case Spaces => |w| >= 1 && AllSpaces(w)
      case SpacesCurrency => exists n :: 1 <= n <= |w| && AllSpaces(w[..n]) && IsCurrencyMark(w[n..])
      case AnyOnLine => NoNewline(w)
  }

  /** The text `w` fits the capture group. */
  predicate CaptureMatches(f: FieldPattern, w: string) {
    match f
    case LineField(_) => |w| >= 1 && NoNewline(w)
    case AmountField(_, _, optMinus) =>
      || (|w| >= 1 && AllAmountChars(w))
      || (optMinus && |w| >= 2 && w[0] == '-' && AllAmountChars(w[1..]))
  }

  /** The pattern `f` can match at `p` with its group spanning `[gs, ge)`. */
  ghost predicate Candidate(f: FieldPattern, text: string, p: nat, gs: nat, ge: nat) {
    && p + |f.title| <= gs <= ge <= |text|
    && LabelAt(text, p, f.title, IgnoreCase(f))
    && GapMatches(f, text[p + |f.title|..gs])
    && CaptureMatches(f, text[gs..ge])
  }

  /** Backtracking tries a lazy gap from its shortest length up and a greedy one
      from its longest length down: does it try group start `g` before `gs`? */
  predicate TriedBefore(f: FieldPattern, g: nat, gs: nat) {
    if f.AmountField? && f.gap == AnyOnLine then g < gs else g > gs
  }

  /** The candidate Python's engine reports at `p`: no candidate whose group
      starts at a position tried earlier, and the longest group from there
      (every capture group is a greedy `+`). */
  ghost predicate Chosen(f: FieldPattern, text: string, p: nat, gs: nat, ge: nat) {
    && Candidate(f, text, p, gs, ge)
    && (forall g: nat, h: nat :: TriedBefore(f, g, gs) ==> !Candidate(f, text, p, g, h))
    && (forall h: nat :: ge < h ==> !Candidate(f, text, p, gs, h))
  }

  /** The greedy run that starts at `i` ends where the class first fails. */
  lemma {:induction false} RunEndAt(cls: CharClass, text: string, i: nat, g: nat)
    requires i <= g <= |text|
    requires forall k :: i <= k < g ==> InClass(cls, text[k])
    requires g == |text| || !InClass(cls, text[g])
    ensures RunEnd(cls, text, i) == g
    decreases g - i
  {
    if i < g {
      RunEndAt(cls, text, i + 1, g);
    }
  }

  /** The largest `k` in `[lo, hi)` with `text[k] != '\n'`. */
  function LastNotNewline(text: string, lo: nat, hi: nat): (r: Option<nat>)
    requires lo <= hi <= |text|
    ensures r.Some? ==> lo <= r.value < hi && text[r.value] != '\n'
    ensures r.Some? ==> forall k :: r.value < k < hi ==> text[k] == '\n'
    ensures r.None? ==> forall k :: lo <= k < hi ==> text[k] == '\n'
    decreases hi
  {
    if hi == lo then None
    else if text[hi - 1] != '\n' then Some(hi - 1)
    else LastNotNewline(text, lo, hi - 1)
  }

  /** The first amount character at or after `i` on the current line. */
  function FirstAmountOnLine(text: string, i: nat): (r: Option<nat>)
    requires i <= |text|
    ensures r.Some? ==> i <= r.value < |text| && IsAmountChar(text[r.value])
    ensures r.Some? ==> forall k :: i <= k < r.value ==> !IsAmountChar(text[k]) && text[k] != '\n'
    ensures r.None? ==> forall k :: i <= k < |text| && NoNewline(text[i..k]) ==> !IsAmountChar(text[k])
    decreases |text| - i
  {
    if i == |text| then None
    else if IsAmountChar(text[i]) then Some(i)
    else if text[i] == '\n' then None
    else
      var r := FirstAmountOnLine(text, i + 1);
      assert r.None? ==> forall k :: i < k < |text| && NoNewline(text[i..k]) ==> NoNewline(text[i + 1..k]);
      r
  }

  /** Every `\s*:\s*` gap after the title puts its colon at the first
      non-space character and has only spaces after it. */
  lemma LineGapShape(f: FieldPattern, text: string, i: nat, g: nat)
    requires f.LineField? && i <= g <= |text|
    requires GapMatches(f, text[i..g])
    ensures var a := RunEnd(Space, text, i);
            a < g && text[a] == ':' && forall k :: a < k < g ==> IsSpace(text[k])
  {
    var w := text[i..g];
    var n :| 0 <= n < |w| && w[n] == ':' && forall k :: 0 <= k < |w| && k != n ==> IsSpace(w[k]);
    assert !IsSpace(text[i + n]) by { assert text[i + n] == w[n]; }
    forall k | i <= k < g && k != i + n ensures InClass(Space, text[k]) {
      assert text[k] == w[k - i];
    }
    RunEndAt(Space, text, i, i + n);
  }

  /** The match of a `LineField` pattern at `p`. */
  function LineSpanAt(f: FieldPattern, text: string, p: nat): Option<Span>
    requires f.LineField? && p <= |text|
  {
    if !LabelAt(text, p, f.title, false) then None
    else LineAfterLabel(text, RunEnd(Space, text, p + |f.title|))
  }

  /** The rest of a line field, from where the spaces after the label end. */
  function LineAfterLabel(text: string, a: nat): Option<Span>
    requires a <= |text|
  {
    if a == |text| || text[a] != ':' then None
    else match LineValueStart(text, a)
      case None => None
      case Some(gs) => Some(Span(gs, RunEnd(NotNewline, text, gs)))
  }

  /** Where the group of a line field starts, for the colon at `a`. */
  function LineValueStart(text: string, a: nat): Option<nat>
    requires a < |text|
  {
    var e := RunEnd(Space, text, a + 1);
    if e < |text| then Some(e) else LastNotNewline(text, a + 1, e)
  }

  lemma LineSpanAtCorrect(f: FieldPattern, text: string, p: nat)
    requires f.LineField? && p <= |text|
    ensures LineSpanAt(f, text, p).Some? ==>
              Chosen(f, text, p, LineSpanAt(f, text, p).value.start, LineSpanAt(f, text, p).value.end)
    ensures LineSpanAt(f, text, p).None? ==> forall g: nat, h: nat :: !Candidate(f, text, p, g, h)
  {
    if LabelAt(text, p, f.title, false) {
      var a := RunEnd(Space, text, p + |f.title|);
      assert LineSpanAt(f, text, p) == LineAfterLabel(text, a);
      LineAfterLabelCorrect(f, text, p, a);
    }
  }

  /** After the label and its spaces: the chosen match, or none at all. */
  lemma LineAfterLabelCorrect(f: FieldPattern, text: string, p: nat, a: nat)
    requires f.LineField? && LabelAt(text, p, f.title, false)
    requires a == RunEnd(Space, text, p + |f.title|)
    ensures LineAfterLabel(text, a).Some? ==>
              Chosen(f, text, p, LineAfterLabel(text, a).value.start, LineAfterLabel(text, a).value.end)
    ensures LineAfterLabel(text, a).None? ==> forall g: nat, h: nat :: !Candidate(f, text, p, g, h)
  {
    if a == |text| || text[a] != ':' {
      LineNoColon(f, text, p, a);
    } else {
      var e := RunEnd(Space, text, a + 1);
      var start := LineValueStart(text, a);
      if start.None? {
        LineNoValue(f, text, p, a, e);
      } else {
        var ge := RunEnd(NotNewline, text, start.value);
        assert LineAfterLabel(text, a) == Some(Span(start.value, ge));
        LineChosen(f, text, p, a, e, start.value, ge);
      }
    }
  }

  /** Without a colon after the label and its spaces the line pattern cannot match. */
  lemma LineNoColon(f: FieldPattern, text: string, p: nat, a: nat)
    requires f.LineField? && LabelAt(text, p, f.title, false)
    requires a == RunEnd(Space, text, p + |f.title|) && (a == |text| || text[a] != ':')
    ensures forall g: nat, h: nat :: !Candidate(f, text, p, g, h)
  {
    forall g: nat, h: nat ensures !Candidate(f, text, p, g, h) {
      LineCandidateShape(f, text, p, g, h);
    }
  }

  /** When only spaces without a single non-newline follow the colon, the line pattern cannot match. */
  lemma LineNoValue(f: FieldPattern, text: string, p: nat, a: nat, e: nat)
    requires f.LineField? && LabelAt(text, p, f.title, false)
    requires a == RunEnd(Space, text, p + |f.title|) && a < |text| && text[a] == ':'
    requires e == RunEnd(Space, text, a + 1) && e == |text| && LastNotNewline(text, a + 1, e).None?
    ensures forall g: nat, h: nat :: !Candidate(f, text, p, g, h)
  {
    forall g: nat, h: nat ensures !Candidate(f, text, p, g, h) {
      LineCandidateShape(f, text, p, g, h);
    }
  }

  /** Any candidate of a line pattern: its colon is the first non-space after
      the label, only spaces follow up to the group, whose first character is
      not a newline. */
  lemma LineCandidateShape(f: FieldPattern, text: string, p: nat, g: nat, h: nat)
    requires f.LineField? && p + |f.title| <= |text|
    ensures Candidate(f, text, p, g, h) ==>
              var a := RunEnd(Space, text, p + |f.title|);
              && a < g < |text| && text[a] == ':' && text[g] != '\n'
              && forall k :: a < k < g ==> IsSpace(text[k])
  {
    if Candidate(f, text, p, g, h) {
      assert text[g] == text[g..h][0];
      LineGapShape(f, text, p + |f.title|, g);
    }
  }

  lemma LineChosen(f: FieldPattern, text: string, p: nat, a: nat, e: nat, gs: nat, ge: nat)
    requires f.LineField? && LabelAt(text, p, f.title, false)
    requires a == RunEnd(Space, text, p + |f.title|) && a < |text| && text[a] == ':'
    requires e == RunEnd(Space, text, a + 1)
    requires if e < |text| then gs == e else Some(gs) == LastNotNewline(text, a + 1, e)
    requires ge == RunEnd(NotNewline, text, gs)
    ensures Chosen(f, text, p, gs, ge)
  {
    LineCandidate(f, text, p, a, e, gs, ge);
    LineNotTriedBefore(f, text, p, a, e, gs);
    forall h: nat | ge < h ensures !Candidate(f, text, p, gs, h) {
    }
  }

  lemma LineCandidate(f: FieldPattern, text: string, p: nat, a: nat, e: nat, gs: nat, ge: nat)
    requires f.LineField? && LabelAt(text, p, f.title, false)
    requires a == RunEnd(Space, text, p + |f.title|) && a < |text| && text[a] == ':'
    requires e == RunEnd(Space, text, a + 1)
    requires if e < |text| then gs == e else Some(gs) == LastNotNewline(text, a + 1, e)
    requires ge == RunEnd(NotNewline, text, gs)
    ensures Candidate(f, text, p, gs, ge)
  {
    var i := p + |f.title|;
    assert a + 1 <= gs <= e && gs < |text| && text[gs] != '\n';
    LineGapAccepted(f, text, i, a, gs);
    LineCaptureAccepted(f, text, gs, ge);
  }

  /** Spaces, a colon, spaces: a gap the line pattern accepts. */
  lemma LineGapAccepted(f: FieldPattern, text: string, i: nat, a: nat, gs: nat)
    requires f.LineField? && i <= a < gs <= |text| && text[a] == ':'
    requires forall k :: i <= k < gs && k != a ==> IsSpace(text[k])
    ensures GapMatches(f, text[i..gs])
  {
    var w := text[i..gs];
    assert w[a - i] == ':';
    forall k | 0 <= k < |w| && k != a - i ensures IsSpace(w[k]) {
      assert w[k] == text[i + k];
    }
  }

  /** A non-empty run of non-newlines is a group the line pattern accepts. */
  lemma LineCaptureAccepted(f: FieldPattern, text: string, gs: nat, ge: nat)
    requires f.LineField? && gs < |text| && text[gs] != '\n' && ge == RunEnd(NotNewline, text, gs)
    ensures CaptureMatches(f, text[gs..ge])
  {
    var w := text[gs..ge];
    forall k | 0 <= k < |w| ensures w[k] != '\n' {
      assert w[k] == text[gs + k];
    }
  }

  lemma LineNotTriedBefore(f: FieldPattern, text: string, p: nat, a: nat, e: nat, gs: nat)
    requires f.LineField? && LabelAt(text, p, f.title, false)
    requires a == RunEnd(Space, text, p + |f.title|) && a < |text| && text[a] == ':'
    requires e == RunEnd(Space, text, a + 1)
    requires if e < |text| then gs == e else Some(gs) == LastNotNewline(text, a + 1, e)
    ensures forall g: nat, h: nat :: TriedBefore(f, g, gs) ==> !Candidate(f, text, p, g, h)
  {
    forall g: nat, h: nat | TriedBefore(f, g, gs) ensures !Candidate(f, text, p, g, h) {
      LineCandidateShape(f, text, p, g, h);
    }
  }

  /** Where the group of an `AmountField` pattern must start, given that the title matched at `p`. */
  function AmountGroupStart(f: FieldPattern, text: string, i: nat): Option<nat>
    requires f.AmountField? && i <= |text|
  {
    match f.gap
    case Spaces =>
      var e := RunEnd(Space, text, i);
      if e == i then None else Some(e)
    case SpacesCurrency =>
      var e := RunEnd(Space, text, i);
      if e == i then None
      else
        Some(SkipCurrencyMark(text, e))
    case AnyOnLine => FirstAmountOnLine(text, i)
  }

  /** An amount group is a non-empty run of `[\d,.-]` (a written `-?` adds nothing, since `-` is in the class). */
  lemma AmountCapture(f: FieldPattern, text: string, g: nat, h: nat)
    requires f.AmountField? && g <= h <= |text| && CaptureMatches(f, text[g..h])
    ensures g < h && IsAmountChar(text[g])
    ensures forall k :: g <= k < h ==> IsAmountChar(text[k])
  {
    forall k | g <= k < h ensures IsAmountChar(text[k]) {
      assert text[k] == text[g..h][k - g];
      if !AllAmountChars(text[g..h]) && k > g {
        assert text[k] == text[g..h][1..][k - g - 1];
      }
    }
  }

  /** With a greedy gap (`\s+` or `\s+S?\$?`) at most one group start can be followed by an amount character. */
  lemma GreedyGapStart(f: FieldPattern, text: string, i: nat, g: nat)
    requires f.AmountField? && f.gap != AnyOnLine
    requires i <= g < |text| && IsAmountChar(text[g])
    requires GapMatches(f, text[i..g])
    ensures AmountGroupStart(f, text, i) == Some(g)
  {
    if f.gap == Spaces {
      forall k | i <= k < g ensures IsSpace(text[k]) {
        assert text[k] == text[i..g][k - i];
      }
      RunEndAt(Space, text, i, g);
    } else {
      CurrencyGapStart(f, text, i, g);
    }
  }

  /** Where greedy `S?\$?` stops when started at `e`. */
  function SkipCurrencyMark(text: string, e: nat): (k: nat)
    requires e <= |text|
    ensures e <= k <= |text| && IsCurrencyMark(text[e..k])
  {
    var j := if e < |text| && CharMatches(text[e], 'S', true) then e + 1 else e;
    assert text[e..j] == [] || text[e..j] == [text[e]];
    var k := if j < |text| && text[j] == '$' then j + 1 else j;
    assert k == j + 1 ==> text[e..k] == text[e..j] + [text[j]];
    k
  }

  /** A currency mark followed by an amount character is exactly what `S?\$?` consumes. */
  lemma SkipCurrencyMarkAt(text: string, e: nat, g: nat)
    requires e <= g < |text| && IsCurrencyMark(text[e..g]) && IsAmountChar(text[g])
    ensures SkipCurrencyMark(text, e) == g
  {
    var m := text[e..g];
    if |m| >= 1 { assert text[e] == m[0]; }
    if |m| == 2 { assert text[e + 1] == m[1]; }
  }

  lemma CurrencyGapStart(f: FieldPattern, text: string, i: nat, g: nat)
    requires f.AmountField? && f.gap == SpacesCurrency
    requires i <= g < |text| && IsAmountChar(text[g])
    requires GapMatches(f, text[i..g])
    ensures AmountGroupStart(f, text, i) == Some(g)
  {
    var w := text[i..g];
    var n: nat :| 1 <= n <= |w| && AllSpaces(w[..n]) && IsCurrencyMark(w[n..]);
    var e := i + n;
    assert text[e..g] == w[n..];
    forall k | i <= k < e ensures IsSpace(text[k]) {
      assert text[k] == w[..n][k - i];
    }
    assert !IsSpace(text[e]) by {
      if e < g { assert text[e] == w[n..][0]; }
    }
    RunEndAt(Space, text, i, e);
    SkipCurrencyMarkAt(text, e, g);
  }

  /** The match of an `AmountField` pattern at `p`. */
  function AmountSpanAt(f: FieldPattern, text: string, p: nat): Option<Span>
    requires f.AmountField? && p <= |text|
  {
    if !LabelAt(text, p, f.title, true) then None
    else AmountSpanFrom(text, AmountGroupStart(f, text, p + |f.title|))
  }

  /** The amount group from where the gap ends: a maximal run of amount characters, if one starts there. */
  function AmountSpanFrom(text: string, start: Option<nat>): Option<Span> {
    if start.None? || start.value >= |text| || !IsAmountChar(text[start.value]) then None
    else Some(Span(start.value, RunEnd(Amount, text, start.value)))
  }

  lemma AmountSpanAtCorrect(f: FieldPattern, text: string, p: nat)
    requires f.AmountField? && p <= |text|
    ensures AmountSpanAt(f, text, p).Some? ==>
              Chosen(f, text, p, AmountSpanAt(f, text, p).value.start, AmountSpanAt(f, text, p).value.end)
    ensures AmountSpanAt(f, text, p).None? ==> forall g: nat, h: nat :: !Candidate(f, text, p, g, h)
  {
    if LabelAt(text, p, f.title, true) {
      var start := AmountGroupStart(f, text, p + |f.title|);
      assert AmountSpanAt(f, text, p) == AmountSpanFrom(text, start);
      AmountAfterLabelCorrect(f, text, p, start);
    }
  }

  /** After the label: the chosen match, or none at all. */
  lemma AmountAfterLabelCorrect(f: FieldPattern, text: string, p: nat, start: Option<nat>)
    requires f.AmountField? && LabelAt(text, p, f.title, true)
    requires start == AmountGroupStart(f, text, p + |f.title|)
    ensures AmountSpanFrom(text, start).Some? ==>
              Chosen(f, text, p, AmountSpanFrom(text, start).value.start, AmountSpanFrom(text, start).value.end)
    ensures AmountSpanFrom(text, start).None? ==> forall g: nat, h: nat :: !Candidate(f, text, p, g, h)
  {
    if start.None? || start.value >= |text| || !IsAmountChar(text[start.value]) {
      AmountNoMatch(f, text, p);
    } else {
      AmountChosen(f, text, p, start.value, RunEnd(Amount, text, start.value));
    }
  }

  /** Without an amount character where the group must start, the amount pattern cannot match. */
  lemma AmountNoMatch(f: FieldPattern, text: string, p: nat)
    requires f.AmountField? && LabelAt(text, p, f.title, true)
    requires var start := AmountGroupStart(f, text, p + |f.title|);
             start.None? || start.value >= |text| || !IsAmountChar(text[start.value])
    ensures forall g: nat, h: nat :: !Candidate(f, text, p, g, h)
  {
    forall g: nat, h: nat ensures !Candidate(f, text, p, g, h) {
      AmountCandidateShape(f, text, p, g, h);
    }
  }

  /** The computed group start is preceded by a gap the pattern accepts. */
  lemma AmountGapAccepted(f: FieldPattern, text: string, i: nat, gs: nat)
    requires f.AmountField? && i <= |text|
    requires Some(gs) == AmountGroupStart(f, text, i) && gs <= |text|
    ensures i <= gs && GapMatches(f, text[i..gs])
  {
    var w := text[i..gs];
    if f.gap == Spaces {
      var e := RunEnd(Space, text, i);
      assert forall k :: 0 <= k < |w| ==> w[k] == text[i + k];
    } else if f.gap == SpacesCurrency {
      var e := RunEnd(Space, text, i);
      var n := e - i;
      assert w[..n] == text[i..e];
      assert w[n..] == text[e..gs];
    } else {
      assert forall k :: 0 <= k < |w| ==> w[k] == text[i + k];
    }
  }

  lemma AmountChosen(f: FieldPattern, text: string, p: nat, gs: nat, ge: nat)
    requires f.AmountField? && LabelAt(text, p, f.title, true)
    requires Some(gs) == AmountGroupStart(f, text, p + |f.title|)
    requires gs < |text| && IsAmountChar(text[gs])
    requires ge == RunEnd(Amount, text, gs)
    ensures Chosen(f, text, p, gs, ge)
  {
    AmountGapAccepted(f, text, p + |f.title|, gs);
    AmountCaptureAccepted(f, text, gs, ge);
    AmountNotTriedBefore(f, text, p, gs);
    forall h: nat | ge < h ensures !Candidate(f, text, p, gs, h) {
      AmountCandidateShape(f, text, p, gs, h);
    }
  }

  /** A maximal run of amount characters is a group the amount pattern accepts. */
  lemma AmountCaptureAccepted(f: FieldPattern, text: string, gs: nat, ge: nat)
    requires f.AmountField? && gs < |text| && IsAmountChar(text[gs]) && ge == RunEnd(Amount, text, gs)
    ensures CaptureMatches(f, text[gs..ge])
  {
    var w := text[gs..ge];
    forall k | 0 <= k < |w| ensures IsAmountChar(w[k]) {
      assert w[k] == text[gs + k];
    }
  }

  /** No candidate group starts where backtracking would have looked first. */
  lemma AmountNotTriedBefore(f: FieldPattern, text: string, p: nat, gs: nat)
    requires f.AmountField? && LabelAt(text, p, f.title, true)
    requires Some(gs) == AmountGroupStart(f, text, p + |f.title|)
    ensures forall g: nat, h: nat :: TriedBefore(f, g, gs) ==> !Candidate(f, text, p, g, h)
  {
    forall g: nat, h: nat | TriedBefore(f, g, gs) ensures !Candidate(f, text, p, g, h) {
      AmountCandidateShape(f, text, p, g, h);
    }
  }

  /** Any candidate of an amount pattern: a group of amount characters that
      starts after the label, where a greedy gap must have stopped. */
  lemma AmountCandidateShape(f: FieldPattern, text: string, p: nat, g: nat, h: nat)
    requires f.AmountField? && p + |f.title| <= |text|
    ensures Candidate(f, text, p, g, h) ==>
              && p + |f.title| <= g < h <= |text| && IsAmountChar(text[g])
              && (forall k :: g <= k < h ==> IsAmountChar(text[k]))
              && (f.gap == AnyOnLine ==> NoNewline(text[p + |f.title|..g]))
              && (f.gap != AnyOnLine ==> AmountGroupStart(f, text, p + |f.title|) == Some(g))
  {
    if Candidate(f, text, p, g, h) {
      AmountCapture(f, text, g, h);
      if f.gap != AnyOnLine { GreedyGapStart(f, text, p + |f.title|, g); }
    }
  }

  /** The match of `f` at `p`, as Python's engine finds it. */
  function FieldSpanAt(f: FieldPattern, text: string, p: nat): Option<Span>
    requires p <= |text|
  {
    if f.LineField? then LineSpanAt(f, text, p) else AmountSpanAt(f, text, p)
  }

  /** `FieldSpanAt` reports the engine's choice at `p`, and nothing when `f` cannot match there. */
  lemma FieldSpanAtCorrect(f: FieldPattern, text: string, p: nat)
    requires p <= |text|
    ensures FieldSpanAt(f, text, p).Some? ==>
              Chosen(f, text, p, FieldSpanAt(f, text, p).value.start, FieldSpanAt(f, text, p).value.end)
    ensures FieldSpanAt(f, text, p).None? ==> forall g: nat, h: nat :: !Candidate(f, text, p, g, h)
  {
    if f.LineField? { LineSpanAtCorrect(f, text, p); } else { AmountSpanAtCorrect(f, text, p); }
  }

  // ---------------------------------------------------------------------------
  // The period pattern `Statement for\s+(\d{4}-\d{2}-\d{2})\s+to\s+(\d{4}-\d{2}-\d{2})`

  const StatementFor: string := "Statement for"
  const To: string := "to"

  /** `\d{4}-\d{2}-\d{2}` at position `b` of `text`: the shape of an RFC 3339
      full-date, without range checks. */
  predicate DateAt(text: string, b: nat) {
    && b + 10 <= |text|
    && IsDigit(text[b]) && IsDigit(text[b + 1]) && IsDigit(text[b + 2]) && IsDigit(text[b + 3])
    && text[b + 4] == '-'
    && IsDigit(text[b + 5]) && IsDigit(text[b + 6])
    && text[b + 7] == '-'
    && IsDigit(text[b + 8]) && IsDigit(text[b + 9])
  }

  /** A string that is a date on its own. */
  predicate IsDateShape(s: string) {
    |s| == 10 && DateAt(s, 0)
  }

  /** The ten characters at a date position form a date. */
  lemma DateAtShape(text: string, b: nat)
    requires DateAt(text, b)
    ensures IsDateShape(text[b..b + 10])
  {
    var s := text[b..b + 10];
    assert forall k :: 0 <= k < 10 ==> s[k] == text[b + k];
  }

  /** `\s+` from `i` to `b`, then a date at `b`. */
  ghost predicate SpacedDate(text: string, i: nat, b: nat) {
    i < b <= |text| && AllSpaces(text[i..b]) && DateAt(text, b)
  }

  /** `\s+` from `i` to `d`, then `to` at `d`. */
  ghost predicate SpacedTo(text: string, i: nat, d: nat) {
    i < d <= |text| && AllSpaces(text[i..d]) && LabelAt(text, d, To, false)
  }

  /** The period pattern matches at `p` with its first date at `b`, `to` at `d`
      and its second date at `g`. */
  ghost predicate PeriodLayout(text: string, p: nat, b: nat, d: nat, g: nat) {
    LabelAt(text, p, StatementFor, false) && DatesLayout(text, p + |StatementFor|, b, d, g)
  }

  /** What follows `Statement for` from `i`: spaces, the first date at `b`,
      spaces, `to` at `d`, spaces, the second date at `g`. */
  ghost predicate DatesLayout(text: string, i: nat, b: nat, d: nat, g: nat) {
    SpacedDate(text, i, b) && SpacedTo(text, b + 10, d) && SpacedDate(text, d + |To|, g)
  }

  datatype PeriodSpans = PeriodSpans(first: nat, to: nat, second: nat)

  /** The greedy run of spaces from `i` is all spaces. */
  lemma SpaceRun(text: string, i: nat)
    requires i <= |text|
    ensures AllSpaces(text[i..RunEnd(Space, text, i)])
  {
    var e := RunEnd(Space, text, i);
    forall k | 0 <= k < e - i ensures IsSpace(text[i..e][k]) {
      assert text[i..e][k] == text[i + k];
    }
  }

  /** A run of one or more spaces ending just before a non-space character is the whole run. */
  lemma SpacesBefore(text: string, i: nat, b: nat)
    requires i <= b < |text| && AllSpaces(text[i..b]) && !IsSpace(text[b])
    ensures RunEnd(Space, text, i) == b
  {
    forall k | i <= k < b ensures IsSpace(text[k]) {
      assert text[k] == text[i..b][k - i];
    }
    RunEndAt(Space, text, i, b);
  }

  /** Where `\s+` followed by a date, tried at `i`, puts the date. */
  function DateAfterSpaces(text: string, i: nat): Option<nat>
    requires i <= |text|
  {
    var b := RunEnd(Space, text, i);
    if i < b && DateAt(text, b) then Some(b) else None
  }

  lemma DateAfterSpacesCorrect(text: string, i: nat, b: nat)
    requires i <= |text|
    ensures DateAfterSpaces(text, i) == Some(b) <==> SpacedDate(text, i, b)
  {
    SpaceRun(text, i);
    if SpacedDate(text, i, b) {
      SpacesBefore(text, i, b);
    }
  }

  /** Where `\s+to`, tried at `i`, puts the `to`. */
  function ToAfterSpaces(text: string, i: nat): Option<nat>
    requires i <= |text|
  {
    var d := RunEnd(Space, text, i);
    if i < d && LabelAt(text, d, To, false) then Some(d) else None
  }

  lemma ToAfterSpacesCorrect(text: string, i: nat, d: nat)
    requires i <= |text|
    ensures ToAfterSpaces(text, i) == Some(d) <==> SpacedTo(text, i, d)
  {
    SpaceRun(text, i);
    if SpacedTo(text, i, d) {
      assert text[d] == To[0];
      SpacesBefore(text, i, d);
    }
  }

  /** The match of the period pattern at `p`. Every quantifier in it is
      followed by a non-space, so a match, when there is one, is unique. */
  function PeriodAt(text: string, p: nat): Option<PeriodSpans>
    requires p <= |text|
  {
    if !LabelAt(text, p, StatementFor, false) then None
    else PeriodAfterLabel(text, p + |StatementFor|)
  }

  /** The rest of the period pattern, after `Statement for`. */
  function PeriodAfterLabel(text: string, i: nat): Option<PeriodSpans>
    requires i <= |text|
  {
    match DateAfterSpaces(text, i)
    case None => None
    case Some(b) => PeriodAfterFirst(text, b)
  }

  /** The rest of the period pattern, after the first date at `b`. */
  function PeriodAfterFirst(text: string, b: nat): Option<PeriodSpans>
    requires b + 10 <= |text|
  {
    match ToAfterSpaces(text, b + 10)
    case None => None
    case Some(d) => PeriodAfterTo(text, b, d)
  }

  /** The rest of the period pattern, after `to` at `d`. */
  function PeriodAfterTo(text: string, b: nat, d: nat): Option<PeriodSpans>
    requires d + |To| <= |text|
  {
    match DateAfterSpaces(text, d + |To|)
    case None => None
    case Some(g) => Some(PeriodSpans(b, d, g))
  }

  lemma PeriodAfterToCorrect(text: string, b: nat, d: nat, g: nat)
    requires d + |To| <= |text|
    ensures PeriodAfterTo(text, b, d) == Some(PeriodSpans(b, d, g)) <==> SpacedDate(text, d + |To|, g)
  {
    DateAfterSpacesCorrect(text, d + |To|, g);
  }

  lemma PeriodAfterFirstCorrect(text: string, b: nat, d: nat, g: nat)
    requires b + 10 <= |text|
    ensures PeriodAfterFirst(text, b) == Some(PeriodSpans(b, d, g)) <==>
            SpacedTo(text, b + 10, d) && SpacedDate(text, d + |To|, g)
  {
    ToAfterSpacesCorrect(text, b + 10, d);
    var r := ToAfterSpaces(text, b + 10);
    if r == Some(d) {
      assert PeriodAfterFirst(text, b) == PeriodAfterTo(text, b, d);
      PeriodAfterToCorrect(text, b, d, g);
    } else if r.Some? {
      assert PeriodAfterFirst(text, b) == PeriodAfterTo(text, b, r.value);
    }
  }

  /** A match found after the first date at `b` records `b` as its first date. */
  lemma PeriodAfterFirstFirst(text: string, b: nat)
    requires b + 10 <= |text|
    ensures PeriodAfterFirst(text, b).Some? ==> PeriodAfterFirst(text, b).value.first == b
  {
  }

  /** `PeriodAt` finds a layout exactly when there is one, and then the only one. */
  lemma PeriodAtCorrect(text: string, p: nat, b: nat, d: nat, g: nat)
    requires p <= |text|
    ensures PeriodAt(text, p) == Some(PeriodSpans(b, d, g)) <==> PeriodLayout(text, p, b, d, g)
  {
    if LabelAt(text, p, StatementFor, false) {
      assert PeriodAt(text, p) == PeriodAfterLabel(text, p + |StatementFor|);
      PeriodAfterLabelCorrect(text, p + |StatementFor|, b, d, g);
    }
  }

  lemma PeriodAfterLabelCorrect(text: string, i: nat, b: nat, d: nat, g: nat)
    requires i <= |text|
    ensures PeriodAfterLabel(text, i) == Some(PeriodSpans(b, d, g)) <==> DatesLayout(text, i, b, d, g)
  {
    if DateAfterSpaces(text, i) == Some(b) {
      PeriodFirstDateFound(text, i, b, d, g);
    } else {
      PeriodFirstDateElsewhere(text, i, b, d, g);
    }
  }

  lemma PeriodFirstDateFound(text: string, i: nat, b: nat, d: nat, g: nat)
    requires i <= |text| && DateAfterSpaces(text, i) == Some(b)
    ensures PeriodAfterLabel(text, i) == Some(PeriodSpans(b, d, g)) <==> DatesLayout(text, i, b, d, g)
  {
    DateAfterSpacesCorrect(text, i, b);
    assert PeriodAfterLabel(text, i) == PeriodAfterFirst(text, b);
    PeriodAfterFirstCorrect(text, b, d, g);
  }

  lemma PeriodFirstDateElsewhere(text: string, i: nat, b: nat, d: nat, g: nat)
    requires i <= |text| && DateAfterSpaces(text, i) != Some(b)
    ensures PeriodAfterLabel(text, i) != Some(PeriodSpans(b, d, g)) && !DatesLayout(text, i, b, d, g)
  {
    DateAfterSpacesCorrect(text, i, b);
    var r := DateAfterSpaces(text, i);
    if r.Some? {
      assert PeriodAfterLabel(text, i) == PeriodAfterFirst(text, r.value);
      PeriodAfterFirstFirst(text, r.value);
    }
  }

  // ---------------------------------------------------------------------------
  // `re.search`

  /** The five patterns of `extract_metadata` and `extract_financial_summary`
      come in two kinds: one capture group, or the period's two. */
  datatype Pattern = Field(field: FieldPattern) | Period

  /** What `re.search` returns: where the match starts, and the spans of groups 1, 2, .... */
  datatype Match = Match(start: nat, groups: seq<Span>)

  ghost predicate MatchesAt(pat: Pattern, text: string, p: nat) {
    match pat
    case Field(f) => exists g: nat, h: nat :: Candidate(f, text, p, g, h)
    case Period => exists b: nat, d: nat, g: nat :: PeriodLayout(text, p, b, d, g)
  }

  /** `groups` are the groups Python's engine reports for `pat` at `p`. */
  ghost predicate IsReportedMatch(pat: Pattern, text: string, p: nat, groups: seq<Span>) {
    match pat
    case Field(f) =>
      |groups| == 1 && Chosen(f, text, p, groups[0].start, groups[0].end)
    case Period =>
      && |groups| == 2
      && groups[0].end == groups[0].start + 10
      && groups[1].end == groups[1].start + 10
      && exists d: nat :: PeriodLayout(text, p, groups[0].start, d, groups[1].start)
  }

  /** The groups of the match of `pat` at `p`. */
  function MatchAt(pat: Pattern, text: string, p: nat): Option<seq<Span>>
    requires p <= |text|
  {
    match pat
    case Field(f) =>
      (match FieldSpanAt(f, text, p)
       case None => None
       case Some(s) => Some([s]))
    case Period =>
      (match PeriodAt(text, p)
       case None => None
       case Some(ps) => Some([Span(ps.first, ps.first + 10), Span(ps.second, ps.second + 10)]))
  }

  /** `MatchAt` finds a match exactly where the pattern can match, and then the one the engine reports. */
  lemma MatchAtCorrect(pat: Pattern, text: string, p: nat)
    requires p <= |text|
    ensures MatchAt(pat, text, p).Some? <==> MatchesAt(pat, text, p)
    ensures MatchAt(pat, text, p).Some? ==> IsReportedMatch(pat, text, p, MatchAt(pat, text, p).value)
  {
    match pat
    case Field(f) => FieldSpanAtCorrect(f, text, p);
    case Period =>
      if PeriodAt(text, p).Some? {
        var r := PeriodAt(text, p).value;
        PeriodAtCorrect(text, p, r.first, r.to, r.second);
      }
      forall b: nat, d: nat, g: nat | PeriodLayout(text, p, b, d, g) ensures PeriodAt(text, p).Some? {
        PeriodAtCorrect(text, p, b, d, g);
      }
  }

  /** How many capture groups `pat` has. */
  function GroupCount(pat: Pattern): nat {
    if pat.Period? then 2 else 1
  }

  /** Every group is a range of `text`. */
  predicate GroupsIn(groups: seq<Span>, text: string) {
    forall k :: 0 <= k < |groups| ==> groups[k].start <= groups[k].end <= |text|
  }

  lemma ReportedGroupsIn(pat: Pattern, text: string, p: nat, groups: seq<Span>)
    requires IsReportedMatch(pat, text, p, groups)
    ensures |groups| == GroupCount(pat) && GroupsIn(groups, text)
  {
    if pat.Period? {
      var d: nat :| PeriodLayout(text, p, groups[0].start, d, groups[1].start);
    }
  }

  /** The outcome of trying the pattern at each position 0, 1, ..., |text|. */
  function Attempts(pat: Pattern, text: string): (ms: seq<Option<seq<Span>>>)
    ensures |ms| == |text| + 1
    ensures forall q: nat :: q <= |text| ==> ms[q] == MatchAt(pat, text, q)
  {
    seq(|text| + 1, q requires 0 <= q <= |text| => MatchAt(pat, text, q))
  }

  /** The scan of `re.search`: the first attempt from `from` on that succeeded. */
  function FirstFrom(ms: seq<Option<seq<Span>>>, from: nat): (r: Option<Match>)
    requires from <= |ms|
    ensures r.Some? ==> from <= r.value.start < |ms| && ms[r.value.start] == Some(r.value.groups)
    ensures r.Some? ==> forall q :: from <= q < r.value.start ==> ms[q].None?
    ensures r.None? ==> forall q :: from <= q < |ms| ==> ms[q].None?
    decreases |ms| - from
  {
    if from == |ms| then None
    else if ms[from].Some? then Some(Match(from, ms[from].value))
    else FirstFrom(ms, from + 1)
  }

  /** `re.search(pat, text)`: the match at the leftmost position where `pat`
      can match, as the engine reports it there; None when no position can. */
  function Search(pat: Pattern, text: string): (r: Option<Match>)
    ensures r.Some? ==> r.value.start <= |text| && IsReportedMatch(pat, text, r.value.start, r.value.groups)
    ensures r.Some? ==> forall q: nat :: q < r.value.start ==> !MatchesAt(pat, text, q)
    ensures r.None? ==> forall q: nat :: q <= |text| ==> !MatchesAt(pat, text, q)
    ensures r.Some? ==> |r.value.groups| == GroupCount(pat) && GroupsIn(r.value.groups, text)
    ensures r.Some? ==> MatchesAt(pat, text, r.value.start)
  {
    var ms := Attempts(pat, text);
    var r := FirstFrom(ms, 0);
    assert r.Some? ==> IsReportedMatch(pat, text, r.value.start, r.value.groups) by {
      if r.Some? { MatchAtCorrect(pat, text, r.value.start); }
    }
    assert r.Some? ==> |r.value.groups| == GroupCount(pat) && GroupsIn(r.value.groups, text) by {
      if r.Some? { ReportedGroupsIn(pat, text, r.value.start, r.value.groups); }
    }
    assert r.Some? ==> MatchesAt(pat, text, r.value.start) by {
      if r.Some? { MatchAtCorrect(pat, text, r.value.start); }
    }
    assert r.Some? ==> forall q: nat :: q < r.value.start ==> !MatchesAt(pat, text, q) by {
      if r.Some? {
        forall q: nat | q < r.value.start ensures !MatchesAt(pat, text, q) {
          assert ms[q].None?;
          MatchAtCorrect(pat, text, q);
        }
      }
    }
    assert r.None? ==> forall q: nat :: q <= |text| ==> !MatchesAt(pat, text, q) by {
      if r.None? {
        forall q: nat | q <= |text| ensures !MatchesAt(pat, text, q) {
          assert ms[q].None?;
          MatchAtCorrect(pat, text, q);
        }
      }
    }
    r
  }

  /** The group of a field's match fits the capture group of its pattern. */
  lemma SearchFieldCapture(f: FieldPattern, text: string)
    requires Search(Field(f), text).Some?
    ensures var m := Search(Field(f), text).value;
            && |m.groups| == 1 && m.groups[0].start <= m.groups[0].end <= |text|
            && CaptureMatches(f, text[m.groups[0].start..m.groups[0].end])
  {
  }

  /** Both groups of the period's match are dates. */
  lemma SearchPeriodDates(text: string)
    requires Search(Period, text).Some?
    ensures var m := Search(Period, text).value;
            && |m.groups| == 2
            && m.groups[0].end == m.groups[0].start + 10 && DateAt(text, m.groups[0].start)
            && m.groups[1].end == m.groups[1].start + 10 && DateAt(text, m.groups[1].start)
  {
    var m := Search(Period, text).value;
    var d: nat :| PeriodLayout(text, m.start, m.groups[0].start, d, m.groups[1].start);
  }
}
