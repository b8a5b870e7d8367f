/**
 * What the converter reads out of a statement's text: the labelled metadata
 * lines, the statement period, and the ten financial figures.
 */
module Extraction {
  import opened Wrappers
  import opened TextUtil
  import opened Patterns
  import opened Numbers

  // ---------------------------------------------------------------------------
  // Metadata

  const CompanyField: FieldPattern := LineField("Name in Bank Account")
  const BankField: FieldPattern := LineField("Bank Name")
  const UsernameField: FieldPattern := LineField("Username")

  const DocumentType: string := "Shopee Income Statement"

  /** The keys `extract_metadata` can put in its result. */
  const MetadataKeys: set<string> :=
    {"filename", "processed_at", "company", "period_start", "period_end", "period", "bank", "username", "document_type"}

  /** The text of capture group `k` of a match. */
  function GroupText(text: string, m: Match, k: nat): string
    requires k < |m.groups| && GroupsIn(m.groups, text)
  {
    text[m.groups[k].start..m.groups[k].end]
  }

  /** Stripping a string without newlines leaves a string without newlines. */
  lemma StripNoNewline(s: string)
    requires NoNewline(s)
    ensures NoNewline(Strip(s))
  {
    var i, j :| 0 <= i <= j <= |s| && Strip(s) == s[i..j];
    forall k | 0 <= k < j - i ensures s[i..j][k] != '\n' {
      assert s[i..j][k] == s[i + k];
    }
  }

  /** `m.group(1).strip()` for the first match of a line field: the rest of the
      line after the label, optional spaces, a colon and optional spaces. */
  function LineValue(text: string, f: FieldPattern): (r: Option<string>)
    requires f.LineField?
    ensures r.Some? ==> NoNewline(r.value)
    ensures r.Some? ==> r.value == [] || (!IsSpace(r.value[0]) && !IsSpace(r.value[|r.value| - 1]))
    ensures r.None? <==> forall q: nat :: q <= |text| ==> !MatchesAt(Field(f), text, q)
  {
    match Search(Field(f), text)
    case None => None
    case Some(m) =>
      SearchFieldCapture(f, text);
      var g := GroupText(text, m, 0);
      StripNoNewline(g);
      Some(Strip(g))
  }

  /** The two dates of the first `Statement for <date> to <date>`. */
  function PeriodDates(text: string): (r: Option<(string, string)>)
    ensures r.Some? ==> IsDateShape(r.value.0) && IsDateShape(r.value.1)
    ensures r.None? <==> forall q: nat :: q <= |text| ==> !MatchesAt(Period, text, q)
  {
    match Search(Period, text)
    case None => None
    case Some(m) =>
      PeriodGroupShapes(text);
      Some((GroupText(text, m, 0), GroupText(text, m, 1)))
  }

  lemma PeriodGroupShapes(text: string)
    requires Search(Period, text).Some?
    ensures var m := Search(Period, text).value;
            && |m.groups| == 2 && GroupsIn(m.groups, text)
            && IsDateShape(GroupText(text, m, 0)) && IsDateShape(GroupText(text, m, 1))
  {
    var m := Search(Period, text).value;
    SearchPeriodDates(text);
    DateGroup(text, m.groups[0]);
    DateGroup(text, m.groups[1]);
  }

  lemma DateGroup(text: string, g: Span)
    requires g.end == g.start + 10 && DateAt(text, g.start)
    ensures g.start <= g.end <= |text| && IsDateShape(text[g.start..g.end])
  {
    DateAtShape(text, g.start);
  }

  /** A line value written under `key` when its label matched, and nothing otherwise. */
  predicate HasLineValue(info: map<string, string>, key: string, text: string, f: FieldPattern)
    requires f.LineField?
  {
    Lookup(info, key) == LineValue(text, f)
  }

  /** `info` is what `extract_metadata(text, filename)` returns when the clock reads `processedAt`. */
  predicate IsMetadataOf(info: map<string, string>, text: string, filename: string, processedAt: string) {
    && info.Keys <= MetadataKeys
    && Lookup(info, "filename") == Some(filename)
    && Lookup(info, "processed_at") == Some(processedAt)
    && Lookup(info, "document_type") == Some(DocumentType)
    && HasLineValue(info, "company", text, CompanyField)
    && HasLineValue(info, "bank", text, BankField)
    && HasLineValue(info, "username", text, UsernameField)
    && (match PeriodDates(text)
        case None => "period_start" !in info && "period_end" !in info && "period" !in info
        case Some((first, second)) =>
          && Lookup(info, "period_start") == Some(first)
          && Lookup(info, "period_end") == Some(second)
          && Lookup(info, "period") == Some(first + " to " + second))
  }

  /** The three period keys come together, the period reads `<start> to <end>`,
      and both ends are shaped like a full-date of RFC 3339 section 5.6. */
  lemma PeriodKeys(info: map<string, string>, text: string, filename: string, processedAt: string)
    requires IsMetadataOf(info, text, filename, processedAt)
    ensures "period_start" in info <==> "period" in info
    ensures "period_end" in info <==> "period" in info
    ensures "period" in info ==>
              && info["period"] == info["period_start"] + " to " + info["period_end"]
              && IsDateShape(info["period_start"]) && IsDateShape(info["period_end"])
              && |info["period"]| == 24
    ensures "period" in info <==> exists q: nat :: q <= |text| && MatchesAt(Period, text, q)
  {
    var r := PeriodDates(text);
    if r.Some? {
      assert "period" in info;
      var s := Search(Period, text);
      assert MatchesAt(Period, text, s.value.start);
    } else {
      assert "period" !in info;
    }
  }

  /** A metadata line value (`company`, `bank`, `username`) never spans two lines
      and has no surrounding spaces; its key is missing exactly when no position
      of the text matches. */
  lemma LineKeys(info: map<string, string>, text: string, key: string, f: FieldPattern)
    requires f.LineField? && HasLineValue(info, key, text, f)
    ensures key in info ==> NoNewline(info[key]) && Strip(info[key]) == info[key]
    ensures key !in info <==> forall q: nat :: q <= |text| ==> !MatchesAt(Field(f), text, q)
  {
    if key in info {
      StripIdle(info[key]);
    }
  }

  /** A string without surrounding spaces is its own `strip()`. */
  lemma StripIdle(s: string)
    requires s == [] || (!IsSpace(s[0]) && !IsSpace(s[|s| - 1]))
    ensures Strip(s) == s
  {
    var r := Strip(s);
    var i, j :| 0 <= i <= j <= |s| && r == s[i..j] && AllSpaces(s[..i]) && AllSpaces(s[j..]);
  }

  // ---------------------------------------------------------------------------
  // Financial summary

  /** One entry of the `patterns` dictionary: the summary key and its pattern. */
  datatype AmountEntry = AmountEntry(key: string, field: FieldPattern)

  /** The ten patterns, in the dictionary's order. */
  const AmountFields: seq<AmountEntry> := [
    AmountEntry("merchandise_subtotal", AmountField("Merchandise Subtotal", Spaces, false)),
    AmountEntry("product_price", AmountField("Product Price", Spaces, false)),
    AmountEntry("refund_amount", AmountField("Refund Amount", Spaces, true)),
    AmountEntry("shipping_subtotal", AmountField("Shipping Subtotal", Spaces, true)),
    AmountEntry("fees_and_charges", AmountField("Fees and Charges", Spaces, true)),
    AmountEntry("commission_fee", AmountField("Commission fee", AnyOnLine, true)),
    AmountEntry("service_fee", AmountField("Service Fee", AnyOnLine, true)),
    AmountEntry("transaction_fee", AmountField("Transaction Fee", AnyOnLine, true)),
    AmountEntry("total_payout", AmountField("Total Payout Released", SpacesCurrency, false)),
    AmountEntry("amount_paid_by_buyer", AmountField("Amount Paid By Buyer", Spaces, false))
  ]

  /** The keys a financial summary can have. */
  function AmountKeys(): (ks: set<string>)
    ensures forall i :: 0 <= i < |AmountFields| ==> AmountFields[i].key in ks
    ensures forall k :: k in ks ==> exists i :: 0 <= i < |AmountFields| && AmountFields[i].key == k
  {
    set i | 0 <= i < |AmountFields| :: AmountFields[i].key
  }

  /** Every entry's pattern is an amount pattern, and no two entries share a key. */
  lemma AmountFieldsWellFormed()
    ensures |AmountFields| == 10
    ensures forall i :: 0 <= i < |AmountFields| ==> AmountFields[i].field.AmountField?
    ensures forall i, j :: 0 <= i < j < |AmountFields| ==> AmountFields[i].key != AmountFields[j].key
  {
  }

  /** The token the first match of an amount pattern captures. */
  function AmountToken(text: string, f: FieldPattern): (r: Option<string>)
    requires f.AmountField?
    ensures r.Some? ==> |r.value| >= 1 && AllAmountChars(r.value)
    ensures r.None? <==> forall q: nat :: q <= |text| ==> !MatchesAt(Field(f), text, q)
  {
    match Search(Field(f), text)
    case None => None
    case Some(m) =>
      SearchFieldCapture(f, text);
      Some(GroupText(text, m, 0))
  }

  /** The value recorded for an amount pattern: the parse of the token with its
      commas removed, 0.0 when that does not parse, and nothing when the
      pattern does not match. */
  function AmountValue(text: string, f: FieldPattern): (r: Option<real>)
    requires f.AmountField?
    ensures r.Some? <==> AmountToken(text, f).Some?
    ensures r.Some? ==>
              var plain := RemoveAll(AmountToken(text, f).value, ",");
              && (ParseFloat(plain).Some? ==> r == ParseFloat(plain))
              && (ParseFloat(plain).None? ==> r.value == 0.0)
  {
    match AmountToken(text, f)
    case None => None
    case Some(token) =>
      CleanOnlyDropsCommas(token);
      Some(TokenValue(token))
  }

  /** `summary` is what `extract_financial_summary(text)` returns. */
  predicate IsFinancialSummaryOf(summary: map<string, real>, text: string) {
    && summary.Keys <= AmountKeys()
    && forall i :: 0 <= i < |AmountFields| && AmountFields[i].field.AmountField? ==>
         Lookup(summary, AmountFields[i].key) == AmountValue(text, AmountFields[i].field)
  }

  /** The summary keys, in pattern order. */
  function AmountKeySeq(): (ks: seq<string>)
    ensures |ks| == |AmountFields|
    ensures forall j :: 0 <= j < |ks| ==> ks[j] == AmountFields[j].key
  {
    seq(|AmountFields|, j requires 0 <= j < |AmountFields| => AmountFields[j].key)
  }

  /** The value each pattern yields on `text`, in pattern order. */
  function AmountValues(text: string): (vs: seq<Option<real>>)
    ensures |vs| == |AmountFields|
    ensures forall j :: 0 <= j < |vs| ==>
              AmountFields[j].field.AmountField? && vs[j] == AmountValue(text, AmountFields[j].field)
  {
    AmountFieldsWellFormed();
    seq(|AmountFields|, j requires 0 <= j < |AmountFields| => AmountValue(text, AmountFields[j].field))
  }

  predicate Distinct(keys: seq<string>) {
    forall i, j :: 0 <= i < j < |keys| ==> keys[i] != keys[j]
  }

  /** `summary` holds what a loop that stores `vals[j]` under `keys[j]`, when
      there is a value, has stored after its first `n` steps. */
  ghost predicate StoredUpTo(summary: map<string, real>, keys: seq<string>, vals: seq<Option<real>>, n: nat)
    requires n <= |keys| == |vals|
  {
    && (forall k :: k in summary ==> exists j :: 0 <= j < n && keys[j] == k)
    && (forall j :: 0 <= j < n ==> Lookup(summary, keys[j]) == vals[j])
  }

  /** Step `n` stores its value under its key, if there is one, and leaves the earlier keys alone. */
  lemma StoreStep(summary: map<string, real>, keys: seq<string>, vals: seq<Option<real>>, n: nat)
    requires n < |keys| == |vals| && Distinct(keys) && StoredUpTo(summary, keys, vals, n)
    ensures StoredUpTo(if vals[n].Some? then summary[keys[n] := vals[n].value] else summary, keys, vals, n + 1)
  {
    var next := if vals[n].Some? then summary[keys[n] := vals[n].value] else summary;
    forall k | k in summary ensures k != keys[n] {
      var j :| 0 <= j < n && keys[j] == k;
    }
    forall k | k in next ensures exists j :: 0 <= j < n + 1 && keys[j] == k {
      if k != keys[n] {
        var j :| 0 <= j < n && keys[j] == k;
        assert 0 <= j < n + 1 && keys[j] == k;
      }
    }
  }

  /** Once all ten patterns are stored, the result is the financial summary. */
  lemma SummaryStored(summary: map<string, real>, text: string)
    requires StoredUpTo(summary, AmountKeySeq(), AmountValues(text), |AmountFields|)
    ensures IsFinancialSummaryOf(summary, text)
  {
    var keys := AmountKeySeq();
    forall k | k in summary ensures k in AmountKeys() {
      var j :| 0 <= j < |AmountFields| && keys[j] == k;
    }
  }

  /** The ten keys are distinct. */
  lemma AmountKeysDistinct()
    ensures Distinct(AmountKeySeq())
  {
    AmountFieldsWellFormed();
  }

  /** A key is in the summary exactly when its pattern matches somewhere, and
      then its value is the captured token read as a number. */
  lemma SummaryKeys(summary: map<string, real>, text: string, i: nat)
    requires IsFinancialSummaryOf(summary, text) && i < |AmountFields|
    ensures AmountFields[i].key in summary <==> exists q: nat :: q <= |text| && MatchesAt(Field(AmountFields[i].field), text, q)
    ensures AmountFields[i].key in summary ==>
              summary[AmountFields[i].key] == TokenValue(AmountToken(text, AmountFields[i].field).value)
  {
    AmountFieldsWellFormed();
    var f := AmountFields[i].field;
    var t := AmountToken(text, f);
    if t.Some? {
      CleanOnlyDropsCommas(t.value);
      var m := Search(Field(f), text).value;
      assert MatchesAt(Field(f), text, m.start);
    }
  }

  // ---------------------------------------------------------------------------
  // A label with a point before its amount

  /** A fee line whose label carries a parenthesised note. */
  const NotedFeeLine: string := "Commission fee (incl. GST) -1,232.55"

  /** The pattern of the commission fee. */
  const CommissionFee: FieldPattern := AmountField("Commission fee", AnyOnLine, true)

  /** The lazy `.*?` of `Commission fee.*?(-?[\d,.-]+)` stops at the first amount
      character on the line: the point of "incl." at index 20, not the amount. */
  lemma NotedFeeSpan()
    ensures FieldSpanAt(CommissionFee, NotedFeeLine, 0) == Some(Span(20, 21))
  {
    var text := NotedFeeLine;
    NotedFeeChars();
    assert LabelAt(text, 0, CommissionFee.title, true);
    var r := FirstAmountOnLine(text, 14);
    assert r == Some(20) by {
      assert NoNewline(text[14..20]) by {
        forall k | 0 <= k < 6 ensures text[14..20][k] != '\n' { assert text[14..20][k] == text[14 + k]; }
      }
    }
    assert RunEnd(Amount, text, 21) == 21;
  }

  /** The characters of the line from the end of the label to just past the point. */
  lemma NotedFeeChars()
    ensures |NotedFeeLine| == 36
    ensures forall k :: 14 <= k < 20 ==> !IsAmountChar(NotedFeeLine[k]) && NotedFeeLine[k] != '\n'
    ensures NotedFeeLine[20] == '.' && NotedFeeLine[21] == ' '
  {
  }

  /** On that line the commission fee is recorded as 0.0 instead of -1232.55. */
  lemma NotedFeeReadsAsZero()
    ensures AmountToken(NotedFeeLine, AmountFields[5].field) == Some(".")
    ensures AmountValue(NotedFeeLine, AmountFields[5].field) == Some(0.0)
  {
    var f := AmountFields[5].field;
    assert f == CommissionFee;
    var text := NotedFeeLine;
    NotedFeeSpan();
    var ms := Attempts(Field(f), text);
    assert ms[0] == Some([Span(20, 21)]);
    assert Search(Field(f), text) == Some(Match(0, [Span(20, 21)]));
    assert text[20..21] == ".";
    LonePointIsZero();
  }
}
