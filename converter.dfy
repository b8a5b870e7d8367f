/**
 * `ImprovedPDFConverter`: the object that holds what was read from one
 * statement (`metadata`, `financialSummary`) and the tables built from it.
 */
module Converter {
  import opened Wrappers
  import opened TextUtil
  import opened Patterns
  import opened Numbers
  import opened Extraction
  import opened Tables
  import opened Workbook

  /** The dictionary `extract_metadata` builds from what its four searches
      found: the file name and time first, each found value under its key, the
      period as three keys, and the document type last. */
  method MetadataDict(filename: string, processedAt: string, company: Option<string>,
                      period: Option<(string, string)>, bank: Option<string>, username: Option<string>)
    returns (info: map<string, string>)
    ensures info.Keys <= MetadataKeys
    ensures Lookup(info, "filename") == Some(filename)
    ensures Lookup(info, "processed_at") == Some(processedAt)
    ensures Lookup(info, "document_type") == Some(DocumentType)
    ensures Lookup(info, "company") == company
    ensures Lookup(info, "bank") == bank
    ensures Lookup(info, "username") == username
    ensures match period
            case None => "period_start" !in info && "period_end" !in info && "period" !in info
            case Some((first, second)) =>
              && Lookup(info, "period_start") == Some(first)
              && Lookup(info, "period_end") == Some(second)
              && Lookup(info, "period") == Some(first + " to " + second)
  {
    info := map["filename" := filename, "processed_at" := processedAt];
    if company.Some? {
      info := info["company" := company.value];
    }
    if period.Some? {
      var (first, second) := period.value;
      info := info["period_start" := first];
      info := info["period_end" := second];
      info := info["period" := first + " to " + second];
    }
    if bank.Some? {
      info := info["bank" := bank.value];
    }
    if username.Some? {
      info := info["username" := username.value];
    }
    info := info["document_type" := DocumentType];
  }

  class Converter {
    var tables: seq<Table>
    var metadata: map<string, string>
    var financialSummary: map<string, real>

    constructor()
      ensures tables == [] && metadata == map[] && financialSummary == map[]
    {
      tables := [];
      metadata := map[];
      financialSummary := map[];
    }

    /** `extract_metadata(text, filename)`; the clock's reading is `processedAt`. */
    method ExtractMetadata(text: string, filename: string, processedAt: string) returns (info: map<string, string>)
      ensures IsMetadataOf(info, text, filename, processedAt)
    {
      var company := LineValue(text, CompanyField);
      var period := PeriodDates(text);
      var bank := LineValue(text, BankField);
      var username := LineValue(text, UsernameField);
      info := MetadataDict(filename, processedAt, company, period, bank, username);
    }

    /** `extract_financial_summary(text)`: each of the ten patterns in turn. */
    method ExtractFinancialSummary(text: string) returns (summary: map<string, real>)
      ensures IsFinancialSummaryOf(summary, text)
    {
      ghost var keys := AmountKeySeq();
      ghost var values := AmountValues(text);
      AmountKeysDistinct();
      summary := map[];
      for i := 0 to |AmountFields|
        invariant StoredUpTo(summary, keys, values, i)
      {
        var entry := AmountFields[i];
        var value := AmountValue(text, entry.field);
        StoreStep(summary, keys, values, i);
        if value.Some? {
          summary := summary[entry.key := value.value];
        }
      }
      SummaryStored(summary, text);
    }

    /** `create_structured_tables()`: empties `tables`, then appends the four report tables. */
    method CreateStructuredTables()
      modifies this
      ensures tables == StructuredTables(metadata, financialSummary)
      ensures metadata == old(metadata) && financialSummary == old(financialSummary)
    {
      var summaryReport := SummaryReport(metadata, financialSummary);
      var daily := DailyPayoutDetails();
      var adjustments := OrderAdjustments();
      var analytics := BusinessAnalytics(financialSummary);
      tables := [];
      tables := tables + [summaryReport];
      tables := tables + [daily];
      tables := tables + [adjustments];
      tables := tables + [analytics];
      assert tables == [summaryReport, daily, adjustments, analytics];
    }

    /** `create_excel_file()`: None without tables or when the workbook cannot be
        saved (`saved`); otherwise the sheets of the tables whose write succeeded (`ok`). */
    method CreateExcelFile(saved: bool, ok: seq<bool>) returns (r: Option<seq<Sheet>>)
      requires |ok| == |tables|
      ensures tables == [] ==> r == None
      ensures tables != [] && !saved ==> r == None
      ensures tables != [] && saved ==> r == Some(WrittenSheets(tables, ok))
    {
      if tables == [] {
        return None;
      }
      var sheets: seq<Sheet> := [];
      for i := 0 to |tables|
        invariant sheets == WrittenSheets(tables[..i], ok[..i])
      {
        var t := tables[i];
        assert tables[..i + 1][..i] == tables[..i] && ok[..i + 1][..i] == ok[..i];
        if |t.data| > 0 && ok[i] {
          sheets := sheets + [SheetOf(t)];
        }
      }
      assert tables[..|tables|] == tables && ok[..|ok|] == ok;
      if !saved {
        return None;
      }
      return Some(sheets);
    }
  }
}
