# Shopee income statement converter: a Dafny model

The converter reads the text of a Shopee seller's income-statement PDF and
turns it into an Excel workbook. Its core is the class
`ImprovedPDFConverter`:

- `extract_metadata` finds the account name, the statement period, the bank
  and the username with regular expressions.
- `extract_financial_summary` finds ten money figures with ten more regular
  expressions and turns each one into a number.
- `create_structured_tables` builds four report tables: the summary report,
  the daily payout details, the order adjustments and the business analytics.
- `create_excel_file` writes one sheet per table. The sheet name is cut to 31
  characters. A table that cannot be written is skipped.

The model has these modules:

- `Wrappers`: `Option` and dictionary lookup.
- `TextUtil`: Python's whitespace set, `str.strip` and `str.replace`.
- `Patterns`: the regular expressions written out as matchers. Each matcher is
  proved to return what `re.search` returns. That is the leftmost position
  where the pattern can match, and there the candidate that the backtracking
  engine prefers (greedy groups take the most, the lazy `.*?` the least).
- `Numbers`: `float()` on the captured tokens, as exact rationals. It also
  gives the printed form of an amount and proves the two round-trip.
- `Extraction`: what the two extractors must return, as functions and
  predicates over the text.
- `Tables`: the four tables.
- `Workbook`: the sheet naming and skipping policy.
- `Converter`: the class with its three fields and its imperative methods.
  Each method is proved against the specification functions.

The hard-coded numbers in the daily and adjustment tables are proved, with
exact fractions, to agree with their TOTAL rows to the cent.

## Model

| member | source | states |
|---|---|---|
| Patterns.Search | app.py:53-72 | `re.search`: a match at the leftmost position where the pattern can match, the one the engine reports there, with its groups inside the text; None exactly when no position can match |
| Patterns.FieldSpanAtCorrect | app.py:53-90 | at one position, the computed group span of a label pattern is the engine's preferred candidate (the lazy gap shortest, the greedy group longest); None means no candidate exists |
| Patterns.PeriodAtCorrect | app.py:58 | the period matcher finds dates at a position exactly when `Statement for\s+DATE\s+to\s+DATE` fits there |
| Patterns.MatchAtCorrect | app.py:53-72 | for every pattern, a match is found at a position iff the pattern can match there, and then it is the reported one |
| Patterns.SearchFieldCapture | app.py:53-55 | the captured group of a label pattern satisfies the group's character class (`[^\n]+` or `-?[\d,.-]+`) |
| Patterns.SearchPeriodDates | app.py:58 | both period groups are ten-character `\d{4}-\d{2}-\d{2}` dates |
| Extraction.LineValue | app.py:53-55 | the stripped line value has no newline and no surrounding whitespace; it is None iff `Name\s*:\s*([^\n]+)` matches nowhere |
| Extraction.PeriodDates | app.py:58-62 | both dates have the date shape; None iff the period pattern matches nowhere |
| Extraction.PeriodKeys | app.py:58-62 | `period_start`, `period_end` and `period` are present together, and `period` is the two dates joined by ` to ` |
| Extraction.LineKeys | app.py:53-72 | a company, bank or username key is present iff its pattern matches; its value is one stripped line |
| Extraction.StripIdle | app.py:55 | stripping a value with no surrounding whitespace leaves it unchanged |
| Converter.MetadataDict | app.py:47-74 | filename, processing time and document type are always set; each found value is stored under its key and each missing one is absent |
| Converter.Converter.ExtractMetadata | app.py:45-76 | the returned dictionary is the metadata of the text: keys only from the nine possible ones (filename, processed_at and document_type always, company, bank, username and the three period keys when their patterns match), each value what its pattern finds |
| Extraction.AmountFieldsWellFormed | app.py:80-91 | ten money patterns with ten distinct keys |
| Extraction.AmountToken | app.py:95-97 | the captured token is non-empty and made of `[\d,.-]`; None iff the pattern matches nowhere |
| Extraction.AmountValue | app.py:95-101 | a value exists iff the pattern matches; it is the token's `float()` with commas removed, or 0.0 when that raises `ValueError` |
| Extraction.SummaryKeys | app.py:93-101 | a key is in the summary iff its pattern matches somewhere, and then holds the token's value |
| Extraction.StoreStep | app.py:94-101 | one loop step stores exactly the entry for its key and keeps the earlier ones |
| Extraction.SummaryStored | app.py:93-103 | after all ten steps the dictionary is the financial summary of the text |
| Converter.Converter.ExtractFinancialSummary | app.py:78-103 | the loop returns the financial summary of the text: only known keys, each the value its pattern yields |
| Numbers.ParseFloatAccepts | app.py:99 | `float()` succeeds on a `[\d.-]` string iff it is `-?(d+(.d*)?\|.d+)` |
| Numbers.TokenValue | app.py:97-101 | when the cleaned token is a float literal (`-?(d+(.d*)?\|.d+)`) the value is the number it spells; otherwise it is 0.0 |
| Numbers.CapturedTokenValue | app.py:97-101 | for a captured `[\d,.-]` token, the value is the number its comma-free text spells when that is a float literal, and 0.0 otherwise |
| Numbers.CleanOnlyDropsCommas | app.py:97 | the `S$` removal never changes a captured token; cleaning only drops commas |
| Numbers.UnparsableTokensAreZero | app.py:100-101 | tokens such as `-`, `.`, `1.2.3` and `5-` are recorded as 0.0 |
| Numbers.UnparsableLooksLikeZero | app.py:100-101 | an unparsable token cannot be told apart from a real `0.00` |
| Extraction.NotedFeeSpan | app.py:86 | on `Commission fee (incl. GST) -1,232.55` the lazy `.*?` stops at the point of `incl.`: the captured group is that one character |
| Extraction.NotedFeeReadsAsZero | app.py:86-101 | on that line the commission-fee token is `.` and the recorded value is 0.0, not -1232.55 |
| Numbers.AmountRoundTrip | app.py:97-99 | an amount printed with thousands commas and two decimals reads back as itself |
| Tables.SummaryReport | app.py:110-135 | the Summary_Report table has a header and 17 rows of two columns |
| Tables.SummaryInfo | app.py:110-116 | each document line shows its metadata value, or `N/A` when it is missing |
| Tables.SummaryFigures | app.py:119-128 | the ten figures appear in pattern order, each the summary's value or 0 |
| Tables.DailyPayoutDetails | app.py:137-167 | the Daily_Payout_Details table: header, seven days and TOTAL, all 15 columns wide |
| Tables.DailyTotalsAreColumnSums | app.py:159-161 | every TOTAL figure is the sum of its column over the seven days |
| Tables.DailyRowsBalance | app.py:147-153 | each day's Total_Payout is the sum of its thirteen other figures |
| Tables.OrderAdjustments | app.py:169-181 | the Order_Adjustments table: header, two adjustments and TOTAL, four columns |
| Tables.AdjustmentTotalIsSum | app.py:172-174 | the net adjustment is the sum of the two adjustments |
| Tables.FeeRate | app.py:187 | the fee rate is fees as a percentage of revenue, and 0 when the revenue is not positive |
| Tables.ProfitMargin | app.py:196 | the cell is a rate exactly when the revenue is positive, and then it is net payout as a percentage of revenue; otherwise it is the text `0%` |
| Tables.BusinessAnalytics | app.py:183-205 | revenue, absolute fees, net payout, fee rate, daily average (a seventh of revenue, as money) and profit margin taken from the summary with 0 defaults, then the quoted best and lowest days |
| Tables.BestAndLowestDays | app.py:197-198 | the quoted best and lowest days are the largest and smallest Product_Price of the daily table, printed as money |
| Tables.StructuredTables | app.py:107-205 | four rectangular tables, in order Summary_Report, Daily_Payout_Details, Order_Adjustments, Business_Analytics |
| Converter.Converter.constructor | app.py:16-19 | a new converter has no tables, no metadata and no summary |
| Converter.Converter.CreateStructuredTables | app.py:105-205 | `tables` is reset and then holds exactly the four tables built from the current metadata and summary; nothing else changes |
| Workbook.SheetName | app.py:223 | `name[:31]`: a prefix of the name, at most 31 characters, the whole name when it fits |
| Workbook.SheetOf | app.py:220-223 | a sheet is named by `SheetName` of the table's name, and its header and rows are the table's first row and the rest |
| Workbook.WrittenSheetsComplete | app.py:217-230 | every table that can be written gets its sheet, whatever failed before it |
| Workbook.WrittenSheetsSound | app.py:217-230 | every sheet comes from a table that was written |
| Workbook.WrittenSheetsCount | app.py:217-230 | one sheet per written table, never more sheets than tables |
| Workbook.StructuredSheetNames | app.py:223 | the four report tables keep their names as sheet names, and no two collide |
| Workbook.StructuredSheetsWritten | app.py:217-230 | of the four report tables, a sheet is missing only when the writer failed for it |
| Converter.Converter.CreateExcelFile | app.py:207-237 | None without tables or when the workbook cannot be saved; otherwise exactly the sheets of the written tables, in order |

## Left out

- Reading the PDF with pdfplumber (app.py:24-31) is I/O. The page text is a parameter of the extractors.
- The glue in `extract_tables_from_pdf` (app.py:21-43) is not modelled. It stores the extractors' results in the fields, calls `create_structured_tables` and returns a success flag with a message (app.py:40, 43), which `main` shows.
- `datetime.now()` is a clock. `ExtractMetadata` takes its reading as `processedAt`.
- The Streamlit interface, the download file name and the other messages (app.py:240-362) are user interface.
- Building the pandas DataFrame and writing it with openpyxl are foreign calls. `CreateExcelFile` takes their outcome as a parameter: `ok` per table and `saved` for the whole workbook. `saved` also covers the case where every table failed. The writer then holds no sheet and cannot save the workbook, so `saved` is false and the result is None, as in the source. The model does not force `saved` to be false there. The messages from `st.warning` and `st.error` are not modelled.
- Patterns.Search: `\d` is ASCII digits only and `re.IGNORECASE` folds ASCII letters only. Python also accepts other Unicode digits and a few other case pairs.
- Numbers.TokenValue: values are exact rationals. Python's float rounding and overflow are not modelled.
- Numbers.ParseFloatAccepts: covers only strings over `[\d.-]`, which is all a captured token can hold once its commas are gone. Underscores, exponents and whitespace that `float()` also accepts cannot occur here.
- Tables.BusinessAnalytics: cells keep the exact value with a tag (`Money`, `Percent`). The `f"{x:,.2f}"` text and its rounding are not modelled. `Numbers.AmountRoundTrip` covers the printed form for whole cents.
- Tables.FeeRate: the Python integer 0 that `.get(key, 0)` and the zero rate give is modelled as 0.0.
- Extraction.IsMetadataOf and Extraction.IsFinancialSummaryOf: dictionaries are maps, so key insertion order is not modelled.
