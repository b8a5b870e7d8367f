/**
 * The four report tables `create_structured_tables` assembles from the
 * metadata and the financial summary.
 *
 * The source renders money as `f"${x:,.2f}"` and rates as `f"{x:.2f}%"`;
 * a cell here keeps the exact value together with the format it is shown in.
 */
module Tables {
  import opened Wrappers
  import TextUtil
  import opened Numbers
  import opened Extraction

  datatype Cell =
    | Text(s: string)
    | Number(x: real)   // a float written to the sheet as a number
    | Money(x: real)    // shown as `$` and two decimals with thousands commas
    | Percent(x: real)  // shown with two decimals and `%`

  /** One entry of `self.tables`: a name, rows whose first is the header, a description. */
  datatype Table = Table(name: string, data: seq<seq<Cell>>, description: string)

  /** A header row, and every row as wide as the header. */
  predicate Rectangular(t: Table) {
    |t.data| > 0 && forall i :: 0 <= i < |t.data| ==> |t.data[i]| == |t.data[0]|
  }

  /** The numeric value of a cell; 0 for text. */
  function Num(c: Cell): real {
    match c
    case Text(_) => 0.0
    case Number(x) => x
    case Money(x) => x
    case Percent(x) => x
  }

  function Abs(x: real): (r: real)
    ensures r >= 0.0 && (r == x || r == -x)
  {
    if x < 0.0 then -x else x
  }

  // ---------------------------------------------------------------------------
  // Table 1: Summary_Report

  /** `metadata.get(key, 'N/A')`. */
  function Info(metadata: map<string, string>, key: string): Cell {
    Text(GetOr(metadata, key, "N/A"))
  }

  /** `financial_summary.get(key, 0)`, shown as money. */
  function Figure(summary: map<string, real>, key: string): Cell {
    Money(GetOr(summary, key, 0.0))
  }

  /** Document information, then the ten financial figures in pattern order. */
  function SummaryReport(metadata: map<string, string>, summary: map<string, real>): (t: Table)
    ensures t.name == "Summary_Report" && Rectangular(t) && |t.data| == 18 && |t.data[0]| == 2
  {
    var t := Table("Summary_Report", [
      [Text("Property"), Text("Value")],
      [Text("Company"), Info(metadata, "company")],
      [Text("Period"), Info(metadata, "period")],
      [Text("Bank"), Info(metadata, "bank")],
      [Text("Username"), Info(metadata, "username")],
      [Text("Processing Date"), Info(metadata, "processed_at")],
      [Text(""), Text("")],
      [Text("FINANCIAL SUMMARY"), Text("")],
      [Text("Merchandise Subtotal"), Figure(summary, "merchandise_subtotal")],
      [Text("Product Price"), Figure(summary, "product_price")],
      [Text("Refund Amount"), Figure(summary, "refund_amount")],
      [Text("Shipping Subtotal"), Figure(summary, "shipping_subtotal")],
      [Text("Fees and Charges"), Figure(summary, "fees_and_charges")],
      [Text("Commission Fee"), Figure(summary, "commission_fee")],
      [Text("Service Fee"), Figure(summary, "service_fee")],
      [Text("Transaction Fee"), Figure(summary, "transaction_fee")],
      [Text("Total Payout Released"), Figure(summary, "total_payout")],
      [Text("Amount Paid By Buyer"), Figure(summary, "amount_paid_by_buyer")]
    ], "Document information and financial summary");
    t
  }

  /** The report lists the ten figures in the order of the patterns, each the
      summary's value or 0 when the summary lacks it. */
  lemma SummaryFigures(metadata: map<string, string>, summary: map<string, real>)
    ensures |AmountFields| == 10
    ensures forall i :: 0 <= i < |AmountFields| ==>
              SummaryReport(metadata, summary).data[8 + i][1] == Money(GetOr(summary, AmountFields[i].key, 0.0))
  {
    AmountFieldsWellFormed();
  }

  /** Each document line shows its metadata value, or `N/A` when the metadata lacks it. */
  lemma SummaryInfo(metadata: map<string, string>, summary: map<string, real>)
    ensures var keys := ["company", "period", "bank", "username", "processed_at"];
            forall i :: 0 <= i < 5 ==>
              && (keys[i] in metadata ==> SummaryReport(metadata, summary).data[1 + i][1] == Text(metadata[keys[i]]))
              && (keys[i] !in metadata ==> SummaryReport(metadata, summary).data[1 + i][1] == Text("N/A"))
  {
  }

  // ---------------------------------------------------------------------------
  // Table 2: Daily_Payout_Details

  const DailyHeader: seq<Cell> := [
    Text("Date"), Text("Product_Price"), Text("Refund_Amount"), Text("Rebate_By_Shopee"), Text("Voucher_By_Seller"),
    Text("Shipping_Fee_By_Buyer"), Text("Shipping_Fee_By_Logistic"), Text("Shipping_Rebate"),
    Text("Reverse_Shipping"), Text("Fee_Saver_Savings"), Text("Commission_Fee"), Text("Service_Fee"),
    Text("Transaction_Fee"), Text("Fee_Saver_Fee"), Text("Total_Payout")
  ]

  /** The seven days of the statement, as the source writes them out. */
  const DailyRows: seq<seq<Cell>> := [
    [Text("2025-08-18"), Number(2822.54), Number(-12.60), Number(0.00), Number(-21.00), Number(41.79), Number(-381.26), Number(101.49), Number(0.00), Number(2.03), Number(-212.69), Number(-167.76), Number(-92.56), Number(-12.75), Number(2067.23)],
    [Text("2025-08-19"), Number(2628.49), Number(-206.88), Number(0.00), Number(-39.00), Number(31.84), Number(-294.67), Number(85.57), Number(-12.07), Number(24.17), Number(-181.79), Number(-149.47), Number(-78.96), Number(-11.25), Number(1795.98)],
    [Text("2025-08-20"), Number(2621.93), Number(0.00), Number(0.00), Number(-42.00), Number(51.74), Number(-332.49), Number(91.54), Number(0.00), Number(0.00), Number(-196.79), Number(-161.09), Number(-86.08), Number(-12.15), Number(1934.61)],
    [Text("2025-08-21"), Number(2540.83), Number(-17.27), Number(0.00), Number(-45.00), Number(39.80), Number(-301.63), Number(81.59), Number(0.00), Number(0.00), Number(-189.08), Number(-158.67), Number(-82.37), Number(-11.40), Number(1856.80)],
    [Text("2025-08-22"), Number(1967.22), Number(0.00), Number(0.00), Number(-63.00), Number(25.87), Number(-218.26), Number(61.69), Number(0.00), Number(0.00), Number(-145.22), Number(-121.64), Number(-63.10), Number(-8.70), Number(1434.86)],
    [Text("2025-08-23"), Number(2157.41), Number(-13.90), Number(0.00), Number(-6.00), Number(23.88), Number(-245.75), Number(75.62), Number(0.00), Number(2.03), Number(-163.08), Number(-128.86), Number(-71.15), Number(-9.00), Number(1621.20)],
    [Text("2025-08-24"), Number(1891.28), Number(0.00), Number(0.66), Number(-6.00), Number(25.87), Number(-242.84), Number(73.63), Number(0.00), Number(0.00), Number(-143.90), Number(-117.13), Number(-62.53), Number(-9.00), Number(1410.04)]
  ]

  const DailyTotals: seq<Cell> := [
    Text("TOTAL"), Number(16629.70), Number(-250.65), Number(0.66), Number(-222.00), Number(240.79), Number(-2016.90), Number(571.13),
    Number(-12.07), Number(28.23), Number(-1232.55), Number(-1004.62), Number(-536.75), Number(-74.25), Number(12120.72)
  ]

  function DailyPayoutDetails(): (t: Table)
    ensures t.name == "Daily_Payout_Details" && Rectangular(t) && |t.data[0]| == 15
    ensures t.data == [DailyHeader] + DailyRows + [DailyTotals]
  {
    Table("Daily_Payout_Details", [DailyHeader] + DailyRows + [DailyTotals], "Daily breakdown of payout details")
  }

  /** The sum of column `j` over the first `n` rows. */
  function ColumnSum(rows: seq<seq<Cell>>, j: nat, n: nat): real
    requires n <= |rows| && forall i :: 0 <= i < |rows| ==> j < |rows[i]|
  {
    if n == 0 then 0.0 else ColumnSum(rows, j, n - 1) + Num(rows[n - 1][j])
  }

  /** The sum of the cells `lo .. hi - 1` of one row. */
  function RowSum(row: seq<Cell>, lo: nat, hi: nat): real
    requires lo <= hi <= |row|
    decreases hi - lo
  {
    if lo == hi then 0.0 else Num(row[lo]) + RowSum(row, lo + 1, hi)
  }

  /** The hard-coded TOTAL row holds the column sums of the seven days, to the cent. */
  lemma DailyTotalsAreColumnSums()
    ensures forall j :: 1 <= j < 15 ==> Num(DailyTotals[j]) == ColumnSum(DailyRows, j, 7)
  {
    forall j | 1 <= j < 15 ensures Num(DailyTotals[j]) == ColumnSum(DailyRows, j, 7) {
      ColumnSumOfSeven(DailyRows, j);
    }
  }

  lemma ColumnSumOfSeven(rows: seq<seq<Cell>>, j: nat)
    requires |rows| == 7 && forall i :: 0 <= i < 7 ==> j < |rows[i]|
    ensures ColumnSum(rows, j, 7) ==
              Num(rows[0][j]) + Num(rows[1][j]) + Num(rows[2][j]) + Num(rows[3][j]) +
              Num(rows[4][j]) + Num(rows[5][j]) + Num(rows[6][j])
  {
    assert ColumnSum(rows, j, 1) == Num(rows[0][j]);
    assert ColumnSum(rows, j, 2) == ColumnSum(rows, j, 1) + Num(rows[1][j]);
    assert ColumnSum(rows, j, 3) == ColumnSum(rows, j, 2) + Num(rows[2][j]);
    assert ColumnSum(rows, j, 4) == ColumnSum(rows, j, 3) + Num(rows[3][j]);
    assert ColumnSum(rows, j, 5) == ColumnSum(rows, j, 4) + Num(rows[4][j]);
    assert ColumnSum(rows, j, 6) == ColumnSum(rows, j, 5) + Num(rows[5][j]);
  }

  /** Each day's Total_Payout is the sum of its thirteen other figures. */
  lemma DailyRowsBalance()
    ensures forall i :: 0 <= i < |DailyRows| ==> |DailyRows[i]| == 15 && Num(DailyRows[i][14]) == RowSum(DailyRows[i], 1, 14)
  {
    forall i | 0 <= i < |DailyRows| ensures |DailyRows[i]| == 15 && Num(DailyRows[i][14]) == RowSum(DailyRows[i], 1, 14) {
      RowSumOfThirteen(DailyRows[i]);
    }
  }

  lemma RowSumOfThirteen(row: seq<Cell>)
    requires |row| == 15
    ensures RowSum(row, 1, 14) ==
              Num(row[1]) + Num(row[2]) + Num(row[3]) + Num(row[4]) + Num(row[5]) + Num(row[6]) + Num(row[7]) +
              Num(row[8]) + Num(row[9]) + Num(row[10]) + Num(row[11]) + Num(row[12]) + Num(row[13])
  {
    assert RowSum(row, 13, 14) == Num(row[13]);
    assert RowSum(row, 12, 14) == Num(row[12]) + RowSum(row, 13, 14);
    assert RowSum(row, 11, 14) == Num(row[11]) + RowSum(row, 12, 14);
    assert RowSum(row, 10, 14) == Num(row[10]) + RowSum(row, 11, 14);
    assert RowSum(row, 9, 14) == Num(row[9]) + RowSum(row, 10, 14);
    assert RowSum(row, 8, 14) == Num(row[8]) + RowSum(row, 9, 14);
    assert RowSum(row, 7, 14) == Num(row[7]) + RowSum(row, 8, 14);
    assert RowSum(row, 6, 14) == Num(row[6]) + RowSum(row, 7, 14);
    assert RowSum(row, 5, 14) == Num(row[5]) + RowSum(row, 6, 14);
    assert RowSum(row, 4, 14) == Num(row[4]) + RowSum(row, 5, 14);
    assert RowSum(row, 3, 14) == Num(row[3]) + RowSum(row, 4, 14);
    assert RowSum(row, 2, 14) == Num(row[2]) + RowSum(row, 3, 14);
  }

  // ---------------------------------------------------------------------------
  // Table 3: Order_Adjustments

  const AdjustmentRows: seq<seq<Cell>> := [
    [Text("2025-08-18"), Text("Return Refund"), Number(-17.71), Text("Return Refund Adjustment After Order Completed")],
    [Text("2025-08-21"), Text("Logistic Compensation"), Number(14.27), Text("Logistic Issue Adjustment/Compensation")]
  ]

  const AdjustmentTotal: seq<Cell> := [Text("TOTAL"), Text("Net Adjustment"), Number(-3.44), Text("Total adjustment amount")]

  function OrderAdjustments(): (t: Table)
    ensures t.name == "Order_Adjustments" && Rectangular(t) && |t.data[0]| == 4
    ensures t.data == [[Text("Date"), Text("Adjustment_Type"), Text("Amount_SGD"), Text("Description")]] + AdjustmentRows + [AdjustmentTotal]
  {
    Table("Order_Adjustments",
          [[Text("Date"), Text("Adjustment_Type"), Text("Amount_SGD"), Text("Description")]] + AdjustmentRows + [AdjustmentTotal],
          "Order adjustments and compensations")
  }

  /** The net adjustment is the sum of the two adjustments. */
  lemma AdjustmentTotalIsSum()
    ensures Num(AdjustmentTotal[2]) == ColumnSum(AdjustmentRows, 2, 2)
  {
  }

  // ---------------------------------------------------------------------------
  // Table 4: Business_Analytics

  /** `total_fees / total_revenue * 100` when the revenue is positive, else 0. */
  function FeeRate(fees: real, revenue: real): (r: real)
    requires fees >= 0.0
    ensures r >= 0.0
    ensures revenue > 0.0 ==> r * revenue == fees * 100.0
    ensures revenue <= 0.0 ==> r == 0.0
  {
    if revenue > 0.0 then fees / revenue * 100.0 else 0.0
  }

  /** The profit-margin cell: `net / revenue * 100` as a rate when the revenue is positive, else the text `0%`. */
  function ProfitMargin(net: real, revenue: real): (c: Cell)
    ensures c.Text? <==> revenue <= 0.0
    ensures c.Text? ==> c == Text("0%")
    ensures c.Percent? <==> revenue > 0.0
    ensures c.Percent? ==> c.x * revenue == net * 100.0
  {
    if revenue > 0.0 then Percent(net / revenue * 100.0) else Text("0%")
  }

  /** The product-price column: best and lowest day. */
  const BestDay: string := "$2,822.54"
  const LowestDay: string := "$1,891.28"

  function BusinessAnalytics(summary: map<string, real>): (t: Table)
    ensures t.name == "Business_Analytics" && Rectangular(t) && |t.data| == 9 && |t.data[0]| == 3
    ensures var revenue := GetOr(summary, "product_price", 0.0);
            var fees := Abs(GetOr(summary, "fees_and_charges", 0.0));
            && t.data[1][1] == Money(revenue)
            && t.data[2][1] == Money(fees) && fees >= 0.0
            && t.data[3][1] == Money(GetOr(summary, "total_payout", 0.0))
            && t.data[4][1] == Percent(FeeRate(fees, revenue))
            && t.data[5][1] == Money(revenue / 7.0) && Num(t.data[5][1]) * 7.0 == revenue
            && t.data[6][1] == ProfitMargin(GetOr(summary, "total_payout", 0.0), revenue)
            && t.data[7][1] == Text(BestDay) && t.data[8][1] == Text(LowestDay)
  {
    var revenue := GetOr(summary, "product_price", 0.0);
    var fees := Abs(GetOr(summary, "fees_and_charges", 0.0));
    var net := GetOr(summary, "total_payout", 0.0);
    Table("Business_Analytics", [
      [Text("Metric"), Text("Value"), Text("Analysis")],
      [Text("Total Revenue"), Money(revenue), Text("Gross product sales")],
      [Text("Total Platform Fees"), Money(fees), Text("Shopee platform costs")],
      [Text("Net Payout"), Money(net), Text("Final amount received")],
      [Text("Effective Fee Rate"), Percent(FeeRate(fees, revenue)), Text("Platform fee percentage")],
      [Text("Average Daily Sales"), Money(revenue / 7.0), Text("7-day average")],
      [Text("Profit Margin"), ProfitMargin(net, revenue), Text("Net profit percentage")],
      [Text("Best Day Revenue"), Text(BestDay), Text("2025-08-18 (highest sales)")],
      [Text("Lowest Day Revenue"), Text(LowestDay), Text("2025-08-24 (lowest sales)")]
    ], "Business performance metrics and analysis")
  }

  /** The best and lowest day quoted in the analytics are the largest and the
      smallest Product_Price of the daily table, printed the way the statement prints money. */
  lemma BestAndLowestDays()
    ensures forall i :: 0 <= i < |DailyRows| ==> Num(DailyRows[6][1]) <= Num(DailyRows[i][1]) <= Num(DailyRows[0][1])
    ensures DailyRows[0][0] == Text("2025-08-18") && Num(DailyRows[0][1]) == 282254 as real / 100.0
    ensures DailyRows[6][0] == Text("2025-08-24") && Num(DailyRows[6][1]) == 189128 as real / 100.0
    ensures BestDay == "$" + PrintedAmount(282254)
    ensures LowestDay == "$" + PrintedAmount(189128)
  {
    BestDayAmount();
    LowestDayAmount();
  }

  lemma BestDayAmount()
    ensures PrintedAmount(282254) == "2,822.54"
  {
    DigitsOf2822();
    GroupedDigits("2822");
    assert Cents(54) == "54";
    assert PrintedAmount(282254) == Group3(NatDigits(2822)) + "." + Cents(54);
  }

  lemma LowestDayAmount()
    ensures PrintedAmount(189128) == "1,891.28"
  {
    DigitsOf1891();
    GroupedDigits("1891");
    assert Cents(28) == "28";
    assert PrintedAmount(189128) == Group3(NatDigits(1891)) + "." + Cents(28);
  }

  lemma DigitsOf2822()
    ensures NatDigits(2822) == "2822"
  {
    assert NatDigits(28) == "28" by { assert NatDigits(2) == "2"; }
    assert NatDigits(282) == "282";
  }

  lemma DigitsOf1891()
    ensures NatDigits(1891) == "1891"
  {
    assert NatDigits(18) == "18" by { assert NatDigits(1) == "1"; }
    assert NatDigits(189) == "189";
  }

  /** Four digits take one comma, after the first. */
  lemma GroupedDigits(ds: string)
    requires |ds| == 4 && TextUtil.AllDigits(ds)
    ensures Group3(ds) == ds[..1] + "," + ds[1..]
  {
    assert Group3(ds[..1]) == ds[..1];
  }

  // ---------------------------------------------------------------------------
  // All four

  /** The tables `create_structured_tables` leaves in `self.tables`. */
  function StructuredTables(metadata: map<string, string>, summary: map<string, real>): (ts: seq<Table>)
    ensures |ts| == 4
    ensures ts[0].name == "Summary_Report" && ts[1].name == "Daily_Payout_Details"
    ensures ts[2].name == "Order_Adjustments" && ts[3].name == "Business_Analytics"
    ensures forall i :: 0 <= i < |ts| ==> Rectangular(ts[i])
  {
    [SummaryReport(metadata, summary), DailyPayoutDetails(), OrderAdjustments(), BusinessAnalytics(summary)]
  }
}
