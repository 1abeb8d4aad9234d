/** The combined expense report (client/src/pages/expenses/ExpenseReport.jsx):
    general expenses, salaries and purchases, each filtered by a date range,
    then totalled. Turning a date string into a moment (`new Date`) is a
    parameter `parse` giving a day number, or None for an invalid date. */
module ExpenseReport {
  import opened Wrappers
  import opened Text
  import opened Seqs
  import opened JsNumber

  type Parser = string -> Option<int>

  /** `inRange(dateStr)` for the bounds `from` and `to` ("" when unset):
      everything passes without bounds; then a missing date fails, a date
      that does not parse passes, and a parsed one must lie on or after the
      start day and on or before the end day. A bound that does not parse
      compares false, so it excludes nothing. */
  function InRange(dateStr: string, from: string, to: string, parse: Parser): (r: bool)
    ensures from == "" && to == "" ==> r
    ensures (from != "" || to != "") && dateStr == "" ==> !r
    ensures dateStr != "" && parse(dateStr).None? ==> r
  {
    if from == "" && to == "" then true
    else if dateStr == "" then false
    else match parse(dateStr)
      case None => true
      case Some(d) =>
        (from == "" || parse(from).None? || d >= parse(from).value)
        && (to == "" || parse(to).None? || d <= parse(to).value)
  }

  /** With both bounds valid dates, a valid date is in range exactly when it
      lies between them, both days included. */
  lemma InRangeBetween(dateStr: string, from: string, to: string, parse: Parser)
    requires dateStr != "" && from != "" && to != ""
    requires parse(dateStr).Some? && parse(from).Some? && parse(to).Some?
    ensures InRange(dateStr, from, to, parse)
            <==> parse(from).value <= parse(dateStr).value <= parse(to).value
  {
  }

  /** `safeNumber(value)` on a field that may be null (None). */
  function Safe(v: Option<Input>): real
  {
    if v.Some? then AmountOf(v.value) else 0.0
  }

  datatype General = General(expenseDate: string, date: string, createdAt: string, amount: Option<Input>)

  /** `expense_date || date || created_at`. */
  function GeneralDate(e: General): (d: string)
    ensures d == "" <==> e.expenseDate == "" && e.date == "" && e.createdAt == ""
  {
    if e.expenseDate != "" then e.expenseDate else if e.date != "" then e.date else e.createdAt
  }

  datatype Salary = Salary(salaryMonth: string, baseAmount: Option<Input>, amount: Option<Input>,
                           allowance: Option<Input>, bonus: Option<Input>, totalSalary: Option<Input>)

  datatype PurchaseRow = PurchaseRow(purchaseDate: string, totalPayable: Option<Input>)

  datatype Range = Range(from: string, to: string)

  function FilteredGeneral(rows: seq<General>, r: Range, parse: Parser): seq<General>
  {
    Filter(rows, e => InRange(GeneralDate(e), r.from, r.to, parse))
  }

  /** The first day of a salary month "YYYY-MM": `${y}-${m}-01`. */
  function MonthStart(month: string): string
  {
    var p := Split(month, '-');
    Part(p, 0) + "-" + Part(p, 1) + "-01"
  }

  /** The salary filter: no bounds or no month keeps the row. */
  predicate KeepSalary(s: Salary, r: Range, parse: Parser)
    ensures s.salaryMonth == "" ==> KeepSalary(s, r, parse)
  {
    if r.from == "" && r.to == "" then true
    else if s.salaryMonth == "" then true
    else InRange(MonthStart(s.salaryMonth), r.from, r.to, parse)
  }

  function FilteredSalary(rows: seq<Salary>, r: Range, parse: Parser): seq<Salary>
  {
    Filter(rows, s => KeepSalary(s, r, parse))
  }

  function FilteredPurchases(rows: seq<PurchaseRow>, r: Range, parse: Parser): seq<PurchaseRow>
  {
    Filter(rows, (p: PurchaseRow) => InRange(p.purchaseDate, r.from, r.to, parse))
  }

  /** One salary row's amount: `total_salary` when present, else base
      (`base_amount`, else `amount`, else 0) + allowance + bonus. */
  function SalaryAmount(s: Salary): (a: real)
    ensures s.totalSalary.Some? ==> a == AmountOf(s.totalSalary.value)
    ensures s.totalSalary.None? && s.baseAmount.None? && s.amount.None?
            ==> a == Safe(s.allowance) + Safe(s.bonus)
  {
    if s.totalSalary.Some? then Safe(s.totalSalary)
    else
      var base := if s.baseAmount.Some? then s.baseAmount else s.amount;
      Safe(base) + Safe(s.allowance) + Safe(s.bonus)
  }

  /** The report's figures. */
  datatype Totals = Totals(general: real, salary: real, purchase: real, grand: real, records: nat)

  function ReportTotals(general: seq<General>, salaries: seq<Salary>, purchases: seq<PurchaseRow>,
                        r: Range, parse: Parser): (t: Totals)
    ensures t.grand == t.general + t.salary + t.purchase
    ensures t.records == |FilteredGeneral(general, r, parse)| + |FilteredSalary(salaries, r, parse)|
                         + |FilteredPurchases(purchases, r, parse)|
    ensures t.records <= |general| + |salaries| + |purchases|
  {
    var g := FilteredGeneral(general, r, parse);
    var s := FilteredSalary(salaries, r, parse);
    var p := FilteredPurchases(purchases, r, parse);
    var tg := Sum(g, (e: General) => Safe(e.amount));
    var ts := Sum(s, SalaryAmount);
    var tp := Sum(p, (x: PurchaseRow) => Safe(x.totalPayable));
    Totals(tg, ts, tp, tg + ts + tp, |g| + |s| + |p|)
  }

  /** Without bounds nothing is filtered out: the totals are over every row. */
  lemma NoBoundsKeepsEverything(general: seq<General>, salaries: seq<Salary>, purchases: seq<PurchaseRow>,
                                parse: Parser)
    ensures var r := Range("", "");
            FilteredGeneral(general, r, parse) == general
            && FilteredSalary(salaries, r, parse) == salaries
            && FilteredPurchases(purchases, r, parse) == purchases
            && ReportTotals(general, salaries, purchases, r, parse).records
               == |general| + |salaries| + |purchases|
  {
    var r := Range("", "");
    FilterAll(general, e => InRange(GeneralDate(e), r.from, r.to, parse));
    FilterAll(salaries, s => KeepSalary(s, r, parse));
    FilterAll(purchases, (p: PurchaseRow) => InRange(p.purchaseDate, r.from, r.to, parse));
  }

  /** A month "YYYY-MM" is compared as its first day, "YYYY-MM-01". */
  lemma MonthStartOfMonth(year: string, month: string)
    requires '-' !in year && '-' !in month
    ensures MonthStart(year + "-" + month) == year + "-" + month + "-01"
  {
    var parts := [year, month];
    assert Join(parts, "-") == year + "-" + month;
    SplitJoin(parts, '-');
  }

  /** Widening the range never loses a row: a row inside a range whose
      bounds are valid dates is also inside any valid range around it. */
  lemma InRangeWidens(dateStr: string, from: string, to: string, from2: string, to2: string, parse: Parser)
    requires from != "" && to != "" && from2 != "" && to2 != ""
    requires parse(from).Some? && parse(to).Some? && parse(from2).Some? && parse(to2).Some?
    requires parse(from2).value <= parse(from).value && parse(to).value <= parse(to2).value
    requires InRange(dateStr, from, to, parse)
    ensures InRange(dateStr, from2, to2, parse)
  {
  }

  /** The totals over every row are the report's totals plus the totals
      of the rows the range hides, in each of the three registers. */
  lemma TotalsSplitByRange(general: seq<General>, salaries: seq<Salary>, purchases: seq<PurchaseRow>,
                           r: Range, parse: Parser)
    ensures var t := ReportTotals(general, salaries, purchases, r, parse);
            && Sum(general, (e: General) => Safe(e.amount))
               == t.general + Sum(Filter(general, e => !InRange(GeneralDate(e), r.from, r.to, parse)),
                                  (e: General) => Safe(e.amount))
            && Sum(salaries, SalaryAmount)
               == t.salary + Sum(Filter(salaries, s => !KeepSalary(s, r, parse)), SalaryAmount)
            && Sum(purchases, (x: PurchaseRow) => Safe(x.totalPayable))
               == t.purchase + Sum(Filter(purchases, (x: PurchaseRow) => !InRange(x.purchaseDate, r.from, r.to, parse)),
                                   (x: PurchaseRow) => Safe(x.totalPayable))
  {
    SumSplitByComplement(general, e => InRange(GeneralDate(e), r.from, r.to, parse),
                         e => !InRange(GeneralDate(e), r.from, r.to, parse), (e: General) => Safe(e.amount));
    SumSplitByComplement(salaries, s => KeepSalary(s, r, parse), s => !KeepSalary(s, r, parse), SalaryAmount);
    SumSplitByComplement(purchases, (x: PurchaseRow) => InRange(x.purchaseDate, r.from, r.to, parse),
                         (x: PurchaseRow) => !InRange(x.purchaseDate, r.from, r.to, parse),
                         (x: PurchaseRow) => Safe(x.totalPayable));
  }
}
