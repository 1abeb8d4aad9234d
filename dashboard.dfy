/** The dashboard (client/src/pages/Dashboard.jsx): this month's sales,
    expenses and net, the chart values held at 0, the inventory snapshot,
    and the five most recent invoices with their paid amount, due and
    status. Dates arrive as the calendar month they fall in (the clock that
    names the current month is a parameter); `safeNumber` is `AmountOf`. */
module Dashboard {
  import opened Wrappers
  import opened Seqs
  import opened JsNumber
  import PurchaseInvoices

  /** A calendar month: its year and its month 0–11 as `getMonth` gives it. */
  datatype Month = Month(year: int, month: int)

  datatype Customer = Customer(customerName: string, shopName: string)

  /** A sale as the dashboard reads it; `saleMonth` is the month its date
      falls in (None when the date is missing or not a date) and `payments`
      the paid amounts (None when the field is missing). */
  datatype Sale = Sale(id: nat, invoiceNo: string, customer: Option<Customer>, saleDate: string,
                       saleMonth: Option<Month>, totalPayable: Input, payments: Option<seq<Input>>)

  datatype Expense = Expense(expenseMonth: Option<Month>, amount: Input)

  /** A salary expense: `parts` holds the `parseInt`s of the year and month
      parts of its "YYYY-MM" month (None when the field is empty). */
  datatype Salary = Salary(parts: Option<(Num, Num)>, amount: Input)

  // ---------------------------------------------------------------------
  // This month's figures
  // ---------------------------------------------------------------------

  function SaleTerm(s: Sale, m: Month): real
  {
    if s.saleMonth == Some(m) then AmountOf(s.totalPayable) else 0.0
  }

  function ExpenseTerm(e: Expense, m: Month): real
  {
    if e.expenseMonth == Some(m) then AmountOf(e.amount) else 0.0
  }

  /** A salary counts when its parsed year is the year and its parsed
      month less 1 is the month; a part that does not parse never matches. */
  function SalaryTerm(s: Salary, m: Month): real
  {
    if s.parts.Some? && s.parts.value.0 == Fin(m.year as real) && s.parts.value.1.Fin?
       && s.parts.value.1.v - 1.0 == m.month as real
    then AmountOf(s.amount) else 0.0
  }

  /** The payable amounts of the sales dated in month m. */
  function SalesIn(sales: seq<Sale>, m: Month): real
  {
    if sales == [] then 0.0 else SalesIn(sales[..|sales| - 1], m) + SaleTerm(sales[|sales| - 1], m)
  }

  /** The amounts of the expenses dated in month m. */
  function ExpensesIn(expenses: seq<Expense>, m: Month): real
  {
    if expenses == [] then 0.0
    else ExpensesIn(expenses[..|expenses| - 1], m) + ExpenseTerm(expenses[|expenses| - 1], m)
  }

  /** The amounts of the salaries of month m. */
  function SalariesIn(salaries: seq<Salary>, m: Month): real
  {
    if salaries == [] then 0.0
    else SalariesIn(salaries[..|salaries| - 1], m) + SalaryTerm(salaries[|salaries| - 1], m)
  }

  /** The month's sales are the payable amounts of exactly the sales dated
      in it: those of the other months add nothing. */
  predicate DatedIn(m: Month, s: Sale) { s.saleMonth == Some(m) }

  function Payable(s: Sale): real { AmountOf(s.totalPayable) }

  lemma {:induction false} SalesInIsFilteredSum(sales: seq<Sale>, m: Month)
    ensures SalesIn(sales, m) == Sum(Filter(sales, s => DatedIn(m, s)), Payable)
  {
    var p := s => DatedIn(m, s);
    if sales != [] {
      var init, last := sales[..|sales| - 1], sales[|sales| - 1];
      SalesInIsFilteredSum(init, m);
      assert sales == init + [last];
      FilterAppend(init, [last], p);
      assert [last][..0] == [];
      var tail := if p(last) then [last] else [];
      assert Filter([last], p) == tail;
      SumAppend(Filter(init, p), tail, Payable);
      if p(last) {
        SumSingleton(last, Payable);
      }
    }
  }

  /** `useMemo` of the month's stats: the three `forEach` loops add up the
      month's sales, then its expenses and then its salaries, and the net
      is sales less expenses. */
  method MonthlyStats(sales: seq<Sale>, expenses: seq<Expense>, salaries: seq<Salary>, current: Month)
    returns (salesThisMonth: real, expensesThisMonth: real, netThisMonth: real)
    ensures salesThisMonth == SalesIn(sales, current)
    ensures expensesThisMonth == ExpensesIn(expenses, current) + SalariesIn(salaries, current)
    ensures netThisMonth == salesThisMonth - expensesThisMonth
  {
    salesThisMonth := 0.0;
    expensesThisMonth := 0.0;
    var i := 0;
    while i < |sales|
      invariant 0 <= i <= |sales|
      invariant salesThisMonth == SalesIn(sales[..i], current)
    {
      assert sales[..i + 1][..i] == sales[..i];
      if sales[i].saleMonth == Some(current) {
        salesThisMonth := salesThisMonth + AmountOf(sales[i].totalPayable);
      }
      i := i + 1;
    }
    assert sales[..|sales|] == sales;
    var j := 0;
    while j < |expenses|
      invariant 0 <= j <= |expenses|
      invariant expensesThisMonth == ExpensesIn(expenses[..j], current)
    {
      assert expenses[..j + 1][..j] == expenses[..j];
      if expenses[j].expenseMonth == Some(current) {
        expensesThisMonth := expensesThisMonth + AmountOf(expenses[j].amount);
      }
      j := j + 1;
    }
    assert expenses[..|expenses|] == expenses;
    var k := 0;
    while k < |salaries|
      invariant 0 <= k <= |salaries|
      invariant expensesThisMonth == ExpensesIn(expenses, current) + SalariesIn(salaries[..k], current)
    {
      assert salaries[..k + 1][..k] == salaries[..k];
      var s := salaries[k];
      if s.parts.Some? {
        var (y, mo) := s.parts.value;
        if y == Fin(current.year as real) && mo.Fin? && mo.v - 1.0 == current.month as real {
          expensesThisMonth := expensesThisMonth + AmountOf(s.amount);
        }
      }
      k := k + 1;
    }
    assert salaries[..|salaries|] == salaries;
    netThisMonth := salesThisMonth - expensesThisMonth;
  }

  /** `salesVsExpenseData`: the chart shows each figure held at 0. */
  function ChartValues(salesThisMonth: real, expensesThisMonth: real): (r: (real, real))
    ensures r.0 >= 0.0 && r.1 >= 0.0
    ensures salesThisMonth >= 0.0 ==> r.0 == salesThisMonth
    ensures expensesThisMonth >= 0.0 ==> r.1 == expensesThisMonth
    ensures salesThisMonth < 0.0 ==> r.0 == 0.0
    ensures expensesThisMonth < 0.0 ==> r.1 == 0.0
  {
    (Max0(salesThisMonth), Max0(expensesThisMonth))
  }

  // ---------------------------------------------------------------------
  // The inventory snapshot
  // ---------------------------------------------------------------------

  /** A stock row: its quantities (None when null), its reorder level
      (Some only when it is a number) and its value field. */
  datatype StockRow = StockRow(currentQty: Option<int>, damageQty: Option<int>, reorderLevel: Option<int>,
                               stockValue: Input)

  /** `x || 0` on a quantity. */
  function CurrentOf(r: StockRow): int { if r.currentQty.Some? then r.currentQty.value else 0 }

  function DamageOf(r: StockRow): int { if r.damageQty.Some? then r.damageQty.value else 0 }

  function ValueOfRow(r: StockRow): real { AmountOf(r.stockValue) }

  /** A low row: a numeric reorder level and a quantity (null read as 0)
      at most that level. */
  predicate IsLow(r: StockRow)
  {
    r.reorderLevel.Some? && CurrentOf(r) <= r.reorderLevel.value
  }

  datatype Inventory = Inventory(totalOnHand: int, lowStockCount: nat, damagedCount: int, stockValue: real)

  /** `inventorySnapshot`. */
  function InventorySnapshot(stocks: seq<StockRow>): (r: Inventory)
    ensures r.lowStockCount <= |stocks|
  {
    Inventory(IntSum(stocks, CurrentOf), Count(stocks, IsLow), IntSum(stocks, DamageOf), Sum(stocks, ValueOfRow))
  }

  /** The snapshot of two lists of rows together is the two snapshots
      added figure by figure. */
  lemma InventoryAppend(a: seq<StockRow>, b: seq<StockRow>)
    ensures var ra, rb, r := InventorySnapshot(a), InventorySnapshot(b), InventorySnapshot(a + b);
            r.totalOnHand == ra.totalOnHand + rb.totalOnHand
            && r.lowStockCount == ra.lowStockCount + rb.lowStockCount
            && r.damagedCount == ra.damagedCount + rb.damagedCount
            && r.stockValue == ra.stockValue + rb.stockValue
  {
    IntSumAppend(a, b, CurrentOf);
    IntSumAppend(a, b, DamageOf);
    SumAppend(a, b, ValueOfRow);
    FilterAppend(a, b, IsLow);
  }

  /** One row counts as low exactly when it has a numeric reorder level
      and its quantity is at most that level. */
  lemma LowStockOfOne(r: StockRow)
    ensures InventorySnapshot([r]).lowStockCount == 1 <==> r.reorderLevel.Some? && CurrentOf(r) <= r.reorderLevel.value
    ensures InventorySnapshot([r]).lowStockCount == 0 <==> !IsLow(r)
  {
    assert [r][..0] == [];
    assert Filter([r], IsLow) == Filter([], IsLow) + (if IsLow(r) then [r] else []);
  }

  // ---------------------------------------------------------------------
  // Recent invoices
  // ---------------------------------------------------------------------

  /** The status of a recent invoice: Unpaid when nothing is paid of a
      positive payable, Paid when nothing is due of a positive payable,
      Partially Paid when something is paid and something due, else N/A. */
  function StatusOf(payable: real, paid: real): (s: PurchaseInvoices.Status)
    ensures s == PurchaseInvoices.Unpaid <==> paid <= 0.0 && payable > 0.0
    ensures s == PurchaseInvoices.Paid <==> paid > 0.0 && payable > 0.0 && paid >= payable
    ensures s == PurchaseInvoices.PartiallyPaid <==> paid > 0.0 && payable > paid
    ensures s == PurchaseInvoices.NotApplicable <==> payable <= 0.0
  {
    var due := Max0(payable - paid);
    if paid <= 0.0 && payable > 0.0 then PurchaseInvoices.Unpaid
    else if due <= 0.0 && payable > 0.0 then PurchaseInvoices.Paid
    else if due > 0.0 && paid > 0.0 then PurchaseInvoices.PartiallyPaid
    else PurchaseInvoices.NotApplicable
  }

  /** The dashboard's status and the purchase list's `computeStatus` agree
      except on a payable not above 0 with something paid, which the
      dashboard calls N/A and the purchase list Paid. */
  lemma AgreesWithPurchaseStatus(payable: real, paid: real)
    ensures StatusOf(payable, paid) == PurchaseInvoices.ComputeStatus(payable, paid)
            <==> !(payable <= 0.0 && paid > 0.0)
    ensures payable <= 0.0 && paid > 0.0 ==>
              StatusOf(payable, paid) == PurchaseInvoices.NotApplicable
              && PurchaseInvoices.ComputeStatus(payable, paid) == PurchaseInvoices.Paid
  {
  }

  /** The status agrees with the due: Paid leaves nothing due, Partially
      Paid leaves something due, Unpaid leaves the whole payable due. */
  lemma StatusMatchesDue(payable: real, paid: real)
    ensures var due := Max0(payable - paid);
            (StatusOf(payable, paid) == PurchaseInvoices.Paid ==> due == 0.0)
            && (StatusOf(payable, paid) == PurchaseInvoices.PartiallyPaid ==> 0.0 < due < payable)
            && (StatusOf(payable, paid) == PurchaseInvoices.Unpaid ==> due >= payable)
  {
  }

  /** `customer_name || shop_name || "N/A"`. */
  function CustomerLabel(c: Option<Customer>): (r: string)
    ensures r != ""
  {
    if c.Some? && c.value.customerName != "" then c.value.customerName
    else if c.Some? && c.value.shopName != "" then c.value.shopName
    else "N/A"
  }

  /** The paid amounts of a sale added up; a missing list is 0. */
  function PaidOf(s: Sale): real
  {
    if s.payments.None? then 0.0 else Sum(s.payments.value, AmountOf)
  }

  datatype RecentRow = RecentRow(id: nat, invoiceNo: string, customer: string, amount: real, paid: real, due: real,
                                 status: PurchaseInvoices.Status, date: string)

  /** One recent invoice: the payable, what was paid, the due held at 0
      and the status. */
  function RowOf(s: Sale): (r: RecentRow)
    ensures r.amount == AmountOf(s.totalPayable) && r.paid == PaidOf(s)
    ensures r.due >= 0.0 && r.due >= r.amount - r.paid && (r.due == 0.0 || r.due == r.amount - r.paid)
    ensures r.status == StatusOf(r.amount, r.paid)
  {
    var payable := AmountOf(s.totalPayable);
    var paid := PaidOf(s);
    RecentRow(s.id, s.invoiceNo, CustomerLabel(s.customer), payable, paid, Max0(payable - paid),
              StatusOf(payable, paid), s.saleDate)
  }

  function MapRows(sales: seq<Sale>): (r: seq<RecentRow>)
    ensures |r| == |sales| && forall i :: 0 <= i < |sales| ==> r[i] == RowOf(sales[i])
  {
    if sales == [] then [] else MapRows(sales[..|sales| - 1]) + [RowOf(sales[|sales| - 1])]
  }

  /** `recentInvoices`: the first five sales as listed (fewer when there
      are fewer), each as its row. */
  function RecentInvoices(sales: seq<Sale>): (r: seq<RecentRow>)
    ensures |r| == if |sales| < 5 then |sales| else 5
    ensures forall i :: 0 <= i < |r| ==> r[i] == RowOf(sales[i])
  {
    MapRows(if |sales| < 5 then sales else sales[..5])
  }
}
