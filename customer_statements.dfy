/** The customer statement (client/src/pages/sales/CustomerStatements.jsx):
    for the selected customer, an opening row for the previous due, one
    invoice row per sale and one payment row per payment, sorted by date,
    with a running balance recomputed in the sorted order. Parsing a date
    into a time value is the parameter `timeOf`. */
module CustomerStatements {
  import opened Wrappers
  import opened Text
  import opened Seqs
  import opened Sorting
  import opened JsNumber

  datatype Customer = Customer(id: nat, name: string, previousDue: Input)

  /** A payment on a sale; an empty date or mode stands for a missing one. */
  datatype Payment = Payment(id: nat, paymentDate: string, paidAmount: Input, paymentMode: string)

  /** A sale; `customerId` is None when the sale has no customer. */
  datatype Sale = Sale(customerId: Option<nat>, saleDate: string, invoiceNo: string,
                       totalPayable: Input, payments: seq<Payment>)

  datatype RowKind = OpeningBalance | Invoice | PaymentReceived

  /** A statement line; `date` is "" where the page shows none. */
  datatype Row = Row(kind: RowKind, date: string, sortTime: int, reference: string, description: string,
                     debit: real, credit: real, balance: real)

  const Epoch := "1970-01-01"

  /** The index of the first customer whose id reads as `selectedId`, or -1. */
  function FirstMatch(customers: seq<Customer>, selectedId: string): (k: int)
    ensures -1 <= k < |customers|
    ensures k >= 0 ==> NatToString(customers[k].id) == selectedId
                       && forall j :: 0 <= j < k ==> NatToString(customers[j].id) != selectedId
    ensures k == -1 ==> forall j :: 0 <= j < |customers| ==> NatToString(customers[j].id) != selectedId
  {
    if customers == [] then -1
    else if NatToString(customers[0].id) == selectedId then 0
    else
      var k := FirstMatch(customers[1..], selectedId);
      if k == -1 then -1 else k + 1
  }

  /** `customers.find(c => String(c.id) === String(selectedCustomerId)) || null`. */
  function FindCustomer(customers: seq<Customer>, selectedId: string): (r: Option<Customer>)
    ensures r.None? <==> forall j :: 0 <= j < |customers| ==> NatToString(customers[j].id) != selectedId
    ensures r.Some? ==> exists i :: 0 <= i < |customers| && customers[i] == r.value
                          && NatToString(r.value.id) == selectedId
                          && forall j :: 0 <= j < i ==> NatToString(customers[j].id) != selectedId
  {
    var k := FirstMatch(customers, selectedId);
    if k == -1 then None else Some(customers[k])
  }

  /** `String(sale.customer?.id) === String(selectedCustomer.id)`: a sale
      without a customer matches nobody. */
  function CustomerSales(sales: seq<Sale>, id: nat): (r: seq<Sale>)
    ensures forall s :: s in r <==> s in sales && s.customerId == Some(id)
  {
    Filter(sales, (s: Sale) => s.customerId == Some(id))
  }

  /** `p.payment_date.slice(0, 10)`. */
  function FirstTen(s: string): (r: string)
    ensures |r| == if |s| <= 10 then |s| else 10
    ensures IsPrefix(r, s)
  {
    if |s| <= 10 then s else s[..10]
  }

  /** The opening row, pushed only for a non-zero previous due: a positive
      due is a debit, a negative one a credit of its size. Its provisional
      balance is overwritten before the rows are shown, and is 0 here. */
  function OpeningRows(opening: real, timeOf: string -> int): (r: seq<Row>)
  {
    if opening != 0.0 then
      [Row(OpeningBalance, "", timeOf(Epoch), "-", "Previous due balance",
           if opening > 0.0 then opening else 0.0, if opening < 0.0 then -opening else 0.0, 0.0)]
    else []
  }

  function InvoiceRow(sale: Sale, timeOf: string -> int): Row
  {
    Row(Invoice, sale.saleDate, timeOf(if sale.saleDate != "" then sale.saleDate else Epoch),
        if sale.invoiceNo != "" then sale.invoiceNo else "N/A", "Sale invoice",
        AmountOf(sale.totalPayable), 0.0, 0.0)
  }

  /** A payment is dated by its own date, else its sale's, else the epoch. */
  function PaymentRow(sale: Sale, p: Payment, timeOf: string -> int): Row
  {
    Row(PaymentReceived,
        if p.paymentDate != "" then FirstTen(p.paymentDate) else sale.saleDate,
        timeOf(if p.paymentDate != "" then p.paymentDate else if sale.saleDate != "" then sale.saleDate else Epoch),
        "PAY-" + NatToString(p.id),
        if p.paymentMode != "" then "Payment (" + p.paymentMode + ")" else "Payment received",
        0.0, AmountOf(p.paidAmount), 0.0)
  }

  function PaymentRows(sale: Sale, ps: seq<Payment>, timeOf: string -> int): (r: seq<Row>)
    ensures |r| == |ps|
  {
    if ps == [] then [] else PaymentRows(sale, ps[..|ps| - 1], timeOf) + [PaymentRow(sale, ps[|ps| - 1], timeOf)]
  }

  /** The rows of the sales in order: each invoice followed by its payments. */
  function SaleRows(sales: seq<Sale>, timeOf: string -> int): seq<Row>
  {
    if sales == [] then []
    else
      var last := sales[|sales| - 1];
      SaleRows(sales[..|sales| - 1], timeOf) + [InvoiceRow(last, timeOf)] + PaymentRows(last, last.payments, timeOf)
  }

  /** The rows before sorting. */
  function RawRows(opening: real, sales: seq<Sale>, timeOf: string -> int): seq<Row>
  {
    OpeningRows(opening, timeOf) + SaleRows(sales, timeOf)
  }

  function SaleAmount(s: Sale): real { AmountOf(s.totalPayable) }

  function PaidAmount(p: Payment): real { AmountOf(p.paidAmount) }

  function SalePaid(s: Sale): real { Sum(s.payments, PaidAmount) }

  function Invoiced(sales: seq<Sale>): real { Sum(sales, SaleAmount) }

  function Received(sales: seq<Sale>): real { Sum(sales, SalePaid) }

  function PaymentCount(sales: seq<Sale>): nat
  {
    if sales == [] then 0 else PaymentCount(sales[..|sales| - 1]) + |sales[|sales| - 1].payments|
  }

  /** debit - credit. */
  function Net(r: Row): real { r.debit - r.credit }

  /** `a.sortDate - b.sortDate`: ascending by time. */
  function RowKey(r: Row): Key { Key(r.sortTime, 0) }

  /** The balance after the row at index i, counted from `start`. */
  function BalanceAt(start: real, rows: seq<Row>, i: nat): real
    requires i < |rows|
  {
    start + Sum(rows[..i + 1], Net)
  }

  /** The `map` after the sort: each row's balance is `start` plus the net of
      every row up to and including it. */
  function Recompute(start: real, rows: seq<Row>): (r: seq<Row>)
    ensures |r| == |rows|
    ensures forall i {:trigger r[i]} :: 0 <= i < |rows| ==> r[i] == rows[i].(balance := BalanceAt(start, rows, i))
  {
    if rows == [] then []
    else
      var init := rows[..|rows| - 1];
      var r := Recompute(start, init) + [rows[|rows| - 1].(balance := start + Sum(rows, Net))];
      assert rows[..|rows|] == rows;
      assert forall i :: 0 <= i < |init| ==> BalanceAt(start, init, i) == BalanceAt(start, rows, i) by {
        forall i | 0 <= i < |init| ensures BalanceAt(start, init, i) == BalanceAt(start, rows, i) {
          assert init[..i + 1] == rows[..i + 1];
        }
      }
      r
  }

  lemma PaymentStep(sale: Sale, j: nat, timeOf: string -> int)
    requires j < |sale.payments|
    ensures PaymentRows(sale, sale.payments[..j + 1], timeOf)
            == PaymentRows(sale, sale.payments[..j], timeOf) + [PaymentRow(sale, sale.payments[j], timeOf)]
    ensures Sum(sale.payments[..j + 1], PaidAmount) == Sum(sale.payments[..j], PaidAmount) + PaidAmount(sale.payments[j])
  {
    var s := sale.payments[..j + 1];
    assert s[..|s| - 1] == sale.payments[..j] && s[|s| - 1] == sale.payments[j];
  }

  lemma SaleStep(mine: seq<Sale>, i: nat, timeOf: string -> int)
    requires i < |mine|
    ensures SaleRows(mine[..i + 1], timeOf)
            == SaleRows(mine[..i], timeOf) + [InvoiceRow(mine[i], timeOf)] + PaymentRows(mine[i], mine[i].payments, timeOf)
    ensures Invoiced(mine[..i + 1]) == Invoiced(mine[..i]) + SaleAmount(mine[i])
    ensures Received(mine[..i + 1]) == Received(mine[..i]) + SalePaid(mine[i])
  {
    assert mine[..i + 1][..i] == mine[..i];
  }

  /** The inner `forEach` over one sale's payments: a row pushed for each,
      and its amount added to what was received. */
  method PushPayments(sale: Sale, timeOf: string -> int, raw: seq<Row>, received: real)
    returns (raw': seq<Row>, received': real)
    ensures raw' == raw + PaymentRows(sale, sale.payments, timeOf)
    ensures received' == received + SalePaid(sale)
  {
    raw', received' := raw, received;
    for j := 0 to |sale.payments|
      invariant raw' == raw + PaymentRows(sale, sale.payments[..j], timeOf)
      invariant received' == received + Sum(sale.payments[..j], PaidAmount)
    {
      var p := sale.payments[j];
      received' := received' + AmountOf(p.paidAmount);
      PaymentStep(sale, j, timeOf);
      AppendAssoc(raw, PaymentRows(sale, sale.payments[..j], timeOf), [PaymentRow(sale, p, timeOf)]);
      raw' := raw' + [PaymentRow(sale, p, timeOf)];
    }
    assert sale.payments[..|sale.payments|] == sale.payments;
  }

  /** The outer `forEach` over the customer's sales, after the opening row:
      an invoice row per sale followed by its payment rows, with the
      invoiced and received totals accumulated beside them. */
  method CollectRows(opening: real, mine: seq<Sale>, timeOf: string -> int)
    returns (raw: seq<Row>, totalInvoiced: real, totalReceived: real)
    ensures raw == RawRows(opening, mine, timeOf)
    ensures totalInvoiced == Invoiced(mine) && totalReceived == Received(mine)
  {
    raw := [];
    if opening != 0.0 {
      raw := raw + [Row(OpeningBalance, "", timeOf(Epoch), "-", "Previous due balance",
                        if opening > 0.0 then opening else 0.0, if opening < 0.0 then -opening else 0.0, 0.0)];
    }
    totalInvoiced, totalReceived := 0.0, 0.0;
    for i := 0 to |mine|
      invariant raw == OpeningRows(opening, timeOf) + SaleRows(mine[..i], timeOf)
      invariant totalInvoiced == Invoiced(mine[..i])
      invariant totalReceived == Received(mine[..i])
    {
      var sale := mine[i];
      totalInvoiced := totalInvoiced + AmountOf(sale.totalPayable);
      raw := raw + [InvoiceRow(sale, timeOf)];
      raw, totalReceived := PushPayments(sale, timeOf, raw, totalReceived);
      SaleStep(mine, i, timeOf);
      ConcatAssoc(OpeningRows(opening, timeOf), SaleRows(mine[..i], timeOf), [InvoiceRow(sale, timeOf)],
                  PaymentRows(sale, sale.payments, timeOf));
    }
    assert mine[..|mine|] == mine;
  }

  /** The `map` after the sort, with `running` carried from `opening`. */
  method RunningBalances(opening: real, sorted: seq<Row>) returns (rows: seq<Row>, closing: real)
    ensures rows == Recompute(opening, sorted)
    ensures closing == opening + Sum(sorted, Net)
  {
    rows := [];
    var running := opening;
    for k := 0 to |sorted|
      invariant rows == Recompute(opening, sorted[..k])
      invariant running == opening + Sum(sorted[..k], Net)
    {
      running := running + sorted[k].debit - sorted[k].credit;
      assert sorted[..k + 1][..k] == sorted[..k];
      rows := rows + [sorted[k].(balance := running)];
    }
    assert sorted[..|sorted|] == sorted;
    closing := running;
  }

  /** The statement `useMemo`: rows, invoiced and received totals, opening
      and closing balance of the selected customer. */
  method Statement(customers: seq<Customer>, selectedId: string, sales: seq<Sale>, timeOf: string -> int)
    returns (rows: seq<Row>, totalInvoiced: real, totalReceived: real, opening: real, closing: real)
    ensures FindCustomer(customers, selectedId).None? ==>
              rows == [] && totalInvoiced == 0.0 && totalReceived == 0.0 && opening == 0.0 && closing == 0.0
    ensures FindCustomer(customers, selectedId).Some? ==>
              var c := FindCustomer(customers, selectedId).value;
              var mine := CustomerSales(sales, c.id);
              var sorted := Sort(RawRows(opening, mine, timeOf), RowKey);
              opening == AmountOf(c.previousDue)
              && totalInvoiced == Invoiced(mine) && totalReceived == Received(mine)
              && rows == Recompute(opening, sorted)
              && closing == opening + Sum(sorted, Net)
  {
    var found := FindCustomer(customers, selectedId);
    if found.None? {
      return [], 0.0, 0.0, 0.0, 0.0;
    }
    var mine := CustomerSales(sales, found.value.id);
    opening := AmountOf(found.value.previousDue);
    var raw;
    raw, totalInvoiced, totalReceived := CollectRows(opening, mine, timeOf);
    rows, closing := RunningBalances(opening, Sort(raw, RowKey));
  }

  // ---- properties of the statement ----

  /** The opening row exists exactly for a non-zero previous due, and its
      debit minus credit is that due, with both sides non-negative. */
  lemma OpeningRowMeaning(opening: real, timeOf: string -> int)
    ensures |OpeningRows(opening, timeOf)| == if opening != 0.0 then 1 else 0
    ensures opening != 0.0 ==>
              var r := OpeningRows(opening, timeOf)[0];
              r.kind == OpeningBalance && Net(r) == opening && r.debit >= 0.0 && r.credit >= 0.0
  {
  }

  predicate IsInvoiceRow(r: Row) { r.kind == Invoice }

  predicate IsPaymentRow(r: Row) { r.kind == PaymentReceived }

  lemma {:induction false} PaymentRowsKinds(sale: Sale, ps: seq<Payment>, timeOf: string -> int)
    ensures forall r :: r in PaymentRows(sale, ps, timeOf) ==> IsPaymentRow(r)
  {
    if ps != [] {
      PaymentRowsKinds(sale, ps[..|ps| - 1], timeOf);
    }
  }

  /** One invoice row per sale and one payment row per payment. */
  lemma {:induction false} RowCounts(sales: seq<Sale>, timeOf: string -> int)
    ensures Count(SaleRows(sales, timeOf), IsInvoiceRow) == |sales|
    ensures Count(SaleRows(sales, timeOf), IsPaymentRow) == PaymentCount(sales)
  {
    if sales != [] {
      var init := sales[..|sales| - 1];
      var last := sales[|sales| - 1];
      var ps := PaymentRows(last, last.payments, timeOf);
      RowCounts(init, timeOf);
      PaymentRowsKinds(last, last.payments, timeOf);
      FilterAppend(SaleRows(init, timeOf) + [InvoiceRow(last, timeOf)], ps, IsInvoiceRow);
      FilterAppend(SaleRows(init, timeOf), [InvoiceRow(last, timeOf)], IsInvoiceRow);
      FilterAppend(SaleRows(init, timeOf) + [InvoiceRow(last, timeOf)], ps, IsPaymentRow);
      FilterAppend(SaleRows(init, timeOf), [InvoiceRow(last, timeOf)], IsPaymentRow);
      FilterNone(ps, IsInvoiceRow);
      FilterAll(ps, IsPaymentRow);
    }
  }

  lemma {:induction false} PaymentRowsNet(sale: Sale, ps: seq<Payment>, timeOf: string -> int)
    ensures Sum(PaymentRows(sale, ps, timeOf), Net) == -Sum(ps, PaidAmount)
  {
    if ps != [] {
      PaymentRowsNet(sale, ps[..|ps| - 1], timeOf);
    }
  }

  /** The sales' rows net out to invoiced minus received. */
  lemma {:induction false} SaleRowsNet(sales: seq<Sale>, timeOf: string -> int)
    ensures Sum(SaleRows(sales, timeOf), Net) == Invoiced(sales) - Received(sales)
  {
    if sales != [] {
      var init := sales[..|sales| - 1];
      var last := sales[|sales| - 1];
      SaleRowsNet(init, timeOf);
      SumAppend(SaleRows(init, timeOf), [InvoiceRow(last, timeOf)], Net);
      SumAppend(SaleRows(init, timeOf) + [InvoiceRow(last, timeOf)], PaymentRows(last, last.payments, timeOf), Net);
      SumSingleton(InvoiceRow(last, timeOf), Net);
      PaymentRowsNet(last, last.payments, timeOf);
    }
  }

  /** All rows, opening row included, net out to the opening row's amount
      plus invoiced minus received, in whatever order they are sorted. */
  lemma SortedRowsNet(opening: real, sales: seq<Sale>, timeOf: string -> int)
    ensures Sum(Sort(RawRows(opening, sales, timeOf), RowKey), Net)
            == (if opening != 0.0 then opening else 0.0) + Invoiced(sales) - Received(sales)
  {
    SumSort(RawRows(opening, sales, timeOf), RowKey, Net);
    SumAppend(OpeningRows(opening, timeOf), SaleRows(sales, timeOf), Net);
    SaleRowsNet(sales, timeOf);
    if opening != 0.0 {
      SumSingleton(OpeningRows(opening, timeOf)[0], Net);
    }
  }

  /** Rows come out in ascending date order. */
  lemma StatementSorted(start: real, rows: seq<Row>)
    requires Sorted(rows, RowKey)
    ensures Sorted(Recompute(start, rows), RowKey)
  {
    var r := Recompute(start, rows);
    forall i, j | 0 <= i < j < |r| ensures KeyLe(RowKey(r[i]), RowKey(r[j])) {
      assert RowKey(r[i]) == RowKey(rows[i]) && RowKey(r[j]) == RowKey(rows[j]);
    }
  }

  /** Among rows of the same date the statement keeps the order they were
      pushed in: the opening row, then each invoice before its payments. */
  lemma StatementStable(raw: seq<Row>, k: Key)
    ensures Ties(Sort(raw, RowKey), RowKey, k) == Ties(raw, RowKey, k)
  {
    SortStable(raw, RowKey, k);
  }

  /** Each row's balance is the one before it plus its debit minus its
      credit; the first row starts from `start`. */
  lemma RunningBalance(start: real, rows: seq<Row>, i: nat)
    requires 0 < i < |rows|
    ensures Recompute(start, [rows[0]])[0].balance == start + Net(rows[0])
    ensures Recompute(start, rows)[i].balance == Recompute(start, rows)[i - 1].balance + Net(rows[i])
  {
    assert rows[..i + 1][..i] == rows[..i];
    assert [rows[0]][..1] == [rows[0]];
    SumSingleton(rows[0], Net);
  }

  /** The closing balance the page computes: the recomputation starts from
      the opening amount although the opening row carries it too. */
  function ClosingAsWritten(opening: real, sales: seq<Sale>, timeOf: string -> int): real
  {
    opening + Sum(Sort(RawRows(opening, sales, timeOf), RowKey), Net)
  }

  /** As written, a non-zero previous due is counted twice in the closing
      balance. */
  lemma OpeningCountedTwice(opening: real, sales: seq<Sale>, timeOf: string -> int)
    ensures opening != 0.0 ==> ClosingAsWritten(opening, sales, timeOf) == 2.0 * opening + Invoiced(sales) - Received(sales)
    ensures opening == 0.0 ==> ClosingAsWritten(opening, sales, timeOf) == Invoiced(sales) - Received(sales)
  {
    SortedRowsNet(opening, sales, timeOf);
  }

  /** A customer owing 100 from before, with no sales, is shown closing at 200. */
  lemma OpeningCountedTwiceExample(timeOf: string -> int)
    ensures ClosingAsWritten(100.0, [], timeOf) == 200.0
  {
    OpeningCountedTwice(100.0, [], timeOf);
  }

  /** The intended statement: the running balance starts from 0, so the
      opening row alone brings in the previous due. */
  function CorrectedRows(opening: real, sales: seq<Sale>, timeOf: string -> int): (r: seq<Row>)
    ensures |r| == |RawRows(opening, sales, timeOf)|
  {
    Recompute(0.0, Sort(RawRows(opening, sales, timeOf), RowKey))
  }

  function CorrectedClosing(opening: real, sales: seq<Sale>, timeOf: string -> int): real
  {
    Sum(Sort(RawRows(opening, sales, timeOf), RowKey), Net)
  }

  /** Corrected, the closing balance is the previous due plus invoiced minus
      received, and it is the last row's balance. */
  lemma CorrectedClosingMeaning(opening: real, sales: seq<Sale>, timeOf: string -> int)
    ensures CorrectedClosing(opening, sales, timeOf) == opening + Invoiced(sales) - Received(sales)
    ensures var r := CorrectedRows(opening, sales, timeOf);
            |r| > 0 ==> r[|r| - 1].balance == CorrectedClosing(opening, sales, timeOf)
  {
    SortedRowsNet(opening, sales, timeOf);
    var sorted := Sort(RawRows(opening, sales, timeOf), RowKey);
    if sorted != [] {
      LastBalance(sorted);
    }
  }

  /** The last recomputed balance counted from 0 is the net of all rows. */
  lemma LastBalance(sorted: seq<Row>)
    requires sorted != []
    ensures Recompute(0.0, sorted)[|sorted| - 1].balance == Sum(sorted, Net)
  {
    assert sorted[..|sorted|] == sorted;
    assert BalanceAt(0.0, sorted, |sorted| - 1) == Sum(sorted, Net);
  }
}
