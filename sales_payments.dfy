/** The sales payment list (client/src/pages/sales/Payments.jsx): every
    payment of every sale as one flat row with the sale's due after it,
    newest first, a search over invoice and customer and the total
    received over what is shown. Parsing a date into a time value is the
    parameter `timeOf`. */
module SalesPayments {
  import opened Text
  import opened Seqs
  import opened Sorting
  import opened JsNumber

  /** A payment as the server lists it; empty strings stand for missing
      values. */
  datatype SalePayment = SalePayment(id: nat, paymentDate: string, paidAmount: Input, paymentMode: string,
                                     bankName: string, accountNo: string, chequeNo: string)

  datatype SaleRecord = SaleRecord(id: nat, invoiceNo: string, saleDate: string, customerName: string,
                                   totalPayable: Input, payments: seq<SalePayment>)

  /** One flat row. */
  datatype FlatPayment = FlatPayment(id: nat, invoiceNo: string, customerName: string, saleDate: string,
                                     paymentMode: string, bankName: string, accountNo: string, chequeNo: string,
                                     paidAmount: real, paymentDate: string, dueAfterPayment: real)

  const Epoch := "1970-01-01"

  /** `payment_date || sale_date || "1970-01-01"`. */
  function PaymentDay(paymentDate: string, saleDate: string): string
  {
    if paymentDate != "" then paymentDate else if saleDate != "" then saleDate else Epoch
  }

  function PaidOf(p: SalePayment): real { AmountOf(p.paidAmount) }

  /** The order inside one sale: by payment date, else the sale's date. */
  function ByDate(sale: SaleRecord, timeOf: string -> int): SalePayment -> Key
  {
    (p: SalePayment) => Key(timeOf(PaymentDay(p.paymentDate, sale.saleDate)), 0)
  }

  function MakeRow(sale: SaleRecord, p: SalePayment, due: real): (r: FlatPayment)
    ensures r.id == p.id && r.paidAmount == PaidOf(p) && r.dueAfterPayment == due
    ensures r.paymentDate == p.paymentDate && r.saleDate == sale.saleDate
  {
    FlatPayment(p.id, sale.invoiceNo, sale.customerName, sale.saleDate, p.paymentMode, p.bankName, p.accountNo,
                p.chequeNo, PaidOf(p), p.paymentDate, due)
  }

  /** What is still due on the sale once the first k + 1 of `pays` are paid. */
  function DueAfter(sale: SaleRecord, pays: seq<SalePayment>, k: nat): real
    requires k < |pays|
  {
    Max0(AmountOf(sale.totalPayable) - Sum(pays[..k + 1], PaidOf))
  }

  /** Dropping the last payment leaves the dues after the earlier ones. */
  lemma DueAfterPrefix(sale: SaleRecord, pays: seq<SalePayment>)
    requires pays != []
    ensures forall k :: 0 <= k < |pays| - 1 ==> DueAfter(sale, pays[..|pays| - 1], k) == DueAfter(sale, pays, k)
  {
    var init := pays[..|pays| - 1];
    forall k | 0 <= k < |init| ensures DueAfter(sale, init, k) == DueAfter(sale, pays, k) {
      assert init[..k + 1] == pays[..k + 1];
    }
  }

  /** The rows of one sale's payments taken in the order given. */
  function SaleRows(sale: SaleRecord, pays: seq<SalePayment>): (r: seq<FlatPayment>)
    ensures |r| == |pays|
    ensures forall k {:trigger r[k]} :: 0 <= k < |pays| ==> r[k] == MakeRow(sale, pays[k], DueAfter(sale, pays, k))
  {
    if pays == [] then []
    else
      var init := pays[..|pays| - 1];
      assert pays[..|pays|] == pays;
      DueAfterPrefix(sale, pays);
      SaleRows(sale, init) + [MakeRow(sale, pays[|pays| - 1], Max0(AmountOf(sale.totalPayable) - Sum(pays, PaidOf)))]
  }

  /** One sale's payments, oldest first. */
  function SortedPays(sale: SaleRecord, timeOf: string -> int): (r: seq<SalePayment>)
    ensures multiset(r) == multiset(sale.payments)
    ensures forall i, j :: 0 <= i < j < |r| ==> KeyLe(ByDate(sale, timeOf)(r[i]), ByDate(sale, timeOf)(r[j]))
  {
    SortSorted(sale.payments, ByDate(sale, timeOf));
    Sort(sale.payments, ByDate(sale, timeOf))
  }

  /** The rows pushed for the sales, in order. */
  function AllRows(sales: seq<SaleRecord>, timeOf: string -> int): seq<FlatPayment>
  {
    if sales == [] then []
    else
      var last := sales[|sales| - 1];
      AllRows(sales[..|sales| - 1], timeOf) + SaleRows(last, SortedPays(last, timeOf))
  }

  /** The final order: newest first by payment date, else sale date. */
  function NewestFirst(timeOf: string -> int): FlatPayment -> Key
  {
    (r: FlatPayment) => Key(-timeOf(PaymentDay(r.paymentDate, r.saleDate)), 0)
  }

  /** Sorting with the newest-first key leaves later dates ahead. */
  lemma NewestFirstOrder(rows: seq<FlatPayment>, timeOf: string -> int)
    ensures var r := Sort(rows, NewestFirst(timeOf));
            forall i, j :: 0 <= i < j < |r| ==> timeOf(PaymentDay(r[i].paymentDate, r[i].saleDate)) >= timeOf(PaymentDay(r[j].paymentDate, r[j].saleDate))
  {
    var r := Sort(rows, NewestFirst(timeOf));
    SortSorted(rows, NewestFirst(timeOf));
    assert forall i, j :: 0 <= i < j < |r| ==> KeyLe(NewestFirst(timeOf)(r[i]), NewestFirst(timeOf)(r[j]));
  }

  /** The rows of a non-empty list end with the row of its last payment. */
  lemma SaleRowsSnoc(sale: SaleRecord, s: seq<SalePayment>)
    requires s != []
    ensures SaleRows(sale, s) == SaleRows(sale, s[..|s| - 1]) + [MakeRow(sale, s[|s| - 1], DueAfter(sale, s, |s| - 1))]
  {
    var init := s[..|s| - 1];
    var a := SaleRows(sale, s);
    var b := SaleRows(sale, init) + [MakeRow(sale, s[|s| - 1], DueAfter(sale, s, |s| - 1))];
    DueAfterPrefix(sale, s);
    forall k | 0 <= k < |a| ensures a[k] == b[k] {
      if k < |init| {
        assert init[k] == s[k];
      }
    }
  }

  lemma PayStep(sale: SaleRecord, pays: seq<SalePayment>, j: nat)
    requires j < |pays|
    ensures Sum(pays[..j + 1], PaidOf) == Sum(pays[..j], PaidOf) + PaidOf(pays[j])
    ensures SaleRows(sale, pays[..j + 1]) == SaleRows(sale, pays[..j]) + [MakeRow(sale, pays[j], DueAfter(sale, pays, j))]
  {
    SumStep(pays, j, PaidOf);
    var s := pays[..j + 1];
    SaleRowsSnoc(sale, s);
    assert s[..|s| - 1] == pays[..j] && s[|s| - 1] == pays[j];
    assert s[..j + 1] == pays[..j + 1];
  }

  lemma SaleStep(sales: seq<SaleRecord>, i: nat, timeOf: string -> int)
    requires i < |sales|
    ensures AllRows(sales[..i + 1], timeOf) == AllRows(sales[..i], timeOf) + SaleRows(sales[i], SortedPays(sales[i], timeOf))
  {
    assert sales[..i + 1][..i] == sales[..i];
  }

  /** The inner `forEach` over one sale's payments, oldest first:
      `cumulativePaid` grows by each payment and every row carries the due
      left after it. */
  method PushPayments(sale: SaleRecord, sorted: seq<SalePayment>, flat: seq<FlatPayment>)
    returns (flat': seq<FlatPayment>)
    ensures flat' == flat + SaleRows(sale, sorted)
  {
    flat' := flat;
    var totalPayable := AmountOf(sale.totalPayable);
    var cumulativePaid := 0.0;
    for j := 0 to |sorted|
      invariant cumulativePaid == Sum(sorted[..j], PaidOf)
      invariant flat' == flat + SaleRows(sale, sorted[..j])
    {
      var p := sorted[j];
      var paid := AmountOf(p.paidAmount);
      PayStep(sale, sorted, j);
      cumulativePaid := cumulativePaid + paid;
      var dueAfter := Max0(totalPayable - cumulativePaid);
      AppendAssoc(flat, SaleRows(sale, sorted[..j]), [MakeRow(sale, p, dueAfter)]);
      flat' := flat' + [MakeRow(sale, p, dueAfter)];
    }
    assert sorted[..|sorted|] == sorted;
  }

  /** `loadSalesWithPayments`: for each sale its payments oldest first, each
      pushed with the due left after it; then all rows newest first. */
  method LoadSalesWithPayments(sales: seq<SaleRecord>, timeOf: string -> int) returns (rows: seq<FlatPayment>)
    ensures rows == Sort(AllRows(sales, timeOf), NewestFirst(timeOf))
    ensures multiset(rows) == multiset(AllRows(sales, timeOf))
    ensures forall i, j :: 0 <= i < j < |rows| ==>
              timeOf(PaymentDay(rows[i].paymentDate, rows[i].saleDate))
              >= timeOf(PaymentDay(rows[j].paymentDate, rows[j].saleDate))
  {
    var flat: seq<FlatPayment> := [];
    for i := 0 to |sales|
      invariant flat == AllRows(sales[..i], timeOf)
    {
      var sale := sales[i];
      var sorted := Sort(sale.payments, ByDate(sale, timeOf));
      flat := PushPayments(sale, sorted, flat);
      SaleStep(sales, i, timeOf);
    }
    assert sales[..|sales|] == sales;
    rows := Sort(flat, NewestFirst(timeOf));
    NewestFirstOrder(flat, timeOf);
  }

  function PaymentCount(sales: seq<SaleRecord>): nat
  {
    if sales == [] then 0 else PaymentCount(sales[..|sales| - 1]) + |sales[|sales| - 1].payments|
  }

  /** One flat row per payment. */
  lemma {:induction false} OneRowPerPayment(sales: seq<SaleRecord>, timeOf: string -> int)
    ensures |AllRows(sales, timeOf)| == PaymentCount(sales)
  {
    if sales != [] {
      OneRowPerPayment(sales[..|sales| - 1], timeOf);
      var s := sales[|sales| - 1];
      assert |SortedPays(s, timeOf)| == |multiset(SortedPays(s, timeOf))| == |s.payments|;
    }
  }

  /** With no negative amounts, the due after each payment never goes up
      along a sale's payments. */
  lemma DueNonIncreasing(sale: SaleRecord, pays: seq<SalePayment>, i: nat, j: nat)
    requires i < j < |pays|
    requires forall x :: x in pays ==> PaidOf(x) >= 0.0
    ensures SaleRows(sale, pays)[j].dueAfterPayment <= SaleRows(sale, pays)[i].dueAfterPayment
  {
    DueAfterMono(sale, pays, i, j);
  }

  lemma DueAfterMono(sale: SaleRecord, pays: seq<SalePayment>, i: nat, j: nat)
    requires i < j < |pays|
    requires forall x :: x in pays ==> PaidOf(x) >= 0.0
    ensures DueAfter(sale, pays, j) <= DueAfter(sale, pays, i)
  {
    SumPrefixMono(pays, PaidOf, i + 1, j + 1);
  }

  /** The last payment of a sale leaves its payable minus all it was paid, or
      nothing when overpaid. */
  lemma LastDueIsRemaining(sale: SaleRecord, timeOf: string -> int)
    requires sale.payments != []
    ensures var rows := SaleRows(sale, SortedPays(sale, timeOf));
            rows[|rows| - 1].dueAfterPayment == Max0(AmountOf(sale.totalPayable) - Sum(sale.payments, PaidOf))
  {
    var s := SortedPays(sale, timeOf);
    assert |s| == |multiset(s)| == |sale.payments|;
    assert s[..|s|] == s;
    SumSort(sale.payments, ByDate(sale, timeOf), PaidOf);
  }

  function RowPaid(r: FlatPayment): real { r.paidAmount }

  /** The search: a blank box shows every row; otherwise the rows whose
      invoice or customer contains the box's text lower-cased (not
      trimmed). */
  function FilteredPayments(rows: seq<FlatPayment>, search: string): (r: seq<FlatPayment>)
    ensures Trim(search) == "" ==> r == rows
    ensures Trim(search) != "" ==>
              forall x :: x in r <==> x in rows && (Contains(ToLower(x.invoiceNo), ToLower(search))
                                                    || Contains(ToLower(x.customerName), ToLower(search)))
  {
    if Trim(search) == "" then rows
    else
      var term := ToLower(search);
      Filter(rows, (x: FlatPayment) => Contains(ToLower(x.invoiceNo), term) || Contains(ToLower(x.customerName), term))
  }

  /** `totalReceived` over the rows shown. */
  function TotalReceived(shown: seq<FlatPayment>): real { Sum(shown, RowPaid) }

  lemma {:induction false} SaleRowsPaid(sale: SaleRecord, pays: seq<SalePayment>)
    ensures Sum(SaleRows(sale, pays), RowPaid) == Sum(pays, PaidOf)
  {
    if pays != [] {
      var init := pays[..|pays| - 1];
      SaleRowsPaid(sale, init);
      assert SaleRows(sale, pays) == SaleRows(sale, init) + [SaleRows(sale, pays)[|pays| - 1]];
      SumAppend(SaleRows(sale, init), [SaleRows(sale, pays)[|pays| - 1]], RowPaid);
      SumSingleton(SaleRows(sale, pays)[|pays| - 1], RowPaid);
    }
  }

  function SalePaid(s: SaleRecord): real { Sum(s.payments, PaidOf) }

  lemma {:induction false} AllRowsPaid(sales: seq<SaleRecord>, timeOf: string -> int)
    ensures Sum(AllRows(sales, timeOf), RowPaid) == Sum(sales, SalePaid)
  {
    if sales != [] {
      var init := sales[..|sales| - 1];
      var s := sales[|sales| - 1];
      AllRowsPaid(init, timeOf);
      SumAppend(AllRows(init, timeOf), SaleRows(s, SortedPays(s, timeOf)), RowPaid);
      SaleRowsPaid(s, SortedPays(s, timeOf));
      SumSort(s.payments, ByDate(s, timeOf), PaidOf);
    }
  }

  /** With a blank search the total received is every payment of every sale. */
  lemma BlankSearchTotal(sales: seq<SaleRecord>, timeOf: string -> int, search: string)
    requires Trim(search) == ""
    ensures TotalReceived(FilteredPayments(Sort(AllRows(sales, timeOf), NewestFirst(timeOf)), search))
            == Sum(sales, SalePaid)
  {
    SumSort(AllRows(sales, timeOf), NewestFirst(timeOf), RowPaid);
    AllRowsPaid(sales, timeOf);
  }
}
