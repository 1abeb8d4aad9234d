/** The purchase payment list (client/src/pages/purchases/PurchasePayments.jsx):
    every payment of every purchase as one row, with the purchase's due
    after it, the whole list newest first, a search over invoice and vendor
    and the total paid over what is shown. Parsing a date into a time value
    is the parameter `timeOf`. */
module PurchasePayments {
  import opened Text
  import opened Seqs
  import opened Sorting
  import opened JsNumber

  /** A payment as the server lists it; empty strings stand for missing
      values. */
  datatype PayRecord = PayRecord(id: nat, paymentDate: string, createdAt: string, paidAmount: Input,
                                 paymentMode: string, bankName: string, accountNo: string, chequeNo: string)

  datatype PurchaseRecord = PurchaseRecord(id: nat, invoiceNo: string, purchaseDate: string, vendorName: string,
                                           shopName: string, totalPayable: Input, payments: seq<PayRecord>)

  /** One row of the list. */
  datatype Row = Row(id: nat, invoiceNo: string, vendorName: string, purchaseDate: string, payMode: string,
                     bank: string, accountNo: string, chequeNo: string, paidAmount: real, paymentDate: string,
                     dueAfterPayment: real)

  const Epoch := "1970-01-01"

  function OrEpoch(s: string): string { if s != "" then s else Epoch }

  function OrDash(s: string): string { if s != "" then s else "-" }

  /** `payment_date || created_at`. */
  function RawDate(pay: PayRecord): string
  {
    if pay.paymentDate != "" then pay.paymentDate else pay.createdAt
  }

  /** `invoice_no || "PUR-" + id`. */
  function InvoiceLabel(p: PurchaseRecord): (r: string)
    ensures r != ""
  {
    if p.invoiceNo != "" then p.invoiceNo else "PUR-" + NatToString(p.id)
  }

  function VendorLabel(p: PurchaseRecord): (r: string)
    ensures r != ""
  {
    if p.vendorName != "" then p.vendorName else if p.shopName != "" then p.shopName else "N/A"
  }

  function PaidOf(pay: PayRecord): real { AmountOf(pay.paidAmount) }

  /** Oldest first, ties by id. */
  function OldestFirst(timeOf: string -> int): PayRecord -> Key
  {
    (pay: PayRecord) => Key(timeOf(OrEpoch(RawDate(pay))), pay.id)
  }

  /** The row of payment `pay` of purchase `p`, with `due` left after it. */
  function MakeRow(p: PurchaseRecord, pay: PayRecord, due: real): (r: Row)
    ensures r.id == pay.id && r.paidAmount == PaidOf(pay) && r.dueAfterPayment == due
    ensures r.paymentDate == RawDate(pay)
  {
    Row(pay.id, InvoiceLabel(p), VendorLabel(p), p.purchaseDate,
        if pay.paymentMode != "" then pay.paymentMode else "N/A", OrDash(pay.bankName), OrDash(pay.accountNo),
        OrDash(pay.chequeNo), PaidOf(pay), RawDate(pay), due)
  }

  /** What is still due on `p` once the first k + 1 of `pays` are paid. */
  function DueAfter(p: PurchaseRecord, pays: seq<PayRecord>, k: nat): real
    requires k < |pays|
  {
    Max0(AmountOf(p.totalPayable) - Sum(pays[..k + 1], PaidOf))
  }

  /** Dropping the last payment leaves the dues after the earlier ones. */
  lemma DueAfterPrefix(p: PurchaseRecord, pays: seq<PayRecord>)
    requires pays != []
    ensures forall k :: 0 <= k < |pays| - 1 ==> DueAfter(p, pays[..|pays| - 1], k) == DueAfter(p, pays, k)
  {
    var init := pays[..|pays| - 1];
    forall k | 0 <= k < |init| ensures DueAfter(p, init, k) == DueAfter(p, pays, k) {
      assert init[..k + 1] == pays[..k + 1];
    }
  }

  /** The rows of one purchase's payments taken in the order given. */
  function PayRows(p: PurchaseRecord, pays: seq<PayRecord>): (r: seq<Row>)
    ensures |r| == |pays|
    ensures forall k {:trigger r[k]} :: 0 <= k < |pays| ==> r[k] == MakeRow(p, pays[k], DueAfter(p, pays, k))
  {
    if pays == [] then []
    else
      var init := pays[..|pays| - 1];
      assert pays[..|pays|] == pays;
      DueAfterPrefix(p, pays);
      PayRows(p, init) + [MakeRow(p, pays[|pays| - 1], Max0(AmountOf(p.totalPayable) - Sum(pays, PaidOf)))]
  }

  /** One purchase's payments, oldest first. */
  function SortedPays(p: PurchaseRecord, timeOf: string -> int): (r: seq<PayRecord>)
    ensures multiset(r) == multiset(p.payments)
    ensures forall i, j :: 0 <= i < j < |r| ==> KeyLe(OldestFirst(timeOf)(r[i]), OldestFirst(timeOf)(r[j]))
  {
    SortSorted(p.payments, OldestFirst(timeOf));
    Sort(p.payments, OldestFirst(timeOf))
  }

  /** The rows pushed for the purchases, in order. */
  function AllRows(ps: seq<PurchaseRecord>, timeOf: string -> int): seq<Row>
  {
    if ps == [] then []
    else AllRows(ps[..|ps| - 1], timeOf) + PayRows(ps[|ps| - 1], SortedPays(ps[|ps| - 1], timeOf))
  }

  /** `paymentDate || "1970-01-01"`, newest first. */
  function NewestFirst(timeOf: string -> int): Row -> Key
  {
    (r: Row) => Key(-timeOf(OrEpoch(r.paymentDate)), 0)
  }

  /** Sorting with the newest-first key leaves later dates ahead. */
  lemma NewestFirstOrder(rows: seq<Row>, timeOf: string -> int)
    ensures var r := Sort(rows, NewestFirst(timeOf));
            forall i, j :: 0 <= i < j < |r| ==> timeOf(OrEpoch(r[i].paymentDate)) >= timeOf(OrEpoch(r[j].paymentDate))
  {
    var r := Sort(rows, NewestFirst(timeOf));
    SortSorted(rows, NewestFirst(timeOf));
    assert forall i, j :: 0 <= i < j < |r| ==> KeyLe(NewestFirst(timeOf)(r[i]), NewestFirst(timeOf)(r[j]));
  }

  /** The rows of a non-empty list end with the row of its last payment. */
  lemma PayRowsSnoc(p: PurchaseRecord, s: seq<PayRecord>)
    requires s != []
    ensures PayRows(p, s) == PayRows(p, s[..|s| - 1]) + [MakeRow(p, s[|s| - 1], DueAfter(p, s, |s| - 1))]
  {
    assert s[..|s|] == s;
    assert DueAfter(p, s, |s| - 1) == Max0(AmountOf(p.totalPayable) - Sum(s, PaidOf));
  }

  lemma PayStep(p: PurchaseRecord, pays: seq<PayRecord>, j: nat)
    requires j < |pays|
    ensures Sum(pays[..j + 1], PaidOf) == Sum(pays[..j], PaidOf) + PaidOf(pays[j])
    ensures PayRows(p, pays[..j + 1]) == PayRows(p, pays[..j]) + [MakeRow(p, pays[j], DueAfter(p, pays, j))]
  {
    SumStep(pays, j, PaidOf);
    var s := pays[..j + 1];
    assert s[..|s| - 1] == pays[..j];
    assert s[|s| - 1] == pays[j];
    assert DueAfter(p, s, j) == DueAfter(p, pays, j) by {
      assert s[..j + 1] == pays[..j + 1];
    }
    PayRowsSnoc(p, s);
  }

  lemma PurchaseStep(ps: seq<PurchaseRecord>, i: nat, timeOf: string -> int)
    requires i < |ps|
    ensures AllRows(ps[..i + 1], timeOf) == AllRows(ps[..i], timeOf) + PayRows(ps[i], SortedPays(ps[i], timeOf))
  {
    assert ps[..i + 1][..i] == ps[..i];
  }

  /** The inner `forEach` over one purchase's payments, oldest first:
      `runningPaid` grows by each payment and every row carries the due left
      after it. */
  method PushPayments(p: PurchaseRecord, sortedPays: seq<PayRecord>, all: seq<Row>) returns (all': seq<Row>)
    ensures all' == all + PayRows(p, sortedPays)
  {
    all' := all;
    var totalPayable := AmountOf(p.totalPayable);
    var runningPaid := 0.0;
    for j := 0 to |sortedPays|
      invariant runningPaid == Sum(sortedPays[..j], PaidOf)
      invariant all' == all + PayRows(p, sortedPays[..j])
    {
      var pay := sortedPays[j];
      var paid := AmountOf(pay.paidAmount);
      PayStep(p, sortedPays, j);
      runningPaid := runningPaid + paid;
      var dueAfter := Max0(totalPayable - runningPaid);
      AppendAssoc(all, PayRows(p, sortedPays[..j]), [MakeRow(p, pay, dueAfter)]);
      all' := all' + [MakeRow(p, pay, dueAfter)];
    }
    assert sortedPays[..|sortedPays|] == sortedPays;
  }

  /** `fetchPurchasePayments`: for each purchase its payments oldest first,
      each pushed with the due left after it; then all rows newest first. */
  method FetchPurchasePayments(purchases: seq<PurchaseRecord>, timeOf: string -> int) returns (rows: seq<Row>)
    ensures rows == Sort(AllRows(purchases, timeOf), NewestFirst(timeOf))
    ensures multiset(rows) == multiset(AllRows(purchases, timeOf))
    ensures forall i, j :: 0 <= i < j < |rows| ==> timeOf(OrEpoch(rows[i].paymentDate)) >= timeOf(OrEpoch(rows[j].paymentDate))
  {
    var all: seq<Row> := [];
    for i := 0 to |purchases|
      invariant all == AllRows(purchases[..i], timeOf)
    {
      var p := purchases[i];
      var sortedPays := Sort(p.payments, OldestFirst(timeOf));
      all := PushPayments(p, sortedPays, all);
      PurchaseStep(purchases, i, timeOf);
    }
    assert purchases[..|purchases|] == purchases;
    rows := Sort(all, NewestFirst(timeOf));
    NewestFirstOrder(all, timeOf);
  }

  function PaymentCount(ps: seq<PurchaseRecord>): nat
  {
    if ps == [] then 0 else PaymentCount(ps[..|ps| - 1]) + |ps[|ps| - 1].payments|
  }

  /** Exactly one row per payment. */
  lemma {:induction false} OneRowPerPayment(ps: seq<PurchaseRecord>, timeOf: string -> int)
    ensures |AllRows(ps, timeOf)| == PaymentCount(ps)
  {
    if ps != [] {
      OneRowPerPayment(ps[..|ps| - 1], timeOf);
      var p := ps[|ps| - 1];
      assert |SortedPays(p, timeOf)| == |multiset(SortedPays(p, timeOf))| == |p.payments|;
    }
  }

  /** Within a purchase, payments run oldest first, ties by id. */
  lemma PaymentsOldestFirst(p: PurchaseRecord, timeOf: string -> int, i: nat, j: nat)
    requires i < j < |SortedPays(p, timeOf)|
    ensures var s := SortedPays(p, timeOf);
            var ti := timeOf(OrEpoch(RawDate(s[i])));
            var tj := timeOf(OrEpoch(RawDate(s[j])));
            ti < tj || (ti == tj && s[i].id <= s[j].id)
  {
  }

  /** With no negative amounts, the due after each payment never goes up
      along a purchase's payments. */
  lemma DueNonIncreasing(p: PurchaseRecord, pays: seq<PayRecord>, i: nat, j: nat)
    requires i < j < |pays|
    requires forall x :: x in pays ==> PaidOf(x) >= 0.0
    ensures PayRows(p, pays)[j].dueAfterPayment <= PayRows(p, pays)[i].dueAfterPayment
  {
    DueAfterMono(p, pays, i, j);
  }

  lemma DueAfterMono(p: PurchaseRecord, pays: seq<PayRecord>, i: nat, j: nat)
    requires i < j < |pays|
    requires forall x :: x in pays ==> PaidOf(x) >= 0.0
    ensures DueAfter(p, pays, j) <= DueAfter(p, pays, i)
  {
    SumPrefixMono(pays, PaidOf, i + 1, j + 1);
  }

  function RowPaid(r: Row): real { r.paidAmount }

  lemma {:induction false} PayRowsPaid(p: PurchaseRecord, pays: seq<PayRecord>)
    ensures Sum(PayRows(p, pays), RowPaid) == Sum(pays, PaidOf)
  {
    if pays != [] {
      var init := pays[..|pays| - 1];
      PayRowsPaid(p, init);
      assert PayRows(p, pays) == PayRows(p, init) + [PayRows(p, pays)[|pays| - 1]];
      SumAppend(PayRows(p, init), [PayRows(p, pays)[|pays| - 1]], RowPaid);
      SumSingleton(PayRows(p, pays)[|pays| - 1], RowPaid);
    }
  }

  function PurchasePaid(p: PurchaseRecord): real { Sum(p.payments, PaidOf) }

  /** The rows carry, between them, every payment of every purchase once. */
  lemma {:induction false} RowsCarryAllPayments(ps: seq<PurchaseRecord>, timeOf: string -> int)
    ensures Sum(Sort(AllRows(ps, timeOf), NewestFirst(timeOf)), RowPaid) == Sum(ps, PurchasePaid)
  {
    SumSort(AllRows(ps, timeOf), NewestFirst(timeOf), RowPaid);
    AllRowsPaid(ps, timeOf);
  }

  lemma {:induction false} AllRowsPaid(ps: seq<PurchaseRecord>, timeOf: string -> int)
    ensures Sum(AllRows(ps, timeOf), RowPaid) == Sum(ps, PurchasePaid)
  {
    if ps != [] {
      var init := ps[..|ps| - 1];
      var p := ps[|ps| - 1];
      AllRowsPaid(init, timeOf);
      SumAppend(AllRows(init, timeOf), PayRows(p, SortedPays(p, timeOf)), RowPaid);
      PayRowsPaid(p, SortedPays(p, timeOf));
      SumSort(p.payments, OldestFirst(timeOf), PaidOf);
    }
  }

  /** The search: an empty term (after trimming) shows every row, otherwise
      the rows whose invoice or vendor contains it, ignoring case. */
  function FilteredPayments(rows: seq<Row>, search: string): (r: seq<Row>)
    ensures ToLower(Trim(search)) == "" ==> r == rows
    ensures ToLower(Trim(search)) != "" ==>
              forall x :: x in r <==> x in rows && (Contains(ToLower(x.invoiceNo), ToLower(Trim(search)))
                                                    || Contains(ToLower(x.vendorName), ToLower(Trim(search))))
  {
    var term := ToLower(Trim(search));
    if term == "" then rows
    else Filter(rows, (x: Row) => Contains(ToLower(x.invoiceNo), term) || Contains(ToLower(x.vendorName), term))
  }

  /** `totals.totalReceived`. */
  function TotalReceived(shown: seq<Row>): real { Sum(shown, RowPaid) }

  /** With an empty search the total is every payment of every purchase. */
  lemma EmptySearchTotal(ps: seq<PurchaseRecord>, timeOf: string -> int)
    ensures TotalReceived(FilteredPayments(Sort(AllRows(ps, timeOf), NewestFirst(timeOf)), ""))
            == Sum(ps, PurchasePaid)
  {
    assert Trim("") == "" by { assert |Trim("")| <= 0; }
    RowsCarryAllPayments(ps, timeOf);
  }
}
