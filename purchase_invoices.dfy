/** The purchase invoice list (client/src/pages/purchases/Invoices.jsx):
    each purchase with its paid total, due and status, newest first, a
    search and status filter with totals, and the payment dialog. Parsing a
    date into a time value is the parameter `timeOf`; the server round
    trips are parameters saying whether the post succeeded and what the
    reload returned. */
module PurchaseInvoices {
  import opened Wrappers
  import opened Text
  import opened Seqs
  import opened Sorting
  import opened JsNumber

  /** A purchase as the server lists it; empty strings stand for missing
      values, and `payments` holds the paid amounts of its payments. */
  datatype Purchase = Purchase(id: nat, purchaseDate: string, invoiceNo: string, vendorName: string,
                               shopName: string, totalAmount: Input, totalPayable: Input, payments: seq<Input>)

  datatype Status = NotApplicable | Unpaid | Paid | PartiallyPaid

  /** `computeStatus(totalPayable, totalPaid)`. */
  function ComputeStatus(payable: real, paid: real): (s: Status)
    ensures s == NotApplicable <==> payable <= 0.0 && paid <= 0.0
    ensures s == Unpaid <==> paid <= 0.0 && payable > 0.0
    ensures s == Paid <==> paid > 0.0 && payable <= paid
    ensures s == PartiallyPaid <==> paid > 0.0 && payable > paid
  {
    if payable <= 0.0 && paid <= 0.0 then NotApplicable
    else
      var due := Max0(payable - paid);
      if paid <= 0.0 && payable > 0.0 then Unpaid
      else if due <= 0.0 then Paid
      else PartiallyPaid
  }

  /** A purchase as the list shows it. */
  datatype Row = Row(purchase: Purchase, totalPayable: real, totalPaid: real, due: real, status: Status,
                     vendorName: string)

  /** `vendor.vendor_name || vendor.shop_name || "N/A"`. */
  function VendorLabel(p: Purchase): (r: string)
    ensures r != ""
  {
    if p.vendorName != "" then p.vendorName else if p.shopName != "" then p.shopName else "N/A"
  }

  /** The paid amounts added up, each unreadable one read as 0. */
  function PaidTotal(payments: seq<Input>): real { Sum(payments, AmountOf) }

  /** The `map` in `fetchPurchases`. */
  function MapPurchase(p: Purchase): (r: Row)
    ensures r.purchase == p && r.totalPayable == AmountOf(p.totalPayable) && r.totalPaid == PaidTotal(p.payments)
    ensures r.due >= 0.0 && r.due >= r.totalPayable - r.totalPaid
    ensures r.due == 0.0 || r.due == r.totalPayable - r.totalPaid
    ensures r.status == ComputeStatus(r.totalPayable, r.totalPaid)
  {
    var payable := AmountOf(p.totalPayable);
    var paid := PaidTotal(p.payments);
    Row(p, payable, paid, Max0(payable - paid), ComputeStatus(payable, paid), VendorLabel(p))
  }

  function MapAll(ps: seq<Purchase>): (r: seq<Row>)
    ensures |r| == |ps| && forall i {:trigger r[i]} :: 0 <= i < |ps| ==> r[i] == MapPurchase(ps[i])
  {
    if ps == [] then [] else MapAll(ps[..|ps| - 1]) + [MapPurchase(ps[|ps| - 1])]
  }

  const Epoch := "1970-01-01"

  /** The time `new Date(purchase_date || "1970-01-01")` reads. */
  function TimeOfRow(r: Row, timeOf: string -> int): int
  {
    timeOf(if r.purchase.purchaseDate != "" then r.purchase.purchaseDate else Epoch)
  }

  /** `db - da`: newest first. */
  function NewestFirst(timeOf: string -> int): Row -> Key
  {
    (r: Row) => Key(-TimeOfRow(r, timeOf), 0)
  }

  /** `fetchPurchases`: the purchases mapped, then sorted newest first. */
  function LoadPurchases(ps: seq<Purchase>, timeOf: string -> int): (r: seq<Row>)
    ensures |r| == |ps| && multiset(r) == multiset(MapAll(ps))
    ensures forall i, j :: 0 <= i < j < |r| ==> TimeOfRow(r[i], timeOf) >= TimeOfRow(r[j], timeOf)
  {
    var r := Sort(MapAll(ps), NewestFirst(timeOf));
    SortSorted(MapAll(ps), NewestFirst(timeOf));
    assert forall i, j :: 0 <= i < j < |r| ==> KeyLe(NewestFirst(timeOf)(r[i]), NewestFirst(timeOf)(r[j]));
    r
  }

  /** The status select: "all", or one status. */
  datatype StatusFilter = All | Only(status: Status)

  /** The search term matches the invoice number or the vendor, ignoring
      case; an empty term (after trimming) matches everything. */
  predicate MatchesSearch(r: Row, search: string)
  {
    var term := ToLower(Trim(search));
    term == "" || Contains(ToLower(r.purchase.invoiceNo), term) || Contains(ToLower(r.vendorName), term)
  }

  predicate Keep(r: Row, search: string, statusFilter: StatusFilter)
  {
    MatchesSearch(r, search) && (statusFilter.All? || r.status == statusFilter.status)
  }

  /** `filteredPurchases`. */
  function FilteredPurchases(rows: seq<Row>, search: string, statusFilter: StatusFilter): (r: seq<Row>)
    ensures forall x :: x in r <==> x in rows && Keep(x, search, statusFilter)
  {
    Filter(rows, (x: Row) => Keep(x, search, statusFilter))
  }

  function RowPayable(r: Row): real { r.totalPayable }
  function RowPaid(r: Row): real { r.totalPaid }
  function RowDue(r: Row): real { r.due }

  datatype Totals = Totals(totalPayable: real, totalPaid: real, totalDue: real)

  /** `totals`: payable, paid and due added over the rows shown. */
  function ComputeTotals(shown: seq<Row>): Totals
  {
    Totals(Sum(shown, RowPayable), Sum(shown, RowPaid), Sum(shown, RowDue))
  }

  /** With no search and "all" statuses every row is shown. */
  lemma NoFilterShowsAll(rows: seq<Row>)
    ensures FilteredPurchases(rows, "", All) == rows
  {
    assert Trim("") == "" by { assert |Trim("")| <= 0; }
    FilterAll(rows, (x: Row) => Keep(x, "", All));
  }

  /** The total due of mapped rows is never negative, and it covers at least
      payable minus paid. */
  lemma TotalDueBounds(shown: seq<Row>)
    requires forall x :: x in shown ==> x == MapPurchase(x.purchase)
    ensures ComputeTotals(shown).totalDue >= 0.0
    ensures ComputeTotals(shown).totalDue >= ComputeTotals(shown).totalPayable - ComputeTotals(shown).totalPaid
  {
    DueBounds(shown);
  }

  lemma {:induction false} DueBounds(shown: seq<Row>)
    requires forall x :: x in shown ==> x == MapPurchase(x.purchase)
    ensures Sum(shown, RowDue) >= 0.0
    ensures Sum(shown, RowDue) >= Sum(shown, RowPayable) - Sum(shown, RowPaid)
  {
    if shown != [] {
      var init := shown[..|shown| - 1];
      assert forall x :: x in init ==> x in shown;
      DueBounds(init);
      assert shown[|shown| - 1] in shown;
    }
  }

  /** For amounts that are not negative, a purchase owes nothing exactly when
      it is Paid or has nothing to pay at all. */
  lemma DueZeroMeaning(p: Purchase)
    requires AmountOf(p.totalPayable) >= 0.0 && PaidTotal(p.payments) >= 0.0
    ensures MapPurchase(p).due == 0.0 <==> MapPurchase(p).status in {Paid, NotApplicable}
  {
  }

  /** `toFixed(2)` read back as a number: rounded to cents, halves away from
      zero. */
  function Round2(x: real): (r: real)
    ensures x - 0.005 <= r <= x + 0.005
  {
    if x >= 0.0 then ((x * 100.0 + 0.5).Floor as real) / 100.0
    else -(((-x * 100.0 + 0.5).Floor as real) / 100.0)
  }

  /** What `handleSavePayment` posts. */
  datatype PaymentPayload = PaymentPayload(purchaseId: nat, paymentMode: string, bankName: string,
                                           accountNo: string, chequeNo: string, paidAmount: real)

  datatype SaveOutcome = NotOpen | NotPositive | MoreThanDue | NoMode | Saved(payload: PaymentPayload)
                       | SaveFailed(payload: PaymentPayload)

  /** `paymentMode === "Bank" || paymentMode === "Cheque"`. */
  predicate IsBankLike(mode: string) { mode == "Bank" || mode == "Cheque" }

  /** The payload for a payment of `paid` on `purchase`: bank fields only for
      Bank or Cheque, the cheque number only for Cheque. */
  function BuildPayload(purchase: Row, mode: string, bankName: string, accountNo: string, chequeNo: string,
                        paid: real): (r: PaymentPayload)
    ensures r.purchaseId == purchase.purchase.id && r.paymentMode == mode
    ensures r.bankName == (if IsBankLike(mode) then bankName else "")
    ensures r.accountNo == (if IsBankLike(mode) then accountNo else "")
    ensures r.chequeNo == (if mode == "Cheque" then chequeNo else "")
    ensures paid > 0.0 ==> r.paidAmount >= 0.0 && r.paidAmount - 0.005 <= paid <= r.paidAmount + 0.005
  {
    PaymentPayload(purchase.purchase.id, mode, if IsBankLike(mode) then bankName else "",
                   if IsBankLike(mode) then accountNo else "", if mode == "Cheque" then chequeNo else "",
                   Round2(paid))
  }

  /** The page state: the list, its filters and the payment dialog. */
  class InvoicesPage {
    var purchases: seq<Row>
    var search: string
    var statusFilter: StatusFilter
    var payModalOpen: bool
    var payPurchase: Option<Row>
    var paymentMode: string
    var bankName: string
    var accountNo: string
    var chequeNo: string
    var paidAmount: Input
    /** The payments posted so far. */
    var posted: seq<PaymentPayload>

    /** The dialog fields are empty. */
    predicate DialogCleared()
      reads this
    {
      paymentMode == "" && bankName == "" && accountNo == "" && chequeNo == "" && paidAmount == Blank
    }

    constructor ()
      ensures purchases == [] && search == "" && statusFilter == All && !payModalOpen && payPurchase.None?
      ensures DialogCleared() && posted == []
    {
      purchases, search, statusFilter := [], "", All;
      payModalOpen, payPurchase := false, None;
      paymentMode, bankName, accountNo, chequeNo, paidAmount := "", "", "", "", Blank;
      posted := [];
    }

    /** `openPayModal(purchase)`: a purchase with nothing due is refused;
        otherwise the dialog opens on it with the due amount filled in. */
    method OpenPayModal(purchase: Row) returns (isOpen: bool)
      modifies this
      ensures isOpen <==> purchase.due > 0.0
      ensures !isOpen ==> payModalOpen == old(payModalOpen) && payPurchase == old(payPurchase)
                          && paymentMode == old(paymentMode) && bankName == old(bankName)
                          && accountNo == old(accountNo) && chequeNo == old(chequeNo) && paidAmount == old(paidAmount)
      ensures isOpen ==> payModalOpen && payPurchase == Some(purchase) && paymentMode == "" && bankName == ""
                         && accountNo == "" && chequeNo == "" && paidAmount == Entered(Fin(Round2(purchase.due)))
      ensures purchases == old(purchases) && search == old(search) && statusFilter == old(statusFilter)
      ensures posted == old(posted)
    {
      if purchase.due <= 0.0 {
        return false;
      }
      payPurchase := Some(purchase);
      paymentMode, bankName, accountNo, chequeNo := "", "", "", "";
      paidAmount := Entered(Fin(Round2(purchase.due)));
      payModalOpen := true;
      isOpen := true;
    }

    /** `closePayModal`. */
    method ClosePayModal()
      modifies this
      ensures !payModalOpen && payPurchase.None? && DialogCleared()
      ensures purchases == old(purchases) && search == old(search) && statusFilter == old(statusFilter)
      ensures posted == old(posted)
    {
      payModalOpen, payPurchase := false, None;
      paymentMode, bankName, accountNo, chequeNo, paidAmount := "", "", "", "", Blank;
    }

    /** `handleSavePayment`: refused without an open purchase, for a paid
        amount not above 0, above the due by more than 0.0001, or without a
        mode; otherwise posted. When the server accepts it the list is
        reloaded (`reloaded`) and the dialog closed; when it refuses, the
        dialog stays as it was. */
    method HandleSavePayment(accepted: bool, reloaded: seq<Purchase>, timeOf: string -> int)
      returns (r: SaveOutcome)
      modifies this
      ensures old(payPurchase).None? <==> r == NotOpen
      ensures r == NotPositive <==> old(payPurchase).Some? && AmountOf(old(paidAmount)) <= 0.0
      ensures r == MoreThanDue <==> old(payPurchase).Some? && AmountOf(old(paidAmount)) > 0.0
                                    && AmountOf(old(paidAmount)) > old(payPurchase).value.due + 0.0001
      ensures r == NoMode <==> old(payPurchase).Some? && 0.0 < AmountOf(old(paidAmount)) <= old(payPurchase).value.due + 0.0001
                               && old(paymentMode) == ""
      ensures r.Saved? || r.SaveFailed? ==>
                r.payload == BuildPayload(old(payPurchase).value, old(paymentMode), old(bankName), old(accountNo),
                                          old(chequeNo), AmountOf(old(paidAmount)))
                && posted == old(posted) + [r.payload]
      ensures r.Saved? <==> (r.Saved? || r.SaveFailed?) && accepted
      ensures r.Saved? ==> purchases == LoadPurchases(reloaded, timeOf) && !payModalOpen && payPurchase.None?
                           && DialogCleared()
      ensures !r.Saved? ==> purchases == old(purchases) && payModalOpen == old(payModalOpen)
                            && payPurchase == old(payPurchase) && paymentMode == old(paymentMode)
                            && bankName == old(bankName) && accountNo == old(accountNo)
                            && chequeNo == old(chequeNo) && paidAmount == old(paidAmount)
      ensures !(r.Saved? || r.SaveFailed?) ==> posted == old(posted)
      ensures search == old(search) && statusFilter == old(statusFilter)
    {
      if payPurchase.None? {
        return NotOpen;
      }
      var paid := AmountOf(paidAmount);
      if paid <= 0.0 {
        return NotPositive;
      }
      if paid > payPurchase.value.due + 0.0001 {
        return MoreThanDue;
      }
      if paymentMode == "" {
        return NoMode;
      }
      var payload := BuildPayload(payPurchase.value, paymentMode, bankName, accountNo, chequeNo, paid);
      posted := posted + [payload];
      if !accepted {
        return SaveFailed(payload);
      }
      purchases := LoadPurchases(reloaded, timeOf);
      ClosePayModal();
      r := Saved(payload);
    }
  }

  /** A payment the dialog accepts is posted, once rounded to cents, as a
      non-negative amount at most half a cent above the due plus the
      tolerance. */
  lemma SavedWithinDue(purchase: Row, mode: string, bankName: string, accountNo: string, chequeNo: string,
                       paid: real)
    requires 0.0 < paid <= purchase.due + 0.0001
    ensures 0.0 <= BuildPayload(purchase, mode, bankName, accountNo, chequeNo, paid).paidAmount
                 <= purchase.due + 0.0051
  {
  }
}
