/** The purchase bill list (client/src/pages/purchases/Bills.jsx): each
    purchase as a bill with its number, vendor, paid total, due and status,
    newest first, with a search and status filter and totals over what is
    shown. Parsing a date into a time value is the parameter `timeOf`. */
module Bills {
  import opened Text
  import opened Seqs
  import opened Sorting
  import opened JsNumber
  import PurchaseInvoices

  type Purchase = PurchaseInvoices.Purchase
  type Status = PurchaseInvoices.Status

  /** `computeStatus` as this page writes it: N/A, Unpaid, Paid, Partially
      Paid checked in that order, with a final N/A. */
  function ComputeStatus(payable: real, paid: real): (s: Status)
    ensures s == PurchaseInvoices.NotApplicable <==> payable <= 0.0 && paid <= 0.0
    ensures s == PurchaseInvoices.Unpaid <==> paid <= 0.0 && payable > 0.0
    ensures s == PurchaseInvoices.Paid <==> paid > 0.0 && payable <= paid
    ensures s == PurchaseInvoices.PartiallyPaid <==> paid > 0.0 && payable > paid
  {
    if payable <= 0.0 && paid <= 0.0 then PurchaseInvoices.NotApplicable
    else if paid <= 0.0 && payable > 0.0 then PurchaseInvoices.Unpaid
    else
      var due := Max0(payable - paid);
      if due <= 0.0 then PurchaseInvoices.Paid
      else if paid > 0.0 && due > 0.0 then PurchaseInvoices.PartiallyPaid
      else PurchaseInvoices.NotApplicable
  }

  /** The final fallback is never reached: the two pages' status functions
      agree on every input. */
  lemma StatusAgreesWithInvoices(payable: real, paid: real)
    ensures ComputeStatus(payable, paid) == PurchaseInvoices.ComputeStatus(payable, paid)
  {
  }

  datatype Bill = Bill(id: nat, billDate: string, billNo: string, vendor: string, totalAmount: real,
                       totalPayable: real, totalPaid: real, due: real, status: Status)

  /** `invoice_no || "PUR-" + id`. */
  function BillNo(p: Purchase): (r: string)
    ensures r != ""
    ensures p.invoiceNo != "" ==> r == p.invoiceNo
    ensures p.invoiceNo == "" ==> |r| > 4 && r[..4] == "PUR-" && AllDigits(r[4..]) && DigitsValue(r[4..]) == p.id
  {
    if p.invoiceNo != "" then p.invoiceNo
    else
      var digits := NatToString(p.id);
      assert ("PUR-" + digits)[4..] == digits;
      "PUR-" + digits
  }

  /** The `map` in `loadBills`. */
  function MapBill(p: Purchase): (b: Bill)
    ensures b.id == p.id && b.billDate == p.purchaseDate && b.billNo == BillNo(p)
    ensures b.vendor == PurchaseInvoices.VendorLabel(p)
    ensures b.totalAmount == AmountOf(p.totalAmount) && b.totalPayable == AmountOf(p.totalPayable)
    ensures b.totalPaid == PurchaseInvoices.PaidTotal(p.payments)
    ensures b.due >= 0.0 && b.due >= b.totalPayable - b.totalPaid
    ensures b.due == 0.0 || b.due == b.totalPayable - b.totalPaid
    ensures b.status == ComputeStatus(b.totalPayable, b.totalPaid)
  {
    var payable := AmountOf(p.totalPayable);
    var paid := PurchaseInvoices.PaidTotal(p.payments);
    Bill(p.id, p.purchaseDate, BillNo(p), PurchaseInvoices.VendorLabel(p), AmountOf(p.totalAmount), payable, paid,
         Max0(payable - paid), ComputeStatus(payable, paid))
  }

  function MapBills(ps: seq<Purchase>): (r: seq<Bill>)
    ensures |r| == |ps| && forall i {:trigger r[i]} :: 0 <= i < |ps| ==> r[i] == MapBill(ps[i])
  {
    seq(|ps|, i requires 0 <= i < |ps| => MapBill(ps[i]))
  }

  /** The time `new Date(billDate || "1970-01-01")` reads. */
  function TimeOfBill(b: Bill, timeOf: string -> int): int
  {
    timeOf(if b.billDate != "" then b.billDate else "1970-01-01")
  }

  function NewestFirst(timeOf: string -> int): Bill -> Key
  {
    (b: Bill) => Key(-TimeOfBill(b, timeOf), 0)
  }

  /** Sorting with the newest-first key leaves later dates ahead. */
  lemma NewestFirstOrder(bills: seq<Bill>, timeOf: string -> int, r: seq<Bill>)
    requires r == Sort(bills, NewestFirst(timeOf))
    ensures forall i, j :: 0 <= i < j < |r| ==> TimeOfBill(r[i], timeOf) >= TimeOfBill(r[j], timeOf)
  {
    SortSorted(bills, NewestFirst(timeOf));
    assert forall i, j :: 0 <= i < j < |r| ==> KeyLe(NewestFirst(timeOf)(r[i]), NewestFirst(timeOf)(r[j]));
  }

  /** `loadBills`: mapped, then sorted newest first; bills of the same time
      keep the server's order. */
  function LoadBills(ps: seq<Purchase>, timeOf: string -> int): (r: seq<Bill>)
    ensures |r| == |ps| && multiset(r) == multiset(MapBills(ps))
    ensures forall i, j :: 0 <= i < j < |r| ==> TimeOfBill(r[i], timeOf) >= TimeOfBill(r[j], timeOf)
    ensures forall k :: Ties(r, NewestFirst(timeOf), k) == Ties(MapBills(ps), NewestFirst(timeOf), k)
  {
    var r := Sort(MapBills(ps), NewestFirst(timeOf));
    NewestFirstOrder(MapBills(ps), timeOf, r);
    SortStableAll(MapBills(ps), NewestFirst(timeOf));
    r
  }

  /** The search term matches the bill number or the vendor, ignoring case. */
  predicate MatchesSearch(b: Bill, search: string)
  {
    var term := ToLower(Trim(search));
    term == "" || Contains(ToLower(b.billNo), term) || Contains(ToLower(b.vendor), term)
  }

  predicate Keep(b: Bill, search: string, statusFilter: PurchaseInvoices.StatusFilter)
  {
    MatchesSearch(b, search) && (statusFilter.All? || b.status == statusFilter.status)
  }

  function KeepFn(search: string, statusFilter: PurchaseInvoices.StatusFilter): Bill -> bool
  {
    (b: Bill) => Keep(b, search, statusFilter)
  }

  /** `filteredBills`. */
  function FilteredBills(bills: seq<Bill>, search: string, statusFilter: PurchaseInvoices.StatusFilter)
    : (r: seq<Bill>)
    ensures forall b :: b in r <==> b in bills && Keep(b, search, statusFilter)
  {
    Filter(bills, KeepFn(search, statusFilter))
  }

  function BillPayable(b: Bill): real { b.totalPayable }
  function BillDue(b: Bill): real { b.due }

  /** `totals` over the bills shown. */
  function Totals(shown: seq<Bill>): (real, real)
  {
    (Sum(shown, BillPayable), Sum(shown, BillDue))
  }

  function Lacks(s: Status): Bill -> bool
  {
    (b: Bill) => b.status != s
  }

  /** A status filter shows part of what "all" shows: the due under one
      status and the due of the other bills add up to the due under "all". */
  lemma StatusFiltersPartition(bills: seq<Bill>, search: string, s: Status)
    ensures Sum(FilteredBills(bills, search, PurchaseInvoices.All), BillDue)
            == Sum(FilteredBills(bills, search, PurchaseInvoices.Only(s)), BillDue)
               + Sum(Filter(FilteredBills(bills, search, PurchaseInvoices.All), Lacks(s)), BillDue)
  {
    var all := FilteredBills(bills, search, PurchaseInvoices.All);
    var has := (b: Bill) => b.status == s;
    SumSplitByComplement(all, has, Lacks(s), BillDue);
    FilterStage(bills, KeepFn(search, PurchaseInvoices.All), has, true, KeepFn(search, PurchaseInvoices.Only(s)));
  }
}
