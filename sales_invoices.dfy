/** The sale invoice list (client/src/pages/sales/Invoices.jsx): the filter
    by customer, district and bill number, the expandable rows, the return
    dialog with its quantity checks, the payment dialog with its payload,
    and the figures of the printed invoice. `safeNumber` is `AmountOf`: an
    empty or unparsable field reads as 0. The server round trips are
    parameters saying whether the post succeeded and what the reload
    returned. */
module SalesInvoices {
  import opened Wrappers
  import opened Text
  import opened Seqs
  import opened JsNumber
  import PurchaseInvoices

  /** One sold line: its id, the quantity sold and the unit price. */
  datatype SaleLine = SaleLine(id: nat, productName: string, saleQuantity: Input, salePrice: Input)

  /** A sale as the server lists it; `customer` and `district` are the ids
      of the customer and of the customer's district, when present. */
  datatype Sale = Sale(id: nat, invoiceNo: string, customer: Option<nat>, district: Option<nat>,
                       totalAmount: Input, discountAmount: Input, totalPayable: Input, previousDue: Input,
                       payments: seq<Input>, products: seq<SaleLine>)

  /** A stored return: the sale line it belongs to and its quantity. */
  datatype SaleReturn = SaleReturn(saleProduct: Option<nat>, quantity: Input)

  // ---------------------------------------------------------------------
  // Returned quantities
  // ---------------------------------------------------------------------

  function ReturnsOf(lineId: nat): SaleReturn -> bool
  {
    (r: SaleReturn) => r.saleProduct == Some(lineId)
  }

  function ReturnedQty(r: SaleReturn): real { AmountOf(r.quantity) }

  /** `alreadyReturnedQty`: the quantities of the line's returns added up. */
  function AlreadyReturned(saleReturns: seq<SaleReturn>, lineId: nat): real
  {
    Sum(Filter(saleReturns, ReturnsOf(lineId)), ReturnedQty)
  }

  /** A line nobody returned anything of has nothing returned. */
  lemma AlreadyReturnedNone(saleReturns: seq<SaleReturn>, lineId: nat)
    requires forall r :: r in saleReturns ==> r.saleProduct != Some(lineId)
    ensures AlreadyReturned(saleReturns, lineId) == 0.0
  {
    FilterNone(saleReturns, ReturnsOf(lineId));
  }

  /** A new return counts towards its own line and towards no other. */
  lemma AlreadyReturnedAppend(saleReturns: seq<SaleReturn>, r: SaleReturn, lineId: nat)
    ensures AlreadyReturned(saleReturns + [r], lineId)
            == AlreadyReturned(saleReturns, lineId) + (if r.saleProduct == Some(lineId) then AmountOf(r.quantity) else 0.0)
  {
    var p := ReturnsOf(lineId);
    FilterAppend(saleReturns, [r], p);
    assert Filter([r], p) == Filter([], p) + (if p(r) then [r] else []);
    SumAppend(Filter(saleReturns, p), Filter([r], p), ReturnedQty);
    if p(r) {
      SumSingleton(r, ReturnedQty);
    }
  }

  // ---------------------------------------------------------------------
  // The return dialog
  // ---------------------------------------------------------------------

  /** The return dialog's fields: the chosen line's sold quantity and price,
      what was already returned of it, and what is being returned now. */
  datatype ReturnForm = ReturnForm(returnDate: string, productName: string, saleQty: Input, price: Input,
                                   alreadyReturnQty: real, returnQty: Input, returnAmount: real,
                                   returnRemarks: string, selectedProductIndex: nat)

  /** The dialog after a return was saved, dated `today`. */
  function ClearedForm(today: string): ReturnForm
  {
    ReturnForm(today, "", Blank, Blank, 0.0, Blank, 0.0, "", 0)
  }

  /** The dialog filled from line `index` of the sale, with nothing entered
      yet. */
  function FormForLine(sale: Sale, saleReturns: seq<SaleReturn>, index: nat, today: string, remarks: string)
    : (f: ReturnForm)
    requires index < |sale.products|
    ensures f.selectedProductIndex == index && f.returnQty == Blank && f.returnAmount == 0.0
    ensures f.saleQty == sale.products[index].saleQuantity && f.price == sale.products[index].salePrice
    ensures f.alreadyReturnQty == AlreadyReturned(saleReturns, sale.products[index].id)
  {
    var line := sale.products[index];
    ReturnForm(today, line.productName, line.saleQuantity, line.salePrice,
               AlreadyReturned(saleReturns, line.id), Blank, 0.0, remarks, index)
  }

  /** `returnAmount` in `handleReturnQtyChange`: max(0, quantity) × price,
      to two decimals. */
  function ReturnAmount(qty: Input, price: Input): (r: real)
    ensures AmountOf(qty) <= 0.0 ==> r == 0.0
    ensures var exact := Max0(AmountOf(qty)) * AmountOf(price);
            exact - 0.005 <= r <= exact + 0.005
  {
    PurchaseInvoices.Round2(Max0(AmountOf(qty)) * AmountOf(price))
  }

  /** What `handleSubmitReturn` posts. */
  datatype ReturnPost = ReturnPost(saleProduct: nat, quantity: real, returnDate: string, remarks: string)

  datatype ReturnError = QtyNotPositive | ExceedsSold | NoLine

  /** The checks of `handleSubmitReturn`, in order: a quantity above 0; the
      quantity plus what was already returned at most the sold quantity; a
      chosen line with an id (an id of 0 is falsy and refused too). */
  function CheckReturn(sale: Sale, form: ReturnForm): (r: Result<ReturnPost, ReturnError>)
    ensures r == Err(QtyNotPositive) <==> AmountOf(form.returnQty) <= 0.0
    ensures r == Err(ExceedsSold) <==> AmountOf(form.returnQty) > 0.0
                                       && AmountOf(form.returnQty) + form.alreadyReturnQty > AmountOf(form.saleQty)
    ensures r.Ok? <==> AmountOf(form.returnQty) > 0.0
                       && AmountOf(form.returnQty) + form.alreadyReturnQty <= AmountOf(form.saleQty)
                       && form.selectedProductIndex < |sale.products|
                       && sale.products[form.selectedProductIndex].id != 0
    ensures r.Ok? ==> r.value == ReturnPost(sale.products[form.selectedProductIndex].id, AmountOf(form.returnQty),
                                            form.returnDate, form.returnRemarks)
  {
    var qty := AmountOf(form.returnQty);
    if qty <= 0.0 then Err(QtyNotPositive)
    else if qty + form.alreadyReturnQty > AmountOf(form.saleQty) then Err(ExceedsSold)
    else if form.selectedProductIndex >= |sale.products| || sale.products[form.selectedProductIndex].id == 0 then
      Err(NoLine)
    else
      Ok(ReturnPost(sale.products[form.selectedProductIndex].id, qty, form.returnDate, form.returnRemarks))
  }

  /** The return the server stores for a post. */
  function Stored(post: ReturnPost): SaleReturn
  {
    SaleReturn(Some(post.saleProduct), Entered(Fin(post.quantity)))
  }

  /** The checks keep every line's returns within what was sold: a return
      the dialog accepts, filled from the current returns, leaves the line's
      returned total at most its sold quantity, and adds exactly the new
      quantity to it. */
  lemma ReturnStaysWithinSold(sale: Sale, saleReturns: seq<SaleReturn>, index: nat, today: string, remarks: string,
                              qty: Input)
    requires index < |sale.products|
    requires CheckReturn(sale, FormForLine(sale, saleReturns, index, today, remarks).(returnQty := qty)).Ok?
    ensures var post := CheckReturn(sale, FormForLine(sale, saleReturns, index, today, remarks).(returnQty := qty)).value;
            var id := sale.products[index].id;
            AlreadyReturned(saleReturns + [Stored(post)], id) == AlreadyReturned(saleReturns, id) + AmountOf(qty)
            && AlreadyReturned(saleReturns + [Stored(post)], id) <= AmountOf(sale.products[index].saleQuantity)
  {
    var form := FormForLine(sale, saleReturns, index, today, remarks).(returnQty := qty);
    var post := CheckReturn(sale, form).value;
    AlreadyReturnedAppend(saleReturns, Stored(post), sale.products[index].id);
  }

  // ---------------------------------------------------------------------
  // The payment dialog
  // ---------------------------------------------------------------------

  /** A payment mode option: its id and label. */
  datatype PaymentMode = PaymentMode(value: nat, name: string)

  /** The payment dialog's fields. An empty mode select is `None`; a bank
      is chosen by id. */
  datatype PaymentData = PaymentData(paymentMode: Option<nat>, bankName: Option<nat>, accountNo: string,
                                     chequeNo: string, paidAmount: Input)

  const EmptyPayment := PaymentData(None, None, "", "", Blank)

  /** The paid amounts of the sale's payments added up. */
  function TotalPaid(sale: Sale): real { Sum(sale.payments, AmountOf) }

  /** `due` = payable − paid, not clamped. */
  function DueOf(sale: Sale): real { AmountOf(sale.totalPayable) - TotalPaid(sale) }

  /** The index of the first mode with that id, or -1. */
  function FindMode(modes: seq<PaymentMode>, id: nat): (k: int)
    ensures -1 <= k < |modes|
    ensures k >= 0 ==> modes[k].value == id && forall j :: 0 <= j < k ==> modes[j].value != id
    ensures k == -1 <==> forall j :: 0 <= j < |modes| ==> modes[j].value != id
  {
    if modes == [] then -1
    else if modes[0].value == id then 0
    else
      var k := FindMode(modes[1..], id);
      if k == -1 then -1 else k + 1
  }

  /** `selectedMode?.label || ""` for `Number(paymentMode)`; an empty select
      reads as 0. */
  function ModeLabel(modes: seq<PaymentMode>, mode: Option<nat>): (r: string)
    ensures FindMode(modes, if mode.Some? then mode.value else 0) == -1 ==> r == ""
    ensures FindMode(modes, if mode.Some? then mode.value else 0) >= 0 ==>
              r == modes[FindMode(modes, if mode.Some? then mode.value else 0)].name
  {
    var k := FindMode(modes, if mode.Some? then mode.value else 0);
    if k == -1 then "" else modes[k].name
  }

  /** What `buildPaymentPayload` produces. */
  datatype SalePaymentPayload = SalePaymentPayload(saleId: nat, paymentMode: string, bankNameId: Option<nat>,
                                                   accountNo: string, chequeNo: string, paidAmount: real,
                                                   remarks: string)

  datatype PaymentError = NoSale | NotPositive | MoreThanDue

  /** `buildPaymentPayload`: refused without a sale, for a paid amount not
      above 0, or above the due by more than 0.0001. No mode is required;
      the mode's label (or "") is sent, the bank only when one is chosen,
      the amount rounded to cents. */
  function BuildPaymentPayload(sale: Option<Sale>, data: PaymentData, modes: seq<PaymentMode>)
    : (r: Result<SalePaymentPayload, PaymentError>)
    ensures r == Err(NoSale) <==> sale.None?
    ensures r == Err(NotPositive) <==> sale.Some? && AmountOf(data.paidAmount) <= 0.0
    ensures r == Err(MoreThanDue) <==> sale.Some? && AmountOf(data.paidAmount) > 0.0
                                       && AmountOf(data.paidAmount) > DueOf(sale.value) + 0.0001
    ensures r.Ok? ==> r.value.saleId == sale.value.id && r.value.paymentMode == ModeLabel(modes, data.paymentMode)
                      && r.value.accountNo == data.accountNo && r.value.chequeNo == data.chequeNo
                      && r.value.remarks == ""
                      && (r.value.bankNameId.Some? <==> data.bankName.Some? && data.bankName.value != 0)
                      && r.value.paidAmount == PurchaseInvoices.Round2(AmountOf(data.paidAmount))
  {
    if sale.None? then Err(NoSale)
    else
      var paid := AmountOf(data.paidAmount);
      if paid <= 0.0 then Err(NotPositive)
      else if paid > DueOf(sale.value) + 0.0001 then Err(MoreThanDue)
      else
        var bank := if data.bankName.Some? && data.bankName.value != 0 then data.bankName else None;
        Ok(SalePaymentPayload(sale.value.id, ModeLabel(modes, data.paymentMode), bank, data.accountNo,
                              data.chequeNo, PurchaseInvoices.Round2(paid), ""))
  }

  /** An accepted payment leaves the sale paid at most half a cent (and the
      tolerance) beyond its payable amount. */
  lemma PaymentWithinPayable(sale: Sale, data: PaymentData, modes: seq<PaymentMode>)
    requires BuildPaymentPayload(Some(sale), data, modes).Ok?
    ensures var amount := BuildPaymentPayload(Some(sale), data, modes).value.paidAmount;
            0.0 <= amount && TotalPaid(sale) + amount <= AmountOf(sale.totalPayable) + 0.0051
  {
  }

  /** The amount the dialog opens with: the due to two decimals when it is
      above 0, else nothing. */
  function Prefill(sale: Sale): (i: Input)
    ensures DueOf(sale) <= 0.0 ==> i == Blank
    ensures DueOf(sale) > 0.0 ==> i.Entered? && i.n.Fin? && DueOf(sale) - 0.005 <= i.n.v <= DueOf(sale) + 0.005
  {
    if DueOf(sale) > 0.0 then Entered(Fin(PurchaseInvoices.Round2(DueOf(sale)))) else Blank
  }

  /** Rounding a whole number of cents to cents changes nothing. */
  lemma Round2Cents(k: int)
    ensures PurchaseInvoices.Round2(k as real / 100.0) == k as real / 100.0
  {
    var x := k as real / 100.0;
    if x >= 0.0 {
      var y := x * 100.0 + 0.5;
      assert y == k as real + 0.5;
      assert y.Floor == k;
    } else {
      var y := -x * 100.0 + 0.5;
      assert y == (-k) as real + 0.5;
      assert y.Floor == -k;
    }
  }

  /** For a due of whole cents the pre-filled amount is accepted as it
      stands: it is exactly the due. */
  lemma PrefillAccepted(sale: Sale, modes: seq<PaymentMode>, k: int)
    requires DueOf(sale) > 0.0 && DueOf(sale) == k as real / 100.0
    ensures Prefill(sale) == Entered(Fin(DueOf(sale)))
    ensures BuildPaymentPayload(Some(sale), EmptyPayment.(paidAmount := Prefill(sale)), modes).Ok?
  {
    Round2Cents(k);
  }

  // ---------------------------------------------------------------------
  // The list filters
  // ---------------------------------------------------------------------

  /** The filter settings: a customer and a district when chosen, and the
      bill-number text. */
  datatype Filters = Filters(customer: Option<nat>, district: Option<nat>, billNo: string)

  const NoFilters := Filters(None, None, "")

  predicate MatchesCustomer(s: Sale, c: Option<nat>) { c.None? || s.customer == c }

  predicate MatchesDistrict(s: Sale, d: Option<nat>) { d.None? || s.district == d }

  /** The bill number contains the trimmed text, ignoring case. */
  predicate MatchesBillNo(s: Sale, billNo: string)
  {
    Trim(billNo) == "" || Contains(ToLower(s.invoiceNo), ToLower(Trim(billNo)))
  }

  predicate Matches(s: Sale, f: Filters)
  {
    MatchesCustomer(s, f.customer) && MatchesDistrict(s, f.district) && MatchesBillNo(s, f.billNo)
  }

  function CustomerCond(c: Option<nat>): Sale -> bool { (s: Sale) => MatchesCustomer(s, c) }
  function DistrictCond(d: Option<nat>): Sale -> bool { (s: Sale) => MatchesDistrict(s, d) }
  function BillNoCond(billNo: string): Sale -> bool { (s: Sale) => MatchesBillNo(s, billNo) }
  function FirstTwo(f: Filters): Sale -> bool { (s: Sale) => MatchesCustomer(s, f.customer) && MatchesDistrict(s, f.district) }
  function MatchesFn(f: Filters): Sale -> bool { (s: Sale) => Matches(s, f) }

  /** The filter effect: the three filters in turn, each skipped when its
      setting is empty. */
  function FilteredSales(all: seq<Sale>, f: Filters): seq<Sale>
  {
    var r1 := if f.customer.Some? then Filter(all, CustomerCond(f.customer)) else all;
    var r2 := if f.district.Some? then Filter(r1, DistrictCond(f.district)) else r1;
    if Trim(f.billNo) != "" then Filter(r2, BillNoCond(f.billNo)) else r2
  }

  /** The chain of filters is one filter by every setting at once. */
  lemma FilteredIsOneFilter(all: seq<Sale>, f: Filters)
    ensures FilteredSales(all, f) == Filter(all, MatchesFn(f))
  {
    var r1 := if f.customer.Some? then Filter(all, CustomerCond(f.customer)) else all;
    assert r1 == Filter(all, CustomerCond(f.customer)) by {
      if f.customer.None? {
        FilterAll(all, CustomerCond(f.customer));
      }
    }
    FilterStage(all, CustomerCond(f.customer), DistrictCond(f.district), f.district.Some?, FirstTwo(f));
    FilterStage(all, FirstTwo(f), BillNoCond(f.billNo), Trim(f.billNo) != "", MatchesFn(f));
  }

  /** The chain of filters lists exactly the sales that meet every setting. */
  lemma FilteredMembers(all: seq<Sale>, f: Filters)
    ensures forall s :: s in FilteredSales(all, f) <==> s in all && Matches(s, f)
  {
    FilteredIsOneFilter(all, f);
  }

  /** With no settings every sale is listed. */
  lemma NoFiltersKeepsAll(all: seq<Sale>)
    ensures FilteredSales(all, NoFilters) == all
  {
    assert Trim("") == "" by { assert |Trim("")| <= 0; }
  }

  // ---------------------------------------------------------------------
  // Expanded rows
  // ---------------------------------------------------------------------

  /** `toggleRow(id)`: the id leaves the set if it was in, else joins it. */
  function Toggled(rows: set<nat>, id: nat): (r: set<nat>)
    ensures id in r <==> id !in rows
    ensures forall x :: x != id ==> (x in r <==> x in rows)
  {
    if id in rows then rows - {id} else rows + {id}
  }

  /** Toggling the same row twice restores the set. */
  lemma ToggleTwice(rows: set<nat>, id: nat)
    ensures Toggled(Toggled(rows, id), id) == rows
  {
  }

  // ---------------------------------------------------------------------
  // The printed invoice
  // ---------------------------------------------------------------------

  function LineQty(l: SaleLine): real { AmountOf(l.saleQuantity) }

  /** The figures `handleGenerateSalePdf` prints. */
  datatype InvoiceFigures = InvoiceFigures(totalQty: real, grossTotal: real, paid: real, due: real,
                                           totalDueBalance: real)

  /** gross = total − discount, due = gross − paid, total due = previous
      due + due. */
  function PrintFigures(sale: Sale): (r: InvoiceFigures)
    ensures r.totalDueBalance == AmountOf(sale.previousDue) + r.grossTotal - r.paid
    ensures r.paid == TotalPaid(sale)
  {
    var gross := AmountOf(sale.totalAmount) - AmountOf(sale.discountAmount);
    var paid := TotalPaid(sale);
    var due := gross - paid;
    InvoiceFigures(Sum(sale.products, LineQty), gross, paid, due, AmountOf(sale.previousDue) + due)
  }

  /** The printed due is worked out from the total and the discount, the
      dialog's from the payable amount: they agree exactly when the payable
      amount is the total less the discount. */
  lemma PrintedDueMatchesDialog(sale: Sale)
    ensures PrintFigures(sale).due == DueOf(sale)
            <==> AmountOf(sale.totalPayable) == AmountOf(sale.totalAmount) - AmountOf(sale.discountAmount)
  {
  }

  // ---------------------------------------------------------------------
  // The page
  // ---------------------------------------------------------------------

  datatype ReturnOutcome = ReturnRefused(error: ReturnError) | ReturnSaved(post: ReturnPost)
                         | ReturnFailed(post: ReturnPost)

  datatype PayOutcome = PayRefused(error: PaymentError) | PaySaved(payload: SalePaymentPayload)
                      | PayFailed(payload: SalePaymentPayload)

  class InvoicesPage {
    var allSales: seq<Sale>
    var sales: seq<Sale>
    var currentPage: nat
    var filters: Filters
    var expandedRows: set<nat>
    var saleReturns: seq<SaleReturn>
    var returnSale: Option<Sale>
    var form: ReturnForm
    /** The message under the return quantity; "" when none. */
    var returnQtyError: string
    var payModalSale: Option<Sale>
    var paymentData: PaymentData
    var modes: seq<PaymentMode>
    /** The returns and payments posted so far. */
    var postedReturns: seq<ReturnPost>
    var postedPayments: seq<SalePaymentPayload>

    /** The list shows the sales that meet the filters. */
    ghost predicate Valid()
      reads this`sales, this`allSales, this`filters
    {
      sales == Filter(allSales, MatchesFn(filters))
    }

    constructor (today: string, modes: seq<PaymentMode>)
      ensures Valid() && allSales == [] && currentPage == 1 && filters == NoFilters && expandedRows == {}
      ensures saleReturns == [] && returnSale.None? && form == ClearedForm(today) && returnQtyError == ""
      ensures payModalSale.None? && paymentData == EmptyPayment && this.modes == modes
      ensures postedReturns == [] && postedPayments == []
    {
      allSales := [];
      sales := [];
      currentPage := 1;
      filters := NoFilters;
      expandedRows := {};
      saleReturns := [];
      returnSale := None;
      form := ClearedForm(today);
      returnQtyError := "";
      payModalSale := None;
      paymentData := EmptyPayment;
      this.modes := modes;
      postedReturns := [];
      postedPayments := [];
      assert Filter([], MatchesFn(NoFilters)) == [];
    }

    /** `toggleRow(id)`. */
    method ToggleRow(id: nat)
      modifies this`expandedRows
      ensures expandedRows == Toggled(old(expandedRows), id)
    {
      var rows := expandedRows;
      if id in rows {
        rows := rows - {id};
      } else {
        rows := rows + {id};
      }
      expandedRows := rows;
    }

    /** The filter effect: the three filters in turn, each skipped when its
        setting is empty, and the page back to 1. */
    method ApplyFilters()
      modifies this`sales, this`currentPage
      ensures Valid() && currentPage == 1
    {
      var shown := FilteredSales(allSales, filters);
      FilteredIsOneFilter(allSales, filters);
      sales := shown;
      currentPage := 1;
    }

    /** A filter handler, followed by the filter effect. */
    method SetFilters(f: Filters)
      modifies this`filters, this`sales, this`currentPage
      ensures filters == f && currentPage == 1 && Valid()
      ensures sales == Filter(allSales, MatchesFn(f))
    {
      filters := f;
      ApplyFilters();
    }

    /** `handleOpenReturnModal(sale)`: a sale without lines is refused;
        otherwise the dialog opens on its first line. */
    method OpenReturnModal(sale: Sale, today: string) returns (isOpen: bool)
      modifies this`returnSale, this`form, this`returnQtyError
      ensures isOpen <==> sale.products != []
      ensures !isOpen ==> returnSale == old(returnSale) && form == old(form) && returnQtyError == old(returnQtyError)
      ensures isOpen ==> returnSale == Some(sale) && form == FormForLine(sale, saleReturns, 0, today, "")
                         && returnQtyError == ""
    {
      if sale.products == [] {
        return false;
      }
      returnSale := Some(sale);
      form := FormForLine(sale, saleReturns, 0, today, "");
      returnQtyError := "";
      isOpen := true;
    }

    /** `handleProductSelectChange(index)`: the dialog switches to another
        line of the open sale, keeping the date and the remarks. */
    method SelectReturnLine(index: nat)
      requires returnSale.Some? && index < |returnSale.value.products|
      modifies this`form
      ensures form == FormForLine(returnSale.value, saleReturns, index, old(form).returnDate, old(form).returnRemarks)
    {
      form := FormForLine(returnSale.value, saleReturns, index, form.returnDate, form.returnRemarks);
    }

    /** `handleReturnQtyChange(value)`: the quantity is kept as typed, the
        amount worked out from it, and the quantity's message cleared. */
    method HandleReturnQtyChange(value: Input)
      modifies this`form, this`returnQtyError
      ensures form == old(form).(returnQty := value, returnAmount := ReturnAmount(value, old(form).price))
      ensures returnQtyError == ""
    {
      form := form.(returnQty := value, returnAmount := ReturnAmount(value, form.price));
      returnQtyError := "";
    }

    /** The return dialog closed and cleared, dated `today`. */
    method CloseReturnModal(today: string)
      modifies this`returnSale, this`form, this`returnQtyError
      ensures returnSale.None? && form == ClearedForm(today) && returnQtyError == ""
    {
      returnSale := None;
      form := ClearedForm(today);
      returnQtyError := "";
    }

    /** The part of `handleSubmitReturn` after the checks: the return is
        posted; when the server takes it the returns and the sales are
        reloaded, the list filtered anew and the dialog closed and cleared. */
    method PostReturn(post: ReturnPost, accepted: bool, reloadedReturns: seq<SaleReturn>, reloadedSales: seq<Sale>,
                      today: string)
      returns (r: ReturnOutcome)
      requires Valid()
      modifies this`postedReturns, this`returnQtyError, this`saleReturns, this`allSales, this`sales, this`currentPage
      modifies this`returnSale, this`form
      ensures Valid() && postedReturns == old(postedReturns) + [post]
      ensures r == if accepted then ReturnSaved(post) else ReturnFailed(post)
      ensures accepted ==> saleReturns == reloadedReturns && allSales == reloadedSales && currentPage == 1
                           && returnSale.None? && form == ClearedForm(today) && returnQtyError == ""
      ensures !accepted ==> saleReturns == old(saleReturns) && allSales == old(allSales) && sales == old(sales)
                            && currentPage == old(currentPage) && returnSale == old(returnSale)
                            && form == old(form) && returnQtyError == old(returnQtyError)
    {
      postedReturns := postedReturns + [post];
      if !accepted {
        return ReturnFailed(post);
      }
      saleReturns := reloadedReturns;
      CloseReturnModal(today);
      allSales := reloadedSales;
      ApplyFilters();
      r := ReturnSaved(post);
    }

    /** `handleSubmitReturn`: a refused return posts nothing, and a quantity
        not above 0 shows its message; otherwise the return is posted as
        `PostReturn` says. */
    method SubmitReturn(accepted: bool, reloadedReturns: seq<SaleReturn>, reloadedSales: seq<Sale>, today: string)
      returns (r: ReturnOutcome)
      requires returnSale.Some? && Valid()
      modifies this`postedReturns, this`returnQtyError, this`saleReturns, this`allSales, this`sales, this`currentPage
      modifies this`returnSale, this`form
      ensures Valid()
      ensures var check := CheckReturn(old(returnSale).value, old(form));
              (check.Err? <==> r.ReturnRefused?) && (check.Err? ==> r.error == check.error)
              && (check.Ok? ==> r.post == check.value && postedReturns == old(postedReturns) + [check.value])
      ensures r.ReturnRefused? ==> postedReturns == old(postedReturns)
      ensures r.ReturnRefused? ==> returnQtyError == (if r.error == QtyNotPositive then "Please enter a valid quantity"
                                                     else old(returnQtyError))
      ensures r.ReturnSaved? <==> !r.ReturnRefused? && accepted
      ensures r.ReturnSaved? ==> saleReturns == reloadedReturns && allSales == reloadedSales && currentPage == 1
                                 && returnSale.None? && form == ClearedForm(today) && returnQtyError == ""
      ensures !r.ReturnSaved? ==> saleReturns == old(saleReturns) && allSales == old(allSales) && sales == old(sales)
                                  && currentPage == old(currentPage) && returnSale == old(returnSale)
                                  && form == old(form)
    {
      var check := CheckReturn(returnSale.value, form);
      if check.Err? {
        if check.error == QtyNotPositive {
          returnQtyError := "Please enter a valid quantity";
        }
        r := ReturnRefused(check.error);
      } else {
        r := PostReturn(check.value, accepted, reloadedReturns, reloadedSales, today);
      }
    }

    /** Opening the payment dialog on a sale: the fields are cleared and the
        amount pre-filled with the due when it is above 0. */
    method OpenPayModal(sale: Sale)
      modifies this`payModalSale, this`paymentData
      ensures payModalSale == Some(sale) && paymentData == EmptyPayment.(paidAmount := Prefill(sale))
    {
      payModalSale := Some(sale);
      var due := DueOf(sale);
      paymentData := EmptyPayment.(paidAmount := if due > 0.0 then Entered(Fin(PurchaseInvoices.Round2(due))) else Blank);
    }

    /** The part of `handleSavePayment` after the checks: the payload is
        posted; when the server takes it the sales are reloaded, the list
        filtered anew and the dialog closed and cleared. */
    method PostPayment(payload: SalePaymentPayload, accepted: bool, reloadedSales: seq<Sale>) returns (r: PayOutcome)
      requires Valid()
      modifies this`postedPayments, this`allSales, this`sales, this`currentPage, this`payModalSale, this`paymentData
      ensures Valid() && postedPayments == old(postedPayments) + [payload]
      ensures r == if accepted then PaySaved(payload) else PayFailed(payload)
      ensures accepted ==> allSales == reloadedSales && currentPage == 1 && payModalSale.None?
                           && paymentData == EmptyPayment
      ensures !accepted ==> allSales == old(allSales) && sales == old(sales) && currentPage == old(currentPage)
                            && payModalSale == old(payModalSale) && paymentData == old(paymentData)
    {
      if !accepted {
        postedPayments := postedPayments + [payload];
        return PayFailed(payload);
      }
      allSales := reloadedSales;
      ApplyFilters();
      postedPayments := postedPayments + [payload];
      payModalSale := None;
      paymentData := EmptyPayment;
      r := PaySaved(payload);
    }

    /** `handleSavePayment`: nothing is posted when `buildPaymentPayload`
        refuses; otherwise the payload is posted as `PostPayment` says. */
    method HandleSavePayment(accepted: bool, reloadedSales: seq<Sale>) returns (r: PayOutcome)
      requires Valid()
      modifies this`postedPayments, this`allSales, this`sales, this`currentPage, this`payModalSale, this`paymentData
      ensures Valid()
      ensures var built := BuildPaymentPayload(old(payModalSale), old(paymentData), modes);
              (built.Err? <==> r.PayRefused?) && (built.Err? ==> r.error == built.error)
              && (built.Ok? ==> r.payload == built.value && postedPayments == old(postedPayments) + [built.value])
      ensures r.PayRefused? ==> postedPayments == old(postedPayments)
      ensures r.PaySaved? <==> !r.PayRefused? && accepted
      ensures r.PaySaved? ==> allSales == reloadedSales && currentPage == 1 && payModalSale.None?
                              && paymentData == EmptyPayment
      ensures !r.PaySaved? ==> allSales == old(allSales) && sales == old(sales) && currentPage == old(currentPage)
                               && payModalSale == old(payModalSale) && paymentData == old(paymentData)
    {
      var built := BuildPaymentPayload(payModalSale, paymentData, modes);
      if built.Err? {
        r := PayRefused(built.error);
      } else {
        r := PostPayment(built.value, accepted, reloadedSales);
      }
    }
  }
}
