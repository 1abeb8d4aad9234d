/** The purchase entry page (client/src/pages/purchases/ProductsPurchases.jsx):
    the line total, the list of added products, the totals (the payable is
    not held at 0), the payments and the checks before the purchase is
    posted. Number fields are `Input`s; `parseInt` is truncation towards
    zero of the parsed value. */
module ProductsPurchases {
  import opened Wrappers
  import opened Seqs
  import opened JsNumber
  import PurchaseInvoices
  import ProductSales

  /** A choice of the product picker: the product's id and its name. */
  datatype ProductOption = ProductOption(id: nat, name: string)

  /** The line-total effect: price × quantity to two decimals, an empty or
      unparsable field counting as 0. */
  function LineTotal(price: Input, qty: Input): (t: real)
    ensures var exact := AmountOf(price) * ProductSales.ParseQty(qty) as real;
            exact - 0.005 <= t <= exact + 0.005
    ensures ProductSales.ParseQty(qty) == 0 ==> t == 0.0
  {
    var base := AmountOf(price);
    var n := ProductSales.ParseQty(qty);
    var exact := base * n as real;
    assert n == 0 ==> exact == 0.0;
    assert PurchaseInvoices.Round2(0.0) == 0.0 by {
      assert (0.0 * 100.0 + 0.5).Floor == 0;
    }
    PurchaseInvoices.Round2(exact)
  }

  /** A product line as `addProduct` stores it: the quantity and price as
      typed, and the total shown when it was added. */
  datatype Line = Line(id: nat, name: string, currentStock: int, purchaseQuantity: Input,
                       purchasePrice: Input, totalPrice: real)

  function LineAmount(l: Line): real { l.totalPrice }

  /** The totals effect's `total`. */
  function TotalAmount(lines: seq<Line>): real
  {
    Sum(lines, LineAmount)
  }

  /** The totals effect's payable: total − discount, below 0 when the
      discount exceeds the total. */
  function Payable(lines: seq<Line>, discount: Input): (r: real)
    ensures r + AmountOf(discount) == TotalAmount(lines)
  {
    TotalAmount(lines) - AmountOf(discount)
  }

  /** Adding a line adds its total; removing line i takes its total off. */
  lemma TotalAfterChange(lines: seq<Line>, l: Line, i: nat)
    ensures TotalAmount(lines + [l]) == TotalAmount(lines) + l.totalPrice
    ensures i < |lines| ==> TotalAmount(RemoveAt(lines, i)) == TotalAmount(lines) - lines[i].totalPrice
  {
    SumAppend(lines, [l], LineAmount);
    SumSingleton(l, LineAmount);
    if i < |lines| {
      SumRemoveAt(lines, i, LineAmount);
    }
  }

  /** Unlike the sale page's, this payable goes below 0 exactly when the
      discount exceeds the total, and otherwise agrees with the clamped one. */
  lemma PayableUnclamped(lines: seq<Line>, discount: Input)
    ensures Payable(lines, discount) < 0.0 <==> AmountOf(discount) > TotalAmount(lines)
    ensures Payable(lines, discount) >= 0.0 ==>
              Payable(lines, discount) == Max0(TotalAmount(lines) - AmountOf(discount))
  {
  }

  /** A payment row; the mode and bank are the chosen ids. */
  datatype PaymentEntry = PaymentEntry(mode: Option<nat>, bank: Option<nat>, accountNo: string, chequeNo: string,
                                       paidAmount: Input)

  const EmptyEntry := PaymentEntry(None, None, "", "", Blank)

  /** `handleAddPayment`'s guard: a mode (an id of 0 is falsy) and an
      amount that is not empty. */
  predicate PaymentComplete(e: PaymentEntry)
  {
    e.mode.Some? && e.mode.value != 0 && e.paidAmount.Entered?
  }

  function PaidValue(e: PaymentEntry): Num { ValueOf(e.paidAmount) }

  /** `totalPaidAmount`: `parseFloat(p.paidAmount || 0)` added up from the
      left; one amount that does not parse makes it NaN. */
  function TotalPaid(ps: seq<PaymentEntry>): (r: Num)
    ensures r.Fin? <==> forall e :: e in ps ==> PaidValue(e).Fin?
  {
    NumSum(ps, PaidValue)
  }

  /** Adding a payment adds its amount to the total paid. */
  lemma TotalPaidAfterAdd(ps: seq<PaymentEntry>, e: PaymentEntry)
    ensures TotalPaid(ps + [e]) == Add(TotalPaid(ps), PaidValue(e))
  {
    NumSumAppend(ps, [e], PaidValue);
    assert [e][..0] == [];
  }

  datatype SubmitError = NoSupplier | NoProducts | NoPayments

  /** `handleSubmit`'s checks, in order: a supplier, at least one product,
      at least one payment. */
  function CheckSubmit(supplier: Option<nat>, lines: seq<Line>, payments: seq<PaymentEntry>): (r: Outcome<SubmitError>)
    ensures r == Fail(NoSupplier) <==> supplier.None?
    ensures r == Fail(NoProducts) <==> supplier.Some? && lines == []
    ensures r == Fail(NoPayments) <==> supplier.Some? && lines != [] && payments == []
    ensures r.Pass? <==> supplier.Some? && lines != [] && payments != []
  {
    if supplier.None? then Fail(NoSupplier)
    else if lines == [] then Fail(NoProducts)
    else if payments == [] then Fail(NoPayments)
    else Pass
  }

  /** The purchase `handleSubmit` posts: the supplier, the totals, the
      lines and the payments. */
  datatype Payload = Payload(supplier: nat, totalAmount: real, discount: real, totalPayable: real, totalPaid: Num,
                             lines: seq<Line>, payments: seq<PaymentEntry>)

  datatype SubmitResult = Refused(error: SubmitError) | Posted(payload: Payload) | PostFailed(payload: Payload)

  class PurchasePage {
    /** The loaded stock rows. */
    var stock: seq<ProductSales.StockItem>
    var supplier: Option<nat>
    var selected: Option<ProductOption>
    var currentStock: int
    var purchaseQuantity: Input
    var purchasePrice: Input
    var totalPrice: real
    var added: seq<Line>
    var discount: Input
    var payments: seq<PaymentEntry>
    var paymentData: PaymentEntry
    /** The purchases posted so far. */
    var posted: seq<Payload>

    constructor (stock: seq<ProductSales.StockItem>)
      ensures this.stock == stock && supplier.None? && selected.None? && currentStock == 0
      ensures purchaseQuantity == Blank && purchasePrice == Blank && totalPrice == 0.0 && added == []
      ensures discount == Blank && payments == [] && paymentData == EmptyEntry && posted == []
    {
      this.stock := stock;
      supplier := None;
      selected := None;
      currentStock := 0;
      purchaseQuantity := Blank;
      purchasePrice := Blank;
      totalPrice := 0.0;
      added := [];
      discount := Blank;
      payments := [];
      paymentData := EmptyEntry;
      posted := [];
    }

    /** The quantity on hand shown is that of the selected product's first
        stock row, and 0 when nothing is selected. */
    predicate ShowsSelection()
      reads this`stock, this`selected, this`currentStock
    {
      currentStock == if selected.None? then 0 else ProductSales.StockOnHand(stock, selected.value.id)
    }

    /** `handleProductNameChange` as written: the choice is stored first.
        Clearing the picker then calls `setSelectedPartNumber`, which the
        page never declares, so the handler stops with a ReferenceError
        before `setCurrentStock(0)`: the old quantity on hand stays. */
    method ChooseProduct(choice: Option<ProductOption>)
      modifies this`selected, this`currentStock
      ensures selected == choice
      ensures choice.Some? ==> currentStock == ProductSales.StockOnHand(stock, choice.value.id) && ShowsSelection()
      ensures choice.None? ==> currentStock == old(currentStock)
      ensures choice.None? ==> (ShowsSelection() <==> old(currentStock) == 0)
    {
      selected := choice;
      if choice.None? {
        // setSelectedPartNumber(null) throws here
        return;
      }
      currentStock := ProductSales.StockOnHand(stock, choice.value.id);
    }

    /** `handleProductNameChange` as evidently intended: clearing the picker
        also resets the quantity on hand to 0, so the page always shows the
        selection's quantity. */
    method ChooseProductCorrected(choice: Option<ProductOption>)
      modifies this`selected, this`currentStock
      ensures selected == choice
      ensures ShowsSelection()
    {
      selected := choice;
      if choice.None? {
        currentStock := 0;
        return;
      }
      currentStock := ProductSales.StockOnHand(stock, choice.value.id);
    }

    /** The line-total effect. */
    method Recalculate()
      modifies this`totalPrice
      ensures totalPrice == LineTotal(purchasePrice, purchaseQuantity)
    {
      totalPrice := LineTotal(purchasePrice, purchaseQuantity);
    }

    /** `addProduct`: refused without a product, a quantity or a price;
        otherwise the line is appended (a product may be listed twice) and
        the product fields cleared. */
    method AddProduct() returns (ok: bool)
      modifies this`added, this`selected, this`purchaseQuantity, this`purchasePrice, this`totalPrice
      modifies this`currentStock
      ensures ok <==> old(selected).Some? && old(purchaseQuantity).Entered? && old(purchasePrice).Entered?
      ensures ok ==> added == old(added) + [Line(old(selected).value.id, old(selected).value.name, old(currentStock),
                                                 old(purchaseQuantity), old(purchasePrice), old(totalPrice))]
                     && selected.None? && purchaseQuantity == Blank && purchasePrice == Blank && totalPrice == 0.0
                     && currentStock == 0
      ensures !ok ==> added == old(added) && selected == old(selected) && purchaseQuantity == old(purchaseQuantity)
                      && purchasePrice == old(purchasePrice) && totalPrice == old(totalPrice)
                      && currentStock == old(currentStock)
    {
      if selected.None? || purchaseQuantity.Blank? || purchasePrice.Blank? {
        return false;
      }
      added := added + [Line(selected.value.id, selected.value.name, currentStock, purchaseQuantity, purchasePrice,
                             totalPrice)];
      selected := None;
      purchaseQuantity := Blank;
      purchasePrice := Blank;
      totalPrice := 0.0;
      currentStock := 0;
      ok := true;
    }

    /** `removeProduct(index)`: only line index leaves the list. */
    method RemoveProduct(index: nat)
      modifies this`added
      ensures added == RemoveAt(old(added), index)
    {
      added := RemoveAt(added, index);
    }

    /** `handleAddPayment`: refused without a mode or an amount; otherwise
        the payment is appended and the payment fields cleared. */
    method AddPayment() returns (ok: bool)
      modifies this`payments, this`paymentData
      ensures ok <==> PaymentComplete(old(paymentData))
      ensures ok ==> payments == old(payments) + [old(paymentData)] && paymentData == EmptyEntry
      ensures !ok ==> payments == old(payments) && paymentData == old(paymentData)
    {
      if !PaymentComplete(paymentData) {
        return false;
      }
      payments := payments + [paymentData];
      paymentData := EmptyEntry;
      ok := true;
    }

    /** `removePayment(index)`: only payment index leaves the list. */
    method RemovePayment(index: nat)
      modifies this`payments
      ensures payments == RemoveAt(old(payments), index)
    {
      payments := RemoveAt(payments, index);
    }

    /** `handleSubmit`: refused by `CheckSubmit`; otherwise the purchase is
        posted with the current totals, and the form is kept whether or not
        the server takes it. */
    method Submit(accepted: bool) returns (r: SubmitResult)
      modifies this`posted
      ensures CheckSubmit(supplier, added, payments).Fail? <==> r.Refused?
      ensures r.Refused? ==> r.error == CheckSubmit(supplier, added, payments).error && posted == old(posted)
      ensures !r.Refused? ==>
                r.payload == Payload(supplier.value, TotalAmount(added), AmountOf(discount), Payable(added, discount),
                                     TotalPaid(payments), added, payments)
                && posted == old(posted) + [r.payload] && (r.Posted? <==> accepted)
    {
      var check := CheckSubmit(supplier, added, payments);
      if check.Fail? {
        return Refused(check.error);
      }
      var payload := Payload(supplier.value, TotalAmount(added), AmountOf(discount), Payable(added, discount),
                             TotalPaid(payments), added, payments);
      posted := posted + [payload];
      if accepted {
        r := Posted(payload);
      } else {
        r := PostFailed(payload);
      }
    }
  }
}
