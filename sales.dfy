/** Sales documents and their effect on stock: invoice numbering and the
    clamped stock deduction (server/sales/models.py), the checked deduction
    of the post_save receiver (server/sales/signals.py), the return and
    payment validators and the atomic create (server/sales/serializers.py),
    and the return endpoint (server/sales/views.py). */
module Sales {
  import opened Wrappers
  import opened Text
  import opened Stock

  // ---------------------------------------------------------------------
  // Invoice numbers
  // ---------------------------------------------------------------------

  /** `generate_invoice_no`: "SA" and the highest existing id plus one (1
      when there are no sales), zero-padded to eight digits. */
  function GenerateInvoiceNo(lastId: Option<nat>): (s: string)
    ensures |s| >= 10 && s[..2] == "SA" && AllDigits(s[2..])
    ensures DigitsValue(s[2..]) == if lastId.Some? then lastId.value + 1 else 1
  {
    var next := if lastId.Some? then lastId.value + 1 else 1;
    var digits := PadStart(NatToString(next), 8, '0');
    ZeroPaddedValue(next, 8);
    var s := "SA" + digits;
    assert s[2..] == digits;
    s
  }

  /** With no sales yet the first number is SA00000001. */
  lemma FirstInvoiceNo()
    ensures GenerateInvoiceNo(None) == "SA00000001"
  {
    assert NatToString(1) == "1";
  }

  /** Below 10^8 every number is exactly ten characters long. */
  lemma InvoiceNoLength(lastId: Option<nat>)
    requires lastId.Some? ==> lastId.value + 1 < 100000000
    ensures |GenerateInvoiceNo(lastId)| == 10
  {
    var next := if lastId.Some? then lastId.value + 1 else 1;
    assert Pow10(8) == 100000000;
    NatToStringLength(next, 8);
  }

  /** Reads the number back out of an invoice number. */
  function ParseInvoiceNo(s: string): (r: Option<nat>)
    ensures r.Some? ==> |s| >= 2 && s[..2] == "SA" && AllDigits(s[2..])
  {
    if |s| >= 2 && s[..2] == "SA" && AllDigits(s[2..]) then Some(DigitsValue(s[2..])) else None
  }

  /** Distinct ids give distinct invoice numbers: the number is recovered
      from the string. */
  lemma InvoiceNoRoundTrip(lastId: Option<nat>)
    ensures ParseInvoiceNo(GenerateInvoiceNo(lastId)) == Some(if lastId.Some? then lastId.value + 1 else 1)
  {
  }

  /** `Sale.save`: a number is generated only when `invoice_no` is empty. */
  function AssignInvoiceNo(invoiceNo: Option<string>, lastId: Option<nat>): (r: string)
    ensures invoiceNo.Some? && invoiceNo.value != [] ==> r == invoiceNo.value
    ensures invoiceNo.None? || invoiceNo.value == [] ==> ParseInvoiceNo(r).Some?
  {
    if invoiceNo.Some? && invoiceNo.value != [] then invoiceNo.value else GenerateInvoiceNo(lastId)
  }

  // ---------------------------------------------------------------------
  // Stock deductions
  // ---------------------------------------------------------------------

  /** `SaleProduct.save`. The stock lookup by product and product code is
      the parameter `lookup` (the index of the matching stock row, if any).
      Only a newly created line touches stock: its sale quantity grows by
      the line's quantity and its current quantity drops, but not below 0.
      The stock value is left as it was. */
  method SaleProductSave(t: StockTable, isNew: bool, qty: nat, lookup: Option<nat>)
    requires t.Valid() && (lookup.Some? ==> lookup.value < |t.rows|)
    modifies t
    ensures t.Valid()
    ensures t.rows == if isNew then ClampedEffect(old(t.rows), lookup, qty) else old(t.rows)
    ensures !isNew || lookup.None? ==> t.rows == old(t.rows)
    ensures isNew && lookup.Some? ==>
      var i := lookup.value;
      var r := old(t.rows)[i];
      t.rows == old(t.rows)[i := r.(saleQty := r.saleQty + qty,
                                    currentQty := if r.currentQty - qty > 0 then r.currentQty - qty else 0)]
  {
    if isNew {
      if lookup.Some? {
        var i := lookup.value;
        var stock := t.rows[i];
        stock := stock.(saleQty := stock.saleQty + qty);
        stock := stock.(currentQty := if stock.currentQty - qty > 0 then stock.currentQty - qty else 0);
        t.rows := t.rows[i := stock];
      }
    }
  }

  /** The clamped deduction, stated on one row. */
  function ClampedDeduction(r: StockRow, qty: nat): StockRow
  {
    r.(saleQty := r.saleQty + qty, currentQty := if r.currentQty - qty > 0 then r.currentQty - qty else 0)
  }

  /** With enough stock the clamped deduction keeps current = purchase −
      sale − damage; selling more than is on hand breaks it, since the
      current quantity stops at 0 while the sale quantity keeps growing. */
  lemma ClampedDeductionConsistency(r: StockRow, qty: nat)
    requires r.currentQty == r.purchaseQty - r.saleQty - r.damageQty
    ensures var s := ClampedDeduction(r, qty);
            s.currentQty == s.purchaseQty - s.saleQty - s.damageQty <==> r.currentQty >= qty
  {
  }

  datatype DeductionError = NoStock | NotEnoughStock

  /** `update_stock_on_sale`: on creation only, the product's first stock
      row must hold at least the sold quantity; the sale quantity then
      grows and the current quantity shrinks by it, and the value is
      recomputed. On a refusal nothing changes. */
  method UpdateStockOnSale(t: StockTable, created: bool, product: nat, qty: nat) returns (r: Outcome<DeductionError>)
    requires t.Valid()
    modifies t
    ensures t.Valid()
    ensures !created ==> r.Pass? && t.rows == old(t.rows)
    ensures created && FirstFor(old(t.rows), product).None? ==> r == Fail(NoStock) && t.rows == old(t.rows)
    ensures r.Fail? ==> t.rows == old(t.rows)
    ensures created ==> (r.Fail? <==> ReceiverEffect(old(t.rows), product, qty).Err?)
    ensures created && r.Fail? ==> r.error == ReceiverEffect(old(t.rows), product, qty).error
    ensures created && r.Pass? ==> t.rows == ReceiverEffect(old(t.rows), product, qty).value
    ensures created && FirstFor(old(t.rows), product).Some? ==>
      var i := FirstFor(old(t.rows), product).value;
      var s := old(t.rows)[i];
      if s.currentQty < qty then r == Fail(NotEnoughStock) && t.rows == old(t.rows)
      else r.Pass? && t.rows == old(t.rows)[i := CheckedDeduction(s, qty)]
  {
    if !created {
      return Pass;
    }
    var found := FirstFor(t.rows, product);
    if found.None? {
      return Fail(NoStock);
    }
    var i := found.value;
    var stock := t.rows[i];
    if stock.currentQty < qty {
      return Fail(NotEnoughStock);
    }
    stock := stock.(saleQty := stock.saleQty + qty);
    stock := stock.(currentQty := stock.currentQty - qty);
    stock := stock.(currentValue := stock.currentQty * stock.purchasePrice);
    t.rows := t.rows[i := stock];
    r := Pass;
  }

  /** The checked deduction, stated on one row. */
  function CheckedDeduction(s: StockRow, qty: nat): StockRow
  {
    var current := s.currentQty - qty;
    s.(saleQty := s.saleQty + qty, currentQty := current, currentValue := current * s.purchasePrice)
  }

  /** The checked deduction conserves sale + current, leaves the current
      quantity non-negative, keeps a consistent row consistent and values
      the stock at the purchase price. */
  lemma CheckedDeductionProperties(s: StockRow, qty: nat)
    requires s.currentQty >= qty
    ensures var d := CheckedDeduction(s, qty);
            d.saleQty + d.currentQty == s.saleQty + s.currentQty
            && d.currentQty >= 0
            && d.currentValue == d.currentQty * d.purchasePrice
            && (Consistent(s) ==> Consistent(d))
            && d.purchaseQty == s.purchaseQty && d.damageQty == s.damageQty
  {
  }

  // ---------------------------------------------------------------------
  // Returns
  // ---------------------------------------------------------------------

  /** A sale line: the product sold, how many, and how many came back. */
  datatype SaleLine = SaleLine(product: nat, productCode: string, saleQty: nat, returnedQty: nat)

  /** `SaleReturnSerializer.validate`. */
  function ValidateReturn(line: SaleLine, qty: int): (r: Result<int, string>)
    ensures r.Ok? <==> 0 < qty <= line.saleQty - line.returnedQty
    ensures r.Ok? ==> r.value == qty
  {
    if qty <= 0 then Err("Return quantity must be positive.")
    else if qty > line.saleQty - line.returnedQty then Err("Cannot return more than sold minus already returned.")
    else Ok(qty)
  }

  /** Exactly the remaining quantity can still be returned, and no more. */
  lemma ReturnRemainingExactly(line: SaleLine)
    requires line.returnedQty < line.saleQty
    ensures ValidateReturn(line, line.saleQty - line.returnedQty).Ok?
    ensures ValidateReturn(line, line.saleQty - line.returnedQty + 1).Err?
  {
  }

  /** `SaleReturnViewSet.perform_create`: the line's returned quantity
      grows by the returned quantity; the product's first stock row gets the
      quantity back, its sale quantity drops but not below 0, and its value
      is recomputed. Without a stock row only the line changes. */
  method PerformReturn(t: StockTable, line: SaleLine, qty: nat) returns (updated: SaleLine)
    requires t.Valid()
    modifies t
    ensures t.Valid()
    ensures updated == line.(returnedQty := line.returnedQty + qty)
    ensures FirstFor(old(t.rows), line.product).None? ==> t.rows == old(t.rows)
    ensures FirstFor(old(t.rows), line.product).Some? ==>
      var i := FirstFor(old(t.rows), line.product).value;
      t.rows == old(t.rows)[i := Restocked(old(t.rows)[i], qty)]
  {
    updated := line.(returnedQty := line.returnedQty + qty);
    var found := FirstFor(t.rows, line.product);
    if found.Some? {
      var i := found.value;
      var stock := t.rows[i];
      stock := stock.(currentQty := stock.currentQty + qty);
      stock := stock.(saleQty := if 0 > stock.saleQty - qty then 0 else stock.saleQty - qty);
      stock := stock.(currentValue := stock.currentQty * stock.purchasePrice);
      t.rows := t.rows[i := stock];
    }
  }

  /** The return's effect on one stock row. */
  function Restocked(s: StockRow, qty: nat): StockRow
  {
    var current := s.currentQty + qty;
    s.(currentQty := current,
       saleQty := if 0 > s.saleQty - qty then 0 else s.saleQty - qty,
       currentValue := current * s.purchasePrice)
  }

  /** A return undoes a checked deduction of the same quantity exactly. */
  lemma RestockUndoesCheckedDeduction(s: StockRow, qty: nat)
    requires s.currentQty >= qty && s.saleQty >= 0
    requires s.currentValue == s.currentQty * s.purchasePrice
    ensures Restocked(CheckedDeduction(s, qty), qty) == s
  {
  }

  /** Validation and the endpoint together: a line whose returned quantity
      never exceeded its sale quantity keeps that property after any
      accepted return. */
  lemma ReturnedNeverExceedsSold(line: SaleLine, qty: int)
    requires line.returnedQty <= line.saleQty
    requires ValidateReturn(line, qty).Ok?
    ensures qty >= 0
    ensures line.(returnedQty := line.returnedQty + qty).returnedQty <= line.saleQty
  {
  }

  // ---------------------------------------------------------------------
  // Payments
  // ---------------------------------------------------------------------

  /** The payment fields `SalePaymentSerializer.validate` looks at. */
  datatype PaymentData = PaymentData(mode: Option<string>, bankName: Option<nat>, accountNo: Option<string>,
                                     chequeNo: Option<string>, paidAmount: int)

  predicate Present(s: Option<string>) { s.Some? && s.value != [] }

  /** The mode, lower-cased, is one of those needing bank details. */
  predicate NeedsBank(mode: Option<string>)
  {
    Present(mode) && ToLower(mode.value) in ["bank transfer", "cheque", "online"]
  }

  predicate IsCheque(mode: Option<string>)
  {
    Present(mode) && ToLower(mode.value) == "cheque"
  }

  datatype PaymentError = BankNameRequired | AccountNoRequired | ChequeNoRequired

  /** `SalePaymentSerializer.validate`. */
  function ValidatePayment(p: PaymentData): (r: Result<PaymentData, PaymentError>)
    ensures r.Ok? <==> (NeedsBank(p.mode) ==> p.bankName.Some? && Present(p.accountNo))
                       && (IsCheque(p.mode) ==> Present(p.chequeNo))
    ensures r.Ok? ==> r.value == p
    ensures !NeedsBank(p.mode) ==> r.Ok?
  {
    if NeedsBank(p.mode) && p.bankName.None? then Err(BankNameRequired)
    else if NeedsBank(p.mode) && !Present(p.accountNo) then Err(AccountNoRequired)
    else if IsCheque(p.mode) && !Present(p.chequeNo) then Err(ChequeNoRequired)
    else Ok(p)
  }

  // ---------------------------------------------------------------------
  // Creating a sale
  // ---------------------------------------------------------------------

  /** Why a sale is not created: a refused stock deduction, or, as the
      code stands, a payment without `sale_id` or one with it. */
  datatype CreateError =
    | StockRefused(e: DeductionError)
    | SaleIdRequired
    | PaymentInvalid(index: nat, reason: PaymentError)
    | DuplicateSaleArgument

  /** The index of the first payment `SalePaymentSerializer.validate`
      refuses, or the number of payments when it accepts them all. */
  function FirstInvalidPayment(pays: seq<PaymentData>): (k: nat)
    ensures k <= |pays|
    ensures forall j :: 0 <= j < k ==> ValidatePayment(pays[j]).Ok?
    ensures k < |pays| ==> ValidatePayment(pays[k]).Err?
  {
    if pays == [] || ValidatePayment(pays[0]).Err? then 0
    else 1 + FirstInvalidPayment(pays[1..])
  }

  datatype SaleHeader = SaleHeader(id: nat, customer: nat, date: int, invoiceNo: string,
                                   totalAmount: int, discountAmount: int, totalPayable: int)
  datatype LineData = LineData(product: nat, productCode: string, qty: nat, price: int, total: int)
  datatype LineRow = LineRow(sale: nat, product: nat, productCode: string, qty: nat, price: int,
                             total: int, returnedQty: nat)
  datatype PaymentRow = PaymentRow(sale: nat, payment: PaymentData)

  /** The row stored for a submitted line; nothing is returned yet. */
  function ToRow(sale: nat, d: LineData): LineRow
  {
    LineRow(sale, d.product, d.productCode, d.qty, d.price, d.total, 0)
  }

  function LineRows(sale: nat, ds: seq<LineData>): (r: seq<LineRow>)
    ensures |r| == |ds|
    ensures forall i {:trigger r[i]} :: 0 <= i < |ds| ==> r[i] == ToRow(sale, ds[i])
  {
    if ds == [] then [] else LineRows(sale, ds[..|ds| - 1]) + [ToRow(sale, ds[|ds| - 1])]
  }

  function PaymentRows(sale: nat, ps: seq<PaymentData>): (r: seq<PaymentRow>)
    ensures |r| == |ps|
    ensures forall i {:trigger r[i]} :: 0 <= i < |ps| ==> r[i] == PaymentRow(sale, ps[i])
  {
    if ps == [] then [] else PaymentRows(sale, ps[..|ps| - 1]) + [PaymentRow(sale, ps[|ps| - 1])]
  }

  /** The receiver's effect on the stock table for one new line. */
  function ReceiverEffect(rows: seq<StockRow>, product: nat, qty: nat): (r: Result<seq<StockRow>, DeductionError>)
    ensures r.Ok? ==> |r.value| == |rows|
    ensures r.Err? <==> FirstFor(rows, product).None? || rows[FirstFor(rows, product).value].currentQty < qty
  {
    match FirstFor(rows, product)
    case None => Err(NoStock)
    case Some(i) =>
      if rows[i].currentQty < qty then Err(NotEnoughStock) else Ok(rows[i := CheckedDeduction(rows[i], qty)])
  }

  /** `SaleProduct.save`'s effect on the stock table for one new line. */
  function ClampedEffect(rows: seq<StockRow>, lookup: Option<nat>, qty: nat): (r: seq<StockRow>)
    requires lookup.Some? ==> lookup.value < |rows|
    ensures |r| == |rows|
  {
    if lookup.Some? then rows[lookup.value := ClampedDeduction(rows[lookup.value], qty)] else rows
  }

  /** One new line's effect on stock, in the order `SaleProduct.objects.create`
      runs it: `super().save()` fires the post_save receiver (when it is
      connected: `connected`), which may refuse; then `SaleProduct.save`
      applies its own clamped deduction to the row found by product and
      product code (`lookup`). */
  function LineEffect(rows: seq<StockRow>, d: LineData, lookup: Option<nat>, connected: bool)
    : (r: Result<seq<StockRow>, DeductionError>)
    requires lookup.Some? ==> lookup.value < |rows|
    ensures r.Ok? ==> |r.value| == |rows|
    ensures r.Err? <==> connected && (FirstFor(rows, d.product).None? ||
                                      rows[FirstFor(rows, d.product).value].currentQty < d.qty)
  {
    if !connected then Ok(ClampedEffect(rows, lookup, d.qty))
    else match ReceiverEffect(rows, d.product, d.qty)
      case Err(e) => Err(e)
      case Ok(rs) => Ok(ClampedEffect(rs, lookup, d.qty))
  }

  predicate LookupsFit(rows: seq<StockRow>, lookups: seq<Option<nat>>)
  {
    forall k :: 0 <= k < |lookups| && lookups[k].Some? ==> lookups[k].value < |rows|
  }

  /** The stock effect of the first n lines, one after another; the first
      refusal aborts. */
  function LinesEffectUpTo(rows: seq<StockRow>, ds: seq<LineData>, lookups: seq<Option<nat>>, connected: bool, n: nat)
    : (r: Result<seq<StockRow>, DeductionError>)
    requires |lookups| == |ds| && LookupsFit(rows, lookups) && n <= |ds|
    ensures r.Ok? ==> |r.value| == |rows|
  {
    if n == 0 then Ok(rows)
    else
      var prev := LinesEffectUpTo(rows, ds, lookups, connected, n - 1);
      if prev.Err? then prev else LineEffect(prev.value, ds[n - 1], lookups[n - 1], connected)
  }

  /** The stock effect of all lines of a sale. */
  function LinesEffect(rows: seq<StockRow>, ds: seq<LineData>, lookups: seq<Option<nat>>, connected: bool)
    : (r: Result<seq<StockRow>, DeductionError>)
    requires |lookups| == |ds| && LookupsFit(rows, lookups)
    ensures r.Ok? ==> |r.value| == |rows|
  {
    LinesEffectUpTo(rows, ds, lookups, connected, |ds|)
  }

  /** Without the receiver only the clamped deduction runs, and it never
      refuses, however many lines are stored. */
  lemma {:induction false} UnconnectedNeverFails(rows: seq<StockRow>, ds: seq<LineData>, lookups: seq<Option<nat>>,
                                                 n: nat)
    requires |lookups| == |ds| && LookupsFit(rows, lookups) && n <= |ds|
    ensures LinesEffectUpTo(rows, ds, lookups, false, n).Ok?
  {
    if n > 0 {
      UnconnectedNeverFails(rows, ds, lookups, n - 1);
    }
  }

  /** With the receiver connected, a line whose product and product code
      lead to the product's first stock row is deducted twice from that
      row: once by the receiver and once by `SaleProduct.save`. */
  lemma DoubleDeduction(rows: seq<StockRow>, d: LineData, i: nat)
    requires FirstFor(rows, d.product) == Some(i) && rows[i].currentQty >= d.qty
    ensures LineEffect(rows, d, Some(i), true).Ok?
    ensures var s := LineEffect(rows, d, Some(i), true).value[i];
            s.saleQty == rows[i].saleQty + 2 * d.qty
            && s.currentQty == (if rows[i].currentQty - 2 * d.qty > 0 then rows[i].currentQty - 2 * d.qty else 0)
  {
  }

  /** The deduction a sale line is evidently meant to make: once, checked
      against the product's first stock row. Sale + current is conserved
      and the sale quantity grows by exactly the line's quantity. */
  function SingleDeduction(rows: seq<StockRow>, d: LineData): (r: Result<seq<StockRow>, DeductionError>)
    ensures r.Ok? ==> |r.value| == |rows|
    ensures r.Ok? <==> FirstFor(rows, d.product).Some? && rows[FirstFor(rows, d.product).value].currentQty >= d.qty
    ensures r.Ok? ==> var i := FirstFor(rows, d.product).value;
                      var s := r.value[i];
                      s.saleQty == rows[i].saleQty + d.qty
                      && s.saleQty + s.currentQty == rows[i].saleQty + rows[i].currentQty
                      && s.currentQty >= 0
                      && (Consistent(rows[i]) ==> Consistent(s))
                      && forall j :: 0 <= j < |rows| && j != i ==> r.value[j] == rows[j]
  {
    match FirstFor(rows, d.product)
    case None => Err(NoStock)
    case Some(i) =>
      if rows[i].currentQty < d.qty then Err(NotEnoughStock)
      else
        CheckedDeductionProperties(rows[i], d.qty);
        Ok(rows[i := CheckedDeduction(rows[i], d.qty)])
  }

  /** The sale, sale line and sale payment tables. */
  class SalesStore {
    var sales: seq<SaleHeader>
    var lines: seq<LineRow>
    var payments: seq<PaymentRow>

    /** Sales are kept in increasing id order. */
    ghost predicate Valid()
      reads this`sales
    {
      forall i, j :: 0 <= i < j < |sales| ==> sales[i].id < sales[j].id
    }

    constructor ()
      ensures Valid() && sales == [] && lines == [] && payments == []
    {
      sales, lines, payments := [], [], [];
    }

    /** The highest existing sale id. */
    function LastId(): (r: Option<nat>)
      reads this`sales
      requires Valid()
      ensures r.None? <==> sales == []
      ensures r.Some? ==> forall i :: 0 <= i < |sales| ==> sales[i].id <= r.value
    {
      if sales == [] then None else Some(sales[|sales| - 1].id)
    }

    /** `SaleSerializer.create`, atomic: the header (numbered by
        `Sale.save`), then every product line with its stock effect, then
        every payment, all linked to the new sale. A refusal from the
        receiver rolls back the header, the earlier lines and their stock
        effects. `lookups[k]` is line k's product-and-code stock lookup. */
    method Create(t: StockTable, connected: bool, lookups: seq<Option<nat>>,
                  id: nat, customer: nat, date: int, totalAmount: int, discount: int, payable: int,
                  products: seq<LineData>, pays: seq<PaymentData>) returns (r: Result<SaleHeader, DeductionError>)
      requires Valid() && t.Valid() && (LastId().Some? ==> LastId().value < id)
      requires |lookups| == |products| && LookupsFit(t.rows, lookups)
      modifies this, t
      ensures Valid() && t.Valid()
      ensures match LinesEffect(old(t.rows), products, lookups, connected)
              case Err(e) =>
                r == Err(e) && sales == old(sales) && lines == old(lines) && payments == old(payments)
                && t.rows == old(t.rows)
              case Ok(rows) =>
                && r == Ok(SaleHeader(id, customer, date, GenerateInvoiceNo(old(LastId())), totalAmount, discount, payable))
                && sales == old(sales) + [r.value]
                && lines == old(lines) + LineRows(id, products)
                && payments == old(payments) + PaymentRows(id, pays)
                && t.rows == rows
    {
      var last := LastId();
      var invoiceNo := AssignInvoiceNo(None, last);
      var sale := SaleHeader(id, customer, date, invoiceNo, totalAmount, discount, payable);
      var added := AddLines(t, connected, lookups, id, products);
      if added.Fail? {
        // transaction.atomic: nothing of the sale survives
        return Err(added.error);
      }
      sales := sales + [sale];
      AddPayments(id, pays);
      r := Ok(sale);
    }

    /** `SaleSerializer.create` as the code stands, for a sale with
        payments. The nested payment serializer declares `sale_id` as a
        required field, so a payment posted without it (as the sale page
        posts them) is refused before anything is stored. A payment that
        does carry it reaches `SalePayment.objects.create(sale=sale,
        **payment_data)` with `sale` given twice, which raises a TypeError
        after the header and the lines are stored; `transaction.atomic`
        then rolls everything back; before that, a payment whose bank or
        cheque details `validate` refuses is answered with that error. A
        sale without payments is `Create`. */
    method CreateAsWritten(t: StockTable, connected: bool, lookups: seq<Option<nat>>,
                           id: nat, customer: nat, date: int, totalAmount: int, discount: int, payable: int,
                           products: seq<LineData>, pays: seq<PaymentData>, saleIdSent: bool)
      returns (r: Result<SaleHeader, CreateError>)
      requires Valid() && t.Valid() && (LastId().Some? ==> LastId().value < id)
      requires |lookups| == |products| && LookupsFit(t.rows, lookups)
      modifies this, t
      ensures Valid() && t.Valid()
      ensures pays != [] ==> r.Err? && sales == old(sales) && lines == old(lines) && payments == old(payments)
                             && t.rows == old(t.rows)
      ensures pays != [] && !saleIdSent ==> r == Err(SaleIdRequired)
      ensures pays != [] && saleIdSent && FirstInvalidPayment(pays) < |pays| ==>
                var k := FirstInvalidPayment(pays);
                r == Err(PaymentInvalid(k, ValidatePayment(pays[k]).error))
      ensures pays != [] && saleIdSent && FirstInvalidPayment(pays) == |pays| ==>
                r == match LinesEffect(old(t.rows), products, lookups, connected)
                     case Err(e) => Err(StockRefused(e))
                     case Ok(_) => Err(DuplicateSaleArgument)
      ensures pays == [] ==>
                match LinesEffect(old(t.rows), products, lookups, connected)
                case Err(e) =>
                  r == Err(StockRefused(e)) && sales == old(sales) && lines == old(lines)
                  && payments == old(payments) && t.rows == old(t.rows)
                case Ok(rows) =>
                  && r == Ok(SaleHeader(id, customer, date, GenerateInvoiceNo(old(LastId())), totalAmount, discount, payable))
                  && sales == old(sales) + [r.value]
                  && lines == old(lines) + LineRows(id, products)
                  && payments == old(payments)
                  && t.rows == rows
    {
      if pays != [] && !saleIdSent {
        return Err(SaleIdRequired);
      }
      var bad := FirstInvalidPayment(pays);
      if bad < |pays| {
        // the nested serializer's validate refuses before create runs
        return Err(PaymentInvalid(bad, ValidatePayment(pays[bad]).error));
      }
      var savedSales, savedLines, savedPayments, savedRows := sales, lines, payments, t.rows;
      var made := Create(t, connected, lookups, id, customer, date, totalAmount, discount, payable, products, pays);
      if made.Err? {
        return Err(StockRefused(made.error));
      }
      if pays != [] {
        // TypeError at the first payment; the atomic block undoes the rest
        sales, lines, payments := savedSales, savedLines, savedPayments;
        t.rows := savedRows;
        return Err(DuplicateSaleArgument);
      }
      r := Ok(made.value);
    }

    /** The product-line loop of `create`: each line row is stored and its
        stock effect applied; on a refusal the lines and the stock are
        restored as they were. */
    method AddLines(t: StockTable, connected: bool, lookups: seq<Option<nat>>, id: nat, products: seq<LineData>)
      returns (r: Outcome<DeductionError>)
      requires t.Valid() && |lookups| == |products| && LookupsFit(t.rows, lookups)
      modifies this`lines, t
      ensures t.Valid()
      ensures r.Fail? <==> LinesEffect(old(t.rows), products, lookups, connected).Err?
      ensures r.Fail? ==> r.error == LinesEffect(old(t.rows), products, lookups, connected).error
      ensures r.Fail? ==> lines == old(lines) && t.rows == old(t.rows)
      ensures r.Pass? ==> lines == old(lines) + LineRows(id, products)
      ensures r.Pass? ==> t.rows == LinesEffect(old(t.rows), products, lookups, connected).value
    {
      var savedRows := t.rows;
      var savedLines := lines;
      var i := 0;
      while i < |products|
        invariant 0 <= i <= |products|
        invariant t.Valid() && |t.rows| == |savedRows|
        invariant LinesEffectUpTo(savedRows, products, lookups, connected, i) == Ok(t.rows)
        invariant lines == savedLines + LineRows(id, products[..i])
      {
        assert products[..i + 1][..i] == products[..i];
        lines := lines + [ToRow(id, products[i])];
        var step := LineStockEffect(t, connected, lookups[i], products[i]);
        if step.Fail? {
          LinesEffectStopsAtRefusal(savedRows, products, lookups, connected, i, |products|);
          t.rows := savedRows;
          lines := savedLines;
          return step;
        }
        i := i + 1;
      }
      assert products[..i] == products;
      return Pass;
    }

    /** The stock effect of storing one new line. */
    static method LineStockEffect(t: StockTable, connected: bool, lookup: Option<nat>, d: LineData)
      returns (r: Outcome<DeductionError>)
      requires t.Valid() && (lookup.Some? ==> lookup.value < |t.rows|)
      modifies t
      ensures t.Valid()
      ensures r.Fail? <==> LineEffect(old(t.rows), d, lookup, connected).Err?
      ensures r.Fail? ==> r.error == LineEffect(old(t.rows), d, lookup, connected).error
      ensures r.Pass? ==> t.rows == LineEffect(old(t.rows), d, lookup, connected).value
    {
      if connected {
        r := UpdateStockOnSale(t, true, d.product, d.qty);
        if r.Fail? {
          return;
        }
      }
      SaleProductSave(t, true, d.qty, lookup);
      r := Pass;
    }

    /** The payment loop of `create`, as intended: every payment is stored
        linked to the new sale. */
    method AddPayments(id: nat, pays: seq<PaymentData>)
      modifies this`payments
      ensures payments == old(payments) + PaymentRows(id, pays)
    {
      var k := 0;
      while k < |pays|
        invariant 0 <= k <= |pays|
        invariant payments == old(payments) + PaymentRows(id, pays[..k])
      {
        assert pays[..k + 1][..k] == pays[..k];
        payments := payments + [PaymentRow(id, pays[k])];
        k := k + 1;
      }
      assert pays[..k] == pays;
    }
  }

  /** A refusal at line `i` is the refusal of every longer run of lines,
      the whole sale included. */
  lemma {:induction false} LinesEffectStopsAtRefusal(rows: seq<StockRow>, ds: seq<LineData>, lookups: seq<Option<nat>>,
                                                     connected: bool, i: nat, n: nat)
    requires |lookups| == |ds| && LookupsFit(rows, lookups) && i < n <= |ds|
    requires LinesEffectUpTo(rows, ds, lookups, connected, i + 1).Err?
    ensures LinesEffectUpTo(rows, ds, lookups, connected, n) == LinesEffectUpTo(rows, ds, lookups, connected, i + 1)
  {
    if i + 1 < n {
      LinesEffectStopsAtRefusal(rows, ds, lookups, connected, i, n - 1);
    }
  }

  /** When ids have no gaps, a sale's invoice number encodes its own id. */
  lemma InvoiceNoEncodesId(lastId: Option<nat>, id: nat)
    requires id == if lastId.Some? then lastId.value + 1 else 1
    ensures ParseInvoiceNo(GenerateInvoiceNo(lastId)) == Some(id)
  {
    InvoiceNoRoundTrip(lastId);
  }
}
