/** The sale entry page (client/src/pages/sales/ProductSales.jsx): the base
    price of the chosen product from its stock row, the price after the
    percentage mark-up and the line total, the quantity held within the
    stock, the list of added products with its guards, the totals, and the
    list of payments. Number fields are `Input`s; `parseInt` is truncation
    towards zero of the parsed value. */
module ProductSales {
  import opened Wrappers
  import opened Seqs
  import opened JsNumber
  import PurchaseInvoices

  /** A product of the catalogue; `price` is None when the field is null. */
  datatype Product = Product(id: nat, name: string, code: string, price: Option<Num>)

  /** A stock row: the product it is for (None when the relation is null),
      the quantity on hand, and its prices (None when null). */
  datatype StockItem = StockItem(product: Option<nat>, currentQty: int, salePrice: Option<Num>,
                                 purchasePrice: Option<Num>)

  // ---------------------------------------------------------------------
  // setProductData: the base price
  // ---------------------------------------------------------------------

  /** `stockList.find(s => s.product?.id === id)`: the index of the first
      row of the product, |stock| when there is none. */
  function FirstStock(stock: seq<StockItem>, id: nat): (k: nat)
    ensures k <= |stock|
    ensures forall j :: 0 <= j < k ==> stock[j].product != Some(id)
    ensures k < |stock| ==> stock[k].product == Some(id)
  {
    if stock == [] then 0
    else if stock[0].product == Some(id) then 0
    else 1 + FirstStock(stock[1..], id)
  }

  /** `a ?? b`: the first of the two that is not null. */
  function Coalesce(a: Option<Num>, b: Option<Num>): Option<Num>
  {
    if a.Some? then a else b
  }

  /** The base price `setProductData` shows: from the product's stock row
      its sale price, else its purchase price, else the product's price,
      else 0; and without a stock row the product's price, else 0. A value
      that does not parse reads as 0. */
  function BasePrice(stock: seq<StockItem>, p: Product): (r: real)
    ensures var k := FirstStock(stock, p.id);
            r == OrZero(if k < |stock| && stock[k].salePrice.Some? then stock[k].salePrice.value
                        else if k < |stock| && stock[k].purchasePrice.Some? then stock[k].purchasePrice.value
                        else if p.price.Some? then p.price.value
                        else Fin(0.0))
  {
    var k := FirstStock(stock, p.id);
    var chosen := if k < |stock| then Coalesce(Coalesce(stock[k].salePrice, stock[k].purchasePrice), p.price)
                  else p.price;
    OrZero(if chosen.Some? then chosen.value else Fin(0.0))
  }

  /** Only the product's first stock row counts: rows listed after it
      change neither its base price nor its quantity on hand. */
  lemma FirstRowWins(stock: seq<StockItem>, more: seq<StockItem>, p: Product)
    requires exists i :: 0 <= i < |stock| && stock[i].product == Some(p.id)
    ensures BasePrice(stock + more, p) == BasePrice(stock, p)
    ensures StockOnHand(stock + more, p.id) == StockOnHand(stock, p.id)
  {
    var s := stock + more;
    var k := FirstStock(stock, p.id);
    var k2 := FirstStock(s, p.id);
    var i :| 0 <= i < |stock| && stock[i].product == Some(p.id);
    assert k <= i;
    assert s[k] == stock[k];
    assert k2 <= k;
    assert forall j :: 0 <= j < k ==> s[j] == stock[j];
  }

  /** The quantity on hand `setProductData` shows: the first row's, or 0. */
  function StockOnHand(stock: seq<StockItem>, id: nat): (q: int)
    ensures FirstStock(stock, id) == |stock| ==> q == 0
    ensures FirstStock(stock, id) < |stock| ==> q == stock[FirstStock(stock, id)].currentQty
  {
    var k := FirstStock(stock, id);
    if k < |stock| then stock[k].currentQty else 0
  }

  /** `productList.find(p => p.id === id)`: the index of the first product
      with that id, |products| when there is none. */
  function FirstProduct(products: seq<Product>, id: nat): (k: nat)
    ensures k <= |products|
    ensures forall j :: 0 <= j < k ==> products[j].id != id
    ensures k < |products| ==> products[k].id == id
  {
    if products == [] then 0
    else if products[0].id == id then 0
    else 1 + FirstProduct(products[1..], id)
  }

  // ---------------------------------------------------------------------
  // The recalculation effect
  // ---------------------------------------------------------------------

  /** `parseInt` of a parsed number: truncation towards zero. */
  function Trunc(v: real): (n: int)
    ensures v >= 0.0 ==> n as real <= v < n as real + 1.0
    ensures v < 0.0 ==> n as real - 1.0 < v <= n as real
  {
    if v >= 0.0 then v.Floor else -((-v).Floor)
  }

  /** `parseInt(x) || 0` on a field: 0 when it is empty or does not parse. */
  function ParseQty(i: Input): int
  {
    if i.Entered? && i.n.Fin? then Trunc(i.n.v) else 0
  }

  /** `parseInt(x)` on a field, NaN kept: an empty field is NaN. */
  function ParseIntNum(i: Input): (n: Num)
    ensures n.Fin? <==> i.Entered? && i.n.Fin?
  {
    if i.Entered? && i.n.Fin? then Fin(Trunc(i.n.v) as real) else NaN
  }

  /** A whole number typed or set into a quantity field reads back as itself. */
  lemma ParseWhole(n: int)
    ensures ParseQty(Entered(Fin(n as real))) == n
  {
  }

  /** The price after the percentage: base + base × pct / 100. */
  function UnitPrice(base: real, pct: real): (r: real)
    ensures r == base * (1.0 + pct / 100.0)
  {
    base + base * pct / 100.0
  }

  /** No mark-up keeps the base price; a mark-up of at least 0 on a base of
      at least 0 never lowers it; a discount of at most 100% never makes
      the price negative. */
  lemma MarkUpBounds(base: real, pct: real)
    ensures pct == 0.0 ==> UnitPrice(base, pct) == base
    ensures base >= 0.0 && pct >= 0.0 ==> UnitPrice(base, pct) >= base
    ensures base >= 0.0 && pct >= -100.0 ==> UnitPrice(base, pct) >= 0.0
  {
    if base >= 0.0 && pct >= -100.0 {
      var y := 1.0 + pct / 100.0;
      assert y >= 0.0;
      ProductNonNegative(base, y);
    }
    if base >= 0.0 && pct >= 0.0 {
      ProductNonNegative(base, pct / 100.0);
    }
  }

  lemma ProductNonNegative(a: real, b: real)
    requires a >= 0.0 && b >= 0.0
    ensures a * b >= 0.0
  {
  }

  /** The line total: price × quantity for a quantity above 0, else 0. */
  function LineTotal(price: real, qty: int): (t: real)
    ensures qty <= 0 ==> t == 0.0
    ensures qty > 0 ==> t == price * qty as real
  {
    if qty > 0 then price * qty as real else 0.0
  }

  /** A line total is never negative for a price that is not, and grows
      with the quantity. */
  lemma LineTotalMonotone(price: real, q1: int, q2: int)
    requires price >= 0.0 && q1 <= q2
    ensures 0.0 <= LineTotal(price, q1) <= LineTotal(price, q2)
  {
    if q1 > 0 {
      assert price * q1 as real <= price * q2 as real;
    }
  }

  // ---------------------------------------------------------------------
  // The added products and the totals
  // ---------------------------------------------------------------------

  /** A product line of the sale, as `addProduct` stores it. */
  datatype Line = Line(id: nat, name: string, code: string, currentStock: int, saleQuantity: Num,
                       saleMRP: real, price: real, percentage: real, totalPrice: real)

  /** `addedProducts.find(p => p.id === id)` finds a line. */
  predicate Listed(lines: seq<Line>, id: nat)
  {
    exists l :: l in lines && l.id == id
  }

  /** No product is listed twice. */
  predicate UniqueIds(lines: seq<Line>)
  {
    forall i, j :: 0 <= i < j < |lines| ==> lines[i].id != lines[j].id
  }

  /** A line for a product not yet listed keeps the ids unique. */
  lemma AppendKeepsUnique(lines: seq<Line>, l: Line)
    requires UniqueIds(lines) && !Listed(lines, l.id)
    ensures UniqueIds(lines + [l])
  {
    var s := lines + [l];
    forall i, j | 0 <= i < j < |s| ensures s[i].id != s[j].id {
      if j == |lines| {
        assert s[i] in lines;
      }
    }
  }

  /** Removing a line keeps the ids unique. */
  lemma RemoveKeepsUnique(lines: seq<Line>, i: nat)
    requires UniqueIds(lines)
    ensures UniqueIds(RemoveAt(lines, i))
  {
    var r := RemoveAt(lines, i);
    if i < |lines| {
      forall a, b | 0 <= a < b < |r| ensures r[a].id != r[b].id {
        var a', b' := if a < i then a else a + 1, if b < i then b else b + 1;
        assert r[a] == lines[a'] && r[b] == lines[b'];
      }
    }
  }

  function LineAmount(l: Line): real { l.totalPrice }

  /** The totals effect's `total`: the lines' totals added up. */
  function TotalAmount(lines: seq<Line>): real
  {
    Sum(lines, LineAmount)
  }

  /** The totals effect's payable: total − discount, and 0 when that is
      below 0. */
  function Payable(lines: seq<Line>, discount: Input): (r: real)
    ensures r >= 0.0 && r >= TotalAmount(lines) - AmountOf(discount)
    ensures r == 0.0 || r == TotalAmount(lines) - AmountOf(discount)
  {
    Max0(TotalAmount(lines) - AmountOf(discount))
  }

  /** Adding a line adds its total; removing line i takes its total off. */
  lemma TotalAfterChange(lines: seq<Line>, l: Line, i: nat)
    ensures TotalAmount(lines + [l]) == TotalAmount(lines) + l.totalPrice
    ensures i < |lines| ==> TotalAmount(RemoveAt(lines, i)) == TotalAmount(lines) - lines[i].totalPrice
  {
    SumAppend(lines, [l], LineAmount);
    SumSingleton(l, LineAmount);
    if i < |lines| {
      SumRemoveAt(lines, i, LineAmount);
    }
  }

  /** A discount never makes the payable exceed the total when the total
      is not negative, and a larger discount never raises it. */
  lemma PayableDiscount(lines: seq<Line>, d1: Input, d2: Input)
    requires AmountOf(d1) <= AmountOf(d2)
    ensures Payable(lines, d2) <= Payable(lines, d1)
    ensures AmountOf(d1) >= 0.0 && TotalAmount(lines) >= 0.0 ==> Payable(lines, d1) <= TotalAmount(lines)
  {
  }

  // ---------------------------------------------------------------------
  // Payments
  // ---------------------------------------------------------------------

  /** A payment row: the mode's and bank's ids (None when not chosen), the
      account and cheque numbers, the amount and the remarks. */
  datatype PaymentEntry = PaymentEntry(mode: Option<nat>, bank: Option<nat>, accountNo: string, chequeNo: string,
                                       paidAmount: Input, remarks: string)

  const EmptyEntry := PaymentEntry(None, None, "", "", Blank, "")

  /** `handleAddPayment`'s guard: a mode (an id of 0 is falsy) and an
      amount that is not empty. */
  predicate PaymentComplete(e: PaymentEntry)
  {
    e.mode.Some? && e.mode.value != 0 && e.paidAmount.Entered?
  }

  /** `parseFloat(payment.paidAmount || 0)`. */
  function PaidValue(e: PaymentEntry): Num { ValueOf(e.paidAmount) }

  /** `totalPaidAmount`: the amounts added up from the left; one amount
      that does not parse makes it NaN. */
  function TotalPaid(ps: seq<PaymentEntry>): (r: Num)
    ensures r.Fin? <==> forall e :: e in ps ==> PaidValue(e).Fin?
  {
    NumSum(ps, PaidValue)
  }

  /** Adding a payment adds its amount. */
  lemma TotalPaidAfterAdd(ps: seq<PaymentEntry>, e: PaymentEntry)
    ensures TotalPaid(ps + [e]) == Add(TotalPaid(ps), PaidValue(e))
  {
    NumSumAppend(ps, [e], PaidValue);
    assert [e][..0] == [];
  }

  /** Removing payment i takes its amount off (when every amount parses). */
  lemma TotalPaidAfterRemove(ps: seq<PaymentEntry>, i: nat)
    requires i < |ps| && TotalPaid(ps).Fin?
    ensures TotalPaid(RemoveAt(ps, i)) == Fin(TotalPaid(ps).v - PaidValue(ps[i]).v)
  {
    var a, x, b := ps[..i], ps[i], ps[i + 1..];
    assert ps == (a + [x]) + b;
    NumSumAppend(a + [x], b, PaidValue);
    NumSumAppend(a, [x], PaidValue);
    assert [x][..0] == [];
    NumSumAppend(a, b, PaidValue);
  }

  // ---------------------------------------------------------------------
  // The page
  // ---------------------------------------------------------------------

  datatype AddResult = NoProduct | BadQuantity | NoPrice | AlreadyAdded | Added(line: Line)

  /** `!saleQuantity || saleQuantity <= 0`: an empty field, or a number not
      above 0 (text that does not parse passes both tests). */
  predicate QtyMissing(i: Input)
  {
    i.Blank? || (i.n.Fin? && i.n.v <= 0.0)
  }

  class SalePage {
    /** The loaded stock rows and products. */
    var stock: seq<StockItem>
    var products: seq<Product>
    /** The chosen product (the name and code pickers choose together). */
    var selected: Option<Product>
    var currentStock: int
    /** `saleMRP` and `price` as the numbers their two-decimal text holds. */
    var saleMRP: real
    var price: real
    var percentage: Input
    var saleQuantity: Input
    var totalPrice: real
    var added: seq<Line>
    var discount: Input
    var payments: seq<PaymentEntry>
    var paymentData: PaymentEntry

    ghost predicate Valid()
      reads this`added
    {
      UniqueIds(added)
    }

    constructor (stock: seq<StockItem>, products: seq<Product>)
      ensures Valid() && this.stock == stock && this.products == products && selected.None?
      ensures currentStock == 0 && saleMRP == 0.0 && price == 0.0 && percentage == Blank && saleQuantity == Blank
      ensures totalPrice == 0.0 && added == [] && discount == Blank && payments == [] && paymentData == EmptyEntry
    {
      this.stock := stock;
      this.products := products;
      selected := None;
      currentStock := 0;
      saleMRP := 0.0;
      price := 0.0;
      percentage := Blank;
      saleQuantity := Blank;
      totalPrice := 0.0;
      added := [];
      discount := Blank;
      payments := [];
      paymentData := EmptyEntry;
    }

    /** `setProductData(p)`: the quantity on hand and the base price (to two
        decimals, as both the base and the price) of the product, the
        quantity and percentage cleared and the total 0. */
    method SetProductData(p: Product)
      modifies this`currentStock, this`saleMRP, this`price, this`saleQuantity, this`percentage, this`totalPrice
      ensures currentStock == StockOnHand(stock, p.id)
      ensures saleMRP == PurchaseInvoices.Round2(BasePrice(stock, p)) && price == saleMRP
      ensures saleQuantity == Blank && percentage == Blank && totalPrice == 0.0
    {
      currentStock := StockOnHand(stock, p.id);
      saleMRP := PurchaseInvoices.Round2(BasePrice(stock, p));
      price := saleMRP;
      saleQuantity := Blank;
      percentage := Blank;
      totalPrice := 0.0;
    }

    /** `handleProductNameChange` / `handleProductCodeChange` with the chosen
        product's id: clearing the picker clears the product fields; an id
        of a loaded product selects it and fills its data; an unknown id
        changes nothing else. */
    method ChooseProduct(choice: Option<nat>)
      modifies this`selected, this`currentStock, this`saleMRP, this`price, this`saleQuantity, this`percentage
      modifies this`totalPrice
      ensures choice.None? ==> selected.None? && currentStock == 0 && saleMRP == 0.0 && price == 0.0
                               && percentage == Blank && totalPrice == 0.0 && saleQuantity == Blank
      ensures choice.Some? && FirstProduct(products, choice.value) < |products| ==>
                var p := products[FirstProduct(products, choice.value)];
                selected == Some(p) && currentStock == StockOnHand(stock, p.id)
                && saleMRP == PurchaseInvoices.Round2(BasePrice(stock, p)) && price == saleMRP
                && saleQuantity == Blank && percentage == Blank && totalPrice == 0.0
      ensures choice.Some? && FirstProduct(products, choice.value) == |products| ==>
                selected == old(selected) && currentStock == old(currentStock) && saleMRP == old(saleMRP)
                && price == old(price) && saleQuantity == old(saleQuantity) && percentage == old(percentage)
                && totalPrice == old(totalPrice)
    {
      if choice.None? {
        selected := None;
        currentStock := 0;
        saleMRP := 0.0;
        price := 0.0;
        percentage := Blank;
        totalPrice := 0.0;
        saleQuantity := Blank;
        return;
      }
      var k := FirstProduct(products, choice.value);
      if k < |products| {
        selected := Some(products[k]);
        SetProductData(products[k]);
      }
    }

    /** The recalculation effect. With a product chosen: a quantity above
        the stock on hand is reset to the stock, or to 0 when the stock is
        not above 0, and nothing else changes; otherwise the price becomes
        the base with the percentage and the total price × quantity, both
        to two decimals. */
    method Recalculate()
      modifies this`saleQuantity, this`price, this`totalPrice
      ensures selected.None? ==> saleQuantity == old(saleQuantity) && price == old(price)
                                 && totalPrice == old(totalPrice)
      ensures selected.Some? && ParseQty(old(saleQuantity)) > currentStock ==>
                saleQuantity == Entered(Fin(if currentStock > 0 then currentStock as real else 0.0))
                && price == old(price) && totalPrice == old(totalPrice)
      ensures selected.Some? && ParseQty(old(saleQuantity)) <= currentStock ==>
                var unit := UnitPrice(saleMRP, AmountOf(percentage));
                saleQuantity == old(saleQuantity) && price == PurchaseInvoices.Round2(unit)
                && totalPrice == PurchaseInvoices.Round2(LineTotal(unit, ParseQty(old(saleQuantity))))
    {
      if selected.None? {
        return;
      }
      var qty := ParseQty(saleQuantity);
      if qty > currentStock {
        if currentStock > 0 {
          saleQuantity := Entered(Fin(currentStock as real));
        } else {
          saleQuantity := Entered(Fin(0.0));
        }
        return;
      }
      var finalPrice := UnitPrice(saleMRP, AmountOf(percentage));
      price := PurchaseInvoices.Round2(finalPrice);
      totalPrice := PurchaseInvoices.Round2(LineTotal(finalPrice, qty));
    }

    /** `addProduct`: refused without a product, with a quantity that is
        empty or not above 0, with a price not above 0, or for a product
        already listed; otherwise the line is appended (so ids stay unique)
        and the product fields are cleared. */
    method AddProduct() returns (r: AddResult)
      requires Valid()
      modifies this`added, this`selected, this`currentStock, this`saleQuantity, this`saleMRP, this`price
      modifies this`percentage, this`totalPrice
      ensures Valid()
      ensures r == NoProduct <==> old(selected).None?
      ensures r == BadQuantity <==> old(selected).Some? && QtyMissing(old(saleQuantity))
      ensures r == NoPrice <==> old(selected).Some? && !QtyMissing(old(saleQuantity)) && old(price) <= 0.0
      ensures r == AlreadyAdded <==> old(selected).Some? && !QtyMissing(old(saleQuantity)) && old(price) > 0.0
                                     && Listed(old(added), old(selected).value.id)
      ensures r.Added? ==>
                var p := old(selected).value;
                r.line == Line(p.id, p.name, p.code, old(currentStock), ParseIntNum(old(saleQuantity)),
                               old(saleMRP), old(price), AmountOf(old(percentage)), old(totalPrice))
                && added == old(added) + [r.line]
                && selected.None? && currentStock == 0 && saleQuantity == Blank && saleMRP == 0.0 && price == 0.0
                && percentage == Blank && totalPrice == 0.0
      ensures !r.Added? ==> added == old(added) && selected == old(selected) && currentStock == old(currentStock)
                            && saleQuantity == old(saleQuantity) && saleMRP == old(saleMRP) && price == old(price)
                            && percentage == old(percentage) && totalPrice == old(totalPrice)
    {
      if selected.None? {
        return NoProduct;
      }
      if QtyMissing(saleQuantity) {
        return BadQuantity;
      }
      if price <= 0.0 {
        return NoPrice;
      }
      var p := selected.value;
      if Listed(added, p.id) {
        return AlreadyAdded;
      }
      var line := Line(p.id, p.name, p.code, currentStock, ParseIntNum(saleQuantity), saleMRP, price,
                       AmountOf(percentage), totalPrice);
      AppendKeepsUnique(added, line);
      added := added + [line];
      selected := None;
      currentStock := 0;
      saleQuantity := Blank;
      saleMRP := 0.0;
      price := 0.0;
      percentage := Blank;
      totalPrice := 0.0;
      r := Added(line);
    }

    /** `removeProduct(idx)`: only line idx leaves the list. */
    method RemoveProduct(idx: nat)
      requires Valid()
      modifies this`added
      ensures Valid() && added == RemoveAt(old(added), idx)
    {
      RemoveKeepsUnique(added, idx);
      added := RemoveAt(added, idx);
    }

    /** `handleAddPayment`: refused without a mode or an amount; otherwise
        the payment is appended and the payment fields cleared. */
    method AddPayment() returns (ok: bool)
      modifies this`payments, this`paymentData
      ensures ok <==> PaymentComplete(old(paymentData))
      ensures ok ==> payments == old(payments) + [old(paymentData)] && paymentData == EmptyEntry
      ensures !ok ==> payments == old(payments) && paymentData == old(paymentData)
    {
      if !PaymentComplete(paymentData) {
        return false;
      }
      payments := payments + [paymentData];
      paymentData := EmptyEntry;
      ok := true;
    }

    /** `handleRemovePayment(index)`: only payment index leaves the list. */
    method RemovePayment(index: nat)
      modifies this`payments
      ensures payments == RemoveAt(old(payments), index)
    {
      payments := RemoveAt(payments, index);
    }
  }
}
