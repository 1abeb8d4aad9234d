/** Products and stock rows (server/stocks/serializers.py) and assets
    (server/stocks/models.py). Quantities are integers; prices and values
    are Decimal with two places, held as integers in the smallest unit. */
module Stock {
  import opened Wrappers

  // ---------------------------------------------------------------------
  // Assets
  // ---------------------------------------------------------------------

  /** `Asset.usable_qty`: total less damaged, never below 0. */
  function UsableQty(total: nat, damaged: nat): (u: nat)
    ensures u <= total
    ensures damaged >= total ==> u == 0
    ensures damaged <= total ==> u + damaged == total
  {
    if total - damaged > 0 then total - damaged else 0
  }

  /** A fresh asset has no quantities, hence nothing usable. */
  lemma FreshAssetHasNothingUsable()
    ensures UsableQty(0, 0) == 0
  {
  }

  // ---------------------------------------------------------------------
  // Products
  // ---------------------------------------------------------------------

  /** A product row: its id, business category and product code. */
  datatype Product = Product(id: nat, category: nat, code: string)

  /** `validate_price`. */
  function ValidatePrice(price: int): (r: Result<int, string>)
    ensures r.Ok? <==> price >= 0
    ensures r.Ok? ==> r.value == price
  {
    if price < 0 then Err("Price cannot be negative.") else Ok(price)
  }

  /** Another product of the same category already uses `code`; on update
      (`self` present) the product itself does not count. */
  predicate CodeTaken(products: seq<Product>, category: nat, code: string, self: Option<nat>)
  {
    exists i :: 0 <= i < |products| && Clashes(products[i], category, code, self)
  }

  predicate Clashes(p: Product, category: nat, code: string, self: Option<nat>)
  {
    p.category == category && p.code == code && (self.None? || p.id != self.value)
  }

  /** The loop the query performs: scan the product table for a clash. */
  function FindClash(products: seq<Product>, category: nat, code: string, self: Option<nat>): (r: bool)
    ensures r <==> CodeTaken(products, category, code, self)
  {
    if products == [] then false
    else if Clashes(products[0], category, code, self) then true
    else
      var rest := FindClash(products[1..], category, code, self);
      assert CodeTaken(products[1..], category, code, self) ==> CodeTaken(products, category, code, self) by {
        if CodeTaken(products[1..], category, code, self) {
          var i :| 0 <= i < |products[1..]| && Clashes(products[1..][i], category, code, self);
          assert Clashes(products[i + 1], category, code, self);
        }
      }
      rest
  }

  /** `validate_product_code`: only a non-empty code submitted together
      with a business category is checked, and it is refused when another
      product of that category already has it. */
  function ValidateProductCode(code: string, category: Option<nat>, products: seq<Product>, self: Option<nat>)
    : (r: Result<string, string>)
    ensures r.Err? <==> code != [] && category.Some? && CodeTaken(products, category.value, code, self)
    ensures r.Ok? ==> r.value == code
  {
    if code != [] && category.Some? && FindClash(products, category.value, code, self) then
      Err("Product code must be unique within this business category.")
    else Ok(code)
  }

  /** On update, the product's own code is never a clash with itself. */
  lemma OwnCodeIsNoClash(p: Product)
    ensures ValidateProductCode(p.code, Some(p.category), [p], Some(p.id)).Ok?
  {
    assert !CodeTaken([p], p.category, p.code, Some(p.id));
  }

  // ---------------------------------------------------------------------
  // Stock rows
  // ---------------------------------------------------------------------

  /** A stock row. */
  datatype StockRow = StockRow(
    id: nat, product: nat, category: nat,
    purchaseQty: int, saleQty: int, damageQty: int, currentQty: int,
    purchasePrice: int, salePrice: int, currentValue: int, netWeight: Option<int>)

  /** The derived fields agree with the quantities and the purchase price. */
  predicate Consistent(r: StockRow)
  {
    r.currentQty == r.purchaseQty - r.saleQty - r.damageQty
    && r.currentValue == r.currentQty * r.purchasePrice
  }

  /** The stock data a create or update request supplies; absent fields are
      None. `product` is the submitted `product_id` and `category` the
      submitted `business_category`: a full update carries both, a partial
      one may leave them out. */
  datatype StockData = StockData(
    product: Option<nat>, category: Option<nat>,
    purchaseQty: Option<int>, saleQty: Option<int>, damageQty: Option<int>,
    currentQty: Option<int>, purchasePrice: Option<int>, salePrice: Option<int>,
    currentValue: Option<int>, netWeight: Option<int>)

  /** Python truthiness of an optional number: present and non-zero. */
  predicate Truthy(x: Option<int>) { x.Some? && x.value != 0 }

  predicate NonNegativeIfPresent(x: Option<int>) { x.None? || x.value >= 0 }

  datatype StockError = SalePriceBelowPurchase | NegativePurchaseQty | NegativeSaleQty | NegativeDamageQty
                      | NonPositiveNetWeight

  /** `StockSerializer.validate`, its checks in the source's order. */
  function ValidateStock(d: StockData): (r: Result<StockData, StockError>)
    ensures r.Ok? <==>
      !(Truthy(d.purchasePrice) && Truthy(d.salePrice) && d.salePrice.value < d.purchasePrice.value)
      && NonNegativeIfPresent(d.purchaseQty) && NonNegativeIfPresent(d.saleQty)
      && NonNegativeIfPresent(d.damageQty) && NonNegativeIfPresent(d.netWeight)
    ensures r == Err(SalePriceBelowPurchase) <==>
      Truthy(d.purchasePrice) && Truthy(d.salePrice) && d.salePrice.value < d.purchasePrice.value
    ensures r.Ok? ==> r.value == d
  {
    if Truthy(d.purchasePrice) && Truthy(d.salePrice) && d.salePrice.value < d.purchasePrice.value then
      Err(SalePriceBelowPurchase)
    else if d.purchaseQty.Some? && d.purchaseQty.value < 0 then Err(NegativePurchaseQty)
    else if d.saleQty.Some? && d.saleQty.value < 0 then Err(NegativeSaleQty)
    else if d.damageQty.Some? && d.damageQty.value < 0 then Err(NegativeDamageQty)
    else if Truthy(d.netWeight) && d.netWeight.value <= 0 then Err(NonPositiveNetWeight)
    else Ok(d)
  }

  /** A zero net weight slips past the truthiness guard; a negative one does not. */
  lemma NetWeightZeroAccepted(d: StockData)
    requires d == StockData(None, None, None, None, None, None, None, None, None, Some(0))
    ensures ValidateStock(d).Ok?
    ensures ValidateStock(d.(netWeight := Some(-1))) == Err(NonPositiveNetWeight)
  {
  }

  /** A zero purchase price switches the price comparison off. */
  lemma ZeroPurchasePriceSkipsPriceCheck(d: StockData)
    requires d == StockData(None, None, None, None, None, None, Some(0), Some(-5), None, None)
    ensures ValidateStock(d).Ok?
  {
  }

  /** The fields `create` needs. */
  datatype NewStock = NewStock(
    product: nat, category: nat, purchaseQty: int, saleQty: int, damageQty: int,
    purchasePrice: int, salePrice: int, netWeight: Option<int>)

  /** `update`'s `setattr` loop: every supplied field replaces the row's,
      the product and the business category included. */
  function Apply(r: StockRow, d: StockData): (s: StockRow)
    ensures s.id == r.id
    ensures s.product == (if d.product.Some? then d.product.value else r.product)
    ensures s.category == (if d.category.Some? then d.category.value else r.category)
    ensures s.purchaseQty == (if d.purchaseQty.Some? then d.purchaseQty.value else r.purchaseQty)
    ensures s.saleQty == (if d.saleQty.Some? then d.saleQty.value else r.saleQty)
    ensures s.damageQty == (if d.damageQty.Some? then d.damageQty.value else r.damageQty)
    ensures s.purchasePrice == (if d.purchasePrice.Some? then d.purchasePrice.value else r.purchasePrice)
    ensures s.salePrice == (if d.salePrice.Some? then d.salePrice.value else r.salePrice)
    ensures s.currentQty == (if d.currentQty.Some? then d.currentQty.value else r.currentQty)
    ensures s.currentValue == (if d.currentValue.Some? then d.currentValue.value else r.currentValue)
    ensures s.netWeight == (if d.netWeight.Some? then d.netWeight else r.netWeight)
  {
    r.(product := if d.product.Some? then d.product.value else r.product)
     .(category := if d.category.Some? then d.category.value else r.category)
     .(purchaseQty := if d.purchaseQty.Some? then d.purchaseQty.value else r.purchaseQty)
     .(saleQty := if d.saleQty.Some? then d.saleQty.value else r.saleQty)
     .(damageQty := if d.damageQty.Some? then d.damageQty.value else r.damageQty)
     .(currentQty := if d.currentQty.Some? then d.currentQty.value else r.currentQty)
     .(purchasePrice := if d.purchasePrice.Some? then d.purchasePrice.value else r.purchasePrice)
     .(salePrice := if d.salePrice.Some? then d.salePrice.value else r.salePrice)
     .(currentValue := if d.currentValue.Some? then d.currentValue.value else r.currentValue)
     .(netWeight := if d.netWeight.Some? then d.netWeight else r.netWeight)
  }

  /** The index of the first row (lowest primary key) for a product:
      `.filter(product=...).first()`. */
  function FirstFor(rows: seq<StockRow>, product: nat): (r: Option<nat>)
    ensures r.Some? ==> r.value < |rows| && rows[r.value].product == product
    ensures r.Some? ==> forall j :: 0 <= j < r.value ==> rows[j].product != product
    ensures r.None? ==> forall j :: 0 <= j < |rows| ==> rows[j].product != product
  {
    if rows == [] then None
    else if rows[0].product == product then Some(0)
    else
      var r := FirstFor(rows[1..], product);
      if r.Some? then Some(r.value + 1) else None
  }

  /** The stock table, rows in primary-key order. */
  class StockTable {
    var rows: seq<StockRow>

    ghost predicate Valid()
      reads this
    {
      forall i, j :: 0 <= i < j < |rows| ==> rows[i].id < rows[j].id
    }

    constructor ()
      ensures Valid() && rows == []
    {
      rows := [];
    }

    /** `get_current_stock`: the first stock row's current quantity, or 0
        when the product has no stock row. */
    function CurrentStock(product: nat): (q: int)
      reads this
      ensures FirstFor(rows, product).None? ==> q == 0
      ensures FirstFor(rows, product).Some? ==> q == rows[FirstFor(rows, product).value].currentQty
    {
      var i := FirstFor(rows, product);
      if i.Some? then rows[i.value].currentQty else 0
    }

    /** `StockSerializer.create`: current quantity and value are derived
        from the supplied quantities and price before the row is stored. */
    method Create(d: NewStock, id: nat) returns (row: StockRow)
      requires Valid() && forall i :: 0 <= i < |rows| ==> rows[i].id < id
      modifies this
      ensures Valid()
      ensures rows == old(rows) + [row]
      ensures Consistent(row)
      ensures row.id == id && row.product == d.product && row.category == d.category
      ensures row.purchaseQty == d.purchaseQty && row.saleQty == d.saleQty && row.damageQty == d.damageQty
      ensures row.purchasePrice == d.purchasePrice && row.salePrice == d.salePrice && row.netWeight == d.netWeight
    {
      var current := d.purchaseQty - d.saleQty - d.damageQty;
      var value := current * d.purchasePrice;
      row := StockRow(id, d.product, d.category, d.purchaseQty, d.saleQty, d.damageQty, current,
                      d.purchasePrice, d.salePrice, value, d.netWeight);
      rows := rows + [row];
    }

    /** `StockSerializer.update`: every supplied field is set, then the
        derived fields are recomputed from the result, overwriting any
        supplied current quantity or value. */
    method Update(index: nat, d: StockData)
      requires Valid() && index < |rows|
      modifies this
      ensures Valid()
      ensures |rows| == |old(rows)|
      ensures forall j :: 0 <= j < |rows| && j != index ==> rows[j] == old(rows)[j]
      ensures Consistent(rows[index])
      ensures rows[index].id == old(rows)[index].id
      ensures rows[index].product == if d.product.Some? then d.product.value else old(rows)[index].product
      ensures rows[index].category == if d.category.Some? then d.category.value else old(rows)[index].category
      ensures var a := Apply(old(rows)[index], d);
              rows[index] == a.(currentQty := rows[index].currentQty, currentValue := rows[index].currentValue)
    {
      var r := Apply(rows[index], d);
      var current := r.purchaseQty - r.saleQty - r.damageQty;
      r := r.(currentQty := current);
      r := r.(currentValue := r.currentQty * r.purchasePrice);
      rows := rows[index := r];
    }
  }

  /** The row `update` stores depends on the supplied data only through
      the non-derived fields: supplying a current quantity or value makes
      no difference. */
  lemma UpdateIgnoresSuppliedDerived(r: StockRow, d: StockData, q: Option<int>, v: Option<int>)
    ensures var a := Apply(r, d);
            var b := Apply(r, d.(currentQty := q, currentValue := v));
            a.(currentQty := 0, currentValue := 0) == b.(currentQty := 0, currentValue := 0)
  {
  }

}
