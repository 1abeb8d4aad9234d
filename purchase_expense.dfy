/** The purchase expense page (client/src/pages/expenses/PurchaseExpense.jsx):
    the vendor choices, the filter, the total and the CSV field escaping. */
module PurchaseExpense {
  import opened Wrappers
  import opened Text
  import opened Seqs
  import opened JsNumber
  import opened Csv

  /** A purchase's vendor; an empty name stands for a missing one. */
  datatype Vendor = Vendor(id: Option<nat>, vendorName: string, shopName: string)

  datatype Purchase = Purchase(vendor: Option<Vendor>, invoiceNo: string, purchaseDate: string,
                               totalPayable: Input)

  /** `getVendorKey`: the id as a string, else the vendor name, else the
      shop name; "" without a vendor. */
  function VendorKey(p: Purchase): (key: string)
    ensures p.vendor.None? ==> key == ""
    ensures p.vendor.Some? && p.vendor.value.id.Some? ==> key != "" && AllDigits(key)
  {
    match p.vendor
    case None => ""
    case Some(v) =>
      if v.id.Some? then NatToString(v.id.value)
      else if v.vendorName != "" then v.vendorName
      else v.shopName
  }

  /** `vendor_name || shop_name || ""`. */
  function VendorName(p: Purchase): string
  {
    match p.vendor
    case None => ""
    case Some(v) => if v.vendorName != "" then v.vendorName else v.shopName
  }

  /** The label an option shows: the vendor's name, else "Vendor #<key>". */
  function Label(p: Purchase): (shown: string)
    ensures shown != ""
  {
    var name := VendorName(p);
    if name != "" then name else "Vendor #" + VendorKey(p)
  }

  datatype VendorOption = VendorOption(key: string, caption: string)

  /** The index of the first element whose key is `key`, or -1. */
  function FirstIndex<T>(ps: seq<T>, keyOf: T -> string, key: string): (r: int)
    ensures -1 <= r < |ps|
    ensures r >= 0 ==> keyOf(ps[r]) == key && forall j :: 0 <= j < r ==> keyOf(ps[j]) != key
    ensures r == -1 ==> forall j :: 0 <= j < |ps| ==> keyOf(ps[j]) != key
  {
    if ps == [] then -1
    else
      var r := FirstIndex(ps[..|ps| - 1], keyOf, key);
      if r >= 0 then r
      else if keyOf(ps[|ps| - 1]) == key then |ps| - 1
      else -1
  }

  /** Looking one element further keeps the first index of a key already
      seen, and gives a key not seen before the new index or none. */
  lemma FirstIndexSnoc<T>(ps: seq<T>, keyOf: T -> string, n: nat, key: string)
    requires n < |ps|
    ensures FirstIndex(ps[..n + 1], keyOf, key) ==
              if FirstIndex(ps[..n], keyOf, key) >= 0 then FirstIndex(ps[..n], keyOf, key)
              else if keyOf(ps[n]) == key then n else -1
  {
    assert ps[..n + 1][..n] == ps[..n];
  }

  /** The keys seen so far keep their first indices one element further. */
  lemma FirstIndicesKept<T>(ps: seq<T>, keyOf: T -> string, n: nat, order: seq<string>)
    requires n < |ps|
    requires forall i :: 0 <= i < |order| ==> 0 <= FirstIndex(ps[..n], keyOf, order[i])
    ensures forall i :: 0 <= i < |order| ==> FirstIndex(ps[..n + 1], keyOf, order[i]) == FirstIndex(ps[..n], keyOf, order[i])
  {
    forall i | 0 <= i < |order|
      ensures FirstIndex(ps[..n + 1], keyOf, order[i]) == FirstIndex(ps[..n], keyOf, order[i])
    {
      FirstIndexSnoc(ps, keyOf, n, order[i]);
    }
  }

  /** The parts of what a JavaScript `Map` filled with "set unless present"
      holds after the elements `ps`. The map and the insertion order hold
      the same keys: */
  ghost predicate SameKeys<V>(order: seq<string>, byKey: map<string, V>)
  {
    forall key :: key in byKey <==> key in order
  }

  /** every key is non-empty, occurs in `ps`, and maps to the value made
      from the first element carrying it: */
  ghost predicate FirstValues<T, V>(ps: seq<T>, keyOf: T -> string, make: T -> V,
                                    order: seq<string>, byKey: map<string, V>)
    requires SameKeys(order, byKey)
  {
    forall i :: 0 <= i < |order| ==>
      order[i] != "" && 0 <= FirstIndex(ps, keyOf, order[i])
      && byKey[order[i]] == make(ps[FirstIndex(ps, keyOf, order[i])])
  }

  /** the insertion order is the order of first occurrence: */
  ghost predicate FirstOrder<T>(ps: seq<T>, keyOf: T -> string, order: seq<string>)
  {
    forall i, j :: 0 <= i < j < |order| ==> FirstIndex(ps, keyOf, order[i]) < FirstIndex(ps, keyOf, order[j])
  }

  /** and every non-empty key of `ps` is present. */
  ghost predicate Covers<T, V>(ps: seq<T>, keyOf: T -> string, byKey: map<string, V>)
  {
    forall k :: 0 <= k < |ps| && keyOf(ps[k]) != "" ==> keyOf(ps[k]) in byKey
  }

  ghost predicate FirstSeen<T, V>(ps: seq<T>, keyOf: T -> string, make: T -> V,
                                  order: seq<string>, byKey: map<string, V>)
  {
    SameKeys(order, byKey) && FirstValues(ps, keyOf, make, order, byKey)
    && FirstOrder(ps, keyOf, order) && Covers(ps, keyOf, byKey)
  }

  /** A turn of the loop that meets a key already present, or no key. */
  lemma FirstSeenKeep<T, V>(ps: seq<T>, keyOf: T -> string, make: T -> V, n: nat,
                            order: seq<string>, byKey: map<string, V>)
    requires n < |ps| && FirstSeen(ps[..n], keyOf, make, order, byKey)
    requires keyOf(ps[n]) == "" || keyOf(ps[n]) in byKey
    ensures FirstSeen(ps[..n + 1], keyOf, make, order, byKey)
  {
    var p, q := ps[..n], ps[..n + 1];
    FirstIndicesKept(ps, keyOf, n, order);
    assert FirstValues(q, keyOf, make, order, byKey) by {
      forall i | 0 <= i < |order|
        ensures byKey[order[i]] == make(q[FirstIndex(q, keyOf, order[i])])
      {
        assert q[FirstIndex(p, keyOf, order[i])] == p[FirstIndex(p, keyOf, order[i])];
      }
    }
    assert Covers(q, keyOf, byKey) by {
      forall k | 0 <= k < |q| && keyOf(q[k]) != "" ensures keyOf(q[k]) in byKey {
        if k < n {
          assert q[k] == p[k];
        }
      }
    }
  }

  /** A turn of the loop that meets a new key: it goes last, with the value
      made from this element. */
  lemma FirstSeenAdd<T, V>(ps: seq<T>, keyOf: T -> string, make: T -> V, n: nat,
                           order: seq<string>, byKey: map<string, V>)
    requires n < |ps| && FirstSeen(ps[..n], keyOf, make, order, byKey)
    requires keyOf(ps[n]) != "" && keyOf(ps[n]) !in byKey
    ensures FirstSeen(ps[..n + 1], keyOf, make, order + [keyOf(ps[n])], byKey[keyOf(ps[n]) := make(ps[n])])
  {
    var key := keyOf(ps[n]);
    var p, q := ps[..n], ps[..n + 1];
    var order', byKey' := order + [key], byKey[key := make(ps[n])];
    assert FirstIndex(p, keyOf, key) == -1 by {
      var r := FirstIndex(p, keyOf, key);
      if r >= 0 {
        assert false;
      }
    }
    FirstIndicesKept(ps, keyOf, n, order);
    FirstIndexSnoc(ps, keyOf, n, key);
    assert SameKeys(order', byKey');
    FirstValuesAdd(ps, keyOf, make, n, order, byKey);
    FirstOrderAdd(ps, keyOf, n, order);
    assert Covers(q, keyOf, byKey') by {
      forall k | 0 <= k < |q| && keyOf(q[k]) != "" ensures keyOf(q[k]) in byKey' {
        if k < n {
          assert q[k] == p[k];
        }
      }
    }
  }

  /** The values stay those of the first elements when a new key goes last. */
  lemma FirstValuesAdd<T, V>(ps: seq<T>, keyOf: T -> string, make: T -> V, n: nat,
                             order: seq<string>, byKey: map<string, V>)
    requires n < |ps| && SameKeys(order, byKey) && FirstValues(ps[..n], keyOf, make, order, byKey)
    requires keyOf(ps[n]) != "" && keyOf(ps[n]) !in byKey
    requires forall i :: 0 <= i < |order| ==> FirstIndex(ps[..n + 1], keyOf, order[i]) == FirstIndex(ps[..n], keyOf, order[i])
    requires FirstIndex(ps[..n + 1], keyOf, keyOf(ps[n])) == n
    requires SameKeys(order + [keyOf(ps[n])], byKey[keyOf(ps[n]) := make(ps[n])])
    ensures FirstValues(ps[..n + 1], keyOf, make, order + [keyOf(ps[n])], byKey[keyOf(ps[n]) := make(ps[n])])
  {
    var key := keyOf(ps[n]);
    var p, q := ps[..n], ps[..n + 1];
    var order', byKey' := order + [key], byKey[key := make(ps[n])];
    forall i | 0 <= i < |order'|
      ensures order'[i] != "" && 0 <= FirstIndex(q, keyOf, order'[i])
              && byKey'[order'[i]] == make(q[FirstIndex(q, keyOf, order'[i])])
    {
      if i < |order| {
        assert order'[i] == order[i] && order[i] != key;
        assert q[FirstIndex(p, keyOf, order[i])] == p[FirstIndex(p, keyOf, order[i])];
      }
    }
  }

  /** A new key placed last keeps the keys in order of first occurrence. */
  lemma FirstOrderAdd<T>(ps: seq<T>, keyOf: T -> string, n: nat, order: seq<string>)
    requires n < |ps| && FirstOrder(ps[..n], keyOf, order)
    requires forall i :: 0 <= i < |order| ==> 0 <= FirstIndex(ps[..n], keyOf, order[i])
    requires forall i :: 0 <= i < |order| ==> FirstIndex(ps[..n + 1], keyOf, order[i]) == FirstIndex(ps[..n], keyOf, order[i])
    requires FirstIndex(ps[..n + 1], keyOf, keyOf(ps[n])) == n
    ensures FirstOrder(ps[..n + 1], keyOf, order + [keyOf(ps[n])])
  {
    var q, order' := ps[..n + 1], order + [keyOf(ps[n])];
    forall i, j | 0 <= i < j < |order'|
      ensures FirstIndex(q, keyOf, order'[i]) < FirstIndex(q, keyOf, order'[j])
    {
      assert order'[i] == order[i];
      if j < |order| {
        assert order'[j] == order[j];
      }
    }
  }

  /** The option a purchase contributes. */
  function OptionOf(p: Purchase): VendorOption { VendorOption(VendorKey(p), Label(p)) }

  /** The options in insertion order. */
  function OptionList(order: seq<string>, byKey: map<string, VendorOption>): seq<VendorOption>
    requires SameKeys(order, byKey)
  {
    seq(|order|, i requires 0 <= i < |order| => byKey[order[i]])
  }

  /** What the filled map means for the options listed. */
  lemma OptionsMeaning(purchases: seq<Purchase>, order: seq<string>, byKey: map<string, VendorOption>)
    requires FirstSeen(purchases, VendorKey, OptionOf, order, byKey)
    ensures var options := OptionList(order, byKey);
            (forall i :: 0 <= i < |options| ==>
               options[i].key != "" && 0 <= FirstIndex(purchases, VendorKey, options[i].key)
               && options[i].caption == Label(purchases[FirstIndex(purchases, VendorKey, options[i].key)]))
            && (forall i, j :: 0 <= i < j < |options| ==>
                  FirstIndex(purchases, VendorKey, options[i].key) < FirstIndex(purchases, VendorKey, options[j].key))
            && (forall k :: 0 <= k < |purchases| && VendorKey(purchases[k]) != "" ==>
                  exists i :: 0 <= i < |options| && options[i].key == VendorKey(purchases[k]))
  {
    var options := OptionList(order, byKey);
    OptionsFollowOrder(purchases, order, byKey);
    forall k | 0 <= k < |purchases| && VendorKey(purchases[k]) != ""
      ensures exists i :: 0 <= i < |options| && options[i].key == VendorKey(purchases[k])
    {
      var i :| 0 <= i < |order| && order[i] == VendorKey(purchases[k]);
      assert options[i].key == order[i];
    }
  }

  /** The i-th option carries the i-th key, labelled after its first
      purchase. */
  lemma OptionsFollowOrder(purchases: seq<Purchase>, order: seq<string>, byKey: map<string, VendorOption>)
    requires FirstSeen(purchases, VendorKey, OptionOf, order, byKey)
    ensures var options := OptionList(order, byKey);
            |options| == |order|
            && forall i :: 0 <= i < |options| ==>
                 options[i].key == order[i]
                 && options[i].caption == Label(purchases[FirstIndex(purchases, VendorKey, order[i])])
  {
    var options := OptionList(order, byKey);
    forall i | 0 <= i < |options|
      ensures options[i].key == order[i]
              && options[i].caption == Label(purchases[FirstIndex(purchases, VendorKey, order[i])])
    {
      assert options[i] == byKey[order[i]];
    }
  }

  /** `vendorOptions`: one option per vendor key, in the order the keys
      first occur, labelled after the first purchase with that key. */
  method VendorOptions(purchases: seq<Purchase>) returns (options: seq<VendorOption>)
    ensures forall i :: 0 <= i < |options| ==>
              options[i].key != "" && 0 <= FirstIndex(purchases, VendorKey, options[i].key)
              && options[i].caption == Label(purchases[FirstIndex(purchases, VendorKey, options[i].key)])
    ensures forall i, j :: 0 <= i < j < |options| ==>
              FirstIndex(purchases, VendorKey, options[i].key) < FirstIndex(purchases, VendorKey, options[j].key)
    ensures forall k :: 0 <= k < |purchases| && VendorKey(purchases[k]) != "" ==>
              exists i :: 0 <= i < |options| && options[i].key == VendorKey(purchases[k])
  {
    var byKey: map<string, VendorOption> := map[];
    var order: seq<string> := [];
    for n := 0 to |purchases|
      invariant FirstSeen(purchases[..n], VendorKey, OptionOf, order, byKey)
    {
      var p := purchases[n];
      var key := VendorKey(p);
      if key != "" && key !in byKey {
        FirstSeenAdd(purchases, VendorKey, OptionOf, n, order, byKey);
        byKey := byKey[key := OptionOf(p)];
        order := order + [key];
      } else {
        FirstSeenKeep(purchases, VendorKey, OptionOf, n, order, byKey);
      }
    }
    assert purchases[..|purchases|] == purchases;
    options := OptionList(order, byKey);
    OptionsMeaning(purchases, order, byKey);
  }

  /** The conditions of `filtered`, applied one after the other in the source. */
  predicate MatchesSearch(p: Purchase, search: string)
  {
    Trim(search) == "" || Contains(ToLower(VendorName(p)), ToLower(search))
    || Contains(ToLower(p.invoiceNo), ToLower(search))
  }

  predicate MatchesVendor(p: Purchase, vendor: string) { vendor == "" || VendorKey(p) == vendor }

  predicate OnOrAfter(p: Purchase, start: string)
  {
    start == "" || (p.purchaseDate != "" && LessOrEqual(start, p.purchaseDate))
  }

  predicate OnOrBefore(p: Purchase, end: string)
  {
    end == "" || (p.purchaseDate != "" && LessOrEqual(p.purchaseDate, end))
  }

  /** The filter settings of the page. */
  datatype Filters = Filters(search: string, vendor: string, start: string, end: string)

  predicate Matches(p: Purchase, f: Filters)
  {
    MatchesSearch(p, f.search) && MatchesVendor(p, f.vendor) && OnOrAfter(p, f.start) && OnOrBefore(p, f.end)
  }

  function SearchCond(search: string): Purchase -> bool { p => MatchesSearch(p, search) }
  function VendorCond(vendor: string): Purchase -> bool { p => MatchesVendor(p, vendor) }
  function AfterCond(start: string): Purchase -> bool { p => OnOrAfter(p, start) }
  function BeforeCond(end: string): Purchase -> bool { p => OnOrBefore(p, end) }

  /** `filtered`: the four filters in turn, each skipped when its setting is empty. */
  function Filtered(purchases: seq<Purchase>, f: Filters): seq<Purchase>
  {
    var r1 := if Trim(f.search) != "" then Filter(purchases, SearchCond(f.search)) else purchases;
    var r2 := if f.vendor != "" then Filter(r1, VendorCond(f.vendor)) else r1;
    var r3 := if f.start != "" then Filter(r2, AfterCond(f.start)) else r2;
    if f.end != "" then Filter(r3, BeforeCond(f.end)) else r3
  }

  /** The conditions met after the first two, three and four filters. */
  function FirstTwo(f: Filters): Purchase -> bool { p => MatchesSearch(p, f.search) && MatchesVendor(p, f.vendor) }
  function FirstThree(f: Filters): Purchase -> bool { p => FirstTwo(f)(p) && OnOrAfter(p, f.start) }
  function MatchesFn(f: Filters): Purchase -> bool { p => Matches(p, f) }

  /** The chain of filters keeps, in their order, exactly the purchases
      that satisfy every condition. */
  lemma FilteredIsOneFilter(purchases: seq<Purchase>, f: Filters)
    ensures Filtered(purchases, f) == Filter(purchases, MatchesFn(f))
  {
    var r1 := if Trim(f.search) != "" then Filter(purchases, SearchCond(f.search)) else purchases;
    assert r1 == Filter(purchases, SearchCond(f.search)) by {
      if Trim(f.search) == "" {
        FilterAll(purchases, SearchCond(f.search));
      }
    }
    var r2 := if f.vendor != "" then Filter(r1, VendorCond(f.vendor)) else r1;
    FilterStage(purchases, SearchCond(f.search), VendorCond(f.vendor), f.vendor != "", FirstTwo(f));
    var r3 := if f.start != "" then Filter(r2, AfterCond(f.start)) else r2;
    FilterStage(purchases, FirstTwo(f), AfterCond(f.start), f.start != "", FirstThree(f));
    FilterStage(purchases, FirstThree(f), BeforeCond(f.end), f.end != "", MatchesFn(f));
  }

  /** `safeNumber(total_payable_amount)`: empty or unparsable is 0. */
  function Payable(p: Purchase): real { AmountOf(p.totalPayable) }

  /** `totalPurchaseExpense`. */
  function TotalPurchaseExpense(purchases: seq<Purchase>, f: Filters): real
  {
    Sum(Filtered(purchases, f), Payable)
  }

  /** The total shown plus the total of the purchases the filter hides is
      the total of all purchases. */
  lemma TotalSplitsByFilter(purchases: seq<Purchase>, f: Filters)
    ensures TotalPurchaseExpense(purchases, f) + Sum(Filter(purchases, p => !Matches(p, f)), Payable)
            == Sum(purchases, Payable)
  {
    FilteredIsOneFilter(purchases, f);
    SumSplitByComplement(purchases, MatchesFn(f), p => !Matches(p, f), Payable);
  }

  /** With every filter empty, every purchase is listed. */
  lemma NoFiltersKeepsAll(purchases: seq<Purchase>)
    ensures Filtered(purchases, Filters("", "", "", "")) == purchases
  {
    assert Trim("") == "";
  }

  /** `escapeCsv`: nothing for null; the text itself unless it holds a
      double quote, a comma or a line feed; else the text in double quotes
      with its double quotes doubled. */
  function EscapeCsv(value: Option<string>): (r: string)
    ensures value.None? ==> r == ""
    ensures value.Some? && (forall i :: 0 <= i < |value.value| ==> !IsSpecial(value.value[i])) ==> r == value.value
  {
    match value
    case None => ""
    case Some(s) =>
      if exists i :: 0 <= i < |s| && IsSpecial(s[i]) then Enclose(s) else s
  }

  /** Reading an escaped field back gives the value: escaping loses nothing. */
  lemma EscapeCsvRoundTrip(s: string)
    ensures ParseField(EscapeCsv(Some(s))) == Some(s)
  {
    if exists i :: 0 <= i < |s| && IsSpecial(s[i]) {
      EncloseRoundTrip(s);
    } else {
      BareRoundTrip(s);
    }
  }

  /** An escaped field is enclosed exactly when the value has a special
      character; an escaped field with a comma inside is always enclosed. */
  lemma EscapeCsvEncloses(s: string)
    ensures var r := EscapeCsv(Some(s));
            (exists i :: 0 <= i < |s| && IsSpecial(s[i])) <==> (|r| >= 2 && r[0] == Quote && r[|r| - 1] == Quote)
  {
    var r := EscapeCsv(Some(s));
    if !exists i :: 0 <= i < |s| && IsSpecial(s[i]) {
      if |r| >= 2 {
        assert !IsSpecial(r[0]);
      }
    }
  }
}
