/** The expense report grouped by cost category
    (client/src/pages/reports/Expenses/ExpenseReport.jsx): rows are put in
    one list per category, each list is subtotalled, and the grand total
    is taken over all rows. Amounts are read with `Number(amount || 0)`, so
    an unreadable amount is NaN and makes its sums NaN. */
module CategoryReport {
  import opened JsNumber

  datatype Item = Item(costCategory: string, amount: Input)

  /** `item.cost_category || "Uncategorized"` (an empty category stands for
      a missing one). The groups are a map here; the page keeps them in a
      plain object `{}`, where a category named after an inherited property
      ("constructor", "__proto__") behaves differently, which this model
      does not follow. */
  function CategoryOf(item: Item): (c: string)
    ensures c != ""
  {
    if item.costCategory != "" then item.costCategory else "Uncategorized"
  }

  /** `Number(i.amount || 0)`. */
  function Amount(item: Item): Num { ValueOf(item.amount) }

  /** The rows of one category, in their original order. */
  function InCategory(data: seq<Item>, k: string): (r: seq<Item>)
    ensures |r| <= |data|
    ensures forall x :: x in r ==> x in data && CategoryOf(x) == k
    ensures forall x :: x in data && CategoryOf(x) == k ==> x in r
  {
    if data == [] then []
    else
      var init := data[..|data| - 1];
      var last := data[|data| - 1];
      assert data == init + [last];
      InCategory(init, k) + (if CategoryOf(last) == k then [last] else [])
  }

  lemma InCategorySnoc(data: seq<Item>, n: nat, k: string)
    requires n < |data|
    ensures InCategory(data[..n + 1], k)
            == InCategory(data[..n], k) + (if CategoryOf(data[n]) == k then [data[n]] else [])
  {
    assert data[..n + 1][..n] == data[..n];
  }

  /** `groups` holds exactly the non-empty categories of `ps`, each with its
      rows in order. */
  ghost predicate GroupsFor(ps: seq<Item>, groups: map<string, seq<Item>>)
  {
    (forall k :: k in groups <==> InCategory(ps, k) != [])
    && (forall k :: k in groups ==> groups[k] == InCategory(ps, k))
  }

  /** Appending one row to its category's list keeps the groups exact. */
  lemma GroupsStep(data: seq<Item>, n: nat, groups: map<string, seq<Item>>)
    requires n < |data| && GroupsFor(data[..n], groups)
    ensures var c := CategoryOf(data[n]);
            GroupsFor(data[..n + 1], groups[c := (if c in groups then groups[c] else []) + [data[n]]])
  {
    var c := CategoryOf(data[n]);
    var g := groups[c := (if c in groups then groups[c] else []) + [data[n]]];
    forall k ensures (k in g <==> InCategory(data[..n + 1], k) != [])
                     && (k in g ==> g[k] == InCategory(data[..n + 1], k)) {
      InCategorySnoc(data, n, k);
    }
  }

  /** `groupedData`: a list per category met, rows appended as they come. */
  method GroupedData(data: seq<Item>) returns (groups: map<string, seq<Item>>)
    ensures forall k :: k in groups <==> InCategory(data, k) != []
    ensures forall k :: k in groups ==> groups[k] == InCategory(data, k)
    ensures forall x :: x in data ==> CategoryOf(x) in groups && x in groups[CategoryOf(x)]
  {
    groups := map[];
    for n := 0 to |data|
      invariant GroupsFor(data[..n], groups)
    {
      GroupsStep(data, n, groups);
      var item := data[n];
      var category := CategoryOf(item);
      if category !in groups {
        groups := groups[category := []];
      }
      groups := groups[category := groups[category] + [item]];
    }
    assert data[..|data|] == data;
    forall x | x in data ensures CategoryOf(x) in groups && x in groups[CategoryOf(x)] {
      assert x in InCategory(data, CategoryOf(x));
    }
  }

  /** `getCategoryTotal(items)`. */
  function CategoryTotal(items: seq<Item>): Num { NumSum(items, Amount) }

  /** `grandTotal`. */
  function GrandTotal(data: seq<Item>): Num { NumSum(data, Amount) }

  /** The subtotals of the categories `keys`, added up in that order. */
  function KeysTotal(data: seq<Item>, keys: seq<string>): Num
  {
    if keys == [] then Fin(0.0)
    else Add(KeysTotal(data, keys[..|keys| - 1]), CategoryTotal(InCategory(data, keys[|keys| - 1])))
  }

  predicate Distinct(keys: seq<string>)
  {
    forall i, j :: 0 <= i < j < |keys| ==> keys[i] != keys[j]
  }

  lemma AddAssoc(a: Num, b: Num, c: Num)
    ensures Add(Add(a, b), c) == Add(a, Add(b, c))
  {
  }

  lemma {:induction false} KeysTotalEmpty(keys: seq<string>)
    ensures KeysTotal([], keys) == Fin(0.0)
  {
    if keys != [] {
      KeysTotalEmpty(keys[..|keys| - 1]);
    }
  }

  /** One more row adds its amount to the category it belongs to, and so
      once to the total over distinct keys that include its category. */
  lemma {:induction false} KeysTotalSnoc(data: seq<Item>, x: Item, keys: seq<string>)
    requires Distinct(keys)
    ensures KeysTotal(data + [x], keys)
            == if CategoryOf(x) in keys then Add(KeysTotal(data, keys), Amount(x)) else KeysTotal(data, keys)
  {
    if keys != [] {
      var init := keys[..|keys| - 1];
      var k := keys[|keys| - 1];
      assert keys == init + [k];
      KeysTotalSnoc(data, x, init);
      assert (data + [x])[..|data|] == data;
      var s := CategoryTotal(InCategory(data, k));
      if CategoryOf(x) == k {
        assert InCategory(data + [x], k) == InCategory(data, k) + [x];
        NumSumAppend(InCategory(data, k), [x], Amount);
        assert NumSum([x], Amount) == Add(Fin(0.0), Amount(x)) by {
          assert [x][..0] == [];
        }
        assert CategoryOf(x) !in init;
        AddAssoc(KeysTotal(data, init), s, Amount(x));
      } else {
        assert InCategory(data + [x], k) == InCategory(data, k);
        if CategoryOf(x) in init {
          AddAssoc(KeysTotal(data, init), Amount(x), s);
          AddAssoc(KeysTotal(data, init), s, Amount(x));
        }
      }
    }
  }

  /** Adding the subtotals of all categories gives the grand total. */
  lemma {:induction false} SubtotalsAddUp(data: seq<Item>, keys: seq<string>)
    requires Distinct(keys)
    requires forall x :: x in data ==> CategoryOf(x) in keys
    ensures KeysTotal(data, keys) == GrandTotal(data)
  {
    if data == [] {
      KeysTotalEmpty(keys);
    } else {
      var init := data[..|data| - 1];
      var x := data[|data| - 1];
      assert data == init + [x];
      SubtotalsAddUp(init, keys);
      KeysTotalSnoc(init, x, keys);
    }
  }

  /** The groups `groupedData` builds, listed in any order without repeats,
      have subtotals adding up to the grand total. */
  lemma GroupsAddUp(data: seq<Item>, groups: map<string, seq<Item>>, keys: seq<string>)
    requires forall k :: k in groups <==> InCategory(data, k) != []
    requires forall x :: x in data ==> CategoryOf(x) in groups
    requires Distinct(keys) && forall k :: k in keys <==> k in groups
    ensures KeysTotal(data, keys) == GrandTotal(data)
  {
    SubtotalsAddUp(data, keys);
  }
}
