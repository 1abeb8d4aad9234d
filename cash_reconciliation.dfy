/** The cash reconciliation page
    (client/src/pages/accounting/CashReconciliation.jsx): the book closing
    balance, the cash counted by denomination, their difference and its
    status, and the history of saved reconciliations. The clock reading
    used as a record id is a parameter. */
module CashReconciliation {
  import opened Text
  import opened Seqs
  import opened JsNumber

  /** One row of the counting table; `count` is what the box holds. */
  datatype Denomination = Denomination(id: nat, value: nat, count: string)

  /** The ten notes and coins, each with an empty count. */
  const Initial: seq<Denomination> := [
    Denomination(1, 1000, ""), Denomination(2, 500, ""), Denomination(3, 200, ""),
    Denomination(4, 100, ""), Denomination(5, 50, ""), Denomination(6, 20, ""),
    Denomination(7, 10, ""), Denomination(8, 5, ""), Denomination(9, 2, ""),
    Denomination(10, 1, "")]

  /** The counting table: ids tell rows apart, every note or coin is worth
      something and every count is digits (or empty). */
  predicate WellFormed(ds: seq<Denomination>)
  {
    (forall i, j :: 0 <= i < j < |ds| ==> ds[i].id != ds[j].id)
    && (forall i :: 0 <= i < |ds| ==> ds[i].value > 0 && AllDigits(ds[i].count))
  }

  lemma InitialWellFormed()
    ensures WellFormed(Initial)
  {
    assert AllDigits("");
    assert forall i :: 0 <= i < |Initial| ==> Initial[i].id == i + 1 && Initial[i].value > 0 && Initial[i].count == "";
  }

  /** `value.replace(/[^0-9]/g, "")`. */
  function KeepDigits(s: string): (r: string)
    ensures AllDigits(r) && |r| <= |s|
  {
    if s == [] then [] else (if IsDigit(s[0]) then [s[0]] else []) + KeepDigits(s[1..])
  }

  /** Stripping non-digits leaves a digit string as it is, and so doing it
      twice is doing it once. */
  lemma {:induction false} KeepDigitsOfDigits(s: string)
    requires AllDigits(s)
    ensures KeepDigits(s) == s
  {
    if s != [] {
      KeepDigitsOfDigits(s[1..]);
      assert s == [s[0]] + s[1..];
    }
  }

  /** `Number(d.count) || 0` on a digit string. */
  function CountOf(d: Denomination): nat
  {
    if AllDigits(d.count) then DigitsValue(d.count) else 0
  }

  function Subtotal(d: Denomination): int { d.value * CountOf(d) }

  /** `physicalTotal`: value times count, added over the table. */
  function PhysicalTotal(ds: seq<Denomination>): int
  {
    IntSum(ds, Subtotal)
  }

  lemma {:induction false} PhysicalTotalNonNegative(ds: seq<Denomination>)
    ensures PhysicalTotal(ds) >= 0
  {
    if ds != [] {
      PhysicalTotalNonNegative(ds[..|ds| - 1]);
    }
  }

  /** A table whose counts are all empty holds no cash. */
  lemma {:induction false} EmptyCountsTotalZero(ds: seq<Denomination>)
    requires forall i :: 0 <= i < |ds| ==> ds[i].count == ""
    ensures PhysicalTotal(ds) == 0
  {
    if ds != [] {
      EmptyCountsTotalZero(ds[..|ds| - 1]);
    }
  }

  /** `handleDenomChange(id, value)`: the row with that id takes the digits
      of `value` as its count; every other row stays. */
  function SetCount(ds: seq<Denomination>, id: nat, value: string): (r: seq<Denomination>)
    ensures |r| == |ds|
    ensures forall i :: 0 <= i < |ds| ==> r[i].id == ds[i].id && r[i].value == ds[i].value
    ensures forall i :: 0 <= i < |ds| ==> r[i].count == if ds[i].id == id then KeepDigits(value) else ds[i].count
  {
    if ds == [] then []
    else
      var init := SetCount(ds[..|ds| - 1], id, value);
      var d := ds[|ds| - 1];
      init + [if d.id == id then d.(count := KeepDigits(value)) else d]
  }

  /** Changing one count keeps the table well formed. */
  lemma SetCountWellFormed(ds: seq<Denomination>, id: nat, value: string)
    requires WellFormed(ds)
    ensures WellFormed(SetCount(ds, id, value))
  {
    var r := SetCount(ds, id, value);
    assert forall i, j :: 0 <= i < j < |r| ==> r[i].id == ds[i].id && r[j].id == ds[j].id;
  }

  /** Changing the count of the one row with that id (as in a well-formed
      table) changes the cash total by exactly that row's change. */
  lemma {:induction false} SetCountTotal(ds: seq<Denomination>, id: nat, value: string, k: nat)
    requires k < |ds| && ds[k].id == id
    requires forall i :: 0 <= i < |ds| && i != k ==> ds[i].id != id
    ensures PhysicalTotal(SetCount(ds, id, value))
            == PhysicalTotal(ds) - Subtotal(ds[k]) + ds[k].value * DigitsValue(KeepDigits(value))
  {
    var r := SetCount(ds, id, value);
    var init := ds[..|ds| - 1];
    assert r[..|ds| - 1] == SetCount(init, id, value);
    if k == |ds| - 1 {
      assert forall i :: 0 <= i < |init| ==> init[i].id != id;
      UntouchedTotal(init, id, value);
    } else {
      SetCountTotal(init, id, value, k);
      assert r[|ds| - 1] == ds[|ds| - 1];
    }
  }

  /** A change aimed at an id the table does not have changes nothing. */
  lemma {:induction false} UntouchedTotal(ds: seq<Denomination>, id: nat, value: string)
    requires forall i :: 0 <= i < |ds| ==> ds[i].id != id
    ensures SetCount(ds, id, value) == ds
  {
    if ds != [] {
      UntouchedTotal(ds[..|ds| - 1], id, value);
    }
  }

  /** Opening + receipts - payments, each empty or unreadable field read as 0. */
  function SystemClosing(opening: Input, receipts: Input, payments: Input): real
  {
    AmountOf(opening) + AmountOf(receipts) - AmountOf(payments)
  }

  datatype Status = Balanced | Short | Excess

  /** "Short" below zero, "Excess" above, else "Balanced". */
  function StatusOf(difference: real): (s: Status)
    ensures s == Short <==> difference < 0.0
    ensures s == Excess <==> difference > 0.0
    ensures s == Balanced <==> difference == 0.0
  {
    var s := Balanced;
    var s := if difference < 0.0 then Short else s;
    if difference > 0.0 then Excess else s
  }

  datatype Reconciliation = Reconciliation(id: int, date: string, cashier: string, systemClosing: real,
                                           physicalTotal: int, difference: real, status: Status, remarks: string)

  class CashReconciler {
    var date: string
    var cashier: string
    var openingBalance: Input
    var receipts: Input
    var payments: Input
    var remarks: string
    var denoms: seq<Denomination>
    var reconciliations: seq<Reconciliation>

    predicate Valid()
      reads this
    {
      WellFormed(denoms)
    }

    /** The empty book form and a fresh counting table. */
    predicate IsReset()
      reads this
    {
      date == "" && cashier == "" && openingBalance == Blank && receipts == Blank && payments == Blank
      && remarks == "" && denoms == Initial
    }

    function Closing(): real
      reads this
    {
      SystemClosing(openingBalance, receipts, payments)
    }

    /** `difference` = counted cash - book closing. */
    function Difference(): real
      reads this
    {
      PhysicalTotal(denoms) as real - Closing()
    }

    constructor ()
      ensures Valid() && IsReset() && reconciliations == []
    {
      date, cashier, remarks := "", "", "";
      openingBalance, receipts, payments := Blank, Blank, Blank;
      denoms := Initial;
      reconciliations := [];
      InitialWellFormed();
    }

    /** `handleDenomChange(id, value)`. */
    method HandleDenomChange(id: nat, value: string)
      requires Valid()
      modifies this`denoms
      ensures Valid()
      ensures denoms == SetCount(old(denoms), id, value)
    {
      SetCountWellFormed(denoms, id, value);
      denoms := SetCount(denoms, id, value);
    }

    /** `resetForm`. */
    method ResetForm()
      modifies this
      ensures Valid() && IsReset() && reconciliations == old(reconciliations)
    {
      date, cashier, remarks := "", "", "";
      openingBalance, receipts, payments := Blank, Blank, Blank;
      denoms := Initial;
      InitialWellFormed();
    }

    /** `saveReconciliation` at clock reading `now`: without a date or a
        cashier nothing happens; otherwise the figures are put first in
        the history and the form is reset. */
    method SaveReconciliation(now: int) returns (saved: bool)
      requires Valid()
      modifies this
      ensures Valid()
      ensures saved <==> old(date) != "" && old(cashier) != ""
      ensures !saved ==> date == old(date) && cashier == old(cashier) && openingBalance == old(openingBalance)
                         && receipts == old(receipts) && payments == old(payments) && remarks == old(remarks)
                         && denoms == old(denoms) && reconciliations == old(reconciliations)
      ensures saved ==>
        var closing := SystemClosing(old(openingBalance), old(receipts), old(payments));
        var physical := PhysicalTotal(old(denoms));
        reconciliations == [Reconciliation(now, old(date), old(cashier), closing, physical,
                                           physical as real - closing, StatusOf(physical as real - closing),
                                           old(remarks))] + old(reconciliations)
        && IsReset()
    {
      if date == "" || cashier == "" {
        return false;
      }
      var closing := Closing();
      var physical := PhysicalTotal(denoms);
      var difference := physical as real - closing;
      var item := Reconciliation(now, date, cashier, closing, physical, difference, StatusOf(difference), remarks);
      reconciliations := [item] + reconciliations;
      ResetForm();
      saved := true;
    }
  }

  /** A saved record's status says whether the counted cash matches the
      book: Balanced exactly when they are equal, Short when less cash was
      counted. */
  lemma SavedStatusMeaning(r: Reconciliation)
    requires r.difference == r.physicalTotal as real - r.systemClosing && r.status == StatusOf(r.difference)
    ensures r.status == Balanced <==> r.physicalTotal as real == r.systemClosing
    ensures r.status == Short <==> (r.physicalTotal as real) < r.systemClosing
  {
  }

  /** After a reset no cash is counted, so the difference is minus the book
      closing of an empty form, which is zero: Balanced. */
  lemma ResetIsBalanced()
    ensures PhysicalTotal(Initial) == 0
    ensures StatusOf(PhysicalTotal(Initial) as real - SystemClosing(Blank, Blank, Blank)) == Balanced
  {
    EmptyCountsTotalZero(Initial);
  }
}
