/** The general expense page (client/src/pages/expenses/Expense.jsx): the
    entry form, the list filter, the total of the filtered rows and the CSV
    export. `parseFloat` is a parameter `pf`, since string-to-number
    parsing is not modelled. */
module Expense {
  import opened Wrappers
  import opened Text
  import opened Seqs
  import opened JsNumber
  import opened Csv

  /** A listed expense. Ids may be null; a missing name or note is "". */
  datatype ExpenseRow = ExpenseRow(
    costCategory: Option<nat>, costCategoryName: string, amount: Option<string>,
    expenseDate: Option<string>, paymentMode: Option<nat>, paymentModeName: string,
    bankAccountName: string, note: string, recordedBy: string)

  /** `String(id)`: the digits of the id, or "null". */
  function IdText(id: Option<nat>): (t: string)
    ensures id.Some? ==> t != "" && AllDigits(t)
    ensures id.None? ==> t == "null"
  {
    if id.Some? then NatToString(id.value) else "null"
  }

  /** An id filter set to the digits of `n` matches exactly the rows whose
      id is `n`. */
  lemma IdTextMatches(id: Option<nat>, n: nat)
    ensures IdText(id) == NatToString(n) <==> id == Some(n)
  {
    if id.None? {
      assert !IsDigit(IdText(id)[0]);
    }
  }

  /** The text the search box looks in: five fields joined by spaces. */
  function SearchText(e: ExpenseRow): string
  {
    e.costCategoryName + " " + e.recordedBy + " " + e.note + " " + e.paymentModeName + " " + e.bankAccountName
  }

  /** The filter settings; "" leaves a filter off. */
  datatype Filters = Filters(search: string, category: string, paymentMode: string,
                             dateFrom: string, dateTo: string)

  predicate MatchesSearch(e: ExpenseRow, search: string)
  {
    Trim(search) == "" || Contains(ToLower(SearchText(e)), ToLower(search))
  }

  /** `e.expense_date < filterDateFrom` is false for a null date. */
  predicate MatchesFrom(e: ExpenseRow, from: string)
  {
    from == "" || !(e.expenseDate.Some? && Less(e.expenseDate.value, from))
  }

  predicate MatchesTo(e: ExpenseRow, to: string)
  {
    to == "" || !(e.expenseDate.Some? && Less(to, e.expenseDate.value))
  }

  /** The callback of `filteredExpenses`. */
  predicate Keep(e: ExpenseRow, f: Filters)
  {
    MatchesSearch(e, f.search)
    && (f.category == "" || IdText(e.costCategory) == f.category)
    && (f.paymentMode == "" || IdText(e.paymentMode) == f.paymentMode)
    && MatchesFrom(e, f.dateFrom) && MatchesTo(e, f.dateTo)
  }

  function FilteredExpenses(expenses: seq<ExpenseRow>, f: Filters): (r: seq<ExpenseRow>)
    ensures forall e :: e in r <==> e in expenses && Keep(e, f)
  {
    Filter(expenses, e => Keep(e, f))
  }

  /** With a category filter set to the digits of an id, a row is kept
      only if it has that category; and a row of that category is kept
      when the other filters let it through. */
  lemma CategoryFilterById(expenses: seq<ExpenseRow>, f: Filters, n: nat)
    requires f.category == NatToString(n)
    ensures forall e :: e in FilteredExpenses(expenses, f) ==> e.costCategory == Some(n)
    ensures forall e :: (e in expenses && e.costCategory == Some(n) && Keep(e, f.(category := "")))
                        ==> e in FilteredExpenses(expenses, f)
  {
    forall e | e in FilteredExpenses(expenses, f) ensures e.costCategory == Some(n) {
      IdTextMatches(e.costCategory, n);
    }
    forall e | e in expenses && e.costCategory == Some(n) && Keep(e, f.(category := ""))
      ensures e in FilteredExpenses(expenses, f)
    {
      IdTextMatches(e.costCategory, n);
    }
  }

  /** A row with a date passes both date bounds exactly when the date lies
      in the inclusive range from..to (compared as strings). */
  lemma DateRangeInclusive(e: ExpenseRow, from: string, to: string)
    requires e.expenseDate.Some? && from != "" && to != ""
    ensures MatchesFrom(e, from) && MatchesTo(e, to)
            <==> LessOrEqual(from, e.expenseDate.value) && LessOrEqual(e.expenseDate.value, to)
  {
    NotLess(e.expenseDate.value, from);
    NotLess(to, e.expenseDate.value);
  }

  /** A row without a date is never dropped by the date bounds. */
  lemma MissingDateKept(e: ExpenseRow, from: string, to: string)
    requires e.expenseDate.None?
    ensures MatchesFrom(e, from) && MatchesTo(e, to)
  {
  }

  lemma {:induction false} ToLowerToUpper(s: string)
    ensures ToLower(ToUpper(s)) == ToLower(s)
  {
  }

  /** The search ignores letter case: searching for the upper-case form of
      a text keeps the same rows. */
  lemma SearchIgnoresCase(e: ExpenseRow, search: string)
    ensures MatchesSearch(e, ToUpper(search)) == MatchesSearch(e, search)
  {
    ToLowerToUpper(search);
    var u := ToUpper(search);
    assert forall i :: 0 <= i < |search| ==> (IsSpace(u[i]) <==> IsSpace(search[i]));
  }

  /** `safeNumber(e.amount)`: `parseFloat(v ?? 0)`, NaN read as 0. */
  function SafeNumber(amount: Option<string>, pf: string -> Num): real
  {
    if amount.None? then 0.0 else OrZero(pf(amount.value))
  }

  /** `totalAmount`. */
  function TotalAmount(expenses: seq<ExpenseRow>, f: Filters, pf: string -> Num): real
  {
    Sum(FilteredExpenses(expenses, f), (e: ExpenseRow) => SafeNumber(e.amount, pf))
  }

  /** The total of all rows is the total shown plus the total of the rows
      the filter hides. */
  lemma TotalSplitsByFilter(expenses: seq<ExpenseRow>, f: Filters, pf: string -> Num)
    ensures Sum(expenses, (e: ExpenseRow) => SafeNumber(e.amount, pf))
            == TotalAmount(expenses, f, pf) + Sum(Filter(expenses, e => !Keep(e, f)), (e: ExpenseRow) => SafeNumber(e.amount, pf))
  {
    SumSplitByComplement(expenses, e => Keep(e, f), e => !Keep(e, f), (e: ExpenseRow) => SafeNumber(e.amount, pf));
  }

  /** With every filter off the list and the total cover every row. */
  lemma NoFiltersKeepsAll(expenses: seq<ExpenseRow>, pf: string -> Num)
    ensures FilteredExpenses(expenses, Filters("", "", "", "", "")) == expenses
    ensures TotalAmount(expenses, Filters("", "", "", "", ""), pf) == Sum(expenses, (e: ExpenseRow) => SafeNumber(e.amount, pf))
  {
    FilterAll(expenses, e => Keep(e, Filters("", "", "", "", "")));
  }

  /** The export's column headings. */
  const Header: seq<string> := ["Date", "Category", "Amount", "Payment Method", "Bank Account", "Note", "Recorded By"]

  /** `String(x ?? "")`. */
  function OrEmpty(x: Option<string>): string { if x.Some? then x.value else "" }

  /** The seven exported values of a row, in the heading order. */
  function Fields(e: ExpenseRow): (r: seq<string>)
    ensures |r| == |Header|
  {
    [OrEmpty(e.expenseDate), e.costCategoryName, OrEmpty(e.amount), e.paymentModeName,
     e.bankAccountName, e.note, e.recordedBy]
  }

  /** Every value quoted, quotes doubled. */
  function EncloseAll(fields: seq<string>): (cells: seq<string>)
    ensures |cells| == |fields|
    ensures forall i :: 0 <= i < |cells| ==> |cells[i]| >= 2 && cells[i][0] == Quote
  {
    if fields == [] then [] else [Enclose(fields[0])] + EncloseAll(fields[1..])
  }

  /** Every cell reads back as the value it was made from. */
  lemma {:induction false} EncloseAllRoundTrip(fields: seq<string>)
    ensures forall i :: 0 <= i < |fields| ==> ParseField(EncloseAll(fields)[i]) == Some(fields[i])
  {
    if fields != [] {
      EncloseAllRoundTrip(fields[1..]);
      EncloseRoundTrip(fields[0]);
    }
  }

  /** The lines of the export: the headings, then one line per filtered row. */
  function CsvLines(expenses: seq<ExpenseRow>, f: Filters): (lines: seq<string>)
    ensures |lines| == 1 + |FilteredExpenses(expenses, f)|
  {
    [Join(EncloseAll(Header), ",")] + RowLines(FilteredExpenses(expenses, f))
  }

  function RowLines(rows: seq<ExpenseRow>): (lines: seq<string>)
    ensures |lines| == |rows|
    ensures forall i {:trigger lines[i]} :: 0 <= i < |rows| ==> lines[i] == Join(EncloseAll(Fields(rows[i])), ",")
  {
    if rows == [] then [] else [Join(EncloseAll(Fields(rows[0])), ",")] + RowLines(rows[1..])
  }

  /** `exportCSV`'s text. */
  function CsvText(expenses: seq<ExpenseRow>, f: Filters): string
  {
    Join(CsvLines(expenses, f), "\n")
  }

  /** A null value is exported as an empty quoted cell. */
  lemma NullExportsEmpty(e: ExpenseRow)
    requires e.amount.None?
    ensures EncloseAll(Fields(e))[2] == [Quote, Quote]
  {
    assert Fields(e)[2] == "";
    assert EncloseAll(Fields(e))[2] == Enclose(Fields(e)[2]) by {
      var fs := Fields(e);
      assert EncloseAll(fs) == [Enclose(fs[0])] + EncloseAll(fs[1..]);
      assert EncloseAll(fs[1..]) == [Enclose(fs[1])] + EncloseAll(fs[2..]);
      assert EncloseAll(fs[2..]) == [Enclose(fs[2])] + EncloseAll(fs[3..]);
    }
  }

  // ---------------------------------------------------------------------
  // The entry form
  // ---------------------------------------------------------------------

  datatype FieldName = CostCategoryField | AmountField | ExpenseDateField | PaymentModeField
                     | BankAccountField | NoteField | RecordedByField

  /** What `onSubmit` posts; an empty payment mode or bank account is sent
      as null, and so is a missing business id. */
  datatype Payload = Payload(costCategory: string, amount: string, expenseDate: string, note: string,
                             recordedBy: string, paymentMode: Option<string>, bankAccount: Option<string>,
                             businessCategory: Option<nat>)

  datatype SubmitResult = MissingRequired | MissingRecordedBy | Saved(payload: Payload) | SaveFailed(payload: Payload)

  /** `x || null` on a field. */
  function OrNull(x: string): (r: Option<string>)
    ensures r.None? <==> x == ""
  {
    if x == "" then None else Some(x)
  }

  class ExpenseForm {
    var costCategory: string
    var amount: string
    var expenseDate: string
    var paymentMode: string
    var bankAccount: string
    var note: string
    var recordedBy: string
    /** The payloads posted so far. */
    var posted: seq<Payload>

    /** `EMPTY_FORM`: every field "". */
    predicate IsEmpty()
      reads this
    {
      costCategory == "" && amount == "" && expenseDate == "" && paymentMode == ""
      && bankAccount == "" && note == "" && recordedBy == ""
    }

    constructor ()
      ensures IsEmpty() && posted == []
    {
      costCategory, amount, expenseDate, paymentMode := "", "", "", "";
      bankAccount, note, recordedBy := "", "", "";
      posted := [];
    }

    /** `onChange`: the named field takes the value, the rest stay. */
    method OnChange(field: FieldName, value: string)
      modifies this
      ensures costCategory == (if field == CostCategoryField then value else old(costCategory))
      ensures amount == (if field == AmountField then value else old(amount))
      ensures expenseDate == (if field == ExpenseDateField then value else old(expenseDate))
      ensures paymentMode == (if field == PaymentModeField then value else old(paymentMode))
      ensures bankAccount == (if field == BankAccountField then value else old(bankAccount))
      ensures note == (if field == NoteField then value else old(note))
      ensures recordedBy == (if field == RecordedByField then value else old(recordedBy))
      ensures posted == old(posted)
    {
      match field
      case CostCategoryField => costCategory := value;
      case AmountField => amount := value;
      case ExpenseDateField => expenseDate := value;
      case PaymentModeField => paymentMode := value;
      case BankAccountField => bankAccount := value;
      case NoteField => note := value;
      case RecordedByField => recordedBy := value;
    }

    /** `resetForm`. */
    method ResetForm()
      modifies this
      ensures IsEmpty() && posted == old(posted)
    {
      costCategory, amount, expenseDate, paymentMode := "", "", "", "";
      bankAccount, note, recordedBy := "", "", "";
    }

    /** `onSubmit` for the chosen business `business` (its id, 0 read as
        none); `accepted` is whether the server took the post. Refused
        without category, amount or date, then without recorded_by; a
        post the server accepts clears the form, a failed one keeps it. */
    method OnSubmit(business: Option<nat>, accepted: bool) returns (r: SubmitResult)
      modifies this
      ensures r == MissingRequired <==> old(costCategory) == "" || old(amount) == "" || old(expenseDate) == ""
      ensures r == MissingRecordedBy <==> old(costCategory) != "" && old(amount) != "" && old(expenseDate) != ""
                                          && old(recordedBy) == ""
      ensures r.Saved? || r.SaveFailed? ==>
        r.payload == Payload(old(costCategory), old(amount), old(expenseDate), old(note), old(recordedBy),
                             OrNull(old(paymentMode)), OrNull(old(bankAccount)),
                             if business.Some? && business.value != 0 then business else None)
        && r.payload.costCategory != "" && r.payload.amount != "" && r.payload.expenseDate != ""
        && r.payload.recordedBy != ""
        && posted == old(posted) + [r.payload]
        && (r.Saved? <==> accepted)
      ensures r.Saved? ==> IsEmpty()
      ensures !r.Saved? ==> costCategory == old(costCategory) && amount == old(amount)
                            && expenseDate == old(expenseDate) && paymentMode == old(paymentMode)
                            && bankAccount == old(bankAccount) && note == old(note) && recordedBy == old(recordedBy)
      ensures r == MissingRequired || r == MissingRecordedBy ==> posted == old(posted)
    {
      if costCategory == "" || amount == "" || expenseDate == "" {
        return MissingRequired;
      }
      if recordedBy == "" {
        return MissingRecordedBy;
      }
      var payload := Payload(costCategory, amount, expenseDate, note, recordedBy,
                             OrNull(paymentMode), OrNull(bankAccount),
                             if business.Some? && business.value != 0 then business else None);
      posted := posted + [payload];
      if accepted {
        ResetForm();
        r := Saved(payload);
      } else {
        r := SaveFailed(payload);
      }
    }
  }
}
