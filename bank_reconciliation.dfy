/** The bank reconciliation page
    (client/src/pages/accounting/BankReconciliation.jsx): book and statement
    closing balances with their difference and status, the book and bank
    entries with their unreconciled totals, and the saved history. The
    clock reading used as an id is a parameter. */
module BankReconciliation {
  import opened Seqs
  import opened JsNumber

  /** A line of the book or of the bank statement. */
  datatype Entry = Entry(id: int, date: string, refNo: string, description: string,
                         debit: real, credit: real, reconciled: bool)

  /** What an entry adds to its side: debit - credit. */
  function Net(e: Entry): real { e.debit - e.credit }

  predicate Open(e: Entry) { !e.reconciled }

  /** Σ(debit - credit) over the entries not marked reconciled. */
  function Unreconciled(entries: seq<Entry>): real
  {
    Sum(Filter(entries, Open), Net)
  }

  /** The unreconciled total of two lists put together is the sum of theirs. */
  lemma UnreconciledAppend(a: seq<Entry>, b: seq<Entry>)
    ensures Unreconciled(a + b) == Unreconciled(a) + Unreconciled(b)
  {
    FilterAppend(a, b, Open);
    SumAppend(Filter(a, Open), Filter(b, Open), Net);
  }

  /** One entry counts its net amount exactly when it is open. */
  lemma UnreconciledSingle(e: Entry)
    ensures Unreconciled([e]) == if Open(e) then Net(e) else 0.0
  {
    assert [e][..0] == [];
    if Open(e) {
      SumSingleton(e, Net);
    }
  }

  /** The total of all entries is the unreconciled total plus the total of
      the reconciled ones. */
  lemma UnreconciledPlusReconciled(entries: seq<Entry>)
    ensures Sum(entries, Net) == Unreconciled(entries) + Sum(Filter(entries, (e: Entry) => e.reconciled), Net)
  {
    SumSplitByComplement(entries, Open, (e: Entry) => e.reconciled, Net);
  }

  /** A toggle: every entry with that id has its mark flipped. */
  function Toggle(entries: seq<Entry>, id: int): (r: seq<Entry>)
    ensures |r| == |entries|
    ensures forall i {:trigger r[i]} :: 0 <= i < |entries| ==>
              r[i] == if entries[i].id == id then entries[i].(reconciled := !entries[i].reconciled) else entries[i]
  {
    if entries == [] then []
    else
      var last := entries[|entries| - 1];
      Toggle(entries[..|entries| - 1], id) + [if last.id == id then last.(reconciled := !last.reconciled) else last]
  }

  /** Toggling twice restores the list. */
  lemma ToggleTwice(entries: seq<Entry>, id: int)
    ensures Toggle(Toggle(entries, id), id) == entries
  {
  }

  predicate UniqueIds(entries: seq<Entry>)
  {
    forall i, j :: 0 <= i < j < |entries| ==> entries[i].id != entries[j].id
  }

  /** A toggle of an id no entry has changes nothing. */
  lemma ToggleAbsent(entries: seq<Entry>, id: int)
    requires forall i :: 0 <= i < |entries| ==> entries[i].id != id
    ensures Toggle(entries, id) == entries
  {
  }

  /** A toggle acts on each part of a list on its own. */
  lemma ToggleAppend(a: seq<Entry>, b: seq<Entry>, id: int)
    ensures Toggle(a + b, id) == Toggle(a, id) + Toggle(b, id)
  {
    var l, r := Toggle(a + b, id), Toggle(a, id) + Toggle(b, id);
    forall i | 0 <= i < |l| ensures l[i] == r[i] {
      if i < |a| {
        assert (a + b)[i] == a[i] && r[i] == Toggle(a, id)[i];
      } else {
        assert (a + b)[i] == b[i - |a|] && r[i] == Toggle(b, id)[i - |a|];
      }
    }
  }

  /** With distinct ids, marking an open entry reconciled removes its net
      amount from the unreconciled total, and unmarking adds it back. */
  lemma ToggleUnreconciled(entries: seq<Entry>, id: int, k: nat)
    requires UniqueIds(entries) && k < |entries| && entries[k].id == id
    ensures Unreconciled(Toggle(entries, id))
            == Unreconciled(entries) + (if Open(entries[k]) then -Net(entries[k]) else Net(entries[k]))
  {
    var pre, x, post := entries[..k], entries[k], entries[k + 1..];
    var x' := x.(reconciled := !x.reconciled);
    assert entries == pre + [x] + post;
    assert Toggle(entries, id) == pre + [x'] + post by {
      assert Toggle(pre, id) == pre by {
        forall i | 0 <= i < |pre| ensures pre[i].id != id {
          assert pre[i] == entries[i];
        }
        ToggleAbsent(pre, id);
      }
      assert Toggle(post, id) == post by {
        forall i | 0 <= i < |post| ensures post[i].id != id {
          assert post[i] == entries[k + 1 + i];
        }
        ToggleAbsent(post, id);
      }
      ToggleAppend(pre + [x], post, id);
      ToggleAppend(pre, [x], id);
    }
    assert Unreconciled(entries) == Unreconciled(pre) + Unreconciled([x]) + Unreconciled(post) by {
      UnreconciledAppend(pre + [x], post);
      UnreconciledAppend(pre, [x]);
    }
    assert Unreconciled(pre + [x'] + post) == Unreconciled(pre) + Unreconciled([x']) + Unreconciled(post) by {
      UnreconciledAppend(pre + [x'], post);
      UnreconciledAppend(pre, [x']);
    }
    UnreconciledSingle(x);
    UnreconciledSingle(x');
  }

  datatype Status = Balanced | MoreInBooks | MoreInBank

  /** "More in Books" above zero, "More in Bank" below, else "Balanced". */
  function StatusOf(difference: real): (s: Status)
    ensures s == MoreInBooks <==> difference > 0.0
    ensures s == MoreInBank <==> difference < 0.0
    ensures s == Balanced <==> difference == 0.0
  {
    var s := Balanced;
    var s := if difference > 0.0 then MoreInBooks else s;
    if difference < 0.0 then MoreInBank else s
  }

  /** The bank accounts the page offers: `BANK_ACCOUNTS.find` by
      `Number(bankAccountId)`, "" when none matches. */
  function BankAccountName(id: Num): string
  {
    if id == Fin(1.0) then "Main Bank Account - 001"
    else if id == Fin(2.0) then "Payroll Account - 002"
    else if id == Fin(3.0) then "Collection Account - 003"
    else ""
  }

  /** The book entries the page starts with. */
  const SampleBookEntries: seq<Entry> := [
    Entry(1, "2025-11-20", "PV-0012", "Cheque issued to Supplier A", 0.0, 15000.0, true),
    Entry(2, "2025-11-22", "RV-0045", "Customer receipt \U{2013} Invoice #INV-1001", 20000.0, 0.0, false),
    Entry(3, "2025-11-24", "PV-0013", "Office rent payment", 0.0, 12000.0, false)]

  /** A saved reconciliation. */
  datatype Record = Record(id: int, asOfDate: string, bankAccountName: string, preparedBy: string,
                           bookClosing: real, statementClosing: real, difference: real,
                           status: Status, remarks: string)

  class BankReconciler {
    // The summary form.
    var bankAccountId: Num
    var periodFrom: string
    var periodTo: string
    var asOfDate: string
    var bookClosing: Input
    var statementClosing: Input
    var preparedBy: string
    var remarks: string
    // The two tables.
    var bookEntries: seq<Entry>
    var bankEntries: seq<Entry>
    // The statement line form.
    var lineDate: string
    var lineRefNo: string
    var lineDescription: string
    var lineDebit: Input
    var lineCredit: Input
    var history: seq<Record>

    /** `difference` = book closing - statement closing, empty or
        unreadable fields read as 0. */
    function Difference(): real
      reads this
    {
      AmountOf(bookClosing) - AmountOf(statementClosing)
    }

    /** `netUnreconciledImpact`. */
    function NetImpact(): real
      reads this
    {
      Unreconciled(bookEntries) - Unreconciled(bankEntries)
    }

    predicate LineFormEmpty()
      reads this
    {
      lineDate == "" && lineRefNo == "" && lineDescription == "" && lineDebit == Blank && lineCredit == Blank
    }

    constructor ()
      ensures bankAccountId == Fin(1.0) && periodFrom == "" && periodTo == "" && asOfDate == ""
      ensures bookClosing == Blank && statementClosing == Blank && preparedBy == "" && remarks == ""
      ensures bookEntries == SampleBookEntries && bankEntries == [] && LineFormEmpty() && history == []
    {
      bankAccountId, periodFrom, periodTo, asOfDate := Fin(1.0), "", "", "";
      bookClosing, statementClosing, preparedBy, remarks := Blank, Blank, "", "";
      bookEntries, bankEntries := SampleBookEntries, [];
      lineDate, lineRefNo, lineDescription, lineDebit, lineCredit := "", "", "", Blank, Blank;
      history := [];
    }

    /** `addBankEntry` at clock reading `now`: needs a date, a reference and
        a debit or credit other than 0; appends one unreconciled entry and
        clears the line form. */
    method AddBankEntry(now: int) returns (added: bool)
      modifies this`bankEntries, this`lineDate, this`lineRefNo, this`lineDescription, this`lineDebit, this`lineCredit
      ensures added <==> old(lineDate) != "" && old(lineRefNo) != ""
                         && (AmountOf(old(lineDebit)) != 0.0 || AmountOf(old(lineCredit)) != 0.0)
      ensures added ==> bankEntries == old(bankEntries) + [Entry(now, old(lineDate), old(lineRefNo), old(lineDescription),
                                                               AmountOf(old(lineDebit)), AmountOf(old(lineCredit)), false)]
                        && LineFormEmpty()
      ensures !added ==> bankEntries == old(bankEntries) && lineDate == old(lineDate) && lineRefNo == old(lineRefNo)
                         && lineDescription == old(lineDescription) && lineDebit == old(lineDebit)
                         && lineCredit == old(lineCredit)
    {
      if lineDate == "" || lineRefNo == "" {
        return false;
      }
      var debit := AmountOf(lineDebit);
      var credit := AmountOf(lineCredit);
      if debit == 0.0 && credit == 0.0 {
        return false;
      }
      bankEntries := bankEntries + [Entry(now, lineDate, lineRefNo, lineDescription, debit, credit, false)];
      lineDate, lineRefNo, lineDescription, lineDebit, lineCredit := "", "", "", Blank, Blank;
      added := true;
    }

    /** `toggleBookReconciled(id)`. */
    method ToggleBookReconciled(id: int)
      modifies this`bookEntries
      ensures bookEntries == Toggle(old(bookEntries), id)
    {
      bookEntries := Toggle(bookEntries, id);
    }

    /** `toggleBankReconciled(id)`. */
    method ToggleBankReconciled(id: int)
      modifies this`bankEntries
      ensures bankEntries == Toggle(old(bankEntries), id)
    {
      bankEntries := Toggle(bankEntries, id);
    }

    /** `clearForm`: the summary figures go; the account and period stay. */
    method ClearForm()
      modifies this`asOfDate, this`bookClosing, this`statementClosing, this`preparedBy, this`remarks
      ensures asOfDate == "" && bookClosing == Blank && statementClosing == Blank && preparedBy == "" && remarks == ""
    {
      asOfDate, bookClosing, statementClosing, preparedBy, remarks := "", Blank, Blank, "", "";
    }

    /** `saveReconciliation` at clock reading `now`: needs an as-of date and
        a preparer; puts the figures first in the history and clears the
        summary form. */
    method SaveReconciliation(now: int) returns (saved: bool)
      modifies this`history, this`asOfDate, this`bookClosing, this`statementClosing, this`preparedBy, this`remarks
      ensures saved <==> old(asOfDate) != "" && old(preparedBy) != ""
      ensures saved ==>
        var d := AmountOf(old(bookClosing)) - AmountOf(old(statementClosing));
        history == [Record(now, old(asOfDate), BankAccountName(bankAccountId), old(preparedBy),
                           AmountOf(old(bookClosing)), AmountOf(old(statementClosing)), d, StatusOf(d),
                           old(remarks))] + old(history)
        && asOfDate == "" && bookClosing == Blank && statementClosing == Blank && preparedBy == "" && remarks == ""
      ensures !saved ==> history == old(history) && asOfDate == old(asOfDate) && bookClosing == old(bookClosing)
                         && statementClosing == old(statementClosing) && preparedBy == old(preparedBy)
                         && remarks == old(remarks)
    {
      if asOfDate == "" || preparedBy == "" {
        return false;
      }
      var d := Difference();
      var item := Record(now, asOfDate, BankAccountName(bankAccountId), preparedBy,
                         AmountOf(bookClosing), AmountOf(statementClosing), d, StatusOf(d), remarks);
      history := [item] + history;
      ClearForm();
      saved := true;
    }
  }

  /** Of the sample book entries only the receipt and the rent payment are
      open: 20000 - 12000. */
  lemma SampleUnreconciled()
    ensures Unreconciled(SampleBookEntries) == 8000.0
  {
    var s := SampleBookEntries;
    assert s == [s[0]] + [s[1]] + [s[2]];
    UnreconciledAppend([s[0]] + [s[1]], [s[2]]);
    UnreconciledAppend([s[0]], [s[1]]);
    UnreconciledSingle(s[0]);
    UnreconciledSingle(s[1]);
    UnreconciledSingle(s[2]);
  }
}
