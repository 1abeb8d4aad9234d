/** The manual journal entry form (client/src/pages/accounting/ManualJournal.jsx):
    editable lines, running totals, the balance test and the checks made
    before the entry is posted. */
module ManualJournal {
  import opened JsNumber
  import opened Seqs
  import opened Wrappers

  /** One line of the form: account id, debit and credit fields, description. */
  datatype FormLine = FormLine(accountId: string, debit: Input, credit: Input, description: string)

  /** The line `addLine` appends and the form starts with. */
  function BlankLine(): FormLine { FormLine("", Blank, Blank, "") }

  /** What `updateLine` can set: one field and its new value. */
  datatype Field = AccountId(a: string) | Debit(d: Input) | Credit(c: Input) | Description(t: string)

  function SetField(l: FormLine, f: Field): FormLine
  {
    match f
    case AccountId(a) => l.(accountId := a)
    case Debit(d) => l.(debit := d)
    case Credit(c) => l.(credit := c)
    case Description(t) => l.(description := t)
  }

  /** `totalDebit` / `totalCredit`: `Number(x || 0)` summed over the lines. */
  function TotalDebit(lines: seq<FormLine>): Num { NumSum(lines, (l: FormLine) => ValueOf(l.debit)) }
  function TotalCredit(lines: seq<FormLine>): Num { NumSum(lines, (l: FormLine) => ValueOf(l.credit)) }

  /** `isBalanced`: the totals are equal (`===`, which NaN never is) and
      the debit total is positive. */
  function IsBalanced(lines: seq<FormLine>): (b: bool)
    ensures b <==> (forall l :: l in lines ==> ValueOf(l.debit).Fin? && ValueOf(l.credit).Fin?)
                   && TotalDebit(lines) == TotalCredit(lines) && TotalDebit(lines).v > 0.0
  {
    var d := TotalDebit(lines);
    var c := TotalCredit(lines);
    d.Fin? && c.Fin? && d.v == c.v && d.v > 0.0
  }

  /** A form of blank lines is never balanced: both totals are 0. */
  lemma {:induction false} BlankFormNotBalanced(lines: seq<FormLine>)
    requires forall l :: l in lines ==> l.debit.Blank? && l.credit.Blank?
    ensures TotalDebit(lines) == Fin(0.0) && TotalCredit(lines) == Fin(0.0)
    ensures !IsBalanced(lines)
  {
    if lines != [] {
      var init := lines[..|lines| - 1];
      assert forall l :: l in init ==> l in lines;
      BlankFormNotBalanced(init);
    }
  }

  /** A line as it is posted: `l.debit ? Number(l.debit) : 0`. */
  datatype PostedLine = PostedLine(accountId: string, debit: Num, credit: Num, description: string)

  function Cleaned(l: FormLine): PostedLine
  {
    PostedLine(l.accountId, ValueOf(l.debit), ValueOf(l.credit), l.description)
  }

  function CleanedLines(lines: seq<FormLine>): (r: seq<PostedLine>)
    ensures |r| == |lines|
    ensures forall i {:trigger r[i]} :: 0 <= i < |lines| ==> r[i] == Cleaned(lines[i])
  {
    if lines == [] then [] else CleanedLines(lines[..|lines| - 1]) + [Cleaned(lines[|lines| - 1])]
  }

  datatype Problem = NoAccount | BothSides | NeitherSide

  predicate Positive(n: Num) { n.Fin? && n.v > 0.0 }
  predicate IsZero(n: Num) { n.Fin? && n.v == 0.0 }

  /** What is wrong with one posted line, checked in the source's order. */
  function ProblemOf(l: PostedLine): (p: Option<Problem>)
    ensures p.None? <==> l.accountId != [] && !(Positive(l.debit) && Positive(l.credit))
                         && !(IsZero(l.debit) && IsZero(l.credit))
  {
    if l.accountId == [] then Some(NoAccount)
    else if Positive(l.debit) && Positive(l.credit) then Some(BothSides)
    else if IsZero(l.debit) && IsZero(l.credit) then Some(NeitherSide)
    else None
  }

  /** The validation loop of `submitJournal`: the first offending line, if any. */
  method FirstProblem(cleaned: seq<PostedLine>) returns (r: Option<(nat, Problem)>)
    ensures r.Some? ==> r.value.0 < |cleaned| && ProblemOf(cleaned[r.value.0]) == Some(r.value.1)
    ensures r.Some? ==> forall j :: 0 <= j < r.value.0 ==> ProblemOf(cleaned[j]).None?
    ensures r.None? <==> forall j :: 0 <= j < |cleaned| ==> ProblemOf(cleaned[j]).None?
  {
    var i := 0;
    while i < |cleaned|
      invariant 0 <= i <= |cleaned|
      invariant forall j :: 0 <= j < i ==> ProblemOf(cleaned[j]).None?
    {
      var l := cleaned[i];
      if l.accountId == [] {
        return Some((i, NoAccount));
      }
      if Positive(l.debit) && Positive(l.credit) {
        return Some((i, BothSides));
      }
      if IsZero(l.debit) && IsZero(l.credit) {
        return Some((i, NeitherSide));
      }
      i := i + 1;
    }
    return None;
  }

  /** What `submitJournal` ends in. */
  datatype Outcome = NotBalanced | BadLine(index: nat, problem: Problem) | Posted | PostFailed

  /** A journal the form sends to the server. */
  datatype Submission = Submission(date: string, reference: string, description: string, lines: seq<PostedLine>)

  /** The form's state. */
  class JournalForm {
    var lines: seq<FormLine>
    var date: string
    var reference: string
    var description: string
    var sent: seq<Submission>

    /** The form opens with one blank line and empty header fields. */
    constructor ()
      ensures lines == [BlankLine()] && date == "" && reference == "" && description == "" && sent == []
    {
      lines := [BlankLine()];
      date, reference, description := "", "", "";
      sent := [];
    }

    /** `addLine`: one blank line more at the end. */
    method AddLine()
      modifies this`lines
      ensures lines == old(lines) + [BlankLine()]
    {
      lines := lines + [BlankLine()];
    }

    /** `removeLine`: exactly line i goes, the rest keep their order. */
    method RemoveLine(i: nat)
      modifies this`lines
      ensures lines == RemoveAt(old(lines), i)
    {
      lines := WithoutIndex(lines, i);
    }

    /** `updateLine`: one field of one line changes. */
    method UpdateLine(i: nat, f: Field)
      requires i < |lines|
      modifies this`lines
      ensures |lines| == |old(lines)|
      ensures lines[i] == SetField(old(lines)[i], f)
      ensures forall j :: 0 <= j < |lines| && j != i ==> lines[j] == old(lines)[j]
    {
      lines := lines[i := SetField(lines[i], f)];
    }

    /** `submitJournal`. Nothing happens unless the journal is balanced and
        every line passes; then the entry is sent, and the form is cleared
        only when the server accepts it (`accepted`): a rejected post throws
        before the reset. */
    method Submit(accepted: bool) returns (r: Outcome)
      modifies this
      ensures r == NotBalanced <==> !IsBalanced(old(lines))
      ensures r.BadLine? <==> IsBalanced(old(lines))
                              && exists j :: 0 <= j < |old(lines)| && ProblemOf(Cleaned(old(lines)[j])).Some?
      ensures r != Posted ==> lines == old(lines) && date == old(date) && reference == old(reference)
                              && description == old(description)
      ensures (r == NotBalanced || r.BadLine?) ==> sent == old(sent)
      ensures r.BadLine? ==> r.index < |old(lines)|
                             && ProblemOf(Cleaned(old(lines)[r.index])) == Some(r.problem)
                             && forall j :: 0 <= j < r.index ==> ProblemOf(Cleaned(old(lines)[j])).None?
      ensures (r == Posted || r == PostFailed) <==>
                IsBalanced(old(lines)) && forall j :: 0 <= j < |old(lines)| ==> ProblemOf(Cleaned(old(lines)[j])).None?
      ensures (r == Posted || r == PostFailed) ==> (r == Posted <==> accepted)
      ensures (r == Posted || r == PostFailed) ==>
        sent == old(sent) + [Submission(old(date), old(reference), old(description), CleanedLines(old(lines)))]
      ensures r == Posted ==> lines == [BlankLine()] && date == "" && reference == "" && description == ""
    {
      if !IsBalanced(lines) {
        return NotBalanced;
      }
      var cleaned := CleanedLines(lines);
      assert forall j :: 0 <= j < |lines| ==> cleaned[j] == Cleaned(lines[j]);
      var bad := FirstProblem(cleaned);
      if bad.Some? {
        return BadLine(bad.value.0, bad.value.1);
      }
      sent := sent + [Submission(date, reference, description, cleaned)];
      if !accepted {
        return PostFailed;
      }
      date, reference, description := "", "", "";
      lines := [BlankLine()];
      r := Posted;
    }
  }

  /** `lines.filter((_, i) => i !== index)`. */
  function WithoutIndex(lines: seq<FormLine>, index: nat): (r: seq<FormLine>)
    ensures r == RemoveAt(lines, index)
  {
    if lines == [] then []
    else
      var init := WithoutIndex(lines[..|lines| - 1], index);
      RemoveAtSnoc(lines, index);
      if |lines| - 1 == index then init else init + [lines[|lines| - 1]]
  }

  /** Removing the line just added restores the form. */
  lemma RemoveAddedLine(lines: seq<FormLine>)
    ensures RemoveAt(lines + [BlankLine()], |lines|) == lines
  {
    assert (lines + [BlankLine()])[..|lines|] == lines;
  }

  /** The posted debits and credits have the form's totals. */
  lemma {:induction false} PostedTotals(lines: seq<FormLine>)
    ensures NumSum(CleanedLines(lines), (p: PostedLine) => p.debit) == TotalDebit(lines)
    ensures NumSum(CleanedLines(lines), (p: PostedLine) => p.credit) == TotalCredit(lines)
  {
    if lines != [] {
      var c := CleanedLines(lines);
      assert c[..|c| - 1] == CleanedLines(lines[..|lines| - 1]);
      PostedTotals(lines[..|lines| - 1]);
    }
  }
}
