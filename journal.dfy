/** Double-entry journal entries: the model's totals and validation
    (server/accounts/models.py) and the serializer that validates and
    stores a submitted entry (server/accounts/serializers.py). Amounts are
    Decimal with two places, held as integers in the smallest unit. */
module Journal {
  import opened Wrappers
  import opened Seqs

  /** A stored journal line: the entry it belongs to, its account and amounts. */
  datatype Line = Line(entry: nat, account: nat, debit: int, credit: int)

  /** A new line's debit and credit default to 0. */
  function NewLine(entry: nat, account: nat): (l: Line)
    ensures l.debit == 0 && l.credit == 0
    ensures l.entry == entry && l.account == account
  {
    Line(entry, account, 0, 0)
  }

  /** `total_debit` and `total_credit` over an entry's lines. */
  function TotalDebit(lines: seq<Line>): int { IntSum(lines, (l: Line) => l.debit) }
  function TotalCredit(lines: seq<Line>): int { IntSum(lines, (l: Line) => l.credit) }

  /** `JournalEntry.clean`. */
  function CleanEntry(lines: seq<Line>): (r: Outcome<string>)
    ensures r.Pass? <==> TotalDebit(lines) == TotalCredit(lines)
  {
    if TotalDebit(lines) != TotalCredit(lines) then Fail("Total Debit must equal Total Credit")
    else Pass
  }

  /** An entry with no lines is balanced: both totals are 0. */
  lemma EmptyEntryIsClean()
    ensures TotalDebit([]) == 0 && TotalCredit([]) == 0
    ensures CleanEntry([]).Pass?
  {
  }

  datatype LineError = BothSides | Negative

  /** `JournalEntryLine.clean`: the both-sides check comes first. */
  function CleanLine(l: Line): (r: Outcome<LineError>)
    ensures r.Pass? <==> l.debit >= 0 && l.credit >= 0 && (l.debit == 0 || l.credit == 0)
    ensures r == Fail(BothSides) <==> l.debit > 0 && l.credit > 0
  {
    if l.debit > 0 && l.credit > 0 then Fail(BothSides)
    else if l.debit < 0 || l.credit < 0 then Fail(Negative)
    else Pass
  }

  /** A line with no amount on either side is a valid line. */
  lemma ZeroLineIsClean(entry: nat, account: nat)
    ensures CleanLine(NewLine(entry, account)).Pass?
  {
  }

  /** When every line passes its own validation, both totals are
      non-negative, and a balanced entry moves the same amount each way. */
  lemma {:induction false} CleanLinesHaveNonNegativeTotals(lines: seq<Line>)
    requires forall l :: l in lines ==> CleanLine(l).Pass?
    ensures TotalDebit(lines) >= 0 && TotalCredit(lines) >= 0
  {
    if lines != [] {
      var init := lines[..|lines| - 1];
      assert forall l :: l in init ==> l in lines;
      CleanLinesHaveNonNegativeTotals(init);
      assert CleanLine(lines[|lines| - 1]).Pass?;
    }
  }

  // ---------------------------------------------------------------------
  // The serializer
  // ---------------------------------------------------------------------

  /** A submitted line; debit and credit may be absent. */
  datatype LineData = LineData(account: nat, debit: Option<int>, credit: Option<int>)

  /** A submitted entry. */
  datatype EntryData = EntryData(date: int, reference: Option<string>, description: Option<string>,
                                 lines: seq<LineData>)

  /** `line.get("debit", 0)` and `line.get("credit", 0)`. */
  function DebitOf(d: LineData): int { if d.debit.Some? then d.debit.value else 0 }
  function CreditOf(d: LineData): int { if d.credit.Some? then d.credit.value else 0 }

  function SubmittedDebit(ds: seq<LineData>): int { IntSum(ds, DebitOf) }
  function SubmittedCredit(ds: seq<LineData>): int { IntSum(ds, CreditOf) }

  /** `JournalEntrySerializer.validate`: the data comes back unchanged when
      the submitted sums agree, and is refused otherwise. Nothing else about
      the lines is looked at. */
  function Validate(data: EntryData): (r: Result<EntryData, string>)
    ensures r.Ok? <==> SubmittedDebit(data.lines) == SubmittedCredit(data.lines)
    ensures r.Ok? ==> r.value == data
  {
    if SubmittedDebit(data.lines) != SubmittedCredit(data.lines) then Err("Total Debit must equal Total Credit")
    else Ok(data)
  }

  /** Acceptance depends only on the sums: a line carrying both a debit and
      a credit, which the model's line validation refuses, passes the
      serializer when the sums match. */
  lemma ValidateIgnoresLineShape()
    ensures Validate(EntryData(0, None, None, [LineData(1, Some(500), Some(500))])).Ok?
    ensures CleanLine(Line(0, 1, 500, 500)) == Fail(BothSides)
  {
    var ds := [LineData(1, Some(500), Some(500))];
    assert ds[..0] == [];
  }

  /** The line row stored for a submitted line; absent amounts take the
      field defaults. */
  function ToLine(entry: nat, d: LineData): Line
  {
    Line(entry, d.account, DebitOf(d), CreditOf(d))
  }

  /** The rows stored for a list of submitted lines, in order. */
  function Stored(entry: nat, ds: seq<LineData>): (r: seq<Line>)
    ensures |r| == |ds|
    ensures forall i {:trigger r[i]} :: 0 <= i < |ds| ==> r[i] == ToLine(entry, ds[i])
  {
    if ds == [] then [] else Stored(entry, ds[..|ds| - 1]) + [ToLine(entry, ds[|ds| - 1])]
  }

  /** The stored lines have the totals the serializer checked. */
  lemma {:induction false} StoredTotals(entry: nat, ds: seq<LineData>)
    ensures TotalDebit(Stored(entry, ds)) == SubmittedDebit(ds)
    ensures TotalCredit(Stored(entry, ds)) == SubmittedCredit(ds)
  {
    if ds != [] {
      var s := Stored(entry, ds);
      assert s[..|s| - 1] == Stored(entry, ds[..|ds| - 1]);
      StoredTotals(entry, ds[..|ds| - 1]);
    }
  }

  /** An entry the serializer accepts is one the model's `clean` accepts,
      and the other way round. */
  lemma ValidateAgreesWithClean(entry: nat, data: EntryData)
    ensures Validate(data).Ok? <==> CleanEntry(Stored(entry, data.lines)).Pass?
  {
    StoredTotals(entry, data.lines);
  }

  /** Stored rows of one entry are appended one at a time. */
  lemma StoredSnoc(entry: nat, ds: seq<LineData>, i: nat)
    requires i < |ds|
    ensures Stored(entry, ds[..i + 1]) == Stored(entry, ds[..i]) + [ToLine(entry, ds[i])]
  {
    assert ds[..i + 1][..i] == ds[..i];
  }

  function OfEntry(entry: nat): Line -> bool
  {
    (l: Line) => l.entry == entry
  }

  /** The rows of a new entry, added after rows of other entries, are
      exactly what a lookup of that entry finds. */
  lemma LookupNewEntry(before: seq<Line>, entry: nat, ds: seq<LineData>)
    requires forall l :: l in before ==> l.entry != entry
    ensures Filter(before + Stored(entry, ds), OfEntry(entry)) == Stored(entry, ds)
  {
    var s := Stored(entry, ds);
    FilterNone(before, OfEntry(entry));
    assert forall l :: l in s ==> l.entry == entry;
    FilterAll(s, OfEntry(entry));
    FilterAppend(before, s, OfEntry(entry));
  }

  /** A journal header. */
  datatype Header = Header(date: int, reference: Option<string>, description: Option<string>)

  /** The journal entry and journal line tables. */
  class JournalStore {
    var headers: map<nat, Header>
    var lines: seq<Line>

    /** Every line belongs to a stored header. */
    ghost predicate Valid()
      reads this
    {
      forall l :: l in lines ==> l.entry in headers
    }

    constructor ()
      ensures Valid() && headers == map[] && lines == []
    {
      headers := map[];
      lines := [];
    }

    /** `self.lines.all()` for one entry. */
    function LinesOf(entry: nat): seq<Line>
      reads this
    {
      Filter(lines, OfEntry(entry))
    }

    /** `get_total_debit` / `get_total_credit`: the model's totals over the
        entry's stored lines. */
    function GetTotalDebit(entry: nat): int
      reads this
    {
      TotalDebit(LinesOf(entry))
    }

    function GetTotalCredit(entry: nat): int
      reads this
    {
      TotalCredit(LinesOf(entry))
    }

    /** `JournalEntrySerializer.create`: the header is stored under a new
        id, then one line per submitted line, each linked to that header. */
    method Create(data: EntryData, id: nat) returns (journal: nat)
      requires Valid() && id !in headers
      modifies this
      ensures Valid()
      ensures journal == id
      ensures headers == old(headers)[id := Header(data.date, data.reference, data.description)]
      ensures lines == old(lines) + Stored(id, data.lines)
      ensures LinesOf(id) == Stored(id, data.lines)
      ensures GetTotalDebit(id) == SubmittedDebit(data.lines)
      ensures GetTotalCredit(id) == SubmittedCredit(data.lines)
    {
      headers := headers[id := Header(data.date, data.reference, data.description)];
      var i := 0;
      while i < |data.lines|
        invariant 0 <= i <= |data.lines|
        invariant Valid() && headers == old(headers)[id := Header(data.date, data.reference, data.description)]
        invariant lines == old(lines) + Stored(id, data.lines[..i])
      {
        StoredSnoc(id, data.lines, i);
        lines := lines + [ToLine(id, data.lines[i])];
        i := i + 1;
      }
      assert data.lines[..i] == data.lines;
      journal := id;
      LookupNewEntry(old(lines), id, data.lines);
      StoredTotals(id, data.lines);
    }
  }
}
