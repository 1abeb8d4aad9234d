/** One field of a comma-separated file as section 2 of RFC 4180 describes
    it: rule 6 encloses a field holding a line break, a double quote or a
    comma in double quotes, and rule 7 writes a double quote inside such a
    field as two double quotes. The expense pages write fields this way;
    `ParseField` reads one back. */
module Csv {
  import opened Wrappers

  const Quote: char := '"'

  /** `.replace(/"/g, '""')`: every double quote written twice. */
  function DoubleQuotes(s: string): (r: string)
    ensures |r| >= |s|
  {
    if s == [] then []
    else (if s[0] == Quote then [Quote, Quote] else [s[0]]) + DoubleQuotes(s[1..])
  }

  /** `"` + content + `"`, the content's quotes doubled. */
  function Enclose(s: string): (r: string)
    ensures |r| >= 2 && r[0] == Quote && r[|r| - 1] == Quote
  {
    [Quote] + DoubleQuotes(s) + [Quote]
  }

  /** The inside of an enclosed field is well formed when its double quotes
      come in adjacent pairs. */
  predicate PairedQuotes(t: string)
    decreases |t|
  {
    if t == [] then true
    else if t[0] == Quote then |t| >= 2 && t[1] == Quote && PairedQuotes(t[2..])
    else PairedQuotes(t[1..])
  }

  /** The inside of an enclosed field with each pair of quotes read as one. */
  function Undouble(t: string): string
    decreases |t|
  {
    if t == [] then []
    else if |t| >= 2 && t[0] == Quote && t[1] == Quote then [Quote] + Undouble(t[2..])
    else [t[0]] + Undouble(t[1..])
  }

  /** A character that forces a field to be enclosed. */
  predicate IsSpecial(c: char) { c == Quote || c == ',' || c == '\n' }

  /** Reads one field: either enclosed in quotes with paired quotes inside,
      or bare and free of quotes, commas and line feeds. */
  function ParseField(f: string): Option<string>
  {
    if |f| >= 2 && f[0] == Quote && f[|f| - 1] == Quote then
      (if PairedQuotes(f[1..|f| - 1]) then Some(Undouble(f[1..|f| - 1])) else None)
    else if exists i :: 0 <= i < |f| && IsSpecial(f[i]) then None
    else Some(f)
  }

  lemma {:induction false} DoubleQuotesPaired(s: string)
    ensures PairedQuotes(DoubleQuotes(s))
    ensures Undouble(DoubleQuotes(s)) == s
  {
    if s != [] {
      DoubleQuotesPaired(s[1..]);
      var d := DoubleQuotes(s[1..]);
      if s[0] == Quote {
        assert DoubleQuotes(s) == [Quote, Quote] + d;
        assert (([Quote, Quote] + d)[2..]) == d;
      } else {
        assert DoubleQuotes(s) == [s[0]] + d;
        assert ([s[0]] + d)[1..] == d;
      }
    }
  }

  /** Reading an enclosed field gives back exactly what was written. */
  lemma EncloseRoundTrip(s: string)
    ensures ParseField(Enclose(s)) == Some(s)
  {
    var e := Enclose(s);
    assert e[1..|e| - 1] == DoubleQuotes(s);
    DoubleQuotesPaired(s);
  }

  /** A bare field without special characters reads back as itself. */
  lemma BareRoundTrip(s: string)
    requires forall i :: 0 <= i < |s| ==> !IsSpecial(s[i])
    ensures ParseField(s) == Some(s)
  {
    if |s| >= 2 {
      assert !IsSpecial(s[0]);
    }
  }
}
