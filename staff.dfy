/** The staff form (client/src/pages/Staffs/AddStaff.jsx): the date-typing
    mask, the conversion between DD/MM/YYYY and YYYY-MM-DD, the remark, job
    and exam lists, the copied permanent address and the capitalisation of
    typed text. */
module AddStaff {
  import opened Text
  import opened Seqs

  // ---------------------------------------------------------------------
  // Date mask
  // ---------------------------------------------------------------------

  /** The digits of s, in order: `s.replace(/\D/g, "")`. */
  function DigitsIn(s: string): (d: string)
    ensures AllDigits(d) && |d| <= |s|
  {
    if s == [] then []
    else DigitsIn(s[..|s| - 1]) + (if IsDigit(s[|s| - 1]) then [s[|s| - 1]] else [])
  }

  lemma {:induction false} DigitsInAppend(a: string, b: string)
    ensures DigitsIn(a + b) == DigitsIn(a) + DigitsIn(b)
    decreases |b|
  {
    if b == [] {
      assert a + b == a;
    } else {
      var init := b[..|b| - 1];
      assert (a + b)[..|a + b| - 1] == a + init;
      DigitsInAppend(a, init);
    }
  }

  /** At most eight digits with the slashes of DD/MM/YYYY put in: the two
      regular-expression replacements, whose patterns always match a string
      of 3 to 8 digits. */
  function Slashed(d: string): string
    requires AllDigits(d) && |d| <= 8
  {
    if |d| > 4 then d[..2] + "/" + d[2..4] + "/" + d[4..]
    else if |d| > 2 then d[..2] + "/" + d[2..]
    else d
  }

  /** The first eight digits of the typed value. */
  function MaskDigits(value: string): (d: string)
    ensures AllDigits(d) && |d| <= 8
  {
    var d := DigitsIn(value);
    if |d| > 8 then d[..8] else d
  }

  /** What `handleDateInput` stores for a typed value. */
  function DateMask(value: string): string
  {
    Slashed(MaskDigits(value))
  }

  /** The mask holds at most 10 characters, with a slash exactly at
      position 2 once there are more than two digits and at position 5 once
      there are more than four, and nowhere else; two digits or fewer are
      left as they are. */
  lemma DateMaskShape(value: string)
    ensures var d := MaskDigits(value);
            var r := DateMask(value);
            |r| <= 10
            && (|d| <= 2 ==> r == d)
            && forall i :: 0 <= i < |r| ==> (r[i] == '/' <==> (i == 2 && |d| > 2) || (i == 5 && |d| > 4))
  {
    var d := MaskDigits(value);
    assert forall i :: 0 <= i < |d| ==> d[i] != '/';
  }

  lemma {:induction false} DigitsOfDigits(d: string)
    requires AllDigits(d)
    ensures DigitsIn(d) == d
  {
    if d != [] {
      DigitsOfDigits(d[..|d| - 1]);
    }
  }

  /** The slash between two pieces is dropped. */
  lemma DigitsAcrossSlash(a: string, b: string)
    ensures DigitsIn(a + "/" + b) == DigitsIn(a) + DigitsIn(b)
  {
    var s := a + "/";
    assert s[..|s| - 1] == a && s[|s| - 1] == '/';
    assert DigitsIn(s) == DigitsIn(a);
    DigitsInAppend(s, b);
  }

  /** The digits of d with slashes put in are d again. */
  lemma SlashedDigits(d: string)
    requires AllDigits(d) && |d| <= 8
    ensures DigitsIn(Slashed(d)) == d
  {
    if |d| > 4 {
      var x, y, z := d[..2], d[2..4], d[4..];
      DigitsAcrossSlash(x + "/" + y, z);
      DigitsAcrossSlash(x, y);
      DigitsOfDigits(x);
      DigitsOfDigits(y);
      DigitsOfDigits(z);
      assert x + y + z == d;
    } else if |d| > 2 {
      DigitsAcrossSlash(d[..2], d[2..]);
      DigitsOfDigits(d[..2]);
      DigitsOfDigits(d[2..]);
      assert d[..2] + d[2..] == d;
    } else {
      DigitsOfDigits(d);
    }
  }

  /** Removing the slashes again gives back the first eight typed digits. */
  lemma DateMaskDigits(value: string)
    ensures DigitsIn(DateMask(value)) == MaskDigits(value)
  {
    SlashedDigits(MaskDigits(value));
  }

  /** Typing the masked value again changes nothing. */
  lemma DateMaskIdempotent(value: string)
    ensures DateMask(DateMask(value)) == DateMask(value)
  {
    DateMaskDigits(value);
  }

  // ---------------------------------------------------------------------
  // Date conversion
  // ---------------------------------------------------------------------

  /** `formatDateShow`: "YYYY-MM-DD" to "DD/MM/YYYY"; an empty value stays
      empty. */
  function FormatDateShow(s: string): string
  {
    if s == "" then ""
    else
      var p := Split(s, '-');
      Part(p, 2) + "/" + Part(p, 1) + "/" + Part(p, 0)
  }

  /** `formatDate`: "DD/MM/YYYY" to "YYYY-MM-DD"; an empty value stays empty. */
  function FormatDate(s: string): string
  {
    if s == "" then ""
    else
      var p := Split(s, '/');
      Part(p, 2) + "-" + Part(p, 1) + "-" + Part(p, 0)
  }

  /** A calendar date in the ISO 8601 form YYYY-MM-DD. */
  predicate IsIsoDate(s: string)
  {
    |s| == 10 && s[4] == '-' && s[7] == '-'
    && AllDigits(s[..4]) && AllDigits(s[5..7]) && AllDigits(s[8..])
  }

  /** A date as the form shows it, DD/MM/YYYY. */
  predicate IsShownDate(s: string)
  {
    |s| == 10 && s[2] == '/' && s[5] == '/'
    && AllDigits(s[..2]) && AllDigits(s[3..5]) && AllDigits(s[6..])
  }

  lemma JoinThree(a: string, b: string, c: string, sep: char)
    ensures Join([a, b, c], [sep]) == a + [sep] + b + [sep] + c
  {
    assert [a, b, c][1..] == [b, c];
    assert [b, c][1..] == [c];
    assert Join([c], [sep]) == c;
    assert Join([b, c], [sep]) == b + [sep] + c;
  }

  /** Three fields without either separator, joined by `sep`, split back
      into the same three fields. */
  lemma SplitThree(a: string, b: string, c: string, sep: char)
    requires AllDigits(a) && AllDigits(b) && AllDigits(c) && !IsDigit(sep)
    ensures Split(a + [sep] + b + [sep] + c, sep) == [a, b, c]
  {
    assert sep !in a && sep !in b && sep !in c by {
      assert forall x :: x in a ==> IsDigit(x);
      assert forall x :: x in b ==> IsDigit(x);
      assert forall x :: x in c ==> IsDigit(x);
    }
    JoinThree(a, b, c, sep);
    SplitJoin([a, b, c], sep);
  }

  /** An ISO date is shown as DD/MM/YYYY, and converting back gives the
      same ISO date. */
  lemma FormatDateRoundTrip(s: string)
    requires IsIsoDate(s)
    ensures IsShownDate(FormatDateShow(s))
    ensures FormatDate(FormatDateShow(s)) == s
  {
    var y, m, d := s[..4], s[5..7], s[8..];
    assert s == y + "-" + m + "-" + d;
    SplitThree(y, m, d, '-');
    var shown := d + "/" + m + "/" + y;
    assert FormatDateShow(s) == shown;
    assert shown[..2] == d && shown[3..5] == m && shown[6..] == y;
    SplitThree(d, m, y, '/');
  }

  /** And the other way round for a shown date. */
  lemma FormatDateShowRoundTrip(t: string)
    requires IsShownDate(t)
    ensures IsIsoDate(FormatDate(t))
    ensures FormatDateShow(FormatDate(t)) == t
  {
    var d, m, y := t[..2], t[3..5], t[6..];
    assert t == d + "/" + m + "/" + y;
    SplitThree(d, m, y, '/');
    var iso := y + "-" + m + "-" + d;
    assert FormatDate(t) == iso;
    assert iso[..4] == y && iso[5..7] == m && iso[8..] == d;
    SplitThree(y, m, d, '-');
  }

  /** The mask leaves a complete shown date as it is. */
  lemma DateMaskKeepsShownDate(t: string)
    requires IsShownDate(t)
    ensures DateMask(t) == t
  {
    var d, m, y := t[..2], t[3..5], t[6..];
    var digits := d + m + y;
    assert DigitsIn(t) == digits by {
      assert t == d + "/" + m + "/" + y;
      DigitsAcrossSlash(d + "/" + m, y);
      DigitsAcrossSlash(d, m);
      DigitsOfDigits(d);
      DigitsOfDigits(m);
      DigitsOfDigits(y);
    }
    assert |digits| == 8;
    assert MaskDigits(t) == digits;
    assert digits[..2] == d && digits[2..4] == m && digits[4..] == y;
    assert Slashed(digits) == d + "/" + m + "/" + y;
    assert t == d + "/" + m + "/" + y;
  }

  // ---------------------------------------------------------------------
  // Numeric text and capitalisation
  // ---------------------------------------------------------------------

  predicate IsHexDigit(c: char) { IsDigit(c) || 'a' <= c <= 'f' || 'A' <= c <= 'F' }

  /** Digits of one base after a 0x, 0o or 0b prefix. */
  predicate AllIn(s: string, base: nat)
  {
    forall i :: 0 <= i < |s| ==>
      if base == 16 then IsHexDigit(s[i]) else '0' <= s[i] && (s[i] as int) < ('0' as int) + base
  }

  /** The decimal digits with at most one point and at least one digit. */
  predicate Mantissa(m: string)
  {
    var p := IndexOf(m, '.');
    if p == -1 then m != [] && AllDigits(m)
    else AllDigits(m[..p]) && AllDigits(m[p + 1..]) && |m| >= 2
  }

  /** An optionally signed run of decimal digits. */
  predicate SignedDigits(e: string)
  {
    if e != [] && (e[0] == '+' || e[0] == '-') then e[1..] != [] && AllDigits(e[1..])
    else e != [] && AllDigits(e)
  }

  /** The first 'e' or 'E', or -1. */
  function ExponentAt(s: string): (k: int)
    ensures -1 <= k < |s|
    ensures k >= 0 ==> s[k] == 'e' || s[k] == 'E'
  {
    if s == [] then -1
    else if s[0] == 'e' || s[0] == 'E' then 0
    else var k := ExponentAt(s[1..]); if k == -1 then -1 else k + 1
  }

  /** ECMAScript StrUnsignedDecimalLiteral. */
  predicate UnsignedDecimal(s: string)
  {
    s == "Infinity"
    || var k := ExponentAt(s);
       if k == -1 then Mantissa(s) else Mantissa(s[..k]) && SignedDigits(s[k + 1..])
  }

  /** ECMAScript StringNumericLiteral after trimming: a signed decimal
      literal or a 0x, 0o or 0b integer. */
  predicate NumericLiteral(s: string)
  {
    (|s| >= 3 && s[0] == '0' && (s[1] == 'x' || s[1] == 'X') && AllIn(s[2..], 16))
    || (|s| >= 3 && s[0] == '0' && (s[1] == 'o' || s[1] == 'O') && AllIn(s[2..], 8))
    || (|s| >= 3 && s[0] == '0' && (s[1] == 'b' || s[1] == 'B') && AllIn(s[2..], 2))
    || (s != [] && (s[0] == '+' || s[0] == '-') && UnsignedDecimal(s[1..]))
    || UnsignedDecimal(s)
  }

  /** `!isNaN(value)` for a string: `Number(value)` is a number exactly when
      the trimmed text is empty or a numeric literal. */
  predicate IsNumericText(value: string)
  {
    var t := Trim(value);
    t == [] || NumericLiteral(t)
  }

  /** The fields of the staff form that are never capitalised. */
  const SkipCapitalization: seq<string> := ["email", "father_email", "mother_email", "facebook_link",
    "father_facebook", "mother_facebook", "whatsapp_number", "father_whatsapp", "mother_whatsapp",
    "nid_birth_registration_no"]

  /** The exam fields that are never capitalised. */
  const ExamSkipCapitalization: seq<string> := ["roll_number", "registration_number", "year_of_passing", "gpa_cgpa"]

  /** The value `handleChange` / `handleExamChange` store: text inputs are
      upper-cased unless the field is skipped or the value is numeric. */
  function Processed(skip: seq<string>, name: string, value: string, isText: bool): (r: string)
    ensures |r| == |value|
    ensures !isText || name in skip || IsNumericText(value) ==> r == value
    ensures isText && name !in skip && !IsNumericText(value) ==> r == ToUpper(value)
  {
    if isText && name !in skip && !IsNumericText(value) then ToUpper(value) else value
  }

  /** Upper-casing twice is upper-casing once. */
  lemma ToUpperIdempotent(s: string)
    ensures ToUpper(ToUpper(s)) == ToUpper(s)
  {
  }

  /** Processing a value twice is processing it once. */
  lemma ProcessedIdempotent(skip: seq<string>, name: string, value: string, isText: bool)
    ensures Processed(skip, name, Processed(skip, name, value, isText), isText) == Processed(skip, name, value, isText)
  {
    ToUpperIdempotent(value);
  }

  lemma {:induction false} NoExponentInDigits(s: string)
    requires AllDigits(s)
    ensures ExponentAt(s) == -1
  {
    if s != [] {
      NoExponentInDigits(s[1..]);
    }
  }

  /** A run of decimal digits is numeric text. */
  lemma DigitsAreNumeric(v: string)
    requires v != [] && AllDigits(v)
    ensures IsNumericText(v)
  {
    TrimSolid(v);
    NoExponentInDigits(v);
    assert forall c :: c in v ==> IsDigit(c);
    IndexOfAbsent(v, '.');
    assert UnsignedDecimal(v);
  }

  /** A number typed as digits is stored as typed, whatever the field. */
  lemma DigitsKeptAsTyped(skip: seq<string>, name: string, v: string, isText: bool)
    requires v != [] && AllDigits(v)
    ensures Processed(skip, name, v, isText) == v
  {
    DigitsAreNumeric(v);
  }

  // ---------------------------------------------------------------------
  // The form's lists and fields
  // ---------------------------------------------------------------------

  datatype Remark = Remark(remarks: string, step: string, result: string)
  datatype Job = Job(title: string, company: string, location: string, duration: string, remarks: string)

  function EmptyRemark(): Remark { Remark("", "", "") }
  function EmptyJob(): Job { Job("", "", "", "", "") }

  predicate BlankRemark(r: Remark) { IsBlank(r.remarks) && IsBlank(r.step) && IsBlank(r.result) }
  predicate BlankJob(j: Job)
  {
    IsBlank(j.title) && IsBlank(j.company) && IsBlank(j.location) && IsBlank(j.duration) && IsBlank(j.remarks)
  }

  /** An exam record: field name to value. */
  type ExamInfo = map<string, string>

  /** The eight fields of `examInfo`'s first value. */
  const ExamFields: seq<string> := [
    "exam_name", "roll_number", "registration_number", "year_of_passing",
    "gpa_cgpa", "institution_name", "group", "board"]

  /** `examInfo`'s first value: every exam field present and blank. */
  function BlankExam(): (e: ExamInfo)
    ensures forall f :: f in e <==> f in ExamFields
    ensures forall f :: f in e ==> e[f] == ""
  {
    map["exam_name" := "", "roll_number" := "", "registration_number" := "",
        "year_of_passing" := "", "gpa_cgpa" := "", "institution_name" := "",
        "group" := "", "board" := ""]
  }

  /** The first exam added, after typing only one field, still carries all
      eight fields: the typed one, the exam's name and six blanks. */
  lemma FirstExamRecord(field: string, value: string, name: string)
    requires field != "exam_name"
    ensures var r := BlankExam()[field := value]["exam_name" := name];
            (forall f :: f in ExamFields ==> f in r)
            && r["exam_name"] == name && r[field] == value
            && (forall f :: f in ExamFields && f != field && f != "exam_name" ==> r[f] == "")
  {
  }

  /** The six address fields that "same as present" copies, as
      (present field, permanent field). */
  const AddressPairs: seq<(string, string)> := [
    ("present_house_no", "permanent_house_no"), ("present_village", "permanent_village"),
    ("present_post_office", "permanent_post_office"), ("present_post_code", "permanent_post_code"),
    ("present_upazila", "permanent_upazila"), ("present_district", "permanent_district")]

  /** Copies each present field into its permanent field; a present field
      that is absent (undefined) leaves its permanent field absent. */
  function CopyAddress(fields: map<string, string>, pairs: seq<(string, string)>): map<string, string>
    decreases |pairs|
  {
    if pairs == [] then fields
    else
      var rest := CopyAddress(fields, pairs[1..]);
      var (p, q) := pairs[0];
      if p in fields then rest[q := fields[p]] else rest - {q}
  }

  /** No permanent field is also a present field, and each is named once. */
  predicate Disjoint(pairs: seq<(string, string)>)
  {
    (forall i, j :: 0 <= i < |pairs| && 0 <= j < |pairs| ==> pairs[i].1 != pairs[j].0)
    && (forall i, j :: 0 <= i < j < |pairs| ==> pairs[i].1 != pairs[j].1)
  }

  function Targets(pairs: seq<(string, string)>): set<string>
  {
    set i | 0 <= i < |pairs| :: pairs[i].1
  }

  /** Each permanent field gets its present field's value, or disappears
      with it; every other field is kept. */
  lemma {:induction false} CopyAddressSpec(fields: map<string, string>, pairs: seq<(string, string)>)
    requires Disjoint(pairs)
    ensures var r := CopyAddress(fields, pairs);
            (forall i :: 0 <= i < |pairs| ==>
               (pairs[i].0 in fields ==> pairs[i].1 in r && r[pairs[i].1] == fields[pairs[i].0])
               && (pairs[i].0 !in fields ==> pairs[i].1 !in r))
            && forall k :: k !in Targets(pairs) ==> (k in r <==> k in fields) && (k in fields ==> r[k] == fields[k])
    decreases |pairs|
  {
    if pairs != [] {
      var tail := pairs[1..];
      assert Disjoint(tail) by {
        forall i, j | 0 <= i < |tail| && 0 <= j < |tail|
          ensures tail[i].1 != tail[j].0
        {
          assert tail[i] == pairs[i + 1] && tail[j] == pairs[j + 1];
        }
        forall i, j | 0 <= i < j < |tail|
          ensures tail[i].1 != tail[j].1
        {
          assert tail[i] == pairs[i + 1] && tail[j] == pairs[j + 1];
        }
      }
      CopyAddressSpec(fields, tail);
      var r := CopyAddress(fields, pairs);
      var rest := CopyAddress(fields, tail);
      var (p, q) := pairs[0];
      forall i | 0 <= i < |pairs|
        ensures pairs[i].0 in fields ==> pairs[i].1 in r && r[pairs[i].1] == fields[pairs[i].0]
        ensures pairs[i].0 !in fields ==> pairs[i].1 !in r
      {
        if i > 0 {
          assert pairs[i] == tail[i - 1];
          assert pairs[i].1 != q;
        }
      }
      forall k | k !in Targets(pairs)
        ensures (k in r <==> k in fields) && (k in fields ==> r[k] == fields[k])
      {
        assert k != q by {
          assert q == pairs[0].1;
        }
      }
    }
  }

  lemma AddressPairsDisjoint()
    ensures Disjoint(AddressPairs)
  {
    var ps := AddressPairs;
    assert forall i :: 0 <= i < |ps| ==> |ps[i].1| > 10 && |ps[i].0| > 1 && ps[i].0[1] == 'r' && ps[i].1[1] == 'e';
    assert forall i, j :: 0 <= i < j < |ps| ==> |ps[i].1| != |ps[j].1| || ps[i].1[10] != ps[j].1[10];
  }

  /** The state of the staff form that these handlers touch. */
  class StaffForm {
    var fields: map<string, string>
    var remarks: seq<Remark>
    var remarkInput: Remark
    var jobs: seq<Job>
    var jobInput: Job
    var exams: seq<ExamInfo>
    var examInput: ExamInfo
    var selectedExam: string
    var sameAsPresent: bool

    constructor (initial: map<string, string>)
      ensures fields == initial && remarks == [] && jobs == [] && exams == []
      ensures remarkInput == EmptyRemark() && jobInput == EmptyJob() && selectedExam == ""
      ensures examInput == BlankExam() && !sameAsPresent
    {
      fields := initial;
      remarks, jobs, exams := [], [], [];
      remarkInput, jobInput := EmptyRemark(), EmptyJob();
      examInput := BlankExam();
      selectedExam := "";
      sameAsPresent := false;
    }

    /** `handleDateInput`: keep the digits, at most eight, and put the
        slashes in, step by step. */
    method HandleDateInput(name: string, value: string)
      modifies this`fields
      ensures fields == old(fields)[name := DateMask(value)]
    {
      var v := DigitsIn(value);
      if |v| > 8 {
        v := v[..8];
      }
      if |v| > 4 {
        v := v[..2] + "/" + v[2..4] + "/" + v[4..];
      } else if |v| > 2 {
        v := v[..2] + "/" + v[2..];
      }
      fields := fields[name := v];
    }

    /** `handleChange` for a text or other non-file, non-checkbox input. */
    method HandleChange(name: string, value: string, isText: bool)
      modifies this`fields
      ensures fields == old(fields)[name := Processed(SkipCapitalization, name, value, isText)]
    {
      var processed := value;
      if isText && name !in SkipCapitalization && !IsNumericText(value) {
        processed := ToUpper(value);
      }
      fields := fields[name := processed];
    }

    /** `handleCheckboxChange`: ticking copies the present address into the
        permanent one; unticking only clears the flag. */
    method HandleCheckboxChange(checked: bool)
      modifies this`fields, this`sameAsPresent
      ensures sameAsPresent == checked
      ensures !checked ==> fields == old(fields)
      ensures checked ==> fields == CopyAddress(old(fields), AddressPairs)
    {
      sameAsPresent := checked;
      if checked {
        fields := CopyAddress(fields, AddressPairs);
      }
    }

    /** `addRemark`: an all-blank remark is ignored; otherwise it is
        appended and the input cleared. */
    method AddRemark()
      modifies this`remarks, this`remarkInput
      ensures BlankRemark(old(remarkInput)) ==> remarks == old(remarks) && remarkInput == old(remarkInput)
      ensures !BlankRemark(old(remarkInput)) ==> remarks == old(remarks) + [old(remarkInput)] && remarkInput == EmptyRemark()
    {
      if IsBlank(remarkInput.remarks) && IsBlank(remarkInput.step) && IsBlank(remarkInput.result) {
        return;
      }
      remarks := remarks + [remarkInput];
      remarkInput := EmptyRemark();
    }

    /** `removeRemark`: `splice(index, 1)` on a copy. */
    method RemoveRemark(index: nat)
      modifies this`remarks
      ensures remarks == RemoveAt(old(remarks), index)
    {
      var updated := remarks;
      if index < |updated| {
        updated := updated[..index] + updated[index + 1..];
      }
      remarks := updated;
    }

    /** `addJob`: like `addRemark` over the five job fields. */
    method AddJob()
      modifies this`jobs, this`jobInput
      ensures BlankJob(old(jobInput)) ==> jobs == old(jobs) && jobInput == old(jobInput)
      ensures !BlankJob(old(jobInput)) ==> jobs == old(jobs) + [old(jobInput)] && jobInput == EmptyJob()
    {
      if IsBlank(jobInput.title) && IsBlank(jobInput.company) && IsBlank(jobInput.location)
         && IsBlank(jobInput.duration) && IsBlank(jobInput.remarks) {
        return;
      }
      jobs := jobs + [jobInput];
      jobInput := EmptyJob();
    }

    /** `removeJob`. */
    method RemoveJob(index: nat)
      modifies this`jobs
      ensures jobs == RemoveAt(old(jobs), index)
    {
      var updated := jobs;
      if index < |updated| {
        updated := updated[..index] + updated[index + 1..];
      }
      jobs := updated;
    }

    /** `handleAddExam`: needs a selected exam; the record is the typed
        fields with the exam's name, and the inputs are cleared to `{}`. */
    method HandleAddExam()
      modifies this`exams, this`examInput, this`selectedExam
      ensures old(selectedExam) == "" ==> exams == old(exams) && examInput == old(examInput) && selectedExam == ""
      ensures old(selectedExam) != "" ==>
                exams == old(exams) + [old(examInput)["exam_name" := old(selectedExam)]]
                && examInput == map[] && selectedExam == ""
    {
      if selectedExam == "" {
        return;
      }
      exams := exams + [examInput["exam_name" := selectedExam]];
      selectedExam := "";
      examInput := map[];
    }

    /** `handleExamChange`. */
    method HandleExamChange(name: string, value: string, isText: bool)
      modifies this`examInput
      ensures examInput == old(examInput)[name := Processed(ExamSkipCapitalization, name, value, isText)]
    {
      var processed := value;
      if isText && name !in ExamSkipCapitalization && !IsNumericText(value) {
        processed := ToUpper(value);
      }
      examInput := examInput[name := processed];
    }

    /** `handleRemove`: drops exam record `index`. */
    method HandleRemove(index: nat)
      modifies this`exams
      ensures exams == RemoveAt(old(exams), index)
    {
      var updated := exams;
      if index < |updated| {
        updated := updated[..index] + updated[index + 1..];
      }
      exams := updated;
    }
  }

  /** Removing the item just added restores the list. */
  lemma RemoveLastAdded<T>(items: seq<T>, x: T)
    ensures RemoveAt(items + [x], |items|) == items
  {
    assert (items + [x])[..|items|] == items;
  }
}
