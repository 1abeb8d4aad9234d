/** The assets page (client/src/pages/assets/Assets.jsx): the code slug made
    from an asset's name, and the form with its digit-only quantity fields,
    its submission checks, reset and edit. */
module Assets {
  import opened Text
  import opened Wrappers
  import Seqs

  // ---------------------------------------------------------------------
  // autoGenerateCode
  // ---------------------------------------------------------------------

  /** The characters a code may hold: `[A-Z0-9-]`. */
  predicate IsCodeChar(c: char) { IsUpper(c) || IsDigit(c) || c == '-' }

  predicate AllCodeChars(s: string) { forall i :: 0 <= i < |s| ==> IsCodeChar(s[i]) }

  predicate NoSpace(s: string) { forall i :: 0 <= i < |s| ==> !IsSpace(s[i]) }

  predicate AllSpace(s: string) { forall i :: 0 <= i < |s| ==> IsSpace(s[i]) }

  /** `.replace(/\s+/g, "-")`: every maximal run of whitespace becomes one
      '-'. `inRun` says that the character before `s` was whitespace. */
  function DashRuns(s: string, inRun: bool): (r: string)
    ensures |r| <= |s|
    ensures NoSpace(r)
    ensures forall i :: 0 <= i < |r| ==> r[i] == '-' || r[i] in s
  {
    if s == [] then []
    else if IsSpace(s[0]) then (if inRun then "" else "-") + DashRuns(s[1..], true)
    else [s[0]] + DashRuns(s[1..], false)
  }

  /** `.replace(/[^A-Z0-9-]/g, "")`: only code characters stay, in order. */
  function KeepCodeChars(s: string): (r: string)
    ensures |r| <= |s|
    ensures AllCodeChars(r)
    ensures forall i :: 0 <= i < |r| ==> r[i] in s
  {
    if s == [] then []
    else (if IsCodeChar(s[0]) then [s[0]] else "") + KeepCodeChars(s[1..])
  }

  /** `autoGenerateCode(name)`: empty for an empty name; otherwise the name
      trimmed, upper-cased, with whitespace runs turned into '-' and every
      other character outside A–Z, 0–9 and '-' dropped. */
  function AutoGenerateCode(name: string): (code: string)
    ensures name == "" ==> code == ""
    ensures AllCodeChars(code)
  {
    if name == "" then "" else KeepCodeChars(DashRuns(ToUpper(Trim(name)), false))
  }

  lemma {:induction false} KeepCodeCharsAll(s: string)
    requires AllCodeChars(s)
    ensures KeepCodeChars(s) == s
  {
    if s != [] {
      KeepCodeCharsAll(s[1..]);
    }
  }

  lemma {:induction false} DashRunsNoSpace(s: string, inRun: bool)
    requires NoSpace(s)
    ensures DashRuns(s, inRun) == s
  {
    if s != [] {
      DashRunsNoSpace(s[1..], false);
    }
  }

  lemma ToUpperNoLower(s: string)
    requires forall i :: 0 <= i < |s| ==> !IsLower(s[i])
    ensures ToUpper(s) == s
  {
  }

  lemma TrimNoSpace(s: string)
    requires s != [] && NoSpace(s)
    ensures Trim(s) == s
  {
    assert TrimStart(s) == s;
  }

  /** Text made only of code characters is its own code. */
  lemma CodeUnchanged(s: string)
    requires AllCodeChars(s)
    ensures AutoGenerateCode(s) == s
  {
    if s != "" {
      assert NoSpace(s);
      TrimNoSpace(s);
      assert forall i :: 0 <= i < |s| ==> !IsLower(s[i]);
      ToUpperNoLower(s);
      DashRunsNoSpace(s, false);
      KeepCodeCharsAll(s);
    }
  }

  /** A code is left as it is: applying the generator to its own output
      changes nothing. */
  lemma AutoGenerateCodeIdempotent(name: string)
    ensures AutoGenerateCode(AutoGenerateCode(name)) == AutoGenerateCode(name)
  {
    CodeUnchanged(AutoGenerateCode(name));
  }

  /** Every character of a join comes from a part or from the separator. */
  lemma {:induction false} JoinChars(ws: seq<string>, sep: string, p: char -> bool)
    requires forall w, i :: w in ws && 0 <= i < |w| ==> p(w[i])
    requires forall i :: 0 <= i < |sep| ==> p(sep[i])
    ensures forall i :: 0 <= i < |Join(ws, sep)| ==> p(Join(ws, sep)[i])
  {
    if |ws| > 1 {
      assert ws[0] in ws;
      assert forall w :: w in ws[1..] ==> w in ws;
      JoinChars(ws[1..], sep, p);
    } else if |ws| == 1 {
      assert ws[0] in ws;
    }
  }

  lemma TrimStartPadded(pre: string, y: string)
    requires AllSpace(pre) && y != [] && !IsSpace(y[0])
    ensures TrimStart(pre + y) == y
  {
    var s := pre + y;
    var t := TrimStart(s);
    assert s[|pre|] == y[0];
    assert forall i :: 0 <= i < |pre| ==> IsSpace(s[i]);
    assert t != [] ==> t[0] == s[|s| - |t|];
    assert s[|pre|..] == y;
  }

  lemma TrimEndPadded(y: string, post: string)
    requires AllSpace(post) && y != [] && !IsSpace(y[|y| - 1])
    ensures TrimEnd(y + post) == y
  {
    var s := y + post;
    var t := TrimEnd(s);
    assert s[|y| - 1] == y[|y| - 1];
    assert forall i :: |y| <= i < |s| ==> IsSpace(s[i]);
    assert t != [] ==> t[|t| - 1] == s[|t| - 1];
    assert s[..|y|] == y;
  }

  /** Trimming drops whitespace around a solid string and nothing else. */
  lemma TrimPadded(pre: string, x: string, post: string)
    requires AllSpace(pre) && AllSpace(post) && Solid(x)
    ensures Trim(pre + x + post) == x
  {
    assert pre + x + post == pre + (x + post);
    TrimStartPadded(pre, x + post);
    TrimEndPadded(x, post);
  }

  /** A run of whitespace at the front turns into nothing more once a run
      has started. */
  lemma {:induction false} DashRunsSkip(sp: string, rest: string)
    requires AllSpace(sp)
    ensures DashRuns(sp + rest, true) == DashRuns(rest, true)
  {
    if sp == [] {
      assert sp + rest == rest;
    } else {
      assert (sp + rest)[0] == sp[0];
      assert (sp + rest)[1..] == sp[1..] + rest;
      DashRunsSkip(sp[1..], rest);
    }
  }

  /** A word without whitespace passes through unchanged. */
  lemma {:induction false} DashRunsWord(w: string, rest: string, inRun: bool)
    requires w != [] && NoSpace(w)
    ensures DashRuns(w + rest, inRun) == w + DashRuns(rest, false)
  {
    assert (w + rest)[0] == w[0];
    assert (w + rest)[1..] == w[1..] + rest;
    if |w| > 1 {
      DashRunsWord(w[1..], rest, false);
    } else {
      assert w[1..] + rest == rest;
    }
  }

  /** A whitespace separator before a word becomes one '-'. */
  lemma DashRunsSep(sep: string, rest: string)
    requires sep != [] && AllSpace(sep)
    requires rest != [] && !IsSpace(rest[0])
    ensures DashRuns(sep + rest, false) == "-" + DashRuns(rest, false)
  {
    assert (sep + rest)[0] == sep[0];
    assert (sep + rest)[1..] == sep[1..] + rest;
    DashRunsSkip(sep[1..], rest);
  }

  /** A join starts with the first character of its first part. */
  lemma JoinFirst(ws: seq<string>, sep: string)
    requires |ws| >= 1 && ws[0] != []
    ensures Join(ws, sep) != [] && Join(ws, sep)[0] == ws[0][0]
  {
    if |ws| > 1 {
      assert Join(ws, sep) == ws[0] + (sep + Join(ws[1..], sep));
    }
  }

  /** Separated words: each whitespace separator becomes exactly one '-'. */
  lemma {:induction false} DashRunsJoin(ws: seq<string>, sep: string)
    requires |ws| >= 1 && forall w :: w in ws ==> w != [] && NoSpace(w)
    requires sep != [] && AllSpace(sep)
    ensures DashRuns(Join(ws, sep), false) == Join(ws, "-")
  {
    assert ws[0] in ws;
    if |ws| == 1 {
      DashRunsNoSpace(ws[0], false);
    } else {
      var tail := ws[1..];
      var rest := Join(tail, sep);
      assert forall w :: w in tail ==> w in ws;
      assert tail[0] == ws[1] && ws[1] in ws;
      JoinFirst(tail, sep);
      calc {
        DashRuns(Join(ws, sep), false);
        { Seqs.AppendAssoc(ws[0], sep, rest); }
        DashRuns(ws[0] + (sep + rest), false);
        { DashRunsWord(ws[0], sep + rest, false); }
        ws[0] + DashRuns(sep + rest, false);
        { DashRunsSep(sep, rest); }
        ws[0] + ("-" + DashRuns(rest, false));
        { DashRunsJoin(tail, sep); }
        ws[0] + ("-" + Join(tail, "-"));
        { Seqs.AppendAssoc(ws[0], "-", Join(tail, "-")); }
        Join(ws, "-");
      }
    }
  }

  /** Each word upper-cased. */
  function Uppers(ws: seq<string>): (r: seq<string>)
    ensures |r| == |ws| && forall i {:trigger r[i]} :: 0 <= i < |ws| ==> r[i] == ToUpper(ws[i])
  {
    if ws == [] then [] else [ToUpper(ws[0])] + Uppers(ws[1..])
  }

  lemma ToUpperAppend(a: string, b: string)
    ensures ToUpper(a + b) == ToUpper(a) + ToUpper(b)
  {
  }

  /** Upper-casing a join of words upper-cases each word. */
  lemma {:induction false} ToUpperJoin(ws: seq<string>, sep: string)
    requires AllSpace(sep)
    ensures ToUpper(Join(ws, sep)) == Join(Uppers(ws), sep)
  {
    if |ws| > 1 {
      ToUpperJoin(ws[1..], sep);
      assert Uppers(ws)[1..] == Uppers(ws[1..]);
      ToUpperAppend(ws[0] + sep, Join(ws[1..], sep));
      ToUpperAppend(ws[0], sep);
      assert ToUpper(sep) == sep;
    }
  }

  /** Words of letters (either case), digits and dashes. */
  predicate IsCodeWord(w: string) { w != [] && NoSpace(w) && AllCodeChars(ToUpper(w)) }

  lemma CodeWordsTrim(pre: string, ws: seq<string>, sep: string, post: string)
    requires |ws| >= 1 && forall w :: w in ws ==> IsCodeWord(w)
    requires AllSpace(pre) && AllSpace(post)
    ensures Trim(pre + Join(ws, sep) + post) == Join(ws, sep) != ""
  {
    assert forall w :: w in ws ==> Solid(w);
    JoinSolid(ws, sep);
    TrimPadded(pre, Join(ws, sep), post);
  }

  lemma CodeWordsDash(ws: seq<string>, sep: string)
    requires |ws| >= 1 && forall w :: w in ws ==> IsCodeWord(w)
    requires sep != [] && AllSpace(sep)
    ensures DashRuns(Join(Uppers(ws), sep), false) == Join(Uppers(ws), "-")
  {
    var us := Uppers(ws);
    forall w | w in us ensures w != [] && NoSpace(w) {
      var i :| 0 <= i < |us| && us[i] == w;
      assert ws[i] in ws;
    }
    DashRunsJoin(us, sep);
  }

  lemma CodeWordsKeep(ws: seq<string>)
    requires forall w :: w in ws ==> IsCodeWord(w)
    ensures KeepCodeChars(Join(Uppers(ws), "-")) == Join(Uppers(ws), "-")
  {
    var us := Uppers(ws);
    forall w, i | w in us && 0 <= i < |w| ensures IsCodeChar(w[i]) {
      var k :| 0 <= k < |us| && us[k] == w;
      assert ws[k] in ws;
    }
    JoinChars(us, "-", IsCodeChar);
    KeepCodeCharsAll(Join(us, "-"));
  }

  /** A name made of such words separated by whitespace runs, with any
      whitespace around it, yields the upper-cased words joined by single
      dashes. */
  lemma AutoGenerateCodeWords(pre: string, ws: seq<string>, sep: string, post: string)
    requires |ws| >= 1 && forall w :: w in ws ==> IsCodeWord(w)
    requires sep != [] && AllSpace(sep) && AllSpace(pre) && AllSpace(post)
    ensures AutoGenerateCode(pre + Join(ws, sep) + post) == Join(Uppers(ws), "-")
  {
    CodeWordsTrim(pre, ws, sep, post);
    ToUpperJoin(ws, sep);
    CodeWordsDash(ws, sep);
    CodeWordsKeep(ws);
  }

  // ---------------------------------------------------------------------
  // The form
  // ---------------------------------------------------------------------

  /** An asset as the list holds it. */
  datatype Asset = Asset(id: nat, name: string, code: string, purchaseDate: Option<string>,
                         totalQty: nat, damagedQty: nat)

  /** The body sent on save: the form with the quantities as numbers. */
  datatype Payload = Payload(name: string, code: string, purchaseDate: string, totalQty: nat, damagedQty: nat)

  /** A save: `PUT assets/<id>/` while editing, `POST assets/` otherwise. */
  datatype Request = Put(id: nat, body: Payload) | Post(body: Payload)

  datatype SubmitResult = MissingNameOrCode | TotalNotPositive | DamagedExceedsTotal | Sent(request: Request)
                      | SendFailed(request: Request)

  /** The inputs `onChange` handles. */
  datatype FieldName = NameField | CodeField | PurchaseDateField | TotalQtyField | DamagedQtyField

  /** `Number(x || 0)` on a quantity field, which only ever holds digits. */
  function Quantity(s: string): (n: nat)
    requires AllDigits(s)
    ensures s == "" ==> n == 0
  {
    DigitsValue(s)
  }

  class AssetForm {
    var name: string
    var code: string
    var purchaseDate: string
    var totalQty: string
    var damagedQty: string
    var editingId: Option<nat>
    var autoCode: bool
    var nameQuery: string
    var codeQuery: string
    /** The date the page was opened, `todayStr`. */
    const today: string
    var sent: seq<Request>

    /** The quantity fields only ever hold digits (or nothing). */
    predicate Valid()
      reads this
    {
      AllDigits(totalQty) && AllDigits(damagedQty)
    }

    /** `emptyForm` and the rest of the initial state. */
    predicate IsEmpty()
      reads this
    {
      name == "" && code == "" && purchaseDate == today && totalQty == "" && damagedQty == "0"
      && editingId == None && autoCode && nameQuery == "" && codeQuery == ""
    }

    constructor (today: string)
      ensures this.today == today && IsEmpty() && Valid() && sent == []
    {
      this.today := today;
      name, code, purchaseDate, totalQty, damagedQty := "", "", today, "", "0";
      editingId, autoCode := None, true;
      nameQuery, codeQuery := "", "";
      sent := [];
    }

    /** `onChange`: a quantity field takes "" or a string of digits and
        ignores anything else; the other fields take the value as typed. */
    method OnChange(field: FieldName, value: string)
      requires Valid()
      modifies this
      ensures Valid()
      ensures field == TotalQtyField && (value == "" || AllDigits(value)) ==> totalQty == value
      ensures field == DamagedQtyField && (value == "" || AllDigits(value)) ==> damagedQty == value
      ensures field == TotalQtyField && !AllDigits(value) ==> totalQty == old(totalQty)
      ensures field == DamagedQtyField && !AllDigits(value) ==> damagedQty == old(damagedQty)
      ensures field != TotalQtyField ==> totalQty == old(totalQty)
      ensures field != DamagedQtyField ==> damagedQty == old(damagedQty)
      ensures name == (if field == NameField then value else old(name))
      ensures code == (if field == CodeField then value else old(code))
      ensures purchaseDate == (if field == PurchaseDateField then value else old(purchaseDate))
      ensures editingId == old(editingId) && autoCode == old(autoCode) && sent == old(sent)
      ensures nameQuery == old(nameQuery) && codeQuery == old(codeQuery)
    {
      if field == TotalQtyField || field == DamagedQtyField {
        if value == "" || AllDigits(value) {
          if field == TotalQtyField {
            totalQty := value;
          } else {
            damagedQty := value;
          }
        }
        return;
      }
      match field
      case NameField => name := value;
      case CodeField => code := value;
      case PurchaseDateField => purchaseDate := value;
    }

    /** Typing in the name box: the code follows the name while automatic
        codes are on. */
    method OnNameInput(value: string)
      modifies this`name, this`code, this`nameQuery
      ensures name == value && nameQuery == value
      ensures code == if autoCode then AutoGenerateCode(value) else old(code)
    {
      nameQuery := value;
      name := value;
      if autoCode {
        code := AutoGenerateCode(value);
      }
    }

    /** `resetForm`. */
    method ResetForm()
      modifies this`name, this`code, this`purchaseDate, this`totalQty, this`damagedQty,
               this`editingId, this`autoCode, this`nameQuery, this`codeQuery
      ensures IsEmpty() && Valid()
    {
      name, code, purchaseDate, totalQty, damagedQty := "", "", today, "", "0";
      editingId := None;
      autoCode := true;
      nameQuery, codeQuery := "", "";
    }

    /** `onEdit(asset)`: the form shows the asset, automatic codes stop. */
    method OnEdit(asset: Asset)
      modifies this`name, this`code, this`purchaseDate, this`totalQty, this`damagedQty,
               this`editingId, this`autoCode, this`nameQuery, this`codeQuery
      ensures Valid() && !autoCode && editingId == Some(asset.id)
      ensures name == asset.name && code == asset.code && nameQuery == asset.name && codeQuery == asset.code
      ensures purchaseDate == if asset.purchaseDate.Some? && asset.purchaseDate.value != "" then asset.purchaseDate.value else today
      ensures Quantity(totalQty) == asset.totalQty && Quantity(damagedQty) == asset.damagedQty
    {
      name, code := asset.name, asset.code;
      purchaseDate := if asset.purchaseDate.Some? && asset.purchaseDate.value != "" then asset.purchaseDate.value else today;
      totalQty := NatToString(asset.totalQty);
      damagedQty := NatToString(asset.damagedQty);
      editingId := Some(asset.id);
      autoCode := false;
      nameQuery, codeQuery := asset.name, asset.code;
    }

    /** `onSubmit`: refused for a missing name or code, a total of 0, or
        more damaged than total; otherwise the payload is sent, and the form
        is reset only when the server accepts it (`accepted`); a failed
        request leaves the form as it was. */
    method OnSubmit(accepted: bool) returns (r: SubmitResult)
      requires Valid()
      modifies this
      ensures Valid()
      ensures r == MissingNameOrCode <==> old(name) == "" || old(code) == ""
      ensures r == TotalNotPositive <==> old(name) != "" && old(code) != "" && Quantity(old(totalQty)) == 0
      ensures r == DamagedExceedsTotal <==> old(name) != "" && old(code) != "" && Quantity(old(totalQty)) > 0
                                            && Quantity(old(damagedQty)) > Quantity(old(totalQty))
      ensures r.Sent? || r.SendFailed? ==> (r.Sent? <==> accepted)
      ensures !r.Sent? ==> name == old(name) && code == old(code) && purchaseDate == old(purchaseDate)
                           && totalQty == old(totalQty) && damagedQty == old(damagedQty)
                           && editingId == old(editingId) && autoCode == old(autoCode)
                           && nameQuery == old(nameQuery) && codeQuery == old(codeQuery)
      ensures !r.Sent? && !r.SendFailed? ==> sent == old(sent)
      ensures r.Sent? || r.SendFailed? ==>
        var body := Payload(old(name), old(code), old(purchaseDate), Quantity(old(totalQty)), Quantity(old(damagedQty)));
        body.damagedQty <= body.totalQty && body.totalQty > 0
        && r.request == (if old(editingId).Some? && old(editingId).value != 0 then Put(old(editingId).value, body) else Post(body))
        && sent == old(sent) + [r.request]
      ensures r.Sent? ==> IsEmpty()
    {
      if name == "" || code == "" {
        return MissingNameOrCode;
      }
      var total := Quantity(totalQty);
      var damaged := Quantity(damagedQty);
      if total <= 0 {
        return TotalNotPositive;
      }
      if damaged > total {
        return DamagedExceedsTotal;
      }
      var body := Payload(name, code, purchaseDate, total, damaged);
      var request := if editingId.Some? && editingId.value != 0 then Put(editingId.value, body) else Post(body);
      sent := sent + [request];
      if !accepted {
        return SendFailed(request);
      }
      ResetForm();
      r := Sent(request);
    }
  }
}
