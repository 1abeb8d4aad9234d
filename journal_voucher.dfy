/** Helpers of the journal voucher document
    (client/src/components/vouchers/JournalVoucherPDF.jsx): money text,
    amounts in words in the Indian numbering system (crore = 10^7,
    lakh = 10^5, thousand) and the voucher number. */
module JournalVoucher {
  import opened Text
  import opened JsNumber
  import opened Wrappers
  import Seqs

  /** The word of 0 ≤ i < 20 (none for 0): the source's `ones` table. */
  function Ones(i: nat): string
    requires i < 20
  {
    ["", "One", "Two", "Three", "Four", "Five", "Six", "Seven", "Eight", "Nine", "Ten",
     "Eleven", "Twelve", "Thirteen", "Fourteen", "Fifteen", "Sixteen", "Seventeen",
     "Eighteen", "Nineteen"][i]
  }

  /** The word of ten times 2 ≤ i < 10: the source's `tens` table. */
  function Tens(i: nat): string
    requires i < 10
  {
    ["", "", "Twenty", "Thirty", "Forty", "Fifty", "Sixty", "Seventy", "Eighty", "Ninety"][i]
  }

  /** `ones[i]` inside a template literal: past the end of the table
      JavaScript reads `undefined`, which prints as the text "undefined". */
  function OnesAt(i: nat): (w: string)
    ensures i < 20 ==> w == Ones(i)
  {
    if i < 20 then Ones(i) else "undefined"
  }

  lemma OnesAtSolid(i: nat)
    requires 1 <= i
    ensures Solid(OnesAt(i))
  {
    if i < 20 {
      OnesSolid(i);
    } else {
      assert Solid("undefined");
    }
  }

  lemma OnesSolid(i: nat)
    requires 1 <= i < 20
    ensures Solid(Ones(i))
  {
  }

  lemma TensSolid(i: nat)
    requires 2 <= i < 10
    ensures Solid(Tens(i))
  {
  }

  // ---------------------------------------------------------------------
  // Reference definition: the words, as a list
  // ---------------------------------------------------------------------

  /** The words of 0 ≤ n < 100 (none for 0). */
  function HundredWords(n: nat): seq<string>
    requires n < 100
  {
    if n == 0 then []
    else if n < 20 then [Ones(n)]
    else [Tens(n / 10)] + (if n % 10 == 0 then [] else [Ones(n % 10)])
  }

  /** The words of n ≥ 0 (none for 0) as `convertBelowThousand` spells
      them: the hundreds, then the words below a hundred. From 1000 on the
      hundreds word is `ones[n / 100]`, "Ten" to "Nineteen" and then
      "undefined". */
  function ThousandWords(n: nat): seq<string>
  {
    (if n / 100 == 0 then [] else [OnesAt(n / 100), "Hundred"]) + HundredWords(n % 100)
  }

  /** The words of one group followed by its unit word, if the group is non-zero. */
  function Group(count: nat, unit: string): seq<string>
  {
    if count == 0 then [] else ThousandWords(count) + [unit]
  }

  /** The words of n ≥ 1: crores (any number of them), lakhs, thousands
      and the rest. */
  function Words(n: nat): seq<string>
  {
    Group(n / 10000000, "Crore") + Group(n % 10000000 / 100000, "Lakh")
    + Group(n % 100000 / 1000, "Thousand") + ThousandWords(n % 1000)
  }

  predicate AllSolid(ws: seq<string>) { forall w :: w in ws ==> Solid(w) }

  lemma HundredWordsSolid(n: nat)
    requires n < 100
    ensures AllSolid(HundredWords(n))
    ensures n > 0 <==> HundredWords(n) != []
  {
    if 0 < n < 20 {
      OnesSolid(n);
    } else if n >= 20 {
      TensSolid(n / 10);
      if n % 10 != 0 {
        OnesSolid(n % 10);
      }
    }
  }

  lemma ThousandWordsSolid(n: nat)
    ensures AllSolid(ThousandWords(n))
    ensures n > 0 <==> ThousandWords(n) != []
  {
    if n / 100 != 0 {
      OnesAtSolid(n / 100);
    }
    HundredWordsSolid(n % 100);
    assert Solid("Hundred");
  }

  // ---------------------------------------------------------------------
  // The source's helpers
  // ---------------------------------------------------------------------

  /** `convertBelowHundred`. */
  function ConvertBelowHundred(n: nat): (s: string)
    requires n < 100
    ensures s == Join(HundredWords(n), " ")
  {
    if n < 20 then Ones(n)
    else
      var t := Tens(n / 10);
      var o := Ones(n % 10);
      var s := t + " " + o;
      TensSolid(n / 10);
      if n % 10 == 0 then
        assert s == t + " ";
        TrimSolid(t);
        Trim(s)
      else
        OnesSolid(n % 10);
        JoinSolid([t, o], " ");
        TrimSolid(s);
        Trim(s)
  }

  /** The words of the hundreds digit d, joined. */
  lemma HundredsJoin(d: nat)
    requires 1 <= d
    ensures Join([OnesAt(d), "Hundred"], " ") == OnesAt(d) + " Hundred"
    ensures Solid(OnesAt(d) + " Hundred")
  {
    var h := [OnesAt(d), "Hundred"];
    assert h[1..] == ["Hundred"];
    OnesAtSolid(d);
    assert Solid("Hundred");
    JoinSolid(h, " ");
  }

  /** `convertBelowThousand`, for any count the crore step hands it. */
  function ConvertBelowThousand(n: nat): (s: string)
    ensures s == Join(ThousandWords(n), " ")
  {
    if n < 100 then
      assert ThousandWords(n) == HundredWords(n);
      ConvertBelowHundred(n)
    else
      var d := n / 100;
      var rest := ConvertBelowHundred(n % 100);
      var s := OnesAt(d) + " Hundred " + rest;
      HundredsJoin(d);
      ThousandHundreds(n, s);
      Trim(s)
  }

  /** Joined words, a blank and more joined words (perhaps none), trimmed,
      are all the words joined. */
  lemma TrimJoinPair(h: seq<string>, hw: seq<string>)
    requires |h| >= 1 && AllSolid(h) && AllSolid(hw)
    ensures Trim(Join(h, " ") + " " + Join(hw, " ")) == Join(h + hw, " ")
  {
    var s := Join(h, " ") + " " + Join(hw, " ");
    if hw == [] {
      assert h + hw == h;
      assert s == Join(h, " ") + " ";
      JoinSolid(h, " ");
      TrimSolid(Join(h, " "));
    } else {
      JoinAppend(h, hw, " ");
      assert AllSolid(h + hw);
      JoinSolid(h + hw, " ");
      TrimSolid(s);
    }
  }

  lemma ThousandHundreds(n: nat, s: string)
    requires 100 <= n
    requires s == OnesAt(n / 100) + " Hundred " + Join(HundredWords(n % 100), " ")
    ensures Trim(s) == Join(ThousandWords(n), " ")
  {
    var d := n / 100;
    var h := [OnesAt(d), "Hundred"];
    HundredsJoin(d);
    HundredWordsSolid(n % 100);
    OnesAtSolid(d);
    assert Solid("Hundred");
    assert AllSolid(h);
    assert ThousandWords(n) == h + HundredWords(n % 100);
    assert s == Join(h, " ") + " " + Join(HundredWords(n % 100), " ");
    TrimJoinPair(h, HundredWords(n % 100));
  }

  /** The text the source produces for an integer: "Zero" for 0, nothing
      for a negative number, else the words joined by single spaces. */
  function InWords(n: int): string
  {
    if n == 0 then "Zero" else if n < 0 then "" else Join(Words(n), " ")
  }

  /** `words` so far, as the words it holds followed by one blank. */
  function Pending(ws: seq<string>): string
  {
    if ws == [] then "" else Join(ws, " ") + " "
  }

  /** Appending a non-empty group of words, then a blank, to the pending text. */
  lemma PendingExtend(ws: seq<string>, g: seq<string>)
    requires g != []
    ensures Pending(ws) + Join(g, " ") + " " == Pending(ws + g)
  {
    if ws == [] {
      assert ws + g == g;
    } else {
      JoinAppend(ws, g, " ");
    }
  }

  lemma GroupJoin(count: nat, unit: string)
    requires 0 < count && Solid(unit)
    ensures Join(Group(count, unit), " ") == ConvertBelowThousand(count) + " " + unit
    ensures AllSolid(Group(count, unit)) && Group(count, unit) != []
  {
    ThousandWordsSolid(count);
    assert Join([unit], " ") == unit;
    JoinAppend(ThousandWords(count), [unit], " ");
  }

  lemma AllSolidAppend(a: seq<string>, b: seq<string>)
    requires AllSolid(a) && AllSolid(b)
    ensures AllSolid(a + b)
  {
  }

  lemma PendingAppend(ws: seq<string>, count: nat, unit: string)
    requires 0 < count && AllSolid(ws) && Solid(unit)
    ensures Pending(ws) + ConvertBelowThousand(count) + " " + unit + " " == Pending(ws + Group(count, unit))
    ensures AllSolid(ws + Group(count, unit))
  {
    var g := Group(count, unit);
    var c := ConvertBelowThousand(count);
    GroupJoin(count, unit);
    PendingExtend(ws, g);
    Seqs.ConcatAssoc(Pending(ws), c, " ", unit);
    AllSolidAppend(ws, g);
  }

  /** The last step: the remaining words are appended and the text trimmed. */
  lemma FinishWords(ws: seq<string>, rest: nat)
    requires rest < 1000 && AllSolid(ws) && (ws != [] || rest > 0)
    ensures Trim(Pending(ws) + (if rest > 0 then ConvertBelowThousand(rest) else "")) == Join(ws + ThousandWords(rest), " ")
  {
    var tw := ThousandWords(rest);
    var tail := if rest > 0 then ConvertBelowThousand(rest) else "";
    assert tail == Join(tw, " ") && AllSolid(tw) && (rest > 0 <==> tw != []) by {
      ThousandWordsSolid(rest);
    }
    if ws == [] {
      FinishAlone(tw);
    } else {
      assert Pending(ws) + tail == Join(ws, " ") + " " + Join(tw, " ");
      TrimJoinPair(ws, tw);
    }
  }

  lemma FinishAlone(tw: seq<string>)
    requires tw != [] && AllSolid(tw)
    ensures Trim(Pending([]) + Join(tw, " ")) == Join([] + tw, " ")
  {
    assert [] + tw == tw;
    assert Pending([]) + Join(tw, " ") == Join(tw, " ");
    JoinSolid(tw, " ");
    TrimSolid(Join(tw, " "));
  }

  /** One step of `numberToWords`: when `num` holds at least one `size`,
      the words of `num / size` and the unit are appended with a blank and
      `num` keeps the remainder. A negative `num` passes through. */
  method AddGroup(words: string, num: int, size: nat, unit: string, ghost ws: seq<string>)
    returns (words': string, num': int)
    requires size > 0 && Solid(unit) && AllSolid(ws)
    requires num >= 0 ==> words == Pending(ws)
    ensures num < 0 ==> words' == words && num' == num
    ensures num >= 0 ==> num' == num % size && words' == Pending(ws + Group(num / size, unit))
                         && AllSolid(ws + Group(num / size, unit))
  {
    words', num' := words, num;
    if num >= size {
      PendingAppend(ws, num / size, unit);
      words' := words + ConvertBelowThousand(num / size) + " " + unit + " ";
      num' := num % size;
    } else if num >= 0 {
      assert num / size == 0 && num % size == num;
      assert ws + Group(num / size, unit) == ws;
    }
  }

  /** Taking the remainder by 10^7 first does not change a remainder by
      10^5, nor one by 10^5 a remainder by 10^3. */
  lemma ModOfMod(m: nat)
    ensures m % 10000000 % 100000 == m % 100000
    ensures m % 100000 % 1000 == m % 1000
  {
    CroreLakhMod(m);
    LakhThousandMod(m);
  }

  lemma CroreLakhMod(m: nat)
    ensures m % 10000000 % 100000 == m % 100000
  {
    var q, r := m / 10000000, m % 10000000;
    var t, u := r / 100000, r % 100000;
    assert r == 100000 * t + u;
    var x := 100 * q + t;
    assert m == 100000 * x + u;
    var k := m / 100000 - x;
    assert 100000 * k == u - m % 100000;
    assert -100000 < u - m % 100000 < 100000;
    assert k == 0;
  }

  lemma LakhThousandMod(m: nat)
    ensures m % 100000 % 1000 == m % 1000
  {
    var q, r := m / 100000, m % 100000;
    var t, u := r / 1000, r % 1000;
    assert r == 1000 * t + u;
    var x := 100 * q + t;
    assert m == 1000 * x + u;
    var k := m / 1000 - x;
    assert 1000 * k == u - m % 1000;
    assert -1000 < u - m % 1000 < 1000;
    assert k == 0;
  }

  /** The arithmetic of the three steps. */
  lemma GroupArithmetic(m: nat)
    ensures m % 10000000 % 100000 == m % 100000 && m % 100000 % 1000 == m % 1000
    ensures m < 10000000 ==> m % 10000000 == m
    ensures m % 10000000 < 100000 ==> m % 10000000 % 100000 == m % 10000000
    ensures m % 100000 < 1000 ==> m % 100000 % 1000 == m % 100000
  {
    ModOfMod(m);
  }

  lemma UnitsSolid()
    ensures Solid("Crore") && Solid("Lakh") && Solid("Thousand")
  {
  }

  /** Words(n) is the three groups followed by the words of the rest. */
  lemma WordsSplit(n: nat)
    ensures Words(n) == [] + Group(n / 10000000, "Crore") + Group(n % 10000000 / 100000, "Lakh")
                        + Group(n % 100000 / 1000, "Thousand") + ThousandWords(n % 1000)
  {
    GroupArithmetic(n);
    assert [] + Group(n / 10000000, "Crore") == Group(n / 10000000, "Crore");
  }

  /** `numberToWords`, step by step as the source builds it: each group is
      appended with its unit and a blank, and the result is trimmed. */
  method NumberToWords(n: int) returns (s: string)
    ensures s == InWords(n)
  {
    if n == 0 {
      return "Zero";
    }
    var num := n;
    var words := "";
    ghost var m: nat := if n < 0 then 0 else n;
    UnitsSolid();
    GroupArithmetic(m);
    ghost var ws: seq<string> := [];
    words, num := AddGroup(words, num, 10000000, "Crore", ws);
    ws := ws + Group(m / 10000000, "Crore");
    words, num := AddGroup(words, num, 100000, "Lakh", ws);
    ws := ws + Group(m % 10000000 / 100000, "Lakh");
    words, num := AddGroup(words, num, 1000, "Thousand", ws);
    ws := ws + Group(m % 100000 / 1000, "Thousand");
    if num > 0 {
      words := words + ConvertBelowThousand(num);
    }
    s := Trim(words);
    if n > 0 {
      FinishNumber(m, ws, num, words);
    } else {
      assert words == "";
      assert Trim("") == "";
    }
  }

  /** After the three groups, appending the rest and trimming gives the
      words of m. */
  lemma FinishNumber(m: nat, ws: seq<string>, num: int, words: string)
    requires 0 < m
    requires ws == [] + Group(m / 10000000, "Crore") + Group(m % 10000000 / 100000, "Lakh")
                  + Group(m % 100000 / 1000, "Thousand")
    requires AllSolid(ws) && num == m % 1000
    requires words == Pending(ws) + (if num > 0 then ConvertBelowThousand(num) else "")
    ensures Trim(words) == InWords(m)
  {
    SomeWords(m);
    FinishWords(ws, num);
    WordsSplit(m);
  }

  /** A positive amount has a group or a non-zero rest below a thousand. */
  lemma SomeWords(m: nat)
    requires 0 < m
    ensures Group(m / 10000000, "Crore") + Group(m % 10000000 / 100000, "Lakh")
            + Group(m % 100000 / 1000, "Thousand") != [] || m % 1000 > 0
  {
    GroupArithmetic(m);
    UnitsSolid();
    GroupSolid(m / 10000000, "Crore");
    GroupSolid(m % 10000000 / 100000, "Lakh");
    GroupSolid(m % 100000 / 1000, "Thousand");
  }

  /** The source's spelling of a few amounts. */
  lemma InWordsThirteen()
    ensures InWords(13) == "Thirteen"
  {
    NoUpperGroups(13);
    assert Ones(13) == "Thirteen";
    assert ThousandWords(13) == ["Thirteen"];
  }

  lemma InWordsHundred()
    ensures InWords(100) == "One Hundred"
  {
    NoUpperGroups(100);
    OneHundredWords();
    OneHundredJoined();
  }

  lemma OneHundredWords()
    ensures ThousandWords(100) == ["One", "Hundred"]
  {
    assert HundredWords(0) == [];
  }

  lemma OneHundredJoined()
    ensures Join(["One", "Hundred"], " ") == "One Hundred"
  {
    var h := ["One", "Hundred"];
    assert h[1..] == ["Hundred"];
  }

  lemma InWordsForty()
    ensures InWords(40) == "Forty"
  {
    NoUpperGroups(40);
    assert Tens(4) == "Forty";
    assert ThousandWords(40) == ["Forty"];
  }

  /** Below a thousand there are no crore, lakh or thousand groups. */
  lemma NoUpperGroups(n: nat)
    requires 0 < n < 1000
    ensures Words(n) == ThousandWords(n) && InWords(n) == Join(ThousandWords(n), " ")
  {
    assert n / 10000000 == 0 && n % 10000000 / 100000 == 0 && n % 100000 / 1000 == 0 && n % 1000 == n;
    assert Words(n) == [] + [] + [] + ThousandWords(n);
  }

  /** The words never start or end with a blank, and there are words for
      every n ≥ 0. */
  lemma InWordsTrimmed(n: int)
    ensures n >= 0 ==> Solid(InWords(n))
    ensures n < 0 ==> InWords(n) == ""
  {
    if n > 0 {
      var m: nat := n;
      GroupArithmetic(m);
      WordsSplit(m);
      UnitsSolid();
      var ws := Words(m);
      assert AllSolid(ws) && ws != [] by {
        var g1 := Group(m / 10000000, "Crore");
        var g2 := Group(m % 10000000 / 100000, "Lakh");
        var g3 := Group(m % 100000 / 1000, "Thousand");
        var g4 := ThousandWords(m % 1000);
        GroupSolid(m / 10000000, "Crore");
        GroupSolid(m % 10000000 / 100000, "Lakh");
        GroupSolid(m % 100000 / 1000, "Thousand");
        ThousandWordsSolid(m % 1000);
        AllSolidAppend(g1, g2);
        AllSolidAppend(g1 + g2, g3);
        AllSolidAppend(g1 + g2 + g3, g4);
        assert ws == [] + g1 + g2 + g3 + g4;
      }
      JoinSolid(ws, " ");
    } else if n == 0 {
      assert Solid("Zero");
    }
  }

  lemma GroupSolid(count: nat, unit: string)
    requires Solid(unit)
    ensures AllSolid(Group(count, unit))
    ensures count > 0 <==> Group(count, unit) != []
  {
    if count > 0 {
      GroupJoin(count, unit);
    }
  }

  lemma WordsLakhs()
    ensures Words(150000) == ["One", "Lakh"] + ["Fifty", "Thousand"]
  {
    assert 150000 / 10000000 == 0 && 150000 % 10000000 / 100000 == 1;
    assert 150000 % 100000 / 1000 == 50 && 150000 % 1000 == 0;
    assert Group(0, "Crore") == [];
    assert ThousandWords(1) == [] + HundredWords(1) && HundredWords(1) == ["One"];
    assert Group(1, "Lakh") == ["One", "Lakh"];
    assert ThousandWords(50) == [] + HundredWords(50) && HundredWords(50) == ["Fifty"];
    assert Group(50, "Thousand") == ["Fifty", "Thousand"];
    assert ThousandWords(0) == [];
  }

  /** A thousand crore and more: the crore count goes through
      `convertBelowThousand` as it is, so 10^10 is spelt with `ones[10]`
      and 2 × 10^10 with `ones[20]`, which is undefined. */
  lemma InWordsThousandCrore()
    ensures InWords(10000000000) == "Ten Hundred Crore"
    ensures InWords(20000000000) == "undefined Hundred Crore"
  {
    TenHundredCrore();
    UndefinedHundredCrore();
    JoinThree("Ten", "Hundred", "Crore");
    JoinThree("undefined", "Hundred", "Crore");
    ThreeWordsText();
  }

  lemma TenHundredCrore()
    ensures Words(10000000000) == ["Ten", "Hundred", "Crore"]
  {
    OnlyCrores(10000000000, 1000);
    assert ThousandWords(1000) == [OnesAt(10), "Hundred"] + HundredWords(0);
  }

  lemma UndefinedHundredCrore()
    ensures Words(20000000000) == ["undefined", "Hundred", "Crore"]
  {
    OnlyCrores(20000000000, 2000);
    assert ThousandWords(2000) == [OnesAt(20), "Hundred"] + HundredWords(0);
  }

  /** A whole number of crores has only its crore group. */
  lemma OnlyCrores(n: nat, q: nat)
    requires q > 0 && n == q * 10000000 && n % 100000 == 0
    ensures Words(n) == ThousandWords(q) + ["Crore"]
  {
    assert n / 10000000 == q && n % 10000000 == 0;
    assert n % 100000 / 1000 == 0 && n % 1000 == 0 by {
      LakhThousandMod(n);
    }
    assert Words(n) == (ThousandWords(q) + ["Crore"]) + [] + [] + [];
  }

  lemma ThreeWordsText()
    ensures "Ten" + " " + "Hundred" + " " + "Crore" == "Ten Hundred Crore"
    ensures "undefined" + " " + "Hundred" + " " + "Crore" == "undefined Hundred Crore"
  {
  }

  lemma JoinThree(a: string, b: string, c: string)
    ensures Join([a, b, c], " ") == a + " " + b + " " + c
  {
    assert [a, b, c][1..] == [b, c];
    assert Join([b, c], " ") == b + " " + c by {
      assert [b, c][1..] == [c];
    }
    Seqs.ConcatAssoc(a + " ", b, " ", c);
  }

  lemma JoinFour(a: string, b: string, c: string, d: string)
    ensures Join([a, b] + [c, d], " ") == a + " " + b + " " + c + " " + d
  {
    assert [a, b][1..] == [b];
    assert [c, d][1..] == [d];
    JoinAppend([a, b], [c, d], " ");
  }

  lemma InWordsLakhs()
    ensures InWords(150000) == "One Lakh Fifty Thousand"
  {
    WordsLakhs();
    JoinFour("One", "Lakh", "Fifty", "Thousand");
    LakhsText();
  }

  lemma LakhsText()
    ensures "One" + " " + "Lakh" + " " + "Fifty" + " " + "Thousand" == "One Lakh Fifty Thousand"
  {
  }

  // ---------------------------------------------------------------------
  // Money and the amount in words
  // ---------------------------------------------------------------------

  /** The number of hundredths `toFixed(2)` prints for a ≥ 0: the nearest
      one, the larger on a tie. */
  function Cents(a: real): nat
    requires a >= 0.0
  {
    (a * 100.0 + 0.5).Floor
  }

  lemma CentsNearest(a: real)
    requires a >= 0.0
    ensures var c := Cents(a) as real;
            2.0 * (c - a * 100.0) <= 1.0 && 2.0 * (a * 100.0 - c) < 1.0
  {
  }

  /** c hundredths written with a point before the last two digits. */
  function Hundredths(c: nat): string
  {
    NatToString(c / 100) + "." + PadStart(NatToString(c % 100), 2, '0')
  }

  /** `x.toFixed(2)`: a minus sign for a negative number, the whole part,
      a point and exactly two digits. */
  function ToFixed2(x: real): (s: string)
  {
    var a := if x < 0.0 then -x else x;
    var body := Hundredths(Cents(a));
    if x < 0.0 then "-" + body else body
  }

  /** `money(value)`: "0.00" for what is not a number, else `toFixed(2)`. */
  function Money(value: Num): (s: string)
    ensures value.NaN? ==> s == "0.00"
  {
    if value.NaN? then "0.00" else ToFixed2(value.v)
  }

  /** Reads an unsigned money text back: digits, a point and two digits,
      in hundredths. */
  function ParseUnsigned(body: string): Option<nat>
  {
    if |body| >= 4 && body[|body| - 3] == '.' && AllDigits(body[..|body| - 3]) && AllDigits(body[|body| - 2..])
    then Some(DigitsValue(body[..|body| - 3]) * 100 + DigitsValue(body[|body| - 2..]))
    else None
  }

  /** Reads a money text back, with an optional minus sign. */
  function ParseMoney(s: string): Option<int>
  {
    var neg := |s| >= 1 && s[0] == '-';
    match ParseUnsigned(if neg then s[1..] else s)
    case Some(c) =>
      var v: int := if neg then -(c as int) else c;
      Some(v)
    case None => None
  }

  lemma ParseUnsignedParts(w: string, f: string)
    requires |w| >= 1 && AllDigits(w) && |f| == 2 && AllDigits(f)
    ensures ParseUnsigned(w + "." + f) == Some(DigitsValue(w) * 100 + DigitsValue(f))
  {
    SplitAtPoint(w, f);
  }

  /** The pieces of `w.f` when f has two characters. */
  lemma SplitAtPoint(w: string, f: string)
    requires |f| == 2
    ensures var body := w + "." + f;
            |body| == |w| + 3 && body[..|body| - 3] == w && body[|body| - 3] == '.' && body[|body| - 2..] == f
  {
    var body := w + "." + f;
    assert body[..|body| - 3] == w;
    assert body[|body| - 2..] == f;
  }

  lemma ParseMoneyPositive(body: string, c: nat)
    requires ParseUnsigned(body) == Some(c) && body[0] != '-'
    ensures ParseMoney(body) == Some(c)
  {
  }

  lemma ParseMoneyNegative(body: string, c: nat)
    requires ParseUnsigned(body) == Some(c)
    ensures ParseMoney("-" + body) == Some(-(c as int))
  {
    assert ("-" + body)[1..] == body;
  }

  lemma HundredthsValue(c: nat)
    ensures ParseUnsigned(Hundredths(c)) == Some(c)
    ensures Hundredths(c)[0] != '-'
  {
    var w := NatToString(c / 100);
    var f := PadStart(NatToString(c % 100), 2, '0');
    assert |f| == 2 by {
      NatToStringLength(c % 100, 2);
    }
    assert AllDigits(f) && DigitsValue(f) == c % 100 by {
      ZeroPaddedValue(c % 100, 2);
    }
    ParseUnsignedParts(w, f);
    assert Hundredths(c)[0] == w[0];
  }

  /** The printed amount is |x| rounded to the nearest hundredth (see
      CentsNearest), and the sign is kept. */
  lemma ToFixed2Value(x: real)
    ensures x < 0.0 ==> ParseMoney(ToFixed2(x)) == Some(-(Cents(-x) as int))
    ensures x >= 0.0 ==> ParseMoney(ToFixed2(x)) == Some(Cents(x))
  {
    if x < 0.0 {
      ToFixed2Negative(x);
    } else {
      ToFixed2NonNegative(x);
    }
  }

  lemma ToFixed2Negative(x: real)
    requires x < 0.0
    ensures ParseMoney(ToFixed2(x)) == Some(-(Cents(-x) as int))
  {
    var c := Cents(-x);
    ToFixed2Sign(x);
    HundredthsValue(c);
    ParseMoneyNegative(Hundredths(c), c);
  }

  lemma ToFixed2Sign(x: real)
    requires x < 0.0
    ensures ToFixed2(x) == "-" + Hundredths(Cents(-x))
  {
  }

  lemma ToFixed2NonNegative(x: real)
    requires x >= 0.0
    ensures ParseMoney(ToFixed2(x)) == Some(Cents(x))
  {
    var c := Cents(x);
    HundredthsValue(c);
    ParseMoneyPositive(Hundredths(c), c);
    assert ToFixed2(x) == Hundredths(c);
  }

  lemma HundredthsZero()
    ensures Hundredths(0) == "0.00"
  {
    assert NatToString(0) == "0";
    assert PadStart("0", 2, '0') == "00";
  }

  /** `money` of 0, of a tiny negative amount (the sign survives rounding
      to zero) and of an amount with one decimal. */
  lemma MoneyZero()
    ensures Money(Fin(0.0)) == "0.00"
    ensures Money(Fin(-0.001)) == "-0.00"
  {
    assert Cents(0.0) == 0;
    assert Cents(0.001) == 0;
    HundredthsZero();
  }

  lemma MoneyOneDecimal()
    ensures Money(Fin(1234.5)) == "1234.50"
  {
    assert Cents(1234.5) == 123450;
    assert NatToString(1234) == "1234" by {
      assert NatToString(1) == "1";
      assert NatToString(12) == NatToString(1) + "2";
      assert NatToString(123) == NatToString(12) + "3";
    }
    assert NatToString(50) == "50" by {
      assert NatToString(5) == "5";
    }
    assert PadStart("50", 2, '0') == "50";
    assert 123450 / 100 == 1234 && 123450 % 100 == 50;
    assert Hundredths(123450) == "1234" + "." + "50";
    assert ToFixed2(1234.5) == Hundredths(123450);
  }

  /** `Math.round`: the nearest integer, halves upwards. */
  function Round(x: real): (r: int)
    ensures x - 0.5 < r as real <= x + 0.5
  {
    (x + 0.5).Floor
  }

  /** `amountInWords(amount)`. For what is not a number every comparison in
      `numberToWords` is false, so no words are produced. */
  method AmountInWords(amount: Num) returns (s: string)
    ensures amount.NaN? ==> s == " Taka Only"
    ensures amount.Fin? ==> s == InWords(Round(amount.v)) + " Taka Only"
  {
    var words: string;
    if amount.NaN? {
      words := Trim("");
    } else {
      words := NumberToWords(Round(amount.v));
    }
    s := words + " Taka Only";
  }

  // ---------------------------------------------------------------------
  // Voucher number
  // ---------------------------------------------------------------------

  /** "JV-" followed by the journal id padded with zeros to six digits. */
  function VoucherNo(id: nat): (s: string)
    ensures |s| >= 9 && s[..3] == "JV-" && AllDigits(s[3..])
  {
    var s := "JV-" + PadStart(NatToString(id), 6, '0');
    ZeroPaddedValue(id, 6);
    assert s[3..] == PadStart(NatToString(id), 6, '0');
    s
  }

  function ParseVoucherNo(s: string): Option<nat>
  {
    if |s| >= 3 && s[..3] == "JV-" && AllDigits(s[3..]) then Some(DigitsValue(s[3..])) else None
  }

  /** The id is recovered from the voucher number, so distinct journals get
      distinct numbers; below 10^6 the number is nine characters long. */
  lemma VoucherNoRoundTrip(id: nat)
    ensures ParseVoucherNo(VoucherNo(id)) == Some(id)
    ensures id < 1000000 ==> |VoucherNo(id)| == 9
  {
    ZeroPaddedValue(id, 6);
    assert VoucherNo(id)[3..] == PadStart(NatToString(id), 6, '0');
    if id < 1000000 {
      assert Pow10(6) == 1000000;
      NatToStringLength(id, 6);
    }
  }
}
