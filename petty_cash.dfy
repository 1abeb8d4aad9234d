/** The petty cash page (client/src/pages/accounting/PettyCash.jsx): the
    fund settings, the requisitions, vouchers and replenishments kept in the
    page, their numbering and the current balance. Amounts are what
    `Number` made of the typed text, NaN included; the clock reading used as
    a record id is a parameter. */
module PettyCash {
  import opened Wrappers
  import opened Text
  import opened JsNumber

  datatype Requisition = Requisition(id: int, reqNo: string, date: string, requestedBy: string,
                                     department: string, purpose: string, amount: Num, status: string)

  datatype Voucher = Voucher(id: int, voucherNo: string, date: string, paidTo: string, description: string,
                             amount: Num, requisitionNo: string)

  datatype Replenishment = Replenishment(id: int, refNo: string, date: string, amount: Num, description: string)

  /** `${prefix}${String(n).padStart(4, "0")}`. */
  function DocNo(prefix: string, n: nat): string
  {
    prefix + PadStart(NatToString(n), 4, '0')
  }

  /** A number is the prefix followed by at least four digits that read
      back as the count. */
  lemma DocNoParts(prefix: string, n: nat)
    ensures var s := DocNo(prefix, n);
            |s| >= |prefix| + 4 && s[..|prefix|] == prefix
            && AllDigits(s[|prefix|..]) && DigitsValue(s[|prefix|..]) == n
  {
    var s := DocNo(prefix, n);
    ZeroPaddedValue(n, 4);
    assert s[|prefix|..] == PadStart(NatToString(n), 4, '0');
  }

  /** The count a number carries: the digits after the prefix, or -1 for
      text of another shape. */
  function CountIn(prefix: string, no: string): int
  {
    if |no| >= |prefix| && no[..|prefix|] == prefix && AllDigits(no[|prefix|..]) then DigitsValue(no[|prefix|..])
    else -1
  }

  /** The count is read back from the number, so different counts give
      different numbers. */
  lemma DocNoRoundTrip(prefix: string, n: nat)
    ensures CountIn(prefix, DocNo(prefix, n)) == n
  {
    DocNoParts(prefix, n);
  }

  lemma FirstNumbers()
    ensures DocNo("PCR-", 1) == "PCR-0001" && DocNo("PCV-", 1) == "PCV-0001" && DocNo("PCRL-", 1) == "PCRL-0001"
  {
    assert NatToString(1) == "1";
    assert PadStart("1", 4, '0') == "0001";
  }

  /** Two numbers made from different counts are different and carry their
      counts. */
  lemma CountsOfNumbers(prefix: string, a: string, b: string, m: nat, n: nat)
    requires a == DocNo(prefix, m) && b == DocNo(prefix, n) && m != n
    ensures CountIn(prefix, a) == m && CountIn(prefix, b) == n && a != b
  {
    DocNoRoundTrip(prefix, m);
    DocNoRoundTrip(prefix, n);
  }

  /** The k-th record (from 1) of `s` is numbered k. */
  ghost predicate NumberedSeq<T>(s: seq<T>, numberOf: T -> string, prefix: string)
  {
    forall i {:trigger numberOf(s[i])} :: 0 <= i < |s| ==> numberOf(s[i]) == DocNo(prefix, i + 1)
  }

  /** Appending a record numbered with the new count keeps the numbering. */
  lemma NumberedAppend<T>(s: seq<T>, x: T, numberOf: T -> string, prefix: string)
    requires NumberedSeq(s, numberOf, prefix) && numberOf(x) == DocNo(prefix, |s| + 1)
    ensures NumberedSeq(s + [x], numberOf, prefix)
  {
    forall i | 0 <= i < |s| + 1
      ensures numberOf((s + [x])[i]) == DocNo(prefix, i + 1)
    {
      if i < |s| {
        assert (s + [x])[i] == s[i];
      }
    }
  }

  /** The record at position i (from 0) carries number i + 1. */
  lemma NumberAt<T>(s: seq<T>, numberOf: T -> string, prefix: string, i: nat)
    requires NumberedSeq(s, numberOf, prefix) && i < |s|
    ensures numberOf(s[i]) == DocNo(prefix, i + 1)
  {
  }

  /** Numbered records never share a number: each carries its own
      position. */
  lemma NumbersDistinct<T>(s: seq<T>, numberOf: T -> string, prefix: string, i: nat, j: nat)
    requires NumberedSeq(s, numberOf, prefix) && i < j < |s|
    ensures CountIn(prefix, numberOf(s[i])) == i + 1 && CountIn(prefix, numberOf(s[j])) == j + 1
    ensures numberOf(s[i]) != numberOf(s[j])
  {
    NumberAt(s, numberOf, prefix, i);
    NumberAt(s, numberOf, prefix, j);
    CountsOfNumbers(prefix, numberOf(s[i]), numberOf(s[j]), i + 1, j + 1);
  }

  function ReqNo(r: Requisition): string { r.reqNo }
  function VoucherNo(v: Voucher): string { v.voucherNo }
  function RefNo(r: Replenishment): string { r.refNo }

  function VoucherAmount(v: Voucher): Num { v.amount }
  function ReplenishmentAmount(r: Replenishment): Num { r.amount }

  /** `fundLimit + totalReplenished - totalVoucherSpend`. */
  function CurrentBalance(fundLimit: Num, vouchers: seq<Voucher>, replenishments: seq<Replenishment>): (b: Num)
    ensures b.Fin? <==> fundLimit.Fin? && (forall r :: r in replenishments ==> r.amount.Fin?)
                        && (forall v :: v in vouchers ==> v.amount.Fin?)
  {
    Add(Add(fundLimit, NumSum(replenishments, ReplenishmentAmount)), Neg(NumSum(vouchers, VoucherAmount)))
  }

  /** A new voucher lowers the balance by its amount. */
  lemma VoucherLowersBalance(fundLimit: Num, vouchers: seq<Voucher>, replenishments: seq<Replenishment>, v: Voucher)
    requires CurrentBalance(fundLimit, vouchers, replenishments).Fin? && v.amount.Fin?
    ensures CurrentBalance(fundLimit, vouchers + [v], replenishments)
            == Fin(CurrentBalance(fundLimit, vouchers, replenishments).v - v.amount.v)
  {
    NumSumAppend(vouchers, [v], VoucherAmount);
    assert [v][..0] == [];
  }

  /** A new replenishment raises the balance by its amount. */
  lemma ReplenishmentRaisesBalance(fundLimit: Num, vouchers: seq<Voucher>, replenishments: seq<Replenishment>,
                                   r: Replenishment)
    requires CurrentBalance(fundLimit, vouchers, replenishments).Fin? && r.amount.Fin?
    ensures CurrentBalance(fundLimit, vouchers, replenishments + [r])
            == Fin(CurrentBalance(fundLimit, vouchers, replenishments).v + r.amount.v)
  {
    NumSumAppend(replenishments, [r], ReplenishmentAmount);
    assert [r][..0] == [];
  }

  /** The fund settings in force. */
  datatype Fund = Fund(fundName: string, fundLimit: Num, custodian: string)

  /** The fund settings form; the limit is the typed text. */
  datatype FundForm = FundForm(fundName: string, fundLimit: Input, custodian: string)

  datatype RequisitionForm = RequisitionForm(date: string, requestedBy: string, department: string, purpose: string,
                                             amount: Input, status: string)

  datatype VoucherForm = VoucherForm(date: string, paidTo: string, description: string, amount: Input,
                                     requisitionNo: string)

  datatype ReplenishmentForm = ReplenishmentForm(date: string, amount: Input, description: string)

  const EmptyRequisitionForm := RequisitionForm("", "", "", "", Blank, "Pending")
  const EmptyVoucherForm := VoucherForm("", "", "", Blank, "")
  const EmptyReplenishmentForm := ReplenishmentForm("", Blank, "")

  /** A requisition form is submitted only with a date, a requester, a
      purpose and an amount. */
  predicate RequisitionComplete(f: RequisitionForm)
  {
    f.date != "" && f.requestedBy != "" && f.purpose != "" && f.amount != Blank
  }

  /** A voucher form is submitted only with a date, a payee and an amount. */
  predicate VoucherComplete(f: VoucherForm)
  {
    f.date != "" && f.paidTo != "" && f.amount != Blank
  }

  /** A replenishment form is submitted only with a date and an amount. */
  predicate ReplenishmentComplete(f: ReplenishmentForm)
  {
    f.date != "" && f.amount != Blank
  }

  class PettyCashBook {
    var fund: Fund
    var fundForm: FundForm
    var reqForm: RequisitionForm
    var voucherForm: VoucherForm
    var replForm: ReplenishmentForm
    var requisitions: seq<Requisition>
    var vouchers: seq<Voucher>
    var replenishments: seq<Replenishment>

    /** Each list is numbered by position: its k-th record carries number k. */
    ghost predicate Valid()
      reads this
    {
      NumberedSeq(requisitions, ReqNo, "PCR-") && NumberedSeq(vouchers, VoucherNo, "PCV-")
      && NumberedSeq(replenishments, RefNo, "PCRL-")
    }

    function Balance(): Num
      reads this
    {
      CurrentBalance(fund.fundLimit, vouchers, replenishments)
    }

    /** The page's starting state: a 50000 fund and one record of each kind. */
    constructor ()
      ensures reqForm == EmptyRequisitionForm && voucherForm == EmptyVoucherForm
              && replForm == EmptyReplenishmentForm
      ensures fund == Fund("Main Office Petty Cash", Fin(50000.0), "Cashier")
      ensures fundForm == FundForm("Main Office Petty Cash", Entered(Fin(50000.0)), "Cashier")
      ensures Valid()
      ensures requisitions == [Requisition(1, "PCR-0001", "2025-11-25", "Fahim Faisal", "Accounts",
                                           "Office snacks & water", Fin(1500.0), "Approved")]
      ensures vouchers == [Voucher(1, "PCV-0001", "2025-11-25", "Local shop", "Snacks for staff", Fin(1200.0), "PCR-0001")]
      ensures replenishments == [Replenishment(1, "PCRL-0001", "2025-11-26", Fin(3000.0), "Top-up petty cash box")]
      ensures Balance() == Fin(51800.0)
    {
      FirstNumbers();
      fund := Fund("Main Office Petty Cash", Fin(50000.0), "Cashier");
      fundForm := FundForm("Main Office Petty Cash", Entered(Fin(50000.0)), "Cashier");
      requisitions := [Requisition(1, "PCR-0001", "2025-11-25", "Fahim Faisal", "Accounts",
                                   "Office snacks & water", Fin(1500.0), "Approved")];
      vouchers := [Voucher(1, "PCV-0001", "2025-11-25", "Local shop", "Snacks for staff", Fin(1200.0), "PCR-0001")];
      replenishments := [Replenishment(1, "PCRL-0001", "2025-11-26", Fin(3000.0), "Top-up petty cash box")];
      reqForm, voucherForm, replForm := EmptyRequisitionForm, EmptyVoucherForm, EmptyReplenishmentForm;
      new;
      FirstNumbers();
      StartingBalance();
    }

    /** `saveFund`: the settings form becomes the fund; an empty limit is 0. */
    method SaveFund()
      modifies this`fund
      ensures fund == Fund(fundForm.fundName, ValueOf(fundForm.fundLimit), fundForm.custodian)
      ensures fundForm.fundLimit == Blank ==> fund.fundLimit == Fin(0.0)
    {
      fund := Fund(fundForm.fundName, ValueOf(fundForm.fundLimit), fundForm.custodian);
    }

    /** `addRequisition` at clock reading `now`: a complete form appends the
        next numbered requisition and empties the form. */
    method AddRequisition(now: int) returns (added: bool)
      requires Valid()
      modifies this`requisitions, this`reqForm
      ensures Valid()
      ensures added <==> RequisitionComplete(old(reqForm))
      ensures added ==> var f := old(reqForm);
                        requisitions == old(requisitions)
                          + [Requisition(now, DocNo("PCR-", |old(requisitions)| + 1), f.date, f.requestedBy,
                                         f.department, f.purpose, f.amount.n, f.status)]
                        && reqForm == EmptyRequisitionForm
      ensures !added ==> requisitions == old(requisitions) && reqForm == old(reqForm)
    {
      if !RequisitionComplete(reqForm) {
        return false;
      }
      var no := DocNo("PCR-", |requisitions| + 1);
      var r := Requisition(now, no, reqForm.date, reqForm.requestedBy, reqForm.department, reqForm.purpose,
                           reqForm.amount.n, reqForm.status);
      NumberedAppend(requisitions, r, ReqNo, "PCR-");
      requisitions := requisitions + [r];
      reqForm := EmptyRequisitionForm;
      added := true;
    }

    /** `addVoucher` at clock reading `now`: a complete form appends the next
        numbered voucher and empties the form. */
    method AddVoucher(now: int) returns (added: bool)
      requires Valid()
      modifies this`vouchers, this`voucherForm
      ensures Valid()
      ensures added <==> VoucherComplete(old(voucherForm))
      ensures added ==> var f := old(voucherForm);
                        vouchers == old(vouchers)
                          + [Voucher(now, DocNo("PCV-", |old(vouchers)| + 1), f.date, f.paidTo, f.description,
                                     f.amount.n, f.requisitionNo)]
                        && voucherForm == EmptyVoucherForm
      ensures !added ==> vouchers == old(vouchers) && voucherForm == old(voucherForm)
    {
      if !VoucherComplete(voucherForm) {
        return false;
      }
      var no := DocNo("PCV-", |vouchers| + 1);
      var v := Voucher(now, no, voucherForm.date, voucherForm.paidTo, voucherForm.description, voucherForm.amount.n,
                       voucherForm.requisitionNo);
      NumberedAppend(vouchers, v, VoucherNo, "PCV-");
      vouchers := vouchers + [v];
      voucherForm := EmptyVoucherForm;
      added := true;
    }

    /** `addReplenishment` at clock reading `now`: a complete form appends
        the next numbered replenishment and empties the form. */
    method AddReplenishment(now: int) returns (added: bool)
      requires Valid()
      modifies this`replenishments, this`replForm
      ensures Valid()
      ensures added <==> ReplenishmentComplete(old(replForm))
      ensures added ==> var f := old(replForm);
                        replenishments == old(replenishments)
                          + [Replenishment(now, DocNo("PCRL-", |old(replenishments)| + 1), f.date, f.amount.n,
                                           f.description)]
                        && replForm == EmptyReplenishmentForm
      ensures !added ==> replenishments == old(replenishments) && replForm == old(replForm)
    {
      if !ReplenishmentComplete(replForm) {
        return false;
      }
      var no := DocNo("PCRL-", |replenishments| + 1);
      var r := Replenishment(now, no, replForm.date, replForm.amount.n, replForm.description);
      NumberedAppend(replenishments, r, RefNo, "PCRL-");
      replenishments := replenishments + [r];
      replForm := EmptyReplenishmentForm;
      added := true;
    }
  }

  /** The starting balance: 50000 + 3000 - 1200. */
  lemma StartingBalance()
    ensures CurrentBalance(Fin(50000.0), [Voucher(1, "PCV-0001", "2025-11-25", "Local shop", "Snacks for staff", Fin(1200.0), "PCR-0001")],
                           [Replenishment(1, "PCRL-0001", "2025-11-26", Fin(3000.0), "Top-up petty cash box")])
            == Fin(51800.0)
  {
    var v := Voucher(1, "PCV-0001", "2025-11-25", "Local shop", "Snacks for staff", Fin(1200.0), "PCR-0001");
    var r := Replenishment(1, "PCRL-0001", "2025-11-26", Fin(3000.0), "Top-up petty cash box");
    assert [v][..0] == [] && [r][..0] == [];
  }


}
