/** A model of the Hungarian "how much do you pay the state?" calculation run by the
    form-submit handler of script.js: from a monthly gross salary and the personal
    circumstances it derives the income-tax (SZJA) base after exemptions and stacked
    allowances, the income tax, the employee (TB) and employer (szocho) contributions,
    net pay, the VAT hidden in monthly spending, the state's total take and the same
    figures for a year.

    Amounts and rates are exact reals; the reference date that replaces the wall clock
    is an explicit parameter. */
module Tax {

  datatype Option<T> = None | Some(value: T)

  /** The `rates` block of the configuration: ratios such as 0.15 for 15%. */
  datatype Rates = Rates(szja: real, tb: real, szocho: real, afaStandard: real)

  /** The `deductions` block of the configuration. The young-mother amount is annual
      (`young_mothers_under30.max_base_huf`), the personal and first-marriage ones are
      monthly; each family-allowance table lists the amounts for one child, for two
      children, and per child for three or more. */
  datatype Deductions = Deductions(
    youngMothersMaxBaseHuf: real,
    personalAllowanceMonthlyHuf: real,
    firstMarriageMonthlyHuf: real,
    familyBefore20250701: seq<real>,
    familyFrom20250701: seq<real>)

  datatype Config = Config(rates: Rates, deductions: Deductions)

  /** The form's fields after parsing; `spending` is None when its field is not a number. */
  datatype Input = Input(
    gross: real,
    children: nat,
    under25: bool,
    under30Mother: bool,
    mother4plus: bool,
    firstMarriage: bool,
    personalAllowance: bool,
    spending: Option<real>)

  /** A calendar year and a zero-based month index (0 is January, 6 is July). */
  datatype RefDate = RefDate(year: int, month: int)

  /** The five figures the page shows, for a month or for a year. */
  datatype Figures = Figures(netto: real, youPay: real, employerPay: real, vatPay: real, totalState: real)

  /** Everything one submission computes. */
  datatype Outcome = Outcome(szjaBase: real, szjaDue: real, tbDue: real, monthly: Figures, yearly: Figures)

  /** The shape assumed of every configuration: both family tables have at least the
      three entries the allowance reads (the rates file provides exactly three), and the
      VAT gross-up `r / (1 + r)` does not divide by zero. */
  predicate WellFormed(c: Config) {
    && |c.deductions.familyBefore20250701| >= 3
    && |c.deductions.familyFrom20250701| >= 3
    && 1.0 + c.rates.afaStandard != 0.0
  }

  predicate NonNegativeTable(t: seq<real>) {
    forall k :: 0 <= k < |t| ==> 0.0 <= t[k]
  }

  /** The sign conditions a real tax configuration meets: no negative rate or allowance. */
  predicate NonNegative(c: Config) {
    && 0.0 <= c.rates.szja && 0.0 <= c.rates.tb && 0.0 <= c.rates.szocho && 0.0 <= c.rates.afaStandard
    && 0.0 <= c.deductions.youngMothersMaxBaseHuf
    && 0.0 <= c.deductions.personalAllowanceMonthlyHuf
    && 0.0 <= c.deductions.firstMarriageMonthlyHuf
    && NonNegativeTable(c.deductions.familyBefore20250701)
    && NonNegativeTable(c.deductions.familyFrom20250701)
  }

  function Min(a: real, b: real): real { if a <= b then a else b }

  function Max(a: real, b: real): real { if a <= b then b else a }

  /** One allowance step, `base -= Math.min(amount, base)`: the allowance is clamped against
      the base as it stands. On a non-negative base the step never goes below zero, never
      goes above the base for a non-negative amount, and is the same as flooring
      `base - amount` at zero. */
  function Deduct(base: real, amount: real): (r: real)
    ensures 0.0 <= base ==> 0.0 <= r
    ensures 0.0 <= base && 0.0 <= amount ==> r <= base
    ensures 0.0 <= base ==> r == Max(base - amount, 0.0)
  {
    base - Min(amount, base)
  }

  /** The family-allowance table in force on `date`. The source compares only the year and
      the month: the newer table applies from July to December 2025 and at no other time. */
  function FamilyTable(c: Config, date: RefDate): seq<real> {
    if date.year == 2025 && date.month >= 6 then c.deductions.familyFrom20250701
    else c.deductions.familyBefore20250701
  }

  /** The family allowance for `children` children under `table`, computed as the source
      does through the index `min(children, 3) - 1`: nothing without children, the first or
      second entry for one or two children, and the third entry times the number of
      children (not capped at three) from three children on. */
  function FamilyAllowance(children: nat, table: seq<real>): (fa: real)
    requires |table| >= 3
    ensures children == 0 ==> fa == 0.0
    ensures children == 1 ==> fa == table[0]
    ensures children == 2 ==> fa == table[1]
    ensures children >= 3 ==> fa == table[2] * children as real
  {
    var idx := (if children < 3 then children else 3) - 1;
    if idx >= 0 then (if children >= 3 then table[2] * children as real else table[idx]) else 0.0
  }

  /** The monthly young-mother cap: the configured amount is annual. */
  function YoungMotherMonthly(c: Config): real {
    c.deductions.youngMothersMaxBaseHuf / 12.0
  }

  /** One of the stacked allowances: whether the input claims it, and its full amount. */
  datatype Allowance = Allowance(claimed: bool, amount: real)

  /** The four allowances in the order the handler applies them: young mother under 30
      (monthly share of the annual cap), personal allowance, first marriage, and the family
      allowance, claimed only with at least one child. */
  function Allowances(i: Input, c: Config, date: RefDate): (s: seq<Allowance>)
    requires WellFormed(c)
    ensures |s| == 4
  {
    [ Allowance(i.under30Mother, YoungMotherMonthly(c)),
      Allowance(i.personalAllowance, c.deductions.personalAllowanceMonthlyHuf),
      Allowance(i.firstMarriage, c.deductions.firstMarriageMonthlyHuf),
      Allowance(i.children > 0, FamilyAllowance(i.children, FamilyTable(c, date))) ]
  }

  /** An allowance step: a claimed allowance is deducted, clamped; an unclaimed one leaves
      the base alone. */
  function Step(base: real, a: Allowance): real {
    if a.claimed then Deduct(base, a.amount) else base
  }

  predicate NonNegativeAmounts(s: seq<Allowance>) {
    forall k :: 0 <= k < |s| ==> 0.0 <= s[k].amount
  }

  /** The allowances applied one after another, each to the base the previous ones left.
      From a non-negative base the result is never negative, and with non-negative amounts
      it never exceeds the starting base. */
  function ApplyAllowances(base: real, s: seq<Allowance>): (r: real)
    ensures 0.0 <= base ==> 0.0 <= r
    ensures 0.0 <= base && NonNegativeAmounts(s) ==> r <= base
    decreases |s|
  {
    if s == [] then base else ApplyAllowances(Step(base, s[0]), s[1..])
  }

  /** The SZJA base: zero for a mother of four or more, else zero under 25, else gross less
      the four stacked allowances. */
  function TaxBase(i: Input, c: Config, date: RefDate): real
    requires WellFormed(c)
  {
    if i.mother4plus then 0.0
    else if i.under25 then 0.0
    else ApplyAllowances(i.gross, Allowances(i, c, date))
  }

  /** The deduction stage as the handler runs it: one running base, reduced in place by
      each allowance that applies. */
  method ComputeTaxBase(i: Input, c: Config, date: RefDate) returns (szjaBase: real)
    requires WellFormed(c)
    ensures szjaBase == TaxBase(i, c, date)
    ensures 0.0 <= i.gross && NonNegative(c) ==> 0.0 <= szjaBase <= i.gross
  {
    szjaBase := i.gross;
    if i.mother4plus {
      szjaBase := 0.0;
    } else if i.under25 {
      szjaBase := 0.0;
    } else {
      ghost var s := Allowances(i, c, date);
      ApplyFour(i.gross, s);
      if 0.0 <= i.gross && NonNegative(c) {
        AllowancesNonNegative(i, c, date);
      }
      if i.under30Mother {
        var max := c.deductions.youngMothersMaxBaseHuf / 12.0;
        szjaBase := szjaBase - Min(max, szjaBase);
      }
      assert szjaBase == Step(i.gross, s[0]);
      ghost var b1 := szjaBase;
      if i.personalAllowance {
        szjaBase := szjaBase - Min(c.deductions.personalAllowanceMonthlyHuf, szjaBase);
      }
      assert szjaBase == Step(b1, s[1]);
      ghost var b2 := szjaBase;
      if i.firstMarriage {
        szjaBase := szjaBase - Min(c.deductions.firstMarriageMonthlyHuf, szjaBase);
      }
      assert szjaBase == Step(b2, s[2]);
      ghost var b3 := szjaBase;
      if i.children > 0 {
        var arr := FamilyTable(c, date);
        var fa := FamilyAllowance(i.children, arr);
        szjaBase := szjaBase - Min(fa, szjaBase);
      }
      assert szjaBase == Step(b3, s[3]);
    }
  }

  function Yearly(m: Figures): Figures {
    Figures(m.netto * 12.0, m.youPay * 12.0, m.employerPay * 12.0, m.vatPay * 12.0, m.totalState * 12.0)
  }

  /** What follows the deduction stage, given gross, the taxable base, the rates and the
      optional spending: income tax, the two contributions, net pay, VAT, the totals and
      the yearly figures. Net pay is what remains of gross once income tax and the employee
      contribution are taken; the employer contribution comes on top of gross. */
  function Settle(gross: real, szjaBase: real, r: Rates, spending: Option<real>): (o: Outcome)
    requires 1.0 + r.afaStandard != 0.0
  {
    var szjaDue := szjaBase * r.szja;
    var tbDue := gross * r.tb;
    var employerDue := gross * r.szocho;
    var netto := gross - szjaDue - tbDue;
    var spent := if spending.Some? then spending.value else netto;
    var vatDue := spent * (r.afaStandard / (1.0 + r.afaStandard));
    var totalState := szjaDue + tbDue + employerDue + vatDue;
    var monthly := Figures(netto, szjaDue + tbDue, employerDue, vatDue, totalState);
    Outcome(szjaBase, szjaDue, tbDue, monthly, Yearly(monthly))
  }

  /** One submission of the form: the deduction stage, then the settlement on its base. */
  function Calculate(i: Input, c: Config, date: RefDate): (o: Outcome)
    requires WellFormed(c)
    ensures o.szjaBase == TaxBase(i, c, date)
    ensures o.monthly.netto + o.szjaDue + o.tbDue == i.gross
  {
    Settle(i.gross, TaxBase(i, c, date), c.rates, i.spending)
  }

  // ---------- Allowances ----------

  lemma FamilyAllowanceNonNegative(children: nat, table: seq<real>)
    requires |table| >= 3 && NonNegativeTable(table)
    ensures 0.0 <= FamilyAllowance(children, table)
  {
  }

  lemma AllowancesNonNegative(i: Input, c: Config, date: RefDate)
    requires WellFormed(c) && NonNegative(c)
    ensures NonNegativeAmounts(Allowances(i, c, date))
  {
    FamilyAllowanceNonNegative(i.children, FamilyTable(c, date));
  }

  /** With a non-negative gross and configuration the taxable base lies between zero and
      gross, for every combination of flags and children. */
  lemma TaxBaseBounds(i: Input, c: Config, date: RefDate)
    requires WellFormed(c) && NonNegative(c) && 0.0 <= i.gross
    ensures 0.0 <= TaxBase(i, c, date) <= i.gross
  {
    AllowancesNonNegative(i, c, date);
  }

  /** The total of the claimed allowances, each at its full amount. */
  function Claimed(s: seq<Allowance>): real {
    if s == [] then 0.0 else (if s[0].claimed then s[0].amount else 0.0) + Claimed(s[1..])
  }

  /** Two clamped steps on a non-negative base are one clamped step of the summed amount. */
  lemma DeductTwice(b: real, a1: real, a2: real)
    requires 0.0 <= b && 0.0 <= a1 && 0.0 <= a2
    ensures Deduct(Deduct(b, a1), a2) == Deduct(b, a1 + a2)
  {
  }

  /** Clamping each allowance against the running base, one after another, lands on the
      same base as subtracting their total once and flooring at zero, when the base and
      the amounts are non-negative. */
  lemma {:induction false} ApplyAllowancesClampOnce(base: real, s: seq<Allowance>)
    requires 0.0 <= base && NonNegativeAmounts(s)
    ensures ApplyAllowances(base, s) == Max(base - Claimed(s), 0.0)
    decreases |s|
  {
    if s != [] {
      var next := Step(base, s[0]);
      assert NonNegativeAmounts(s[1..]) by {
        forall k | 0 <= k < |s[1..]| ensures 0.0 <= s[1..][k].amount {
          assert s[1..][k] == s[k + 1];
        }
      }
      assert 0.0 <= s[0].amount;
      ApplyAllowancesClampOnce(next, s[1..]);
      var a := if s[0].claimed then s[0].amount else 0.0;
      assert next == Deduct(base, a);
      DeductTwice(base, a, Claimed(s[1..]));
      assert 0.0 <= Claimed(s[1..]) by { ClaimedNonNegative(s[1..]); }
    }
  }

  lemma {:induction false} ClaimedNonNegative(s: seq<Allowance>)
    requires NonNegativeAmounts(s)
    ensures 0.0 <= Claimed(s)
  {
    if s != [] {
      assert NonNegativeAmounts(s[1..]) by {
        forall k | 0 <= k < |s[1..]| ensures 0.0 <= s[1..][k].amount {
          assert s[1..][k] == s[k + 1];
        }
      }
      ClaimedNonNegative(s[1..]);
    }
  }

  /** The four allowances of an input, written out one step at a time. */
  lemma ApplyFour(base: real, s: seq<Allowance>)
    requires |s| == 4
    ensures ApplyAllowances(base, s) == Step(Step(Step(Step(base, s[0]), s[1]), s[2]), s[3])
    ensures Claimed(s) == (if s[0].claimed then s[0].amount else 0.0) + (if s[1].claimed then s[1].amount else 0.0)
                          + (if s[2].claimed then s[2].amount else 0.0) + (if s[3].claimed then s[3].amount else 0.0)
  {
    var s1, s2, s3 := s[1..], s[2..], s[3..];
    assert s1[0] == s[1] && s1[1..] == s2 && s2[0] == s[2] && s2[1..] == s3 && s3[0] == s[3] && s3[1..] == [];
    var b1 := Step(base, s[0]);
    var b2 := Step(b1, s[1]);
    var b3 := Step(b2, s[2]);
    assert ApplyAllowances(base, s) == ApplyAllowances(b1, s1);
    assert ApplyAllowances(b1, s1) == ApplyAllowances(b2, s2);
    assert ApplyAllowances(b2, s2) == ApplyAllowances(b3, s3);
    assert ApplyAllowances(b3, s3) == ApplyAllowances(Step(b3, s[3]), []);
    assert Claimed(s3) == (if s[3].claimed then s[3].amount else 0.0) + Claimed([]);
    assert Claimed(s2) == (if s[2].claimed then s[2].amount else 0.0) + Claimed(s3);
    assert Claimed(s1) == (if s[1].claimed then s[1].amount else 0.0) + Claimed(s2);
    assert Claimed(s) == (if s[0].claimed then s[0].amount else 0.0) + Claimed(s1);
  }

  /** The sum of the allowances the input claims, each at its full configured amount. */
  function ClaimedAllowances(i: Input, c: Config, date: RefDate): real
    requires WellFormed(c)
  {
    (if i.under30Mother then YoungMotherMonthly(c) else 0.0)
    + (if i.personalAllowance then c.deductions.personalAllowanceMonthlyHuf else 0.0)
    + (if i.firstMarriage then c.deductions.firstMarriageMonthlyHuf else 0.0)
    + (if i.children > 0 then FamilyAllowance(i.children, FamilyTable(c, date)) else 0.0)
  }

  /** Without an exemption, the stacked and clamped allowances (young mother, personal,
      first marriage, family) give the same base as subtracting their sum from gross once
      and flooring at zero; with non-negative amounts the order of the steps therefore
      does not change the result. */
  lemma StackedDeductionsClampOnce(i: Input, c: Config, date: RefDate)
    requires WellFormed(c) && NonNegative(c) && 0.0 <= i.gross
    requires !i.mother4plus && !i.under25
    ensures TaxBase(i, c, date) == Max(i.gross - ClaimedAllowances(i, c, date), 0.0)
  {
    var s := Allowances(i, c, date);
    AllowancesNonNegative(i, c, date);
    ApplyAllowancesClampOnce(i.gross, s);
    ApplyFour(i.gross, s);
  }

  // ---------- Exemptions ----------

  /** A mother of four or more, and otherwise anyone under 25, pays no income tax at all,
      whatever the other flags and the number of children; net pay is then gross less TB. */
  lemma FullExemption(i: Input, c: Config, date: RefDate)
    requires WellFormed(c)
    requires i.mother4plus || i.under25
    ensures Calculate(i, c, date).szjaBase == 0.0
    ensures Calculate(i, c, date).szjaDue == 0.0
    ensures Calculate(i, c, date).monthly.netto == i.gross - i.gross * c.rates.tb
  {
  }

  /** Without exemptions, allowances or children the whole gross is taxed. */
  lemma NoAllowanceTaxesGross(i: Input, c: Config, date: RefDate)
    requires WellFormed(c)
    requires !i.mother4plus && !i.under25 && !i.under30Mother && !i.personalAllowance && !i.firstMarriage
    requires i.children == 0
    ensures Calculate(i, c, date).szjaBase == i.gross
    ensures Calculate(i, c, date).szjaDue == i.gross * c.rates.szja
  {
    ApplyFour(i.gross, Allowances(i, c, date));
  }

  /** Income tax never exceeds the rate applied to the whole gross and is never negative. */
  lemma IncomeTaxBounds(i: Input, c: Config, date: RefDate)
    requires WellFormed(c) && NonNegative(c) && 0.0 <= i.gross
    ensures 0.0 <= Calculate(i, c, date).szjaDue <= i.gross * c.rates.szja
    ensures i.gross - i.gross * c.rates.szja - i.gross * c.rates.tb
            <= Calculate(i, c, date).monthly.netto
            <= i.gross - i.gross * c.rates.tb
  {
    TaxBaseBounds(i, c, date);
    SettleTaxBounds(i.gross, TaxBase(i, c, date), c.rates, i.spending);
  }

  lemma SettleTaxBounds(gross: real, szjaBase: real, r: Rates, spending: Option<real>)
    requires 1.0 + r.afaStandard != 0.0
    requires 0.0 <= szjaBase <= gross && 0.0 <= r.szja
    ensures 0.0 <= Settle(gross, szjaBase, r, spending).szjaDue <= gross * r.szja
    ensures gross - gross * r.szja - gross * r.tb
            <= Settle(gross, szjaBase, r, spending).monthly.netto
            <= gross - gross * r.tb
  {
    MulMonotone(szjaBase, gross, r.szja);
  }

  lemma MulMonotone(x: real, y: real, k: real)
    requires 0.0 <= x <= y && 0.0 <= k
    ensures 0.0 <= x * k <= y * k
  {
    assert (y - x) * k >= 0.0;
  }

  // ---------- The family table and the reference date ----------

  /** Outside July to December 2025 the newer family table has no effect on the result, and
      inside that half-year the older one has none. */
  lemma FamilyTableSelection(i: Input, c: Config, date: RefDate, other: seq<real>)
    requires WellFormed(c) && |other| >= 3
    ensures !(date.year == 2025 && 6 <= date.month) ==>
      Calculate(i, c, date) == Calculate(i, c.(deductions := c.deductions.(familyFrom20250701 := other)), date)
    ensures date.year == 2025 && 6 <= date.month ==>
      Calculate(i, c, date) == Calculate(i, c.(deductions := c.deductions.(familyBefore20250701 := other)), date)
  {
    var newer := c.(deductions := c.deductions.(familyFrom20250701 := other));
    var older := c.(deductions := c.deductions.(familyBefore20250701 := other));
    if date.year == 2025 && 6 <= date.month {
      assert Allowances(i, c, date) == Allowances(i, older, date);
      assert TaxBase(i, c, date) == TaxBase(i, older, date);
    } else {
      assert Allowances(i, c, date) == Allowances(i, newer, date);
      assert TaxBase(i, c, date) == TaxBase(i, newer, date);
    }
  }

  /** The comparison with the year 2025 selects the older table again from January 2026
      on: for one child and no other allowance, the base in January 2026 is gross less the
      older one-child amount, as in January 2025, while in December 2025 it is gross less
      the newer one. */
  lemma Year2026UsesBeforeTable(i: Input, c: Config)
    requires WellFormed(c)
    requires !i.mother4plus && !i.under25 && !i.under30Mother && !i.personalAllowance && !i.firstMarriage
    requires i.children == 1
    requires 0.0 <= c.deductions.familyBefore20250701[0] <= i.gross
    requires 0.0 <= c.deductions.familyFrom20250701[0] <= i.gross
    ensures TaxBase(i, c, RefDate(2026, 0)) == TaxBase(i, c, RefDate(2025, 0))
                                            == i.gross - c.deductions.familyBefore20250701[0]
    ensures TaxBase(i, c, RefDate(2025, 11)) == i.gross - c.deductions.familyFrom20250701[0]
  {
    ApplyFour(i.gross, Allowances(i, c, RefDate(2026, 0)));
    ApplyFour(i.gross, Allowances(i, c, RefDate(2025, 0)));
    ApplyFour(i.gross, Allowances(i, c, RefDate(2025, 11)));
  }

  // ---------- Contributions ----------

  /** TB and szocho are the flat rates on gross: no flag, allowance, child, spending or date
      changes them. */
  lemma ContributionsDependOnlyOnGross(i1: Input, i2: Input, c: Config, d1: RefDate, d2: RefDate)
    requires WellFormed(c) && i1.gross == i2.gross
    ensures Calculate(i1, c, d1).tbDue == Calculate(i2, c, d2).tbDue == i1.gross * c.rates.tb
    ensures Calculate(i1, c, d1).monthly.employerPay == Calculate(i2, c, d2).monthly.employerPay
                                                     == i1.gross * c.rates.szocho
  {
    SettleContributions(i1.gross, TaxBase(i1, c, d1), c.rates, i1.spending);
    SettleContributions(i2.gross, TaxBase(i2, c, d2), c.rates, i2.spending);
  }

  lemma SettleContributions(gross: real, szjaBase: real, r: Rates, spending: Option<real>)
    requires 1.0 + r.afaStandard != 0.0
    ensures Settle(gross, szjaBase, r, spending).tbDue == gross * r.tb
    ensures Settle(gross, szjaBase, r, spending).monthly.employerPay == gross * r.szocho
  {
  }

  // ---------- VAT ----------

  /** VAT is the tax already contained in a VAT-inclusive amount: the spending override when
      one is given, net pay otherwise. The pre-tax price `p` left after removing it is such
      that `p * (1 + r)` is the spending and `p * r` is the VAT. */
  lemma VatOnSpending(i: Input, c: Config, date: RefDate)
    requires WellFormed(c)
    ensures var o := Calculate(i, c, date);
            var s := if i.spending.Some? then i.spending.value else o.monthly.netto;
            var r := c.rates.afaStandard;
            && o.monthly.vatPay == s * r / (1.0 + r)
            && (s - o.monthly.vatPay) * (1.0 + r) == s
            && (s - o.monthly.vatPay) * r == o.monthly.vatPay
  {
    var o := Calculate(i, c, date);
    var s := if i.spending.Some? then i.spending.value else o.monthly.netto;
    var r := c.rates.afaStandard;
    GrossUp(s, r);
  }

  lemma GrossUp(s: real, r: real)
    requires 1.0 + r != 0.0
    ensures s * (r / (1.0 + r)) == s * r / (1.0 + r)
    ensures (s - s * (r / (1.0 + r))) * (1.0 + r) == s
    ensures (s - s * (r / (1.0 + r))) * r == s * (r / (1.0 + r))
  {
    var q := r / (1.0 + r);
    assert q * (1.0 + r) == r;
    assert s - s * q == s * (1.0 - q);
    assert (1.0 - q) * (1.0 + r) == 1.0;
    assert (s * (1.0 - q)) * (1.0 + r) == s * ((1.0 - q) * (1.0 + r));
    assert (1.0 - q) * r == q by {
      assert (1.0 - q) * r == r - q * r;
      assert q * (1.0 + r) == q + q * r;
    }
    assert (s * (1.0 - q)) * r == s * ((1.0 - q) * r);
  }

  /** A spending override changes only VAT and the totals: the base, the taxes, the
      contributions and net pay, monthly and yearly, are those computed without it. */
  lemma OverrideOnlyAffectsVat(i: Input, s: real, c: Config, date: RefDate)
    requires WellFormed(c)
    ensures var a := Calculate(i.(spending := Some(s)), c, date);
            var b := Calculate(i.(spending := None), c, date);
            && a.szjaBase == b.szjaBase && a.szjaDue == b.szjaDue && a.tbDue == b.tbDue
            && a.monthly.netto == b.monthly.netto && a.monthly.youPay == b.monthly.youPay
            && a.monthly.employerPay == b.monthly.employerPay
            && a.yearly.netto == b.yearly.netto && a.yearly.youPay == b.yearly.youPay
            && a.yearly.employerPay == b.yearly.employerPay
            && a.monthly.vatPay - b.monthly.vatPay == a.monthly.totalState - b.monthly.totalState
            && a.monthly.vatPay == s * (c.rates.afaStandard / (1.0 + c.rates.afaStandard))
  {
  }

  // ---------- Totals ----------

  /** The state's total is income tax, TB, szocho and VAT; "you pay" is income tax and TB;
      every yearly figure is twelve times the monthly one, so the yearly total is again the
      sum of the yearly parts. */
  lemma TotalsAndYearly(i: Input, c: Config, date: RefDate)
    requires WellFormed(c)
    ensures var o := Calculate(i, c, date);
            && o.monthly.totalState == o.szjaDue + o.tbDue + o.monthly.employerPay + o.monthly.vatPay
            && o.monthly.youPay == o.szjaDue + o.tbDue
            && o.yearly.netto == 12.0 * o.monthly.netto
            && o.yearly.youPay == 12.0 * o.monthly.youPay
            && o.yearly.employerPay == 12.0 * o.monthly.employerPay
            && o.yearly.vatPay == 12.0 * o.monthly.vatPay
            && o.yearly.totalState == 12.0 * o.monthly.totalState
            && o.yearly.totalState == o.yearly.youPay + o.yearly.employerPay + o.yearly.vatPay
            && o.yearly.netto + o.yearly.youPay == 12.0 * i.gross
  {
  }

  // ---------- Worked examples ----------

  function Rates2025(): Rates {
    Rates(0.15, 0.185, 0.13, 0.27)
  }

  /** 500 000 HUF gross with no flag, no child and no override. */
  lemma ExampleNoFlags(d: Deductions, date: RefDate)
    requires |d.familyBefore20250701| >= 3 && |d.familyFrom20250701| >= 3
    ensures var o := Calculate(Input(500000.0, 0, false, false, false, false, false, None),
                               Config(Rates2025(), d), date);
            && o.szjaDue == 75000.0 && o.tbDue == 92500.0 && o.monthly.employerPay == 65000.0
            && o.monthly.netto == 332500.0
            && o.monthly.vatPay == 8977500.0 / 127.0
            && o.monthly.totalState == 232500.0 + 8977500.0 / 127.0
  {
    var i := Input(500000.0, 0, false, false, false, false, false, None);
    ApplyFour(i.gross, Allowances(i, Config(Rates2025(), d), date));
  }

  /** 500 000 HUF gross under 25: no income tax, whatever else is ticked. */
  lemma ExampleUnder25(i: Input, d: Deductions, date: RefDate)
    requires |d.familyBefore20250701| >= 3 && |d.familyFrom20250701| >= 3
    requires i.gross == 500000.0 && i.under25
    ensures var o := Calculate(i, Config(Rates2025(), d), date);
            && o.szjaDue == 0.0 && o.tbDue == 92500.0 && o.monthly.netto == 407500.0
  {
  }
}
