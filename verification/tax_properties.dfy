/** Properties of the tax pipeline that relate several calls: how each
    bracket schedule grows, where it is continuous and where it jumps, how
    the credits fall as AGI rises, and worked examples. */
module TaxProperties {
  import opened TaxCalculator

  function Abs(x: real): real
  {
    if x >= 0.0 then x else -x
  }

  // ---------------------------------------------------------------------
  // Continuity, in the epsilon-delta sense

  /** Every point within d of x has f within eps of f(x). */
  ghost predicate Within(f: real -> real, x: real, d: real, eps: real)
  {
    forall y :: x - d < y < x + d ==> -eps < f(y) - f(x) < eps
  }

  /** Some neighbourhood of x keeps f within eps of f(x). */
  ghost predicate HasModulus(f: real -> real, x: real, eps: real)
  {
    exists d :: d > 0.0 && Within(f, x, d, eps)
  }

  ghost predicate ContinuousAt(f: real -> real, x: real)
  {
    forall eps :: eps > 0.0 ==> HasModulus(f, x, eps)
  }

  /** On the open interval of radius r around x, f moves no faster than its
      argument. */
  ghost predicate SlowNear(f: real -> real, x: real, r: real)
  {
    forall y :: x - r < y < x + r ==> Abs(f(y) - f(x)) <= Abs(y - x)
  }

  /** A function that moves no faster than its argument near x is
      continuous at x. */
  lemma SlowNearIsContinuous(f: real -> real, x: real, r: real)
    requires r > 0.0 && SlowNear(f, x, r)
    ensures ContinuousAt(f, x)
  {
    forall eps: real | eps > 0.0
      ensures HasModulus(f, x, eps)
    {
      var d := if eps < r then eps else r;
      assert Within(f, x, d, eps);
    }
  }

  // ---------------------------------------------------------------------
  // Ordinary income tax

  /** The unmarried schedule rises at least 10% and at most 39.6% of any
      increase in taxable income: its base amounts agree with its rates at
      every breakpoint. */
  lemma UnmarriedIncomeTaxSlope(x: real, y: real)
    requires x <= y
    ensures 0.1 * (y - x) <= UnmarriedIncomeTax(y) - UnmarriedIncomeTax(x) <= 0.396 * (y - x)
  {
  }

  /** The married schedule rises by between 10% and 39.6% of any increase
      on an interval that crosses none of its three misaligned breakpoints
      75900, 153100 and 470000. */
  lemma MarriedIncomeTaxSlope(x: real, y: real)
    requires x <= y
    requires !(x <= 75900.0 < y) && !(x <= 153100.0 < y) && !(x <= 470000.0 < y)
    ensures 0.1 * (y - x) <= MarriedIncomeTax(y) - MarriedIncomeTax(x) <= 0.396 * (y - x)
  {
  }

  /** Married ordinary tax never falls as taxable income rises, except
      across 153100: the jumps at 75900 and 470000 go up. */
  lemma MarriedIncomeTaxMonotoneAway153100(x: real, y: real)
    requires x <= y && !(x <= 153100.0 < y)
    ensures MarriedIncomeTax(x) <= MarriedIncomeTax(y)
  {
  }

  /** The drop at 153100 is recovered from 153100 + 90 / 0.28 on: from
      there, married tax is at least the tax at any smaller income. */
  lemma MarriedIncomeTaxRecovers(x: real, y: real)
    requires x <= y && y >= 153100.0 + 90.0 / 0.28
    ensures MarriedIncomeTax(x) <= MarriedIncomeTax(y)
  {
    var z := 153100.0 + 90.0 / 0.28;
    if x <= 153100.0 {
      MarriedIncomeTaxMonotoneAway153100(x, 153100.0);
      MarriedIncomeTaxMonotoneAway153100(z, y);
      assert MarriedIncomeTax(z) == MarriedIncomeTax(153100.0);
    } else {
      MarriedIncomeTaxMonotoneAway153100(x, y);
    }
  }

  /** Unmarried ordinary tax never falls as taxable income rises. */
  lemma UnmarriedIncomeTaxMonotone(x: real, y: real)
    requires x <= y
    ensures UnmarriedIncomeTax(x) <= UnmarriedIncomeTax(y)
  {
    UnmarriedIncomeTaxSlope(x, y);
  }

  /** The unmarried schedule is continuous everywhere. */
  lemma UnmarriedIncomeTaxContinuous(x: real)
    ensures ContinuousAt(UnmarriedIncomeTax, x)
  {
    forall y | x - 1.0 < y < x + 1.0
      ensures Abs(UnmarriedIncomeTax(y) - UnmarriedIncomeTax(x)) <= Abs(y - x)
    {
      if x <= y { UnmarriedIncomeTaxSlope(x, y); } else { UnmarriedIncomeTaxSlope(y, x); }
    }
    SlowNearIsContinuous(UnmarriedIncomeTax, x, 1.0);
  }

  /** The distance from x to the nearest of the married schedule's three
      misaligned breakpoints. */
  function MarriedGap(x: real): (r: real)
    ensures r >= 0.0
    ensures r == 0.0 <==> x == 75900.0 || x == 153100.0 || x == 470000.0
    ensures r <= Abs(x - 75900.0) && r <= Abs(x - 153100.0) && r <= Abs(x - 470000.0)
  {
    var a := Abs(x - 75900.0);
    var b := Abs(x - 153100.0);
    var c := Abs(x - 470000.0);
    var ab := if a < b then a else b;
    if ab < c then ab else c
  }

  /** The married schedule is continuous everywhere except at 75900, 153100
      and 470000. */
  lemma MarriedIncomeTaxContinuousElsewhere(x: real)
    requires x != 75900.0 && x != 153100.0 && x != 470000.0
    ensures ContinuousAt(MarriedIncomeTax, x)
  {
    var r := MarriedGap(x);
    forall y | x - r < y < x + r
      ensures Abs(MarriedIncomeTax(y) - MarriedIncomeTax(x)) <= Abs(y - x)
    {
      if x <= y { MarriedIncomeTaxSlope(x, y); } else { MarriedIncomeTaxSlope(y, x); }
    }
    SlowNearIsContinuous(MarriedIncomeTax, x, r);
  }

  /** At 75900 the married schedule jumps up by 90: the tier below reaches
      10452.50 there, the tier above starts from 10542.50. */
  lemma MarriedIncomeTaxJumpsAt75900()
    ensures MarriedIncomeTax(75900.0) == 10452.50
    ensures forall d :: d > 0.0 ==> !Within(MarriedIncomeTax, 75900.0, d, 90.0)
    ensures !ContinuousAt(MarriedIncomeTax, 75900.0)
  {
    forall d | d > 0.0
      ensures !Within(MarriedIncomeTax, 75900.0, d, 90.0)
    {
      var y := 75900.0 + d / 2.0;
      assert MarriedIncomeTax(y) - MarriedIncomeTax(75900.0) >= 90.0;
    }
    assert !HasModulus(MarriedIncomeTax, 75900.0, 90.0);
  }

  /** At 153100 the married schedule drops by 90: the tier below, built on
      the raised base of 10542.50, reaches 29842.50 there, while the tier
      above starts from 29752.50. A married filer can owe less ordinary tax
      on a larger taxable income. */
  lemma MarriedIncomeTaxDropsAt153100()
    ensures MarriedIncomeTax(153100.0) == 29842.50
    ensures MarriedIncomeTax(153101.0) < MarriedIncomeTax(153100.0)
    ensures forall d :: d > 0.0 ==> !Within(MarriedIncomeTax, 153100.0, d, 80.0)
    ensures !ContinuousAt(MarriedIncomeTax, 153100.0)
  {
    forall d | d > 0.0
      ensures !Within(MarriedIncomeTax, 153100.0, d, 80.0)
    {
      var y := 153100.0 + (if d < 1.0 then d else 1.0) / 2.0;
      assert MarriedIncomeTax(y) - MarriedIncomeTax(153100.0) <= -80.0;
    }
    assert !HasModulus(MarriedIncomeTax, 153100.0, 80.0);
  }

  /** At 470000 the married schedule jumps up by 245: the tier below
      reaches 131383 there, the tier above starts from 131628. */
  lemma MarriedIncomeTaxJumpsAt470000()
    ensures MarriedIncomeTax(470000.0) == 131383.0
    ensures forall d :: d > 0.0 ==> !Within(MarriedIncomeTax, 470000.0, d, 245.0)
    ensures !ContinuousAt(MarriedIncomeTax, 470000.0)
  {
    forall d | d > 0.0
      ensures !Within(MarriedIncomeTax, 470000.0, d, 245.0)
    {
      var y := 470000.0 + d / 2.0;
      assert MarriedIncomeTax(y) - MarriedIncomeTax(470000.0) >= 245.0;
    }
    assert !HasModulus(MarriedIncomeTax, 470000.0, 245.0);
  }

  // ---------------------------------------------------------------------
  // Capital-gains tax

  /** The unmarried gains schedule rises by between 0% and 20% of any
      increase in gains. */
  lemma UnmarriedCapitalGainsTaxSlope(x: real, y: real)
    requires x <= y
    ensures 0.0 <= UnmarriedCapitalGainsTax(y) - UnmarriedCapitalGainsTax(x) <= 0.2 * (y - x)
  {
  }

  /** The married gains schedule rises by between 0% and 20% of any
      increase that does not cross 470000. */
  lemma MarriedCapitalGainsTaxSlope(x: real, y: real)
    requires x <= y
    requires !(x <= 470000.0 < y)
    ensures 0.0 <= MarriedCapitalGainsTax(y) - MarriedCapitalGainsTax(x) <= 0.2 * (y - x)
  {
  }

  lemma UnmarriedCapitalGainsTaxContinuous(x: real)
    ensures ContinuousAt(UnmarriedCapitalGainsTax, x)
  {
    forall y | x - 1.0 < y < x + 1.0
      ensures Abs(UnmarriedCapitalGainsTax(y) - UnmarriedCapitalGainsTax(x)) <= Abs(y - x)
    {
      if x <= y { UnmarriedCapitalGainsTaxSlope(x, y); } else { UnmarriedCapitalGainsTaxSlope(y, x); }
    }
    SlowNearIsContinuous(UnmarriedCapitalGainsTax, x, 1.0);
  }

  lemma MarriedCapitalGainsTaxContinuousElsewhere(x: real)
    requires x != 470000.0
    ensures ContinuousAt(MarriedCapitalGainsTax, x)
  {
    var r := Abs(x - 470000.0);
    forall y | x - r < y < x + r
      ensures Abs(MarriedCapitalGainsTax(y) - MarriedCapitalGainsTax(x)) <= Abs(y - x)
    {
      if x <= y { MarriedCapitalGainsTaxSlope(x, y); } else { MarriedCapitalGainsTaxSlope(y, x); }
    }
    SlowNearIsContinuous(MarriedCapitalGainsTax, x, r);
  }

  /** At 470000 the married gains schedule drops from 78820 to just above
      59115, so it is neither continuous nor monotone there. */
  lemma MarriedCapitalGainsTaxDropsAt470000()
    ensures MarriedCapitalGainsTax(470000.0) == 78820.0
    ensures MarriedCapitalGainsTax(470001.0) < MarriedCapitalGainsTax(470000.0)
    ensures forall d :: d > 0.0 ==> !Within(MarriedCapitalGainsTax, 470000.0, d, 19000.0)
    ensures !ContinuousAt(MarriedCapitalGainsTax, 470000.0)
  {
    forall d | d > 0.0
      ensures !Within(MarriedCapitalGainsTax, 470000.0, d, 19000.0)
    {
      var y := 470000.0 + (if d < 1.0 then d else 1.0) / 2.0;
      assert MarriedCapitalGainsTax(y) - MarriedCapitalGainsTax(470000.0) <= -19000.0;
    }
    assert !HasModulus(MarriedCapitalGainsTax, 470000.0, 19000.0);
  }

  // ---------------------------------------------------------------------
  // Deductions, exemption and credits

  /** For an unmarried filer the spouse's flags do not matter. */
  lemma StandardDeductionIgnoresSpouse(p: Profile, spouseBlind: bool, spouseAge: int)
    requires !p.married
    ensures StandardDeduction(p.(spouseBlind := spouseBlind, spouseAge := spouseAge)) == StandardDeduction(p)
  {
  }

  /** With non-negative counts, a higher AGI never yields more credit: each
      credit is a cliff or a set of cliffs in AGI. */
  lemma CreditsNonIncreasing(p: Profile, a1: real, a2: real)
    requires p.children >= 0 && p.childrenInCollege >= 0
    requires a1 <= a2
    ensures CreditsAt(p, a2) <= CreditsAt(p, a1)
  {
  }

  /** Each credit takes one of two values, depending only on which side of
      its threshold the AGI lies: between thresholds it does not move. */
  lemma CreditsAreSteps(p: Profile, a1: real, a2: real)
    requires a1 <= EitcLimit(p.married, EitcTier(p.children + p.childrenInCollege)) <==>
             a2 <= EitcLimit(p.married, EitcTier(p.children + p.childrenInCollege))
    requires a1 < ChildCreditCliff(p.married) <==> a2 < ChildCreditCliff(p.married)
    requires a1 <= AotcCliff(p.married) <==> a2 <= AotcCliff(p.married)
    ensures CreditsAt(p, a1) == CreditsAt(p, a2)
  {
  }

  // ---------------------------------------------------------------------
  // Worked examples

  /** A single 30-year-old employed citizen earning 10000 with nothing else:
      AGI 3500, exemption 4150, no taxable income, the childless EITC of
      487, so the government owes the filer 487. */
  lemma SingleLowIncomeExample(p: Profile)
    requires !p.married && p.americanCitizen && p.employed && !p.blind && p.age == 30
    requires p.children == 0 && p.childrenInCollege == 0
    requires p.income == 10000.0 && p.capitalGains == 0.0
    requires p.charitableGivings == 0.0 && p.mortgageValue == 0.0 && p.medicalExpenses == 0.0
    ensures Agi(p) == 3500.0
    ensures TaxableIncome(p) == 0.0
    ensures Credits(p) == 487.0
    ensures TaxBurden(p) == -487.0
  {
  }

  /** A married couple, both 70 and blind, two children, income 200000,
      mortgage interest 20000 and giving 5000: itemizing (25000, with no
      state-tax term) beats the standard 17400; AGI 175000, exemption 16600,
      taxable income 158400 in the 28% tier, no credits. */
  lemma MarriedItemizingExample(p: Profile)
    requires p.married && p.americanCitizen && p.employed
    requires p.blind && p.spouseBlind && p.age == 70 && p.spouseAge == 70
    requires p.children == 2 && p.childrenInCollege == 0
    requires p.income == 200000.0 && p.capitalGains == 0.0
    requires p.charitableGivings == 5000.0 && p.mortgageValue == 20000.0 && p.medicalExpenses == 0.0
    ensures Agi(p) == 175000.0
    ensures TaxableIncome(p) == 158400.0
    ensures Credits(p) == 0.0
    ensures TaxBurden(p) == 31236.5
  {
  }

  /** The exemption cutoff is exclusive: a married filer at an AGI of
      exactly 462000 keeps it, one cent above loses it. */
  lemma ExemptionCutoffExclusive(p: Profile)
    requires p.married && p.children >= 0 && p.childrenInCollege >= 0
    ensures Agi(p) == 462000.0 ==> PersonalExemption(p) >= 8300.0
    ensures Agi(p) == 462000.01 ==> PersonalExemption(p) == 0.0
  {
  }
}
