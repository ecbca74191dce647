/** The tax-burden pipeline: standard and itemized deductions, adjusted
    gross income, personal exemption, three credits, the ordinary and
    capital-gains bracket schedules and the total burden, each a function
    of one filer's facts. Money is exact `real`. Ages and counts are taken
    to be `int`: their declarations are in the user-interface class, which
    is not modelled. Negative counts are therefore representable, and are
    handled the way the source's comparisons handle them. */
module TaxCalculator {

  /** The filer facts the calculator reads; it never writes them. */
  datatype Profile = Profile(
    married: bool,
    americanCitizen: bool,
    employed: bool,
    blind: bool,
    spouseBlind: bool,
    age: int,
    spouseAge: int,
    children: int,
    childrenInCollege: int,
    income: real,
    capitalGains: real,
    charitableGivings: real,
    mortgageValue: real,
    medicalExpenses: real)

  /** The source's Math.max on two amounts. */
  function Max(a: real, b: real): real
  {
    if a >= b then a else b
  }

  function Count(b: bool): int
  {
    if b then 1 else 0
  }

  // ---------------------------------------------------------------------
  // Deductions

  /** Zero for a non-citizen; otherwise a base amount plus a fixed step for
      each qualifying flag: 13000 + 1100 per flag among the filer's and the
      spouse's blindness and age 65 or over for a married filer, 6500 + 1400
      per flag among the filer's own two for anyone else. */
  function StandardDeduction(p: Profile): (r: real)
    ensures !p.americanCitizen ==> r == 0.0
    ensures p.americanCitizen && p.married ==>
      r == 13000.0 + 1100.0 * (Count(p.blind) + Count(p.spouseBlind) + Count(p.age >= 65) + Count(p.spouseAge >= 65)) as real
    ensures p.americanCitizen && !p.married ==>
      r == 6500.0 + 1400.0 * (Count(p.blind) + Count(p.age >= 65)) as real
    ensures p.americanCitizen && p.married ==> 13000.0 <= r <= 17400.0
    ensures p.americanCitizen && !p.married ==> 6500.0 <= r <= 9300.0
  {
    if p.married && p.americanCitizen then
      var a0 := 0;
      var a1 := if p.blind then a0 + 1100 else a0;
      var a2 := if p.spouseBlind then a1 + 1100 else a1;
      var a3 := if p.age >= 65 then a2 + 1100 else a2;
      var a4 := if p.spouseAge >= 65 then a3 + 1100 else a3;
      (13000 + a4) as real
    else if p.americanCitizen then
      var a0 := 0;
      var a1 := if p.blind then a0 + 1400 else a0;
      var a2 := if p.age >= 65 then a1 + 1400 else a1;
      (6500 + a2) as real
    else
      0.0
  }

  /** Charitable giving plus mortgage interest plus the medical expenses in
      excess of 7.5% of income less those two. No state-tax term is added.
      The medical part is never negative, so charitable giving and mortgage
      always count in full; where medical expenses exceed the floor, each
      dollar of giving or mortgage counts 1.075 times, because it also
      lowers the floor. */
  function ItemizedDeductions(p: Profile): (r: real)
    ensures r >= p.charitableGivings + p.mortgageValue
    ensures p.medicalExpenses <= 0.075 * (p.income - p.charitableGivings - p.mortgageValue) ==>
      r == p.charitableGivings + p.mortgageValue
    ensures p.medicalExpenses > 0.075 * (p.income - p.charitableGivings - p.mortgageValue) ==>
      r == p.medicalExpenses + 1.075 * (p.charitableGivings + p.mortgageValue) - 0.075 * p.income
  {
    var firstThree := p.charitableGivings + p.mortgageValue;
    var adjustedIncome := p.income - firstThree;
    var medicalExpenseDeduction := Max(p.medicalExpenses - adjustedIncome * 0.075, 0.0);
    firstThree + medicalExpenseDeduction
  }

  /** The deduction actually taken: the larger of the two. */
  function ChosenDeduction(p: Profile): (d: real)
    ensures d >= StandardDeduction(p) && d >= ItemizedDeductions(p)
    ensures d == StandardDeduction(p) || d == ItemizedDeductions(p)
    ensures d >= 0.0
  {
    Max(StandardDeduction(p), ItemizedDeductions(p))
  }

  // ---------------------------------------------------------------------
  // Adjusted gross income and personal exemption

  /** Income less the chosen deduction, never below zero; on a tie between
      the two deductions the source takes the standard one, with the same
      result. */
  function Agi(p: Profile): (r: real)
    ensures r >= 0.0
    ensures r == if p.income > ChosenDeduction(p) then p.income - ChosenDeduction(p) else 0.0
    ensures p.income >= 0.0 ==> r <= p.income
  {
    var itemized := ItemizedDeductions(p);
    var standard := StandardDeduction(p);
    if itemized > standard then
      Max(p.income - itemized, 0.0)
    else
      Max(p.income - standard, 0.0)
  }

  /** The AGI above which no exemption is allowed: 462000 for a married
      filer, 380750 for anyone else. */
  function ExemptionCutoff(married: bool): real
  {
    if married then 462000.0 else 380750.0
  }

  /** 4150 per household member (the filer, a spouse if married, each child
      and each child in college) up to the cutoff, and nothing above it. */
  function PersonalExemption(p: Profile): (r: real)
    ensures Agi(p) > ExemptionCutoff(p.married) ==> r == 0.0
    ensures Agi(p) <= ExemptionCutoff(p.married) ==>
      r == 4150.0 * ((if p.married then 2 else 1) + p.children + p.childrenInCollege) as real
    ensures p.children >= 0 && p.childrenInCollege >= 0 ==>
      r >= 0.0 && (r == 0.0 <==> Agi(p) > ExemptionCutoff(p.married))
  {
    var agi := Agi(p);
    if agi > 462000.0 || (agi > 380750.0 && !p.married) then
      0.0
    else if p.married then
      ((2 + p.children + p.childrenInCollege) * 4150) as real
    else
      ((1 + p.children + p.childrenInCollege) * 4150) as real
  }

  // ---------------------------------------------------------------------
  // Credits

  /** Which EITC tier a dependent count falls into: 0, 1, 2, or 3 for three
      or more (a negative count also lands in the last tier, as in the
      source's final else). */
  function EitcTier(dependents: int): (k: nat)
    ensures k < 4
    ensures 0 <= dependents <= 2 ==> k == dependents
    ensures !(0 <= dependents <= 2) ==> k == 3
  {
    if dependents == 0 then 0 else if dependents == 1 then 1 else if dependents == 2 then 2 else 3
  }

  /** The credit of each tier. */
  function EitcAmount(tier: nat): real
    requires tier < 4
  {
    [487.0, 3250.0, 5372.0, 6044.0][tier]
  }

  /** The largest AGI (inclusive) at which each tier is still paid. */
  function EitcLimit(married: bool, tier: nat): real
    requires tier < 4
  {
    if married then [20600.0, 45207.0, 50597.0, 53930.0][tier]
    else [15010.0, 39617.0, 45007.0, 48340.0][tier]
  }

  /** Whether the filer earns the EITC of their tier at the given AGI. */
  predicate EitcQualifies(p: Profile, agi: real)
  {
    var tier := EitcTier(p.children + p.childrenInCollege);
    && p.employed && p.americanCitizen && p.capitalGains <= 3450.0
    && (tier == 0 ==> 25 <= p.age <= 65)
    && agi <= EitcLimit(p.married, tier)
  }

  /** Earned income tax credit: the amount of the filer's tier when they
      qualify, else nothing; never a partial amount. */
  function Eitc(p: Profile, agi: real): (r: real)
    ensures r == if EitcQualifies(p, agi) then EitcAmount(EitcTier(p.children + p.childrenInCollege)) else 0.0
    ensures r in {0.0, 487.0, 3250.0, 5372.0, 6044.0}
  {
    var dependents := p.children + p.childrenInCollege;
    if !p.employed || !p.americanCitizen || p.capitalGains > 3450.0 then
      0.0
    else if dependents == 0 then
      if p.age > 65 || p.age < 25 || agi > 20600.0 || (!p.married && agi > 15010.0) then 0.0 else 487.0
    else if dependents == 1 then
      if agi > 45207.0 || (!p.married && agi > 39617.0) then 0.0 else 3250.0
    else if dependents == 2 then
      if agi > 50597.0 || (!p.married && agi > 45007.0) then 0.0 else 5372.0
    else
      if agi > 53930.0 || (!p.married && agi > 48340.0) then 0.0 else 6044.0
  }

  /** The AGI (exclusive) below which the child credit is paid. */
  function ChildCreditCliff(married: bool): real
  {
    if married then 110000.0 else 75000.0
  }

  /** 1000 per child (children in college do not count) strictly below the
      cliff, nothing from the cliff on. */
  function ChildCredit(p: Profile, agi: real): (r: real)
    ensures r == if agi < ChildCreditCliff(p.married) then 1000.0 * p.children as real else 0.0
    ensures p.children >= 0 ==> r >= 0.0
  {
    if agi < 110000.0 && p.married then
      (p.children * 1000) as real
    else if agi < 75000.0 && !p.married then
      (p.children * 1000) as real
    else
      0.0
  }

  /** The AGI (inclusive) up to which the AOTC is paid. */
  function AotcCliff(married: bool): real
  {
    if married then 180000.0 else 80000.0
  }

  /** American Opportunity Tax Credit: 2500 per child in college up to the
      cliff, nothing above it. */
  function Aotc(p: Profile, agi: real): (r: real)
    ensures r == if agi <= AotcCliff(p.married) then 2500.0 * p.childrenInCollege as real else 0.0
    ensures p.childrenInCollege >= 0 ==> r >= 0.0
  {
    if (!p.married && agi > 80000.0) || (p.married && agi > 180000.0) then
      0.0
    else
      (2500 * p.childrenInCollege) as real
  }

  /** The three credits at a given AGI. For non-negative counts the sum is
      non-negative and at most the largest EITC plus the full child and
      college amounts. */
  function CreditsAt(p: Profile, agi: real): (r: real)
    ensures p.children >= 0 && p.childrenInCollege >= 0 ==>
      0.0 <= r <= 6044.0 + 1000.0 * p.children as real + 2500.0 * p.childrenInCollege as real
  {
    var eitc := Eitc(p, agi);
    var childCredit := ChildCredit(p, agi);
    var aotc := Aotc(p, agi);
    aotc + eitc + childCredit
  }

  /** The credits at the filer's own AGI, computed once. */
  function Credits(p: Profile): (r: real)
    ensures p.children >= 0 && p.childrenInCollege >= 0 ==> r >= 0.0
  {
    CreditsAt(p, Agi(p))
  }

  // ---------------------------------------------------------------------
  // Bracket schedules and the total burden

  /** AGI less the personal exemption, never below zero. */
  function TaxableIncome(p: Profile): (r: real)
    ensures r >= 0.0
    ensures p.children >= 0 && p.childrenInCollege >= 0 ==> r <= Agi(p)
  {
    Max(Agi(p) - PersonalExemption(p), 0.0)
  }

  /** The married ordinary schedule as written: 10% up to 18650, then base
      amount plus marginal rate on the excess over the highest breakpoint
      passed. Between the 10% and 39.6% rates, the effective rate stays
      within the marginal ones. */
  function MarriedIncomeTax(t: real): (r: real)
    ensures t >= 0.0 ==> 0.1 * t <= r <= 0.396 * t
  {
    if t > 470000.0 then 131628.0 + 0.396 * (t - 470000.0)
    else if t > 416700.0 then 112728.0 + 0.35 * (t - 416700.0)
    else if t > 233350.0 then 52222.50 + 0.33 * (t - 233350.0)
    else if t > 153100.0 then 29752.50 + 0.28 * (t - 153100.0)
    else if t > 75900.0 then 10542.50 + 0.25 * (t - 75900.0)
    else if t > 18650.0 then 1865.0 + 0.15 * (t - 18650.0)
    else 0.1 * t
  }

  /** The unmarried ordinary schedule, breakpoints 9325, 37950, 91900,
      191650, 416700 and 418400. */
  function UnmarriedIncomeTax(t: real): (r: real)
    ensures t >= 0.0 ==> 0.1 * t <= r <= 0.396 * t
  {
    if t > 418400.0 then 121505.25 + 0.396 * (t - 418400.0)
    else if t > 416700.0 then 120910.25 + 0.35 * (t - 416700.0)
    else if t > 191650.0 then 46643.75 + 0.33 * (t - 191650.0)
    else if t > 91900.0 then 18713.75 + 0.28 * (t - 91900.0)
    else if t > 37950.0 then 5226.25 + 0.25 * (t - 37950.0)
    else if t > 9325.0 then 932.5 + 0.15 * (t - 9325.0)
    else t * 0.1
  }

  function IncomeTax(married: bool, t: real): (r: real)
    ensures t >= 0.0 ==> 0.1 * t <= r <= 0.396 * t
  {
    if married then MarriedIncomeTax(t) else UnmarriedIncomeTax(t)
  }

  /** The gains below which no capital-gains tax is due. */
  function GainsThreshold(married: bool): real
  {
    if married then 75900.0 else 37950.0
  }

  /** The married capital-gains schedule as written: nothing up to 75900,
      20% of the excess over 75900 up to 470000, and 59115 plus 20% of the
      excess over 470000 above that. */
  function MarriedCapitalGainsTax(g: real): (r: real)
    ensures r == 0.0 <==> g <= 75900.0
    ensures g >= 0.0 ==> 0.0 <= r <= 0.2 * g
  {
    if g > 470000.0 then 59115.0 + 0.20 * (g - 470000.0)
    else if g > 75900.0 then 0.20 * (g - 75900.0)
    else 0.0
  }

  /** The unmarried capital-gains schedule: nothing up to 37950, 15% of the
      excess up to 418400, and 57067.5 plus 20% of the excess over 418400
      above that. */
  function UnmarriedCapitalGainsTax(g: real): (r: real)
    ensures r == 0.0 <==> g <= 37950.0
    ensures g >= 0.0 ==> 0.0 <= r <= 0.2 * g
  {
    if g > 418400.0 then 57067.5 + 0.20 * (g - 418400.0)
    else if g > 37950.0 then 0.15 * (g - 37950.0)
    else 0.0
  }

  function CapitalGainsTax(married: bool, g: real): (r: real)
    ensures r == 0.0 <==> g <= GainsThreshold(married)
    ensures g >= 0.0 ==> 0.0 <= r <= 0.2 * g
  {
    if married then MarriedCapitalGainsTax(g) else UnmarriedCapitalGainsTax(g)
  }

  /** Ordinary tax on taxable income plus capital-gains tax on the gains
      (not on taxable income), less the credits. Before credits the burden
      is at least 10% of taxable income and at most 39.6% of it plus 20% of
      the gains; after credits it can be negative, a payment to the filer. */
  function TaxBurden(p: Profile): (r: real)
    ensures r + Credits(p) >= 0.1 * TaxableIncome(p) + CapitalGainsTax(p.married, p.capitalGains)
    ensures p.capitalGains >= 0.0 ==>
      r + Credits(p) <= 0.396 * TaxableIncome(p) + 0.2 * p.capitalGains
  {
    var taxableIncome := TaxableIncome(p);
    var incomeTaxBurden := IncomeTax(p.married, taxableIncome);
    var capitalGainsTaxBurden := CapitalGainsTax(p.married, p.capitalGains);
    incomeTaxBurden + capitalGainsTaxBurden - Credits(p)
  }
}
