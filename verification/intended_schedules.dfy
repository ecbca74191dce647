/** The married-filer schedules with the three misprinted constants
    corrected, and the tax burden computed with them. The corrections are
    the ones the surrounding constants themselves imply: each base amount
    equals the tax at the top of the tier below, and the top breakpoint is
    where the 35% tier reaches the 39.6% base. */
module IntendedSchedules {
  import opened TaxCalculator
  import opened TaxProperties

  /** The married ordinary schedule with base 10452.50 at 75900 (1865 plus
      15% of 57250) and the 39.6% tier from 470700 (where 112728 plus 35% of
      the excess over 416700 reaches 131628). */
  function MarriedIncomeTaxIntended(t: real): (r: real)
    ensures t >= 0.0 ==> 0.1 * t <= r <= 0.396 * t
  {
    if t > 470700.0 then 131628.0 + 0.396 * (t - 470700.0)
    else if t > 416700.0 then 112728.0 + 0.35 * (t - 416700.0)
    else if t > 233350.0 then 52222.50 + 0.33 * (t - 233350.0)
    else if t > 153100.0 then 29752.50 + 0.28 * (t - 153100.0)
    else if t > 75900.0 then 10452.50 + 0.25 * (t - 75900.0)
    else if t > 18650.0 then 1865.0 + 0.15 * (t - 18650.0)
    else 0.1 * t
  }

  /** The married capital-gains schedule with the middle rate of 15% that
      its own base amount implies: 59115 is 15% of 470000 - 75900. */
  function MarriedCapitalGainsTaxIntended(g: real): (r: real)
    ensures r == 0.0 <==> g <= 75900.0
    ensures g >= 0.0 ==> 0.0 <= r <= 0.2 * g
  {
    if g > 470000.0 then 59115.0 + 0.20 * (g - 470000.0)
    else if g > 75900.0 then 0.15 * (g - 75900.0)
    else 0.0
  }

  function IncomeTaxIntended(married: bool, t: real): (r: real)
    ensures t >= 0.0 ==> 0.1 * t <= r <= 0.396 * t
    ensures !married ==> r == UnmarriedIncomeTax(t)
  {
    if married then MarriedIncomeTaxIntended(t) else UnmarriedIncomeTax(t)
  }

  function CapitalGainsTaxIntended(married: bool, g: real): (r: real)
    ensures r == 0.0 <==> g <= GainsThreshold(married)
    ensures g >= 0.0 ==> 0.0 <= r <= 0.2 * g
    ensures !married ==> r == UnmarriedCapitalGainsTax(g)
  {
    if married then MarriedCapitalGainsTaxIntended(g) else UnmarriedCapitalGainsTax(g)
  }

  /** The tax burden of the source's pipeline with the corrected married
      schedules in place of the misprinted ones. */
  function TaxBurdenIntended(p: Profile): (r: real)
    ensures r + Credits(p) >= 0.1 * TaxableIncome(p) + CapitalGainsTaxIntended(p.married, p.capitalGains)
    ensures p.capitalGains >= 0.0 ==>
      r + Credits(p) <= 0.396 * TaxableIncome(p) + 0.2 * p.capitalGains
  {
    var taxableIncome := TaxableIncome(p);
    IncomeTaxIntended(p.married, taxableIncome)
      + CapitalGainsTaxIntended(p.married, p.capitalGains) - Credits(p)
  }

  // ---------------------------------------------------------------------
  // The corrected schedules rise smoothly

  /** The corrected married schedule rises by between 10% and 39.6% of any
      increase, with no exception. */
  lemma MarriedIncomeTaxIntendedSlope(x: real, y: real)
    requires x <= y
    ensures 0.1 * (y - x) <= MarriedIncomeTaxIntended(y) - MarriedIncomeTaxIntended(x) <= 0.396 * (y - x)
  {
  }

  lemma MarriedCapitalGainsTaxIntendedSlope(x: real, y: real)
    requires x <= y
    ensures 0.0 <= MarriedCapitalGainsTaxIntended(y) - MarriedCapitalGainsTaxIntended(x) <= 0.2 * (y - x)
  {
  }

  /** With the corrections, ordinary tax never falls as taxable income
      rises, whatever the filing status. */
  lemma IncomeTaxIntendedMonotone(married: bool, x: real, y: real)
    requires x <= y
    ensures IncomeTaxIntended(married, x) <= IncomeTaxIntended(married, y)
  {
    if married { MarriedIncomeTaxIntendedSlope(x, y); } else { UnmarriedIncomeTaxSlope(x, y); }
  }

  /** With the correction, gains tax never falls as gains rise, whatever
      the filing status. */
  lemma CapitalGainsTaxIntendedMonotone(married: bool, x: real, y: real)
    requires x <= y
    ensures CapitalGainsTaxIntended(married, x) <= CapitalGainsTaxIntended(married, y)
  {
    if married { MarriedCapitalGainsTaxIntendedSlope(x, y); } else { UnmarriedCapitalGainsTaxSlope(x, y); }
  }

  lemma MarriedIncomeTaxIntendedContinuous(x: real)
    ensures ContinuousAt(MarriedIncomeTaxIntended, x)
  {
    forall y | x - 1.0 < y < x + 1.0
      ensures Abs(MarriedIncomeTaxIntended(y) - MarriedIncomeTaxIntended(x)) <= Abs(y - x)
    {
      if x <= y { MarriedIncomeTaxIntendedSlope(x, y); } else { MarriedIncomeTaxIntendedSlope(y, x); }
    }
    SlowNearIsContinuous(MarriedIncomeTaxIntended, x, 1.0);
  }

  lemma MarriedCapitalGainsTaxIntendedContinuous(x: real)
    ensures ContinuousAt(MarriedCapitalGainsTaxIntended, x)
  {
    forall y | x - 1.0 < y < x + 1.0
      ensures Abs(MarriedCapitalGainsTaxIntended(y) - MarriedCapitalGainsTaxIntended(x)) <= Abs(y - x)
    {
      if x <= y { MarriedCapitalGainsTaxIntendedSlope(x, y); } else { MarriedCapitalGainsTaxIntendedSlope(y, x); }
    }
    SlowNearIsContinuous(MarriedCapitalGainsTaxIntended, x, 1.0);
  }

  // ---------------------------------------------------------------------
  // How far the schedules as written are off

  /** As written, the married ordinary schedule charges exactly 90 too much
      on (75900, 153100], between 245 and 277.20 too much on
      (470000, 470700], exactly 277.20 (39.6% of the missing 700) too much
      above 470700, and the corrected amount everywhere else. */
  lemma MarriedIncomeTaxOvercharge(t: real)
    ensures 75900.0 < t <= 153100.0 ==> MarriedIncomeTax(t) == MarriedIncomeTaxIntended(t) + 90.0
    ensures 470000.0 < t <= 470700.0 ==>
      MarriedIncomeTaxIntended(t) + 245.0 < MarriedIncomeTax(t) <= MarriedIncomeTaxIntended(t) + 277.20
    ensures t > 470700.0 ==> MarriedIncomeTax(t) == MarriedIncomeTaxIntended(t) + 277.20
    ensures !(75900.0 < t <= 153100.0) && t <= 470000.0 ==>
      MarriedIncomeTax(t) == MarriedIncomeTaxIntended(t)
  {
  }

  /** As written, the married gains schedule charges an extra 5% of the
      gains over 75900 on (75900, 470000], and the corrected amount
      everywhere else. */
  lemma MarriedCapitalGainsTaxOvercharge(g: real)
    ensures 75900.0 < g <= 470000.0 ==>
      MarriedCapitalGainsTax(g) == MarriedCapitalGainsTaxIntended(g) + 0.05 * (g - 75900.0)
    ensures !(75900.0 < g <= 470000.0) ==> MarriedCapitalGainsTax(g) == MarriedCapitalGainsTaxIntended(g)
  {
  }

  /** The burden as written is never below the corrected one, equals it
      for every unmarried filer, and exceeds it for a married filer by at
      most 277.20 on ordinary income plus 5% of the 394100 of the middle
      gains tier. */
  lemma TaxBurdenOvercharge(p: Profile)
    ensures TaxBurdenIntended(p) <= TaxBurden(p)
    ensures !p.married ==> TaxBurdenIntended(p) == TaxBurden(p)
    ensures p.married ==> TaxBurden(p) - TaxBurdenIntended(p) <= 277.20 + 0.05 * 394100.0
  {
    MarriedIncomeTaxOvercharge(TaxableIncome(p));
    MarriedCapitalGainsTaxOvercharge(p.capitalGains);
  }
}
