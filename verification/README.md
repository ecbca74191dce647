# Tax burden calculator, modelled in Dafny

This project models the computational core of a small United States federal
tax-burden calculator. The model covers:

- the standard and itemized deductions, and the choice of the larger one;
- adjusted gross income (AGI) and the personal exemption;
- three credits: the earned income tax credit (EITC), the child tax credit
  and the American Opportunity Tax Credit (AOTC);
- the ordinary and capital-gains bracket schedules for married and
  unmarried filers, and the total burden;
- the state income-tax table and the state tax deduction looked up in it.

The source reads every filer fact from static fields of its user
interface. Here those facts are one `Profile` value passed to every
function. Money is exact `real`. Ages and counts are taken to be `int`:
their declarations are in the user-interface class, which is not part of
this model, and TaxCalculator.java compares them with and multiplies them
by integer literals.

Files:

- `tax_calculator.dfy` (module `TaxCalculator`): the pipeline as written,
  one function per source method, plus the three credits and the four
  bracket schedules each as its own function.
- `state_income_tax.dfy` (module `StateIncomeTax`): the table of 51 puts as
  a list of entries, the map they produce, and a `StateTaxTable` class
  whose one field is the source's static map. `SetMap` and
  `StateTaxDeduction` are its methods.
- `tax_properties.dfy` (module `TaxProperties`): properties that relate
  several calls:
  - the slope of every schedule;
  - continuity in the epsilon-delta sense;
  - the jumps and drops of the married schedules;
  - monotonicity of the credits;
  - two worked examples.
- `intended_schedules.dfy` (module `IntendedSchedules`): the married
  schedules with three misprinted constants corrected, the burden computed
  with them, and how far the as-written burden is off (see "## Findings").

## Model

| member | source | states |
|---|---|---|
| TaxCalculator.StandardDeduction | TaxCalculator.java:33-68 | 0 for a non-citizen; for a married citizen 13000 + 1100 per flag among own/spouse blindness and own/spouse age ≥ 65, so between 13000 and 17400; otherwise 6500 + 1400 per own flag, so between 6500 and 9300 |
| TaxCalculator.ItemizedDeductions | TaxCalculator.java:79-84 | at least giving + mortgage; exactly that while medical expenses stay within 7.5% of (income − giving − mortgage); above that floor, medical + 1.075·(giving + mortgage) − 0.075·income |
| TaxCalculator.ChosenDeduction | TaxCalculator.java:92-96 | the deduction used is at least each of the two, equals one of them, and is non-negative |
| TaxCalculator.Agi | TaxCalculator.java:91-97 | non-negative; income less the chosen deduction when that is positive, else 0 (a tie taking the standard one changes nothing); never above a non-negative income |
| TaxCalculator.PersonalExemption | TaxCalculator.java:105-113 | 0 above the cutoff (462000 married, 380750 otherwise); 4150 per household member up to it; for non-negative counts non-negative, and 0 exactly when AGI is above the cutoff |
| TaxCalculator.EitcTier | TaxCalculator.java:132-150 | a dependent count of 0, 1 or 2 is its own tier; any other count, negative ones included, falls into tier 3, as in the final else |
| TaxCalculator.Eitc | TaxCalculator.java:130-156 | equals the tier amount (487, 3250, 5372, 6044) exactly when the filer qualifies (employed, citizen, gains ≤ 3450, childless filers aged 25–65, AGI within the tier's status limit), else 0; never a partial amount |
| TaxCalculator.ChildCredit | TaxCalculator.java:160-166 | 1000 per child (children in college not counted) strictly below the status cliff (110000 / 75000), 0 from the cliff on; non-negative for a non-negative count |
| TaxCalculator.Aotc | TaxCalculator.java:170-174 | 2500 per child in college up to and including the cliff (180000 / 80000), 0 above it; non-negative for a non-negative count |
| TaxCalculator.CreditsAt | TaxCalculator.java:124-179 | for non-negative counts the sum of the three credits lies between 0 and 6044 + 1000·children + 2500·childrenInCollege |
| TaxCalculator.Credits | TaxCalculator.java:128 | the credits at the filer's own AGI; non-negative for non-negative counts |
| TaxCalculator.TaxableIncome | TaxCalculator.java:190 | AGI less the exemption, floored at 0; never above AGI for non-negative counts |
| TaxCalculator.MarriedIncomeTax | TaxCalculator.java:194-209 | for non-negative taxable income, between 10% and 39.6% of it |
| TaxCalculator.UnmarriedIncomeTax | TaxCalculator.java:211-226 | for non-negative taxable income, between 10% and 39.6% of it |
| TaxCalculator.IncomeTax | TaxCalculator.java:194-227 | the schedule of the filer's status; between 10% and 39.6% of non-negative taxable income |
| TaxCalculator.MarriedCapitalGainsTax | TaxCalculator.java:229-237 | 0 exactly when gains are at most 75900; between 0 and 20% of non-negative gains |
| TaxCalculator.UnmarriedCapitalGainsTax | TaxCalculator.java:239-247 | 0 exactly when gains are at most 37950; between 0 and 20% of non-negative gains |
| TaxCalculator.CapitalGainsTax | TaxCalculator.java:229-247 | 0 exactly up to the status threshold; between 0 and 20% of non-negative gains |
| TaxCalculator.TaxBurden | TaxCalculator.java:189-251 | the burden before credits is at least 10% of taxable income plus the gains tax, and at most 39.6% of taxable income plus 20% of non-negative gains; the gains tax is charged on the gains, not on taxable income |
| TaxProperties.UnmarriedIncomeTaxSlope | TaxCalculator.java:211-226 | any increase in taxable income raises unmarried tax by between 10% and 39.6% of the increase: each base amount matches the tier below |
| TaxProperties.UnmarriedIncomeTaxMonotone | TaxCalculator.java:211-226 | unmarried ordinary tax never falls as taxable income rises |
| TaxProperties.UnmarriedIncomeTaxContinuous | TaxCalculator.java:211-226 | the unmarried schedule is continuous at every point |
| TaxProperties.MarriedIncomeTaxSlope | TaxCalculator.java:194-209 | the same 10%–39.6% bound for the married schedule on any interval that does not cross 75900, 153100 or 470000 |
| TaxProperties.MarriedIncomeTaxMonotoneAway153100 | TaxCalculator.java:194-209 | married ordinary tax never falls as taxable income rises on any interval that does not cross 153100; the jumps at 75900 and 470000 go up |
| TaxProperties.MarriedIncomeTaxRecovers | TaxCalculator.java:201-204 | from a taxable income of 153100 + 90/0.28 on, married tax is at least the tax at every smaller income |
| TaxProperties.MarriedIncomeTaxContinuousElsewhere | TaxCalculator.java:194-209 | the married schedule is continuous everywhere except at 75900, 153100 and 470000 |
| TaxProperties.MarriedIncomeTaxJumpsAt75900 | TaxCalculator.java:203-206 | the married tax at 75900 is 10452.50, and every neighbourhood of 75900 holds a point where the tax is at least 90 higher, so the schedule is not continuous there |
| TaxProperties.MarriedIncomeTaxDropsAt153100 | TaxCalculator.java:201-204 | the married tax at 153100 is 29842.50 and is lower at 153101; every neighbourhood of 153100 holds a point where it is at least 80 lower, so the schedule is neither continuous nor monotone there |
| TaxProperties.MarriedIncomeTaxJumpsAt470000 | TaxCalculator.java:195-198 | the married tax at 470000 is 131383, and every neighbourhood of 470000 holds a point where it is at least 245 higher, so the schedule is not continuous there |
| TaxProperties.UnmarriedCapitalGainsTaxSlope | TaxCalculator.java:239-247 | any increase in gains raises unmarried gains tax by between 0% and 20% of the increase |
| TaxProperties.MarriedCapitalGainsTaxSlope | TaxCalculator.java:229-237 | the same bound for married gains on any interval that does not cross 470000 |
| TaxProperties.UnmarriedCapitalGainsTaxContinuous | TaxCalculator.java:239-247 | the unmarried gains schedule is continuous at every point |
| TaxProperties.MarriedCapitalGainsTaxContinuousElsewhere | TaxCalculator.java:229-237 | the married gains schedule is continuous everywhere except at 470000 |
| TaxProperties.MarriedCapitalGainsTaxDropsAt470000 | TaxCalculator.java:230-233 | the married gains tax is 78820 at 470000 and lower at 470001; every neighbourhood of 470000 holds a point where it is at least 19000 lower, so it is neither continuous nor monotone there |
| TaxProperties.StandardDeductionIgnoresSpouse | TaxCalculator.java:51-63 | for an unmarried filer the spouse's blindness and age do not change the standard deduction |
| TaxProperties.CreditsNonIncreasing | TaxCalculator.java:130-177 | for non-negative counts a higher AGI never yields more total credit |
| TaxProperties.CreditsAreSteps | TaxCalculator.java:130-177 | two AGIs on the same side of each of the three thresholds yield the same credits |
| TaxProperties.ExemptionCutoffExclusive | TaxCalculator.java:106-109 | a married filer at exactly 462000 keeps the exemption (at least 8300); one cent above loses it |
| TaxProperties.SingleLowIncomeExample | TaxCalculator.java:189-251 | a single employed citizen aged 30 with income 10000 and nothing else: AGI 3500, taxable income 0, credits 487, burden −487 |
| TaxProperties.MarriedItemizingExample | TaxCalculator.java:189-251 | a married couple both 70 and blind, two children, income 200000, giving 5000, mortgage 20000: AGI 175000, taxable income 158400, no credits, burden 31236.50 |
| StateIncomeTax.Entries | stateIncomeTax.java:16-66 | the 51 puts in source order, from Alaska at 0.0564 to Illinois at 0.1476 |
| StateIncomeTax.PutAll | stateIncomeTax.java:15-67 | putting entries in order keeps every old key, makes every put name a key, and the last put's rate is what its name holds: a later put of a name overwrites an earlier one |
| StateIncomeTax.Rates | stateIncomeTax.java:15-67 | the map left by one run of the puts on the empty map; it holds Alaska and holds Illinois at 0.1476 |
| StateIncomeTax.PutAllAt | stateIncomeTax.java:15-67 | after a run of puts a name is a key iff it was one before or some put names it; its value is that of the last such put, else the old value |
| StateIncomeTax.LastRateListed | stateIncomeTax.java:15-67 | a name has a last put exactly when some put names it |
| StateIncomeTax.LastRateInRange | stateIncomeTax.java:15-67 | when every put rate is in range, so is the rate of the last put of any name |
| StateIncomeTax.PutAllIdempotent | stateIncomeTax.java:15-67 | repeating the same run of puts changes nothing |
| StateIncomeTax.EntriesInRange | stateIncomeTax.java:16-66 | every one of the 51 put rates lies between 0.0564 and 0.1476 |
| StateIncomeTax.RatesContents | stateIncomeTax.java:16-66 | the filled table holds exactly the names put, each with the rate of its last put |
| StateIncomeTax.RatesInRange | stateIncomeTax.java:16-66 | every rate in the filled table lies between Alaska's 0.0564 and Illinois's 0.1476 |
| StateIncomeTax.TennesseeMisspelled | stateIncomeTax.java:21 | the table has the key "Tenenssee" and not "Tennessee" |
| StateIncomeTax.Deduction | stateIncomeTax.java:73-76 | a result exactly when the state is a key; then income × that state's rate, between 5.64% and 14.76% of a non-negative income |
| StateIncomeTax.StateTaxTable.constructor | stateIncomeTax.java:12 | the table starts empty |
| StateIncomeTax.StateTaxTable.SetMap | stateIncomeTax.java:15-67 | the new map is the old one with the 51 entries put in order; it is then exactly the filled table; calling it on a filled table leaves it unchanged |
| StateIncomeTax.StateTaxTable.StateTaxDeduction | stateIncomeTax.java:73-76 | refills the table, then returns the deduction for the state, or None for a name that is not a key |
| IntendedSchedules.MarriedIncomeTaxIntended | TaxCalculator.java:194-209 | the corrected married schedule; between 10% and 39.6% of non-negative taxable income |
| IntendedSchedules.MarriedCapitalGainsTaxIntended | TaxCalculator.java:229-237 | the corrected married gains schedule; 0 exactly up to 75900; between 0 and 20% of non-negative gains |
| IntendedSchedules.IncomeTaxIntended | TaxCalculator.java:194-227 | the corrected schedule of the filer's status; the unmarried one is unchanged |
| IntendedSchedules.CapitalGainsTaxIntended | TaxCalculator.java:229-247 | the corrected gains schedule of the filer's status; the unmarried one is unchanged |
| IntendedSchedules.TaxBurdenIntended | TaxCalculator.java:189-251 | the burden with the corrected married schedules, within the same 10%–39.6% and 0%–20% bounds |
| IntendedSchedules.MarriedIncomeTaxIntendedSlope | TaxCalculator.java:194-209 | the corrected married schedule rises by 10%–39.6% of any increase, with no exception |
| IntendedSchedules.MarriedCapitalGainsTaxIntendedSlope | TaxCalculator.java:229-237 | the corrected married gains schedule rises by 0%–20% of any increase |
| IntendedSchedules.IncomeTaxIntendedMonotone | TaxCalculator.java:194-227 | with the corrections, ordinary tax never falls as taxable income rises, for either status |
| IntendedSchedules.CapitalGainsTaxIntendedMonotone | TaxCalculator.java:229-247 | with the correction, gains tax never falls as gains rise, for either status |
| IntendedSchedules.MarriedIncomeTaxIntendedContinuous | TaxCalculator.java:194-209 | the corrected married schedule is continuous at every point |
| IntendedSchedules.MarriedCapitalGainsTaxIntendedContinuous | TaxCalculator.java:229-237 | the corrected married gains schedule is continuous at every point |
| IntendedSchedules.MarriedIncomeTaxOvercharge | TaxCalculator.java:195-204 | as written, the married schedule charges exactly 90 too much on (75900, 153100], more than 245 and at most 277.20 too much on (470000, 470700], exactly 277.20 too much above 470700, and the corrected amount elsewhere |
| IntendedSchedules.MarriedCapitalGainsTaxOvercharge | TaxCalculator.java:229-237 | as written, the married gains schedule charges an extra 5% of the gains over 75900 on (75900, 470000], and the corrected amount elsewhere |
| IntendedSchedules.TaxBurdenOvercharge | TaxCalculator.java:189-251 | the burden as written is never below the corrected one; it equals it for unmarried filers and exceeds it by at most 277.20 + 19705 for married ones |

## Left out

- `main` (TaxCalculator.java:256-258) and the user interface it starts are not modelled. The filer facts the interface collects are the `Profile` parameter.
- Java `double` arithmetic is modelled as exact `real`. Rounding of the rates and products is not modelled.
- TaxCalculator.PersonalExemption: if the counts are Java `int`, as assumed above, the household count is multiplied by 4150 in 32-bit arithmetic; the model multiplies unbounded integers, so a wrap-around for counts above about 517000 would not be captured.
- TaxCalculator.ChildCredit: under the same `int` assumption the product of children and 1000 is 32-bit in the source and unbounded here, so a wrap-around for over 2147483 children would not be captured.
- TaxCalculator.Aotc: under the same `int` assumption the product of 2500 and children in college is 32-bit in the source and unbounded here, so a wrap-around for over 858993 of them would not be captured.
- The filer's `state` is not a `Profile` field. The tax pipeline never reads it: the itemized deduction of TaxCalculator.java:79-84 has no state-tax term, although the class comment lists that deduction. The model follows the code. So the second worked example has AGI 175000, not the figure a state-tax term would give.
- StateIncomeTax.Deduction: the source unboxes a missing rate and fails with a null-pointer exception. The model returns `None` instead.
- StateIncomeTax.Rates: the model does not prove that the 51 put names are distinct, i.e. that the table has 51 keys. Only membership, values and the range of values are proved.
- StateIncomeTax.StateTaxTable.SetMap: the 51 put statements are modelled as one update that puts the listed entries in the same order.
- The static map shared by the whole process is modelled as one `StateTaxTable` object. Concurrent access is not modelled; the source has none.
- The `HashMap` implementation (hashing, iteration order) is not modelled, only its put and get behaviour.
- The source recomputes `agi()`, and each deduction inside it, on every call. Those calls are pure, so the model computes each value once per profile.

## Findings

| source | as written | input that shows it | evidently intended | confidence | as-written member | corrected member |
|---|---|---|---|---|---|---|
| TaxCalculator.java:204 | married base amount 10542.50 at 75900 | married taxable income 75900 owes 10452.50 but 75900.01 owes over 10542.50; 153100 owes 29842.50 but 153101 owes 29752.78 | 10452.50 (1865 + 15% of 57250), the base the 153100 tier is built on | not executed | TaxProperties.MarriedIncomeTaxJumpsAt75900 | IntendedSchedules.MarriedIncomeTaxIntended |
| TaxCalculator.java:195-196 | married 39.6% tier starts at 470000 | married taxable income 470000 owes 131383 but 470000.01 owes over 131628 | 470700, where 112728 + 35% of the excess over 416700 reaches the base 131628 | not executed | TaxProperties.MarriedIncomeTaxJumpsAt470000 | IntendedSchedules.MarriedIncomeTaxIntended |
| TaxCalculator.java:233 | married middle capital-gains rate 20% | married gains 470000 owe 78820 but 470001 owe 59115.20 | 15%, which the top tier's base implies: 59115 is 15% of 470000 − 75900 | not executed | TaxProperties.MarriedCapitalGainsTaxDropsAt470000 | IntendedSchedules.MarriedCapitalGainsTaxIntended |

The first row also produces the drop at 153100, proved in
`TaxProperties.MarriedIncomeTaxDropsAt153100`. The corrected schedules are
proved continuous and monotone
(`IntendedSchedules.MarriedIncomeTaxIntendedContinuous`,
`IntendedSchedules.IncomeTaxIntendedMonotone`,
`IntendedSchedules.MarriedCapitalGainsTaxIntendedContinuous`,
`IntendedSchedules.CapitalGainsTaxIntendedMonotone`).
`IntendedSchedules.TaxBurdenIntended` uses them. `TaxCalculator.TaxBurden`
keeps the constants as written.
