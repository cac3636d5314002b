# Paycheck simulator payroll engine

A Dafny model of the payroll engine behind a browser paycheck simulator
(`script.js`). The engine takes one snapshot of the form and produces the
month's paycheck. The form holds:

- role, class and step (cargo, classe, referência);
- the salary adjustments (reajustes) and the time-in-service percentage;
- the course and title choices, the productivity percentage and the granted function;
- vacation, dependents and beneficiaries;
- four deduction toggles.

The paycheck is a list of line items (rubricas). Each item carries a code,
a description and an amount. The list goes in a fixed display order, and
the page shows the deduction total (R104) and net pay (R105) under it.

The project has seven modules:

| file | module | what it models |
|---|---|---|
| `wrappers.dfy` | `Wrappers` | `Option`, which stands for a value that is missing or does not parse |
| `adjustments.dfy` | `Adjustments` | `aplicarReajustes`: percentages compounded onto an amount, in list order |
| `income_tax.dfy` | `IncomeTax` | `calcularImpostoDeRenda`: the bracket scan and the withholding |
| `line_items.dfy` | `LineItems` | the line item, per-code filters and sums, `removerRubrica` and `adicionarRubrica` |
| `ordering.dfy` | `Ordering` | the non-rendering half of `atualizarTabela`: stable sort by display rank, the hidden dental row, the totals |
| `payroll.dfy` | `Payroll` | the arithmetic and item construction of `calcularSalario`, with the `modalShown` warning flag, as one `Recompute` step over a `Session` |
| `paycheck_properties.dfy` | `PaycheckProperties` | the promises of the whole calculation |

Some mappings from the page to the model:

- A salary lookup that fails is `None`, and the recalculation stops. In the page this is a `TypeError` or `NaN`. The warning flag has already been updated at that point, so it still changes.
- A missing gross-pay item makes the totals `None`. In the page, `find(...).valor` throws.
- Union contribution types are a `Union` datatype with three cases: `"SINDICONTAS-PA"`, `"AUD-TCE/PA"`, or any other name.
- The fixed description texts are a `Caption` enumeration. `CaptionText` gives each one's text.

## Model

| member | source | states |
|---|---|---|
| Adjustments.ApplyScales | script.js:202-212 | Applying the fields one after another equals the original amount times the product of the growth factors `1 + p/100`. An unparseable or zero field has factor 1. |
| Adjustments.ApplyConcat | script.js:205-210 | Adjusting by `a + b` is adjusting by `a`, then adjusting that result by `b`. |
| Adjustments.ApplyOrderIrrelevant | script.js:205-210 | The order of the adjustment fields does not change the result. |
| Adjustments.ApplyNoOp | script.js:207-209 | An empty list, or one of only unparseable or zero percentages, returns the original amount. |
| Adjustments.ApplyLinear | script.js:202-212 | Adjusting `c * v` gives `c` times the adjusted `v`. |
| Adjustments.CompoundExample | script.js:202-212 | 1000 with two 10% fields gives 1210. |
| IncomeTax.WithholdingSpec | script.js:553-556 | The tax is never negative. It is either zero or exactly base × rate − deduction of the selected bracket, and never below that amount. The reported rate, which is also the rate taxed with, is the selected bracket's rate, so 0 or the rate of some row. |
| IncomeTax.EmptyTableWithholdsNothing | script.js:538-539 | With an empty table, both rate and tax are 0. |
| IncomeTax.SelectBracketSpec | script.js:542-551 | Bracket selection without the scan. The first bracket with a truthy limit covering the base wins, even after an open bracket. Otherwise the last bracket without a truthy limit wins. Otherwise rate and deduction stay 0. |
| IncomeTax.ScanPicksFromTable | script.js:542-551 | The scan ends on its starting choice or on a row of the table. |
| IncomeTax.WithholdingRateMonotone | script.js:542-551 | On a progressive table, a larger base never gets a smaller rate. |
| LineItems.RemoveItem | script.js:706-708 | No item with the removed code is left, and the list shrinks by exactly the number of items carrying it. |
| LineItems.RemoveKeepsOthers | script.js:706-708 | Every other code's items survive unchanged and in order. |
| LineItems.RemoveConcat | script.js:706-708 | Removing from a joined list is joining the two removals, so the kept items keep their relative order. |
| Ordering.RemoveKeepsSorted | script.js:494-504 | Removing a code from a list in display order leaves it in display order. |
| LineItems.RemoveMembership | script.js:706-708 | An item survives exactly when it was in the list and its code differs. |
| LineItems.RemoveIdempotent | script.js:706-708 | Removing a code twice is removing it once. |
| LineItems.AddItem | script.js:697-700 | The new item ends the list, and no earlier item shares its code. |
| LineItems.AddReplaces | script.js:697-700 | After adding, the new item is the only one with its code, and other codes' items are unchanged. |
| LineItems.AddKeepsRest | script.js:697-700 | Apart from the new item, the list after adding is the old list with that code removed, so every other item keeps its relative order. |
| LineItems.AddIdempotent | script.js:697-700 | Adding the same item twice is adding it once. |
| Ordering.IndexOf | script.js:491 | `indexOf`: the first position of the code, or −1 exactly when the code is absent. |
| Ordering.SortPermutes | script.js:491 | Sorting keeps exactly the same items, as a multiset. |
| Ordering.SortSorted | script.js:491 | The sorted list is ordered by display rank. |
| Ordering.SortStableByRank | script.js:491 | The sort is stable: items of equal rank keep their relative order. |
| Ordering.SortStableByCode | script.js:491 | The items of each code keep their relative order. |
| Ordering.SortKeepsSum | script.js:491 | Sorting changes no per-prefix total. |
| Ordering.UnknownCodesFirst | script.js:484-491 | A code missing from the display order ranks −1, so all unknown codes come first after sorting. |
| Ordering.DentalCountedButHidden | script.js:494-507 | The rendered deduction rows, which exclude D042, plus the D042 amounts make the deduction total. |
| Ordering.RefreshSpec | script.js:484-509 | The sorted list is an ordered permutation of the items. The rows are that list without D042, still in display order. The totals exist exactly when there is an R103 item. The deduction total sums every D item, D042 included. Net pay is the first R103 amount minus that total. |
| Payroll.TimeInServiceRate | script.js:263-269 | The time-in-service rate is the typed percentage, capped above at 60%. There is no lower clamp. |
| Payroll.WarningEdgeTriggered | script.js:271-277 | The warning fires exactly when the rate reaches the cap with the flag off. It never fires twice in a row for the same rate. At the cap the flag is on; below it the flag is off. |
| Payroll.WarningScenario | script.js:263-277 | Typing 75 uses 60% and fires the warning once. A later rate below the cap clears the flag. |
| Payroll.ProductivityPercent | script.js:337-344 | The productivity percentage lies in [0, 100]. It is 0 when unparseable or negative, 100 when above 100, and otherwise as typed. |
| Payroll.LookupSalary | script.js:281-284 | The lookup succeeds exactly when role, class and step are all in the table, and then it gives that entry. |
| PaycheckProperties.BreakdownFacts | script.js:279-289 | A successful calculation has the employee's salary found, the adjusted salary as its base, the function amount it looked up, and every amount following the rules. |
| PaycheckProperties.EvaluateFailsOnMissingSalary | script.js:281-326 | The calculation stops exactly when a salary it needs is missing. That is the employee's own once all three selectors are set, or the reference salary when a function is chosen. |
| PaycheckProperties.UnsetSelectionEarnsNothing | script.js:279-285 | Without all three selectors, base, gratification, qualifications, productivity, pension base and FINANPREV are all zero. |
| PaycheckProperties.EarningRules | script.js:292-318 | Gratification is 80% of base exactly for the two eligible roles, otherwise 0. Titles add 0, 15%, 25% or 35% of base. Courses add 10% of base. |
| PaycheckProperties.ProductivityRule | script.js:335-347 | The productivity bonus is the clamped percentage of 90% of base, between 0 and 90% of a non-negative base. The time-in-service rate is at most 60%. |
| PaycheckProperties.RepresentationRule | script.js:321-327 | Without a function P307 is 0. With one, P307 is 90% (manager) or 100% (coordinator) of the adjusted Assessor…/A/1 reference salary. |
| PaycheckProperties.RepresentationIgnoresOwnRole | script.js:321-327 | P307 does not depend on the employee's own role, class or step. |
| PaycheckProperties.PensionBaseLeavesOutRepresentation | script.js:329-352 | The two time-in-service terms differ by exactly rate × P307. The pension base plus that difference is base + gratification + title + total time-in-service. FINANPREV is 14% of the pension base. |
| PaycheckProperties.TaxBaseReconciles | script.js:354-363 | Tax base + FINANPREV + dependents' deduction + vacation third equals gross pay. The deduction is per-dependent × dependents. The tax is the bracket calculation on the tax base, and both withholdings are non-negative. |
| PaycheckProperties.VacationThird | script.js:365-376 | With vacation, the third is a quarter of gross pay, and D055 is the bracket calculation on the third less the dependents' deduction. Without vacation, both are zero. |
| PaycheckProperties.GrossReconciles | script.js:381-416 | Gross pay is base + gratification + total time-in-service + productivity + the sum of the earning items emitted. |
| PaycheckProperties.DeductionsReconcile | script.js:381-465 | The D items emitted sum to FINANPREV + income tax + each deduction the form turns on. |
| PaycheckProperties.EmittedIncomeTax | script.js:382 | Exactly one D031 item, with the income tax. |
| PaycheckProperties.EmittedTaxBase | script.js:383 | Exactly one R101 item, with the tax base. |
| PaycheckProperties.EmittedPensionBase | script.js:384 | Exactly one R102 item, with the pension base. |
| PaycheckProperties.EmittedPension | script.js:385 | Exactly one D026 item, with FINANPREV. |
| PaycheckProperties.EmittedGross | script.js:386 | Exactly one R103 item, with gross pay. |
| PaycheckProperties.EmittedVacationThird | script.js:390-395 | One P025 item with the third when on vacation, none otherwise. |
| PaycheckProperties.EmittedVacationTax | script.js:390-395 | One D055 item with the third's withholding when on vacation, none otherwise. |
| PaycheckProperties.EmittedCourses | script.js:398-402 | One P316 item exactly when courses are chosen. |
| PaycheckProperties.EmittedTitle | script.js:405-409 | One P317 item exactly when a title is chosen. |
| PaycheckProperties.EmittedFunction | script.js:412-416 | One P307 item exactly when a function is chosen. |
| PaycheckProperties.EmittedHealthPlan | script.js:419-423 | One D070 item at 4.5% of the pension base, exactly when the health plan is chosen. |
| PaycheckProperties.EmittedSindicontas | script.js:426-433 | With the union deduction on, one D303 item of 40.00 per confirmed SINDICONTAS-PA. Otherwise none. |
| PaycheckProperties.EmittedAuditors | script.js:426-442 | With the union deduction on, one D351 item per confirmed AUD-TCE/PA, at 0.8% of base plus gratification. Otherwise none. |
| PaycheckProperties.UnionRowsOtherCodes | script.js:427-442 | The union rows carry no code but D303 and D351, so any other union name adds nothing. |
| PaycheckProperties.UnionRowsSum | script.js:427-442 | The union rows are all deductions, and they add up to the fee of each confirmed type. |
| PaycheckProperties.EmittedAssociation | script.js:446-450 | One D019 item of 77.13, exactly when chosen. |
| PaycheckProperties.EmittedDental | script.js:453-462 | One D042 item of 33.06 per beneficiary, exactly when chosen. Unparseable text counts as no beneficiaries. |
| PaycheckProperties.EmittedCodesKnown | script.js:381-462 | Every code emitted has a place in the display order. |
| PaycheckProperties.RecomputeSpec | script.js:243-468 | A recalculation always updates the warning flag and never changes the confirmed union types. When a salary is missing, the items are left as they were. Otherwise the items become exactly the emitted ones in display order, the deduction total is the sum of the D items, and net pay is gross pay less that total. |
| PaycheckProperties.DisplayAgreesWithItems | script.js:453-465 | The shown figures repeat the breakdown's base, gratification, time-in-service and productivity. The dental figure equals the amount of the D042 line item, and is zero when the plan is not chosen. |
| PaycheckProperties.RecomputeDisplay | script.js:289-465 | After a successful recalculation the base, gratification, time-in-service and productivity figures shown are those of the breakdown. The dental figure is 33.06 per beneficiary when the plan is chosen and zero otherwise, equal to the amount of the hidden D042 item. |
| PaycheckProperties.NetPay | script.js:381-509 | Net pay is gross pay less FINANPREV, the withholdings and every deduction the form turns on. |
| PaycheckProperties.RecomputeIdempotent | script.js:243-468 | Recalculating twice with the same form is recalculating once. |
| PaycheckProperties.PlainMonth | script.js:243-509 | A 5000 salary with nothing else chosen, for any bracket table, gives these amounts. Pension base 5000. FINANPREV 700. Tax base 4300. Gross 5000. Net pay 5000 − 700 − the tax on 4300. |

## Left out

- DOM reads and writes, event wiring, the Bootstrap modal and print mode. They are presentation. The form is an input record, and the modal is only its `modalShown` flag.
- Loading the salary and tax tables with `fetch`. This is I/O, so the tables are parameters (`Tables`).
- Currency formatting and the `toFixed` rate labels. These are float-to-string formatting. Labels carry the rate or count as a number next to a `Caption`.
- The union-contribution confirm handler and its own pushes. Its rows are overwritten by the next recalculation. The confirmed types are an input read by `Recompute`.
- IEEE floating point, `NaN` and rounding. Amounts are exact `real`s. Dependents are a `nat`, so `parseInt` giving `NaN` is not modelled. A `NaN` time-in-service input is not modelled.
- The `abonoPermanencia` listener. It only triggers a recalculation and its value is never used.
- Writes to the page made before a failed salary lookup aborts. Only the flag update, which happens earlier, is kept.
- The salary lookup's two failure kinds, a thrown `TypeError` and a `NaN` salary. Both are `None`.
- Salary table entries are taken to be numbers (`SalaryTable` maps to `real`). The source parses the employee's own entry with `parseFloat` (script.js:283) but hands the reference entry for P307 to `aplicarReajustes` unparsed (script.js:324). If the data file held strings there, `+=` at script.js:208 would concatenate text instead of adding, and P307 would not be what `RepresentationRule` states. The model does not cover that case.
- Array.prototype.sort is taken to be stable, which the language has required since ES2019. `SortBy` is an insertion sort with that stable behaviour.
