/** What the paycheck calculation promises, stated across its parts: the
    business rules of each earning, how the bases and the gross pay reconcile
    with the emitted items, which items appear for which choices, and what a
    recalculation does to the session. */
module PaycheckProperties {
  import opened Wrappers
  import opened Adjustments
  import opened IncomeTax
  import opened LineItems
  import opened Ordering
  import opened Payroll

  // ---------------------------------------------------------------------
  // Reading amounts off the emitted list, segment by segment

  lemma EmitAmounts(form: Form, types: seq<Union>, b: Breakdown, code: string)
    ensures AmountsOf(EmitItems(form, types, b), code)
         == AmountsOf(FixedRows(b), code) + AmountsOf(VacationRows(form, b), code)
          + AmountsOf(CourseRow(form, b), code) + AmountsOf(TitleRow(form, b), code)
          + AmountsOf(RepresentationRow(form, b), code) + AmountsOf(HealthRow(form, b), code)
          + AmountsOf(UnionSection(form, types, b), code) + AmountsOf(AssociationRow(form), code)
          + AmountsOf(DentalRow(form), code)
  {
    var s1 := FixedRows(b);
    var s2 := s1 + VacationRows(form, b);
    var s3 := s2 + CourseRow(form, b);
    var s4 := s3 + TitleRow(form, b);
    var s5 := s4 + RepresentationRow(form, b);
    var s6 := s5 + HealthRow(form, b);
    var s7 := s6 + UnionSection(form, types, b);
    var s8 := s7 + AssociationRow(form);
    AmountsOfConcat(s1, VacationRows(form, b), code);
    AmountsOfConcat(s2, CourseRow(form, b), code);
    AmountsOfConcat(s3, TitleRow(form, b), code);
    AmountsOfConcat(s4, RepresentationRow(form, b), code);
    AmountsOfConcat(s5, HealthRow(form, b), code);
    AmountsOfConcat(s6, UnionSection(form, types, b), code);
    AmountsOfConcat(s7, AssociationRow(form), code);
    AmountsOfConcat(s8, DentalRow(form), code);
  }

  lemma EmitSum(form: Form, types: seq<Union>, b: Breakdown, c: char)
    ensures SumWithPrefix(EmitItems(form, types, b), c)
         == SumWithPrefix(FixedRows(b), c) + SumWithPrefix(VacationRows(form, b), c)
          + SumWithPrefix(CourseRow(form, b), c) + SumWithPrefix(TitleRow(form, b), c)
          + SumWithPrefix(RepresentationRow(form, b), c) + SumWithPrefix(HealthRow(form, b), c)
          + SumWithPrefix(UnionSection(form, types, b), c) + SumWithPrefix(AssociationRow(form), c)
          + SumWithPrefix(DentalRow(form), c)
  {
    var s1 := FixedRows(b);
    var s2 := s1 + VacationRows(form, b);
    var s3 := s2 + CourseRow(form, b);
    var s4 := s3 + TitleRow(form, b);
    var s5 := s4 + RepresentationRow(form, b);
    var s6 := s5 + HealthRow(form, b);
    var s7 := s6 + UnionSection(form, types, b);
    var s8 := s7 + AssociationRow(form);
    SumConcat(s1, VacationRows(form, b), c);
    SumConcat(s2, CourseRow(form, b), c);
    SumConcat(s3, TitleRow(form, b), c);
    SumConcat(s4, RepresentationRow(form, b), c);
    SumConcat(s5, HealthRow(form, b), c);
    SumConcat(s6, UnionSection(form, types, b), c);
    SumConcat(s7, AssociationRow(form), c);
    SumConcat(s8, DentalRow(form), c);
  }

  // ---------------------------------------------------------------------
  // Each segment on its own

  lemma FixedRowsAmounts(b: Breakdown, code: string)
    ensures AmountsOf(FixedRows(b), code) ==
      if code == "D031" then [b.incomeTax.tax]
      else if code == "R101" then [b.taxBase]
      else if code == "R102" then [b.pensionBase]
      else if code == "D026" then [b.pension]
      else if code == "R103" then [b.gross]
      else []
  {
    var s := FixedRows(b);
    if code == "D031" { AmountsOfUnique(s, 0, code); }
    else if code == "R101" { AmountsOfUnique(s, 1, code); }
    else if code == "R102" { AmountsOfUnique(s, 2, code); }
    else if code == "D026" { AmountsOfUnique(s, 3, code); }
    else if code == "R103" { AmountsOfUnique(s, 4, code); }
    else { AmountsOfAbsent(s, code); }
  }

  lemma VacationRowsAmounts(form: Form, b: Breakdown, code: string)
    ensures AmountsOf(VacationRows(form, b), code) ==
      if form.vacation && code == "P025" then [b.vacationThird]
      else if form.vacation && code == "D055" then [b.vacationTax.tax]
      else []
  {
    var s := VacationRows(form, b);
    if form.vacation && code == "P025" { AmountsOfUnique(s, 0, code); }
    else if form.vacation && code == "D055" { AmountsOfUnique(s, 1, code); }
    else { AmountsOfAbsent(s, code); }
  }

  lemma CourseRowAmounts(form: Form, b: Breakdown, code: string)
    ensures AmountsOf(CourseRow(form, b), code) == if form.courses && code == "P316" then [b.courseBonus] else []
  {
  }

  lemma TitleRowAmounts(form: Form, b: Breakdown, code: string)
    ensures AmountsOf(TitleRow(form, b), code) == if form.title != NoTitle && code == "P317" then [b.titleBonus] else []
  {
  }

  lemma RepresentationRowAmounts(form: Form, b: Breakdown, code: string)
    ensures AmountsOf(RepresentationRow(form, b), code) ==
      if form.tier != NoFunction && code == "P307" then [b.representation] else []
  {
  }

  lemma HealthRowAmounts(form: Form, b: Breakdown, code: string)
    ensures AmountsOf(HealthRow(form, b), code) ==
      if form.healthPlan && code == "D070" then [HealthRate * b.pensionBase] else []
  {
  }

  lemma AssociationRowAmounts(form: Form, code: string)
    ensures AmountsOf(AssociationRow(form), code) == if form.associationDue && code == "D019" then [AssociationFee] else []
  {
  }

  lemma DentalRowAmounts(form: Form, code: string)
    ensures AmountsOf(DentalRow(form), code) ==
      if form.dentalPlan && code == "D042" then [DentalFee * BeneficiaryCount(form.beneficiaries) as real] else []
  {
  }

  /** Number of times `t` occurs in `types`. */
  function Count(types: seq<Union>, t: Union): nat
    decreases |types|
  {
    if |types| == 0 then 0 else (if types[0] == t then 1 else 0) + Count(types[1..], t)
  }

  /** `n` copies of `v`. */
  function Repeat(v: real, n: nat): seq<real>
    decreases n
  {
    if n == 0 then [] else [v] + Repeat(v, n - 1)
  }

  lemma RepeatAdd(v: real, m: nat, n: nat)
    ensures Repeat(v, m + n) == Repeat(v, m) + Repeat(v, n)
    decreases m
  {
    if m > 0 {
      RepeatAdd(v, m - 1, n);
    }
  }

  /** The amounts one union type contributes, as a repeat of zero or one. */
  lemma UnionRowAmounts(t: Union, b: Breakdown, code: string)
    ensures AmountsOf(UnionRow(t, b), code) ==
      if code == "D303" then Repeat(SindicontasFee, if t == Sindicontas then 1 else 0)
      else if code == "D351" then Repeat(AuditorsRate * (b.base + b.gratification), if t == Auditors then 1 else 0)
      else []
  {
  }

  /** The SINDICONTAS-PA items: one flat fee per occurrence of that type. */
  lemma {:induction false} UnionRowsSindicontas(types: seq<Union>, b: Breakdown)
    ensures AmountsOf(UnionRows(types, b), "D303") == Repeat(SindicontasFee, Count(types, Sindicontas))
    decreases |types|
  {
    if |types| > 0 {
      var t, rest := types[0], types[1..];
      var cs := if t == Sindicontas then 1 else 0;
      assert UnionRows(types, b) == UnionRow(t, b) + UnionRows(rest, b);
      AmountsOfConcat(UnionRow(t, b), UnionRows(rest, b), "D303");
      UnionRowAmounts(t, b, "D303");
      UnionRowsSindicontas(rest, b);
      RepeatAdd(SindicontasFee, cs, Count(rest, Sindicontas));
    }
  }

  /** The AUD-TCE/PA items: 0.8% of base plus gratification per occurrence. */
  lemma {:induction false} UnionRowsAuditors(types: seq<Union>, b: Breakdown)
    ensures AmountsOf(UnionRows(types, b), "D351") == Repeat(AuditorsRate * (b.base + b.gratification), Count(types, Auditors))
    decreases |types|
  {
    if |types| > 0 {
      var t, rest := types[0], types[1..];
      var ca := if t == Auditors then 1 else 0;
      assert UnionRows(types, b) == UnionRow(t, b) + UnionRows(rest, b);
      AmountsOfConcat(UnionRow(t, b), UnionRows(rest, b), "D351");
      UnionRowAmounts(t, b, "D351");
      UnionRowsAuditors(rest, b);
      RepeatAdd(AuditorsRate * (b.base + b.gratification), ca, Count(rest, Auditors));
    }
  }

  /** The union rows carry no code but the two union codes. */
  lemma {:induction false} UnionRowsOtherCodes(types: seq<Union>, b: Breakdown, code: string)
    requires code != "D303" && code != "D351"
    ensures AmountsOf(UnionRows(types, b), code) == []
    decreases |types|
  {
    if |types| > 0 {
      var t, rest := types[0], types[1..];
      assert UnionRows(types, b) == UnionRow(t, b) + UnionRows(rest, b);
      AmountsOfConcat(UnionRow(t, b), UnionRows(rest, b), code);
      UnionRowAmounts(t, b, code);
      UnionRowsOtherCodes(rest, b, code);
    }
  }

  lemma Distribute(k: real, x: real, y: real)
    ensures k * (x + y) == k * x + k * y
  {
  }

  /** What one confirmed union type costs. */
  function UnionFee(t: Union, b: Breakdown): real {
    if t == Sindicontas then SindicontasFee
    else if t == Auditors then AuditorsRate * (b.base + b.gratification)
    else 0.0
  }

  /** What the confirmed union types cost together, type by type. */
  function UnionFees(types: seq<Union>, b: Breakdown): real
    decreases |types|
  {
    if |types| == 0 then 0.0 else UnionFee(types[0], b) + UnionFees(types[1..], b)
  }

  /** The union items are all deductions, and they add up to the fees. */
  lemma {:induction false} UnionRowsSum(types: seq<Union>, b: Breakdown, c: char)
    ensures SumWithPrefix(UnionRows(types, b), c) == if c == 'D' then UnionFees(types, b) else 0.0
    decreases |types|
  {
    if |types| > 0 {
      var t := types[0];
      SumConcat(UnionRow(t, b), UnionRows(types[1..], b), c);
      UnionRowsSum(types[1..], b, c);
    }
  }

  // ---------------------------------------------------------------------
  // The emitted list

  lemma UnionSectionAmounts(form: Form, types: seq<Union>, b: Breakdown, code: string)
    ensures AmountsOf(UnionSection(form, types, b), code) ==
      if form.unionDue && code == "D303" then Repeat(SindicontasFee, Count(types, Sindicontas))
      else if form.unionDue && code == "D351" then Repeat(AuditorsRate * (b.base + b.gratification), Count(types, Auditors))
      else []
  {
    if !form.unionDue {
    } else if |types| == 0 {
      assert Count(types, Sindicontas) == 0 && Count(types, Auditors) == 0;
    } else if code == "D303" {
      UnionRowsSindicontas(types, b);
    } else if code == "D351" {
      UnionRowsAuditors(types, b);
    } else {
      UnionRowsOtherCodes(types, b, code);
    }
  }

  /** The amounts of one code in the emitted list, segment by segment. */
  lemma EmitAmountsBySegment(form: Form, types: seq<Union>, b: Breakdown, code: string)
    ensures AmountsOf(EmitItems(form, types, b), code) ==
      (if code == "D031" then [b.incomeTax.tax]
       else if code == "R101" then [b.taxBase]
       else if code == "R102" then [b.pensionBase]
       else if code == "D026" then [b.pension]
       else if code == "R103" then [b.gross]
       else [])
      + (if form.vacation && code == "P025" then [b.vacationThird]
         else if form.vacation && code == "D055" then [b.vacationTax.tax]
         else [])
      + (if form.courses && code == "P316" then [b.courseBonus] else [])
      + (if form.title != NoTitle && code == "P317" then [b.titleBonus] else [])
      + (if form.tier != NoFunction && code == "P307" then [b.representation] else [])
      + (if form.healthPlan && code == "D070" then [HealthRate * b.pensionBase] else [])
      + (if form.unionDue && code == "D303" then Repeat(SindicontasFee, Count(types, Sindicontas))
         else if form.unionDue && code == "D351" then Repeat(AuditorsRate * (b.base + b.gratification), Count(types, Auditors))
         else [])
      + (if form.associationDue && code == "D019" then [AssociationFee] else [])
      + (if form.dentalPlan && code == "D042" then [DentalFee * BeneficiaryCount(form.beneficiaries) as real] else [])
  {
    EmitAmounts(form, types, b, code);
    FixedRowsAmounts(b, code);
    VacationRowsAmounts(form, b, code);
    CourseRowAmounts(form, b, code);
    TitleRowAmounts(form, b, code);
    RepresentationRowAmounts(form, b, code);
    HealthRowAmounts(form, b, code);
    UnionSectionAmounts(form, types, b, code);
    AssociationRowAmounts(form, code);
    DentalRowAmounts(form, code);
  }

  /** The five fixed items are emitted once each, whatever the choices. */
  lemma EmittedIncomeTax(form: Form, types: seq<Union>, b: Breakdown)
    ensures AmountsOf(EmitItems(form, types, b), "D031") == [b.incomeTax.tax]
  {
    EmitAmountsBySegment(form, types, b, "D031");
  }

  lemma EmittedTaxBase(form: Form, types: seq<Union>, b: Breakdown)
    ensures AmountsOf(EmitItems(form, types, b), "R101") == [b.taxBase]
  {
    EmitAmountsBySegment(form, types, b, "R101");
  }

  lemma EmittedPensionBase(form: Form, types: seq<Union>, b: Breakdown)
    ensures AmountsOf(EmitItems(form, types, b), "R102") == [b.pensionBase]
  {
    EmitAmountsBySegment(form, types, b, "R102");
  }

  lemma EmittedPension(form: Form, types: seq<Union>, b: Breakdown)
    ensures AmountsOf(EmitItems(form, types, b), "D026") == [b.pension]
  {
    EmitAmountsBySegment(form, types, b, "D026");
  }

  lemma EmittedGross(form: Form, types: seq<Union>, b: Breakdown)
    ensures AmountsOf(EmitItems(form, types, b), "R103") == [b.gross]
  {
    EmitAmountsBySegment(form, types, b, "R103");
  }

  // ---------------------------------------------------------------------
  // Sums over the emitted list, segment by segment

  lemma FixedRowsSum(b: Breakdown, c: char)
    ensures SumWithPrefix(FixedRows(b), c) ==
      if c == 'D' then b.incomeTax.tax + b.pension
      else if c == 'R' then b.taxBase + b.pensionBase + b.gross
      else 0.0
  {
    var f := FixedRows(b);
    assert SumWithPrefix(f[4..], c) == (if c == 'R' then b.gross else 0.0);
    assert SumWithPrefix(f[3..], c) == (if c == 'D' then b.pension else 0.0) + SumWithPrefix(f[4..], c);
    assert SumWithPrefix(f[2..], c) == (if c == 'R' then b.pensionBase else 0.0) + SumWithPrefix(f[3..], c);
    assert SumWithPrefix(f[1..], c) == (if c == 'R' then b.taxBase else 0.0) + SumWithPrefix(f[2..], c);
  }

  lemma VacationRowsSum(form: Form, b: Breakdown, c: char)
    ensures SumWithPrefix(VacationRows(form, b), c) ==
      if form.vacation && c == 'P' then b.vacationThird
      else if form.vacation && c == 'D' then b.vacationTax.tax
      else 0.0
  {
    if form.vacation {
      var v := VacationRows(form, b);
      assert SumWithPrefix(v[1..], c) == (if c == 'D' then b.vacationTax.tax else 0.0);
    }
  }

  lemma UnionSectionSum(form: Form, types: seq<Union>, b: Breakdown, c: char)
    ensures SumWithPrefix(UnionSection(form, types, b), c) ==
      if form.unionDue && c == 'D' then UnionFees(types, b) else 0.0
  {
    if form.unionDue && |types| > 0 {
      UnionRowsSum(types, b, c);
    }
  }

  lemma EmitSumBySegment(form: Form, types: seq<Union>, b: Breakdown, c: char)
    ensures SumWithPrefix(EmitItems(form, types, b), c) ==
      (if c == 'D' then b.incomeTax.tax + b.pension
       else if c == 'R' then b.taxBase + b.pensionBase + b.gross
       else 0.0)
      + (if form.vacation && c == 'P' then b.vacationThird
         else if form.vacation && c == 'D' then b.vacationTax.tax
         else 0.0)
      + (if form.courses && c == 'P' then b.courseBonus else 0.0)
      + (if form.title != NoTitle && c == 'P' then b.titleBonus else 0.0)
      + (if form.tier != NoFunction && c == 'P' then b.representation else 0.0)
      + (if form.healthPlan && c == 'D' then HealthRate * b.pensionBase else 0.0)
      + (if form.unionDue && c == 'D' then UnionFees(types, b) else 0.0)
      + (if form.associationDue && c == 'D' then AssociationFee else 0.0)
      + (if form.dentalPlan && c == 'D' then DentalFee * BeneficiaryCount(form.beneficiaries) as real else 0.0)
  {
    var fixed := SumWithPrefix(FixedRows(b), c);
    var vacation := SumWithPrefix(VacationRows(form, b), c);
    var course := SumWithPrefix(CourseRow(form, b), c);
    var title := SumWithPrefix(TitleRow(form, b), c);
    var granted := SumWithPrefix(RepresentationRow(form, b), c);
    var health := SumWithPrefix(HealthRow(form, b), c);
    var union := SumWithPrefix(UnionSection(form, types, b), c);
    var association := SumWithPrefix(AssociationRow(form), c);
    var dental := SumWithPrefix(DentalRow(form), c);
    EmitSum(form, types, b, c);
    FixedRowsSum(b, c);
    VacationRowsSum(form, b, c);
    UnionSectionSum(form, types, b, c);
    OptionalRowsSum(form, b, c);
    assert SumWithPrefix(EmitItems(form, types, b), c)
        == fixed + vacation + course + title + granted + health + union + association + dental;
  }

  lemma OptionalRowsSum(form: Form, b: Breakdown, c: char)
    ensures SumWithPrefix(CourseRow(form, b), c) == if form.courses && c == 'P' then b.courseBonus else 0.0
    ensures SumWithPrefix(TitleRow(form, b), c) == if form.title != NoTitle && c == 'P' then b.titleBonus else 0.0
    ensures SumWithPrefix(RepresentationRow(form, b), c) == if form.tier != NoFunction && c == 'P' then b.representation else 0.0
    ensures SumWithPrefix(HealthRow(form, b), c) == if form.healthPlan && c == 'D' then HealthRate * b.pensionBase else 0.0
    ensures SumWithPrefix(AssociationRow(form), c) == if form.associationDue && c == 'D' then AssociationFee else 0.0
    ensures SumWithPrefix(DentalRow(form), c)
            == if form.dentalPlan && c == 'D' then DentalFee * BeneficiaryCount(form.beneficiaries) as real else 0.0
  {
  }

  // ---------------------------------------------------------------------
  // The calculation's own rules

  /** The selectors are all set. */
  predicate Selected(form: Form) {
    form.role != [] && form.salaryClass != [] && form.step != []
  }

  /** The month's earnings before the vacation third. */
  function MonthEarnings(b: Breakdown): real {
    b.base + b.gratification + b.timeInService + b.titleBonus + b.courseBonus + b.productivity + b.representation
  }

  /** The earning rules: each earning follows from the base salary and the
      function amount under the form, and there is no function amount unless
      a function is chosen. */
  predicate EarningsFollowRules(form: Form, b: Breakdown) {
    && b.timeInServiceRate == TimeInServiceRate(form.timeInService)
    && b.courseBonus == (if form.courses then Share(0.10, b.base) else 0.0)
    && b.titleBonus == Share(TitleRate(form.title), b.base)
    && b.gratification == (if form.role in EligibleRoles then Share(0.80, b.base) else 0.0)
    && b.timeInService == Share(b.timeInServiceRate, b.base + b.gratification + b.titleBonus + b.representation)
    && b.timeInServiceForPension == Share(b.timeInServiceRate, b.base + b.gratification + b.titleBonus)
    && b.productivity == Share(ProductivityPercent(form.productivity) / 100.0, 0.90 * b.base)
    && (form.tier == NoFunction ==> b.representation == 0.0)
  }

  /** The base rules: pension base and FINANPREV, the dependents' deduction,
      the tax base, the vacation third and gross pay, from the earnings. */
  predicate BasesFollowRules(form: Form, tables: Tables, b: Breakdown) {
    && b.pensionBase == b.base + b.gratification + b.titleBonus + b.timeInServiceForPension
    && b.pension == Share(PensionRate, b.pensionBase)
    && b.dependentDeduction == tables.perDependent * form.dependents as real
    && b.taxBase == MonthEarnings(b) - b.pension - b.dependentDeduction
    && b.vacationThird == (if form.vacation then MonthEarnings(b) / 3.0 else 0.0)
    && b.gross == MonthEarnings(b) + b.vacationThird
  }

  /** The withholding rules: the bracket calculation on the tax base, and on
      the vacation third less the dependents' deduction when on vacation. */
  predicate TaxesFollowRules(form: Form, tables: Tables, b: Breakdown) {
    && b.incomeTax == ComputeIncomeTax(b.taxBase, tables.brackets)
    && b.vacationTax == (if form.vacation then ComputeIncomeTax(b.vacationThird - b.dependentDeduction, tables.brackets)
                         else Withholding(0.0, 0.0))
  }

  /** The calculation's rules, one amount at a time. */
  predicate Assembled(form: Form, tables: Tables, b: Breakdown) {
    EarningsFollowRules(form, b) && BasesFollowRules(form, tables, b) && TaxesFollowRules(form, tables, b)
  }

  /** The assembled breakdown meets the calculation's rules. */
  lemma AssembleMeetsRules(form: Form, tables: Tables, base: real, representation: real)
    requires form.tier == NoFunction ==> representation == 0.0
    ensures Assembled(form, tables, Assemble(form, tables, base, representation))
  {
  }

  /** A successful calculation adjusts the employee's own salary into the
      base and assembles every other amount from it and the function amount. */
  lemma BreakdownFacts(form: Form, tables: Tables, b: Breakdown)
    requires Evaluate(form, tables) == Some(b)
    ensures OriginalSalary(form, tables).Some?
    ensures b.base == ApplyAdjustments(OriginalSalary(form, tables).value, form.adjustments)
    ensures Representation(form, tables) == Some(b.representation)
    ensures Assembled(form, tables, b)
  {
    var original := OriginalSalary(form, tables).value;
    var representation := Representation(form, tables).value;
    assert b == Assemble(form, tables, ApplyAdjustments(original, form.adjustments), representation);
    AssembleMeetsRules(form, tables, ApplyAdjustments(original, form.adjustments), representation);
  }

  /** A calculation stops exactly when a salary it needs is missing: the
      employee's own, once all three selectors are set, or the reference
      salary, when a function is chosen. */
  lemma EvaluateFailsOnMissingSalary(form: Form, tables: Tables)
    ensures Evaluate(form, tables).None? <==>
      || (Selected(form) && !(form.role in tables.salaries
                              && form.salaryClass in tables.salaries[form.role]
                              && form.step in tables.salaries[form.role][form.salaryClass]))
      || (form.tier != NoFunction && !(ReferenceRole in tables.salaries
                                       && ReferenceClass in tables.salaries[ReferenceRole]
                                       && ReferenceStep in tables.salaries[ReferenceRole][ReferenceClass]))
  {
  }

  /** Without all three selectors the employee earns nothing of their own:
      base, gratification, qualifications and productivity are all zero,
      and so are the pension base and FINANPREV, which leave the function
      amount out even when a function is chosen. */
  lemma UnsetSelectionEarnsNothing(form: Form, tables: Tables, b: Breakdown)
    requires Evaluate(form, tables) == Some(b)
    requires !Selected(form)
    ensures b.base == 0.0 && b.gratification == 0.0
    ensures b.courseBonus == 0.0 && b.titleBonus == 0.0 && b.productivity == 0.0
    ensures b.pensionBase == 0.0 && b.pension == 0.0
  {
    BreakdownFacts(form, tables, b);
    ApplyScales(0.0, form.adjustments);
  }

  lemma ScaleWithin(m: real, p: real, r: real)
    requires m >= 0.0 && 0.0 <= p <= 1.0 && r == m * p
    ensures 0.0 <= r <= m
  {
    assert m * p <= m * 1.0;
  }

  /** The earning rules: gratification is 80% of base exactly for the two
      eligible roles; titles add 15%, 25% or 35% of base; courses add 10%. */
  lemma EarningRules(form: Form, b: Breakdown)
    requires EarningsFollowRules(form, b)
    ensures form.role in EligibleRoles ==> b.gratification == 0.80 * b.base
    ensures form.role !in EligibleRoles ==> b.gratification == 0.0
    ensures form.title == NoTitle ==> b.titleBonus == 0.0
    ensures form.title == Specialization ==> b.titleBonus == 0.15 * b.base
    ensures form.title == Masters ==> b.titleBonus == 0.25 * b.base
    ensures form.title == Doctorate ==> b.titleBonus == 0.35 * b.base
    ensures b.courseBonus == if form.courses then 0.10 * b.base else 0.0
  {
  }

  /** The productivity bonus is the clamped percentage of 90% of base, so it
      lies between zero and 90% of a non-negative base; the time-in-service
      rate never exceeds 60%. */
  lemma ProductivityRule(form: Form, b: Breakdown)
    requires EarningsFollowRules(form, b)
    ensures b.productivity == 0.90 * b.base * (ProductivityPercent(form.productivity) / 100.0)
    ensures b.base >= 0.0 ==> 0.0 <= b.productivity <= 0.90 * b.base
    ensures b.timeInServiceRate <= TimeInServiceCap
  {
    var p := ProductivityPercent(form.productivity) / 100.0;
    if b.base >= 0.0 {
      ScaleWithin(0.90 * b.base, p, b.productivity);
    }
  }

  /** The granted-function amount: zero without a function, otherwise 90%
      (manager) or 100% (coordinator) of the reference salary with the same
      adjustments applied. */
  lemma RepresentationRule(form: Form, tables: Tables, b: Breakdown)
    requires Evaluate(form, tables) == Some(b)
    ensures form.tier == NoFunction ==> b.representation == 0.0
    ensures form.tier != NoFunction ==>
      && ReferenceRole in tables.salaries
      && ReferenceClass in tables.salaries[ReferenceRole]
      && ReferenceStep in tables.salaries[ReferenceRole][ReferenceClass]
      && var reference := ApplyAdjustments(tables.salaries[ReferenceRole][ReferenceClass][ReferenceStep], form.adjustments);
         && (form.tier == Manager ==> b.representation == 0.90 * reference)
         && (form.tier == Coordinator ==> b.representation == reference)
  {
    BreakdownFacts(form, tables, b);
  }

  /** The function amount does not depend on the employee's own role, class
      or step: two snapshots with the same function and adjustments get the
      same amount. */
  lemma RepresentationIgnoresOwnRole(f1: Form, f2: Form, tables: Tables)
    ensures && Evaluate(f1, tables).Some? && Evaluate(f2, tables).Some?
            && f1.tier == f2.tier && f1.adjustments == f2.adjustments
            ==> Evaluate(f1, tables).value.representation == Evaluate(f2, tables).value.representation
  {
    if Evaluate(f1, tables).Some? && Evaluate(f2, tables).Some? && f1.tier == f2.tier && f1.adjustments == f2.adjustments {
      EvaluatedRepresentation(f1, tables, Evaluate(f1, tables).value);
      EvaluatedRepresentation(f2, tables, Evaluate(f2, tables).value);
      assert Representation(f1, tables) == Representation(f2, tables);
    }
  }

  /** A successful calculation carries the function amount it looked up. */
  lemma EvaluatedRepresentation(form: Form, tables: Tables, b: Breakdown)
    requires Evaluate(form, tables) == Some(b)
    ensures Representation(form, tables) == Some(b.representation)
  {
    var original := OriginalSalary(form, tables).value;
    var representation := Representation(form, tables).value;
    assert b == Assemble(form, tables, ApplyAdjustments(original, form.adjustments), representation);
  }

  /** The pension base leaves the function amount out of the time-in-service
      term: the two time-in-service terms differ by exactly the rate times the
      function amount. FINANPREV is 14% of that base. */
  lemma PensionBaseLeavesOutRepresentation(form: Form, tables: Tables, b: Breakdown)
    requires EarningsFollowRules(form, b) && BasesFollowRules(form, tables, b)
    ensures b.timeInService - b.timeInServiceForPension == b.timeInServiceRate * b.representation
    ensures b.pensionBase + b.timeInServiceRate * b.representation
            == b.base + b.gratification + b.titleBonus + b.timeInService
    ensures b.pension == 0.14 * b.pensionBase
  {
    var covered := b.base + b.gratification + b.titleBonus;
    assert b.timeInService == Share(b.timeInServiceRate, covered + b.representation);
    assert b.timeInServiceForPension == Share(b.timeInServiceRate, covered);
    ShareSplits(b.timeInServiceRate, covered, b.representation);
  }

  lemma ShareSplits(r: real, x: real, y: real)
    ensures Share(r, x + y) == Share(r, x) + r * y
  {
    Distribute(r, x, y);
  }

  /** The tax base is what is left of the month's earnings (vacation third
      excluded) after FINANPREV and the dependents' deduction; the tax is the
      bracket calculation on it and is never negative. */
  lemma TaxBaseReconciles(form: Form, tables: Tables, b: Breakdown)
    requires BasesFollowRules(form, tables, b) && TaxesFollowRules(form, tables, b)
    ensures b.taxBase + b.pension + b.dependentDeduction + b.vacationThird == b.gross
    ensures b.dependentDeduction == tables.perDependent * form.dependents as real
    ensures b.incomeTax == ComputeIncomeTax(b.taxBase, tables.brackets)
    ensures b.incomeTax.tax >= 0.0 && b.vacationTax.tax >= 0.0
  {
    WithholdingSpec(b.taxBase, tables.brackets);
    WithholdingSpec(b.vacationThird - b.dependentDeduction, tables.brackets);
  }

  /** Vacation adds a third of the month's earnings, function amount
      included, so the gross becomes four times that third; its tax is a
      separate bracket calculation on the third less the dependents'
      deduction. Without vacation there is no third and no such tax. */
  lemma VacationThird(form: Form, tables: Tables, b: Breakdown)
    requires BasesFollowRules(form, tables, b) && TaxesFollowRules(form, tables, b)
    ensures form.vacation ==> 4.0 * b.vacationThird == b.gross
    ensures form.vacation ==> b.vacationTax == ComputeIncomeTax(b.vacationThird - b.dependentDeduction, tables.brackets)
    ensures !form.vacation ==> b.vacationThird == 0.0 && b.vacationTax.tax == 0.0
  {
  }

  // ---------------------------------------------------------------------
  // The calculation against its items

  /** Gross pay is the four values shown above the table plus every earning
      item emitted: nothing is counted twice and nothing is missed. */
  lemma GrossReconciles(form: Form, tables: Tables, types: seq<Union>, b: Breakdown)
    requires EarningsFollowRules(form, b) && BasesFollowRules(form, tables, b)
    ensures b.gross == b.base + b.gratification + b.timeInService + b.productivity
                       + SumWithPrefix(EmitItems(form, types, b), 'P')
  {
    EmitSumBySegment(form, types, b, 'P');
  }

  /** The deduction total of the emitted list: FINANPREV, the two
      withholdings, and each deduction the form turns on. */
  lemma DeductionsReconcile(form: Form, types: seq<Union>, b: Breakdown)
    ensures SumWithPrefix(EmitItems(form, types, b), 'D')
         == b.pension + b.incomeTax.tax + (if form.vacation then b.vacationTax.tax else 0.0)
          + (if form.healthPlan then HealthRate * b.pensionBase else 0.0)
          + (if form.unionDue then UnionFees(types, b) else 0.0)
          + (if form.associationDue then AssociationFee else 0.0)
          + (if form.dentalPlan then DentalFee * BeneficiaryCount(form.beneficiaries) as real else 0.0)
  {
    EmitSumBySegment(form, types, b, 'D');
  }

  /** Vacation adds its third once, and only with vacation. */
  lemma EmittedVacationThird(form: Form, types: seq<Union>, b: Breakdown)
    ensures AmountsOf(EmitItems(form, types, b), "P025")
            == (if form.vacation then [b.vacationThird] else [])
  {
    EmitAmountsBySegment(form, types, b, "P025");
  }

  /** The third's own withholding appears once, and only with vacation. */
  lemma EmittedVacationTax(form: Form, types: seq<Union>, b: Breakdown)
    ensures AmountsOf(EmitItems(form, types, b), "D055")
            == (if form.vacation then [b.vacationTax.tax] else [])
  {
    EmitAmountsBySegment(form, types, b, "D055");
  }

  /** The course item appears exactly when courses are chosen. */
  lemma EmittedCourses(form: Form, types: seq<Union>, b: Breakdown)
    ensures AmountsOf(EmitItems(form, types, b), "P316")
            == (if form.courses then [b.courseBonus] else [])
  {
    EmitAmountsBySegment(form, types, b, "P316");
  }

  /** The title item appears exactly when a title is chosen. */
  lemma EmittedTitle(form: Form, types: seq<Union>, b: Breakdown)
    ensures AmountsOf(EmitItems(form, types, b), "P317")
            == (if form.title != NoTitle then [b.titleBonus] else [])
  {
    EmitAmountsBySegment(form, types, b, "P317");
  }

  /** The function item appears exactly when a function is chosen. */
  lemma EmittedFunction(form: Form, types: seq<Union>, b: Breakdown)
    ensures AmountsOf(EmitItems(form, types, b), "P307")
            == (if form.tier != NoFunction then [b.representation] else [])
  {
    assert AmountsOf(EmitItems(form, types, b), "P307") == (if form.tier != NoFunction then [b.representation] else []) by {
      EmitAmountsBySegment(form, types, b, "P307");
    }
  }

  /** The health plan item appears exactly when chosen, at 4.5% of the pension base. */
  lemma EmittedHealthPlan(form: Form, types: seq<Union>, b: Breakdown)
    ensures AmountsOf(EmitItems(form, types, b), "D070")
            == (if form.healthPlan then [HealthRate * b.pensionBase] else [])
  {
    EmitAmountsBySegment(form, types, b, "D070");
  }

  /** The association fee appears exactly when chosen. */
  lemma EmittedAssociation(form: Form, types: seq<Union>, b: Breakdown)
    ensures AmountsOf(EmitItems(form, types, b), "D019")
            == (if form.associationDue then [AssociationFee] else [])
  {
    EmitAmountsBySegment(form, types, b, "D019");
  }

  /** The dental item appears exactly when chosen, priced per beneficiary. */
  lemma EmittedDental(form: Form, types: seq<Union>, b: Breakdown)
    ensures AmountsOf(EmitItems(form, types, b), "D042")
            == (if form.dentalPlan then [DentalFee * BeneficiaryCount(form.beneficiaries) as real] else [])
  {
    assert AmountsOf(EmitItems(form, types, b), "D042") == (if form.dentalPlan then [DentalFee * BeneficiaryCount(form.beneficiaries) as real] else []) by {
      EmitAmountsBySegment(form, types, b, "D042");
    }
  }

  /** A union code appears in no segment but the union one. */
  lemma UnionSegmentOnly(form: Form, types: seq<Union>, b: Breakdown, code: string)
    requires code == "D303" || code == "D351"
    ensures AmountsOf(FixedRows(b), code) == [] && AmountsOf(VacationRows(form, b), code) == []
    ensures AmountsOf(CourseRow(form, b), code) == [] && AmountsOf(TitleRow(form, b), code) == []
    ensures AmountsOf(RepresentationRow(form, b), code) == [] && AmountsOf(HealthRow(form, b), code) == []
    ensures AmountsOf(AssociationRow(form), code) == [] && AmountsOf(DentalRow(form), code) == []
  {
    FixedRowsAmounts(b, code);
    VacationRowsAmounts(form, b, code);
    CourseRowAmounts(form, b, code);
    TitleRowAmounts(form, b, code);
    RepresentationRowAmounts(form, b, code);
    HealthRowAmounts(form, b, code);
    AssociationRowAmounts(form, code);
    DentalRowAmounts(form, code);
  }

  /** The union deduction gives one flat-fee item per confirmed SINDICONTAS-PA, and none when it is not chosen. */
  lemma EmittedSindicontas(form: Form, types: seq<Union>, b: Breakdown)
    ensures AmountsOf(EmitItems(form, types, b), "D303")
            == (if form.unionDue then Repeat(SindicontasFee, Count(types, Sindicontas)) else [])
  {
    var u := if form.unionDue then Repeat(SindicontasFee, Count(types, Sindicontas)) else [];
    EmitAmounts(form, types, b, "D303");
    UnionSegmentOnly(form, types, b, "D303");
    UnionSectionAmounts(form, types, b, "D303");
    assert AmountsOf(EmitItems(form, types, b), "D303") == [] + [] + [] + [] + [] + [] + u + [] + [];
  }

  /** The union deduction gives one item per confirmed AUD-TCE/PA, at 0.8% of base plus gratification, and none when it is not chosen. */
  lemma EmittedAuditors(form: Form, types: seq<Union>, b: Breakdown)
    ensures AmountsOf(EmitItems(form, types, b), "D351")
            == (if form.unionDue then Repeat(AuditorsRate * (b.base + b.gratification), Count(types, Auditors)) else [])
  {
    var u := if form.unionDue then Repeat(AuditorsRate * (b.base + b.gratification), Count(types, Auditors)) else [];
    EmitAmounts(form, types, b, "D351");
    UnionSegmentOnly(form, types, b, "D351");
    UnionSectionAmounts(form, types, b, "D351");
    assert AmountsOf(EmitItems(form, types, b), "D351") == [] + [] + [] + [] + [] + [] + u + [] + [];
  }

  /** Every item has a code with a place in the display order. */
  predicate AllKnown(items: seq<LineItem>) {
    forall i :: 0 <= i < |items| ==> items[i].code in CanonicalOrder
  }

  lemma KnownConcat(a: seq<LineItem>, c: seq<LineItem>)
    requires AllKnown(a) && AllKnown(c)
    ensures AllKnown(a + c)
  {
    forall i | 0 <= i < |a + c| ensures (a + c)[i].code in CanonicalOrder {
      if i >= |a| {
        assert (a + c)[i] == c[i - |a|];
      }
    }
  }

  lemma {:induction false} UnionRowsKnown(types: seq<Union>, b: Breakdown)
    ensures AllKnown(UnionRows(types, b))
    decreases |types|
  {
    if |types| > 0 {
      assert CanonicalOrder[14] == "D303" && CanonicalOrder[15] == "D351";
      UnionRowsKnown(types[1..], b);
      KnownConcat(UnionRow(types[0], b), UnionRows(types[1..], b));
    }
  }

  /** Each segment's codes have a place in the display order. */
  lemma FixedRowsKnown(b: Breakdown)
    ensures AllKnown(FixedRows(b))
  {
    var o := CanonicalOrder;
    assert o[8] == "D026" && o[10] == "D031";
    assert o[16] == "R101" && o[17] == "R102" && o[18] == "R103";
  }

  lemma OptionalRowsKnown(form: Form, b: Breakdown)
    ensures AllKnown(VacationRows(form, b)) && AllKnown(CourseRow(form, b))
    ensures AllKnown(TitleRow(form, b)) && AllKnown(RepresentationRow(form, b))
    ensures AllKnown(HealthRow(form, b)) && AllKnown(AssociationRow(form))
    ensures AllKnown(DentalRow(form))
  {
    var o := CanonicalOrder;
    assert o[2] == "P307" && o[4] == "P025" && o[5] == "P316" && o[6] == "P317";
    assert o[9] == "D019" && o[11] == "D042" && o[12] == "D055" && o[13] == "D070";
  }

  lemma UnionSectionKnown(form: Form, types: seq<Union>, b: Breakdown)
    ensures AllKnown(UnionSection(form, types, b))
  {
    if form.unionDue && |types| > 0 {
      UnionRowsKnown(types, b);
    }
  }

  /** Every emitted code has a place in the display order, so none falls back
      to the unknown-code position. */
  lemma EmittedCodesKnown(form: Form, types: seq<Union>, b: Breakdown)
    ensures AllKnown(EmitItems(form, types, b))
  {
    var s1 := FixedRows(b);
    var s2 := s1 + VacationRows(form, b);
    var s3 := s2 + CourseRow(form, b);
    var s4 := s3 + TitleRow(form, b);
    var s5 := s4 + RepresentationRow(form, b);
    var s6 := s5 + HealthRow(form, b);
    var s7 := s6 + UnionSection(form, types, b);
    var s8 := s7 + AssociationRow(form);
    FixedRowsKnown(b);
    OptionalRowsKnown(form, b);
    UnionSectionKnown(form, types, b);
    KnownConcat(s1, VacationRows(form, b));
    KnownConcat(s2, CourseRow(form, b));
    KnownConcat(s3, TitleRow(form, b));
    KnownConcat(s4, RepresentationRow(form, b));
    KnownConcat(s5, HealthRow(form, b));
    KnownConcat(s6, UnionSection(form, types, b));
    KnownConcat(s7, AssociationRow(form));
    KnownConcat(s8, DentalRow(form));
  }

  // ---------------------------------------------------------------------
  // The recalculation

  /** The first item with a code whose amounts are exactly one value. */
  lemma FirstWithSingleAmount(items: seq<LineItem>, code: string, v: real)
    requires AmountsOf(items, code) == [v]
    ensures FirstWithCode(items, code).Some? && FirstWithCode(items, code).value.amount == v
  {
    AmountsMatchFilter(items, code);
  }

  /** A recalculation updates the warning flag whatever happens and never
      touches the confirmed union types. When a salary is missing it stops
      with the items as they were. Otherwise the items are exactly the
      emitted ones, whatever was there before, in display order; the
      deduction total is the sum of the deduction items, and net pay is
      gross pay less that total. */
  lemma RecomputeSpec(session: Session, form: Form, tables: Tables)
    ensures Recompute(session, form, tables).session.warningShown
            == NextWarningShown(session.warningShown, TimeInServiceRate(form.timeInService))
    ensures Recompute(session, form, tables).session.unionTypes == session.unionTypes
    ensures Evaluate(form, tables).None? ==>
              && Recompute(session, form, tables).view.None?
              && Recompute(session, form, tables).session.items == session.items
    ensures Evaluate(form, tables).Some? ==>
              var b := Evaluate(form, tables).value;
              var emitted := EmitItems(form, session.unionTypes, b);
              var r := Recompute(session, form, tables);
              && Sorted(CanonicalOrder, r.session.items)
              && multiset(r.session.items) == multiset(emitted)
              && r.view.Some?
              && r.view.value.table.totals.Some?
              && r.view.value.table.totals.value.deductions == SumWithPrefix(emitted, 'D')
              && r.view.value.table.totals.value.net == b.gross - SumWithPrefix(emitted, 'D')
  {
    if Evaluate(form, tables).Some? {
      RefreshEmitted(form, session.unionTypes, Evaluate(form, tables).value);
    }
  }

  /** The figures shown beside the table: base, gratification,
      time-in-service and productivity are those of the breakdown, and the
      dental-plan figure is the amount of the dental-plan line item, zero
      when the plan is not chosen, so it always agrees with the item the
      table hides. */
  lemma DisplayAgreesWithItems(form: Form, types: seq<Union>, b: Breakdown)
    ensures var d := DisplayOf(form, b);
            && d.base == b.base && d.gratification == b.gratification
            && d.timeInService == b.timeInService && d.productivity == b.productivity
            && d.dental == Sum(AmountsOf(EmitItems(form, types, b), DentalCode))
            && (!form.dentalPlan ==> d.dental == 0.0)
  {
    EmittedDental(form, types, b);
    var fee := DentalFee * BeneficiaryCount(form.beneficiaries) as real;
    assert Sum([fee]) == fee;
  }

  /** The same, for the figures a successful recalculation shows. */
  lemma RecomputeDisplay(session: Session, form: Form, tables: Tables)
    ensures Evaluate(form, tables).Some? ==>
              var b := Evaluate(form, tables).value;
              var emitted := EmitItems(form, session.unionTypes, b);
              var r := Recompute(session, form, tables);
              && r.view.Some?
              && r.view.value.display.base == b.base
              && r.view.value.display.gratification == b.gratification
              && r.view.value.display.timeInService == b.timeInService
              && r.view.value.display.productivity == b.productivity
              && r.view.value.display.dental
                 == (if form.dentalPlan then DentalFee * BeneficiaryCount(form.beneficiaries) as real else 0.0)
              && r.view.value.display.dental == Sum(AmountsOf(emitted, DentalCode))
  {
    if Evaluate(form, tables).Some? {
      var b := Evaluate(form, tables).value;
      DisplayAgreesWithItems(form, session.unionTypes, b);
      EmittedDental(form, session.unionTypes, b);
    }
  }

  /** The table refresh of an emitted list: display order, same items, and
      totals read off the deduction items and the gross-pay item. */
  lemma RefreshEmitted(form: Form, types: seq<Union>, b: Breakdown)
    ensures var emitted := EmitItems(form, types, b);
            && Sorted(CanonicalOrder, RefreshTable(emitted).sorted)
            && multiset(RefreshTable(emitted).sorted) == multiset(emitted)
            && RefreshTable(emitted).totals.Some?
            && RefreshTable(emitted).totals.value.deductions == SumWithPrefix(emitted, 'D')
            && RefreshTable(emitted).totals.value.net == b.gross - SumWithPrefix(emitted, 'D')
  {
    EmittedGross(form, types, b);
    RefreshWithGross(EmitItems(form, types, b), b.gross);
  }

  lemma RefreshWithGross(items: seq<LineItem>, gross: real)
    requires AmountsOf(items, "R103") == [gross]
    ensures Sorted(CanonicalOrder, RefreshTable(items).sorted)
    ensures multiset(RefreshTable(items).sorted) == multiset(items)
    ensures RefreshTable(items).totals.Some?
    ensures RefreshTable(items).totals.value.deductions == SumWithPrefix(items, 'D')
    ensures RefreshTable(items).totals.value.net == gross - SumWithPrefix(items, 'D')
  {
    RefreshSpec(items);
    FirstWithSingleAmount(items, "R103", gross);
  }

  /** Net pay on the page: gross pay less FINANPREV, both withholdings and
      every deduction the form turns on. */
  lemma NetPay(session: Session, form: Form, tables: Tables)
    requires Evaluate(form, tables).Some?
    ensures Recompute(session, form, tables).view.Some?
    ensures Recompute(session, form, tables).view.value.table.totals.Some?
    ensures var b := Evaluate(form, tables).value;
            Recompute(session, form, tables).view.value.table.totals.value.net
            == b.gross - (b.pension + b.incomeTax.tax + (if form.vacation then b.vacationTax.tax else 0.0)
                          + (if form.healthPlan then HealthRate * b.pensionBase else 0.0)
                          + (if form.unionDue then UnionFees(session.unionTypes, b) else 0.0)
                          + (if form.associationDue then AssociationFee else 0.0)
                          + (if form.dentalPlan then DentalFee * BeneficiaryCount(form.beneficiaries) as real else 0.0))
  {
    var b := Evaluate(form, tables).value;
    var types := session.unionTypes;
    var d := SumWithPrefix(EmitItems(form, types, b), 'D');
    var r := Recompute(session, form, tables);
    assert r.view.Some? && r.view.value.table.totals.Some? && r.view.value.table.totals.value.net == b.gross - d by {
      RecomputeSpec(session, form, tables);
    }
    var union := if form.unionDue then UnionFees(types, b) else 0.0;
    assert d == b.pension + b.incomeTax.tax + (if form.vacation then b.vacationTax.tax else 0.0)
              + (if form.healthPlan then HealthRate * b.pensionBase else 0.0)
              + union
              + (if form.associationDue then AssociationFee else 0.0)
              + (if form.dentalPlan then DentalFee * BeneficiaryCount(form.beneficiaries) as real else 0.0) by {
      DeductionsReconcile(form, types, b);
    }
  }

  /** Recalculating twice with the same form is recalculating once. */
  lemma RecomputeIdempotent(session: Session, form: Form, tables: Tables)
    ensures var once := Recompute(session, form, tables);
            Recompute(once.session, form, tables) == once
  {
  }

  /** The month of an employee with a 5000 salary and nothing else chosen:
      no gratification, no time-in-service addition, no productivity bonus;
      a pension base of 5000, FINANPREV of 700, a tax base of 4300, and net
      pay of 5000 less FINANPREV and the tax on 4300, whatever the bracket
      table. */
  lemma PlainMonth(session: Session, brackets: seq<Bracket>, perDependent: real)
    ensures var form := Form("Analista", "A", "1", [], 0.0, false, NoTitle, None, NoFunction,
                             false, 0, None, false, false, false, false);
            var tables := Tables(map["Analista" := map["A" := map["1" := 5000.0]]], brackets, perDependent);
            var r := Recompute(session, form, tables);
            && Evaluate(form, tables).Some?
            && var b := Evaluate(form, tables).value;
            && b.gratification == 0.0 && b.timeInService == 0.0 && b.productivity == 0.0
            && b.pensionBase == 5000.0 && b.pension == 700.0 && b.taxBase == 4300.0
            && b.gross == 5000.0
            && r.view.Some? && r.view.value.table.totals.Some?
            && r.view.value.table.totals.value.net == 5000.0 - 700.0 - ComputeIncomeTax(4300.0, brackets).tax
            && !r.session.warningShown
  {
    var form := Form("Analista", "A", "1", [], 0.0, false, NoTitle, None, NoFunction,
                     false, 0, None, false, false, false, false);
    var tables := Tables(map["Analista" := map["A" := map["1" := 5000.0]]], brackets, perDependent);
    assert OriginalSalary(form, tables) == Some(5000.0);
    assert ApplyAdjustments(5000.0, []) == 5000.0;
    var b := Evaluate(form, tables).value;
    BreakdownFacts(form, tables, b);
    assert b.base == 5000.0 && b.representation == 0.0 && b.timeInServiceRate == 0.0;
    assert "Analista" !in EligibleRoles;
    assert b.gratification == 0.0 && b.titleBonus == 0.0 && b.courseBonus == 0.0;
    assert b.timeInService == 0.0 && b.timeInServiceForPension == 0.0 && b.productivity == 0.0;
    assert b.pensionBase == 5000.0 && b.pension == 700.0 && b.dependentDeduction == 0.0;
    assert MonthEarnings(b) == 5000.0;
    assert b.taxBase == 4300.0 && b.vacationThird == 0.0 && b.gross == 5000.0;
    NetPay(session, form, tables);
  }
}
