/** The paycheck calculation: from one snapshot of the form, the salary table
    and the tax table, the earnings, bases and deductions of the month as a
    list of line items, plus the one piece of state a recalculation carries
    forward, the "time-in-service cap reached" warning flag. */
module Payroll {
  import opened Wrappers
  import opened Adjustments
  import opened IncomeTax
  import opened LineItems
  import opened Ordering

  /** role -> class -> step -> monthly base salary */
  type SalaryTable = map<string, map<string, map<string, real>>>

  /** The two data files: the salary table, and the tax table with its
      per-dependent deduction. */
  datatype Tables = Tables(salaries: SalaryTable, brackets: seq<Bracket>, perDependent: real)

  /** The academic-title choice. */
  datatype Title = NoTitle | Specialization | Masters | Doctorate

  /** The granted-function choice. */
  datatype FunctionTier = NoFunction | Manager | Coordinator

  /** One snapshot of the form. An empty role, class or step means "not
      selected". Percentages are as typed (10 means 10%). */
  datatype Form = Form(
    role: string,
    salaryClass: string,
    step: string,
    adjustments: seq<Entry>,
    timeInService: real,
    courses: bool,
    title: Title,
    productivity: Option<real>,
    tier: FunctionTier,
    vacation: bool,
    dependents: nat,
    beneficiaries: Option<int>,
    healthPlan: bool,
    unionDue: bool,
    associationDue: bool,
    dentalPlan: bool)

  /** A union the employee confirmed in the union dialog, by the name the
      dialog hands back: "SINDICONTAS-PA", "AUD-TCE/PA", or any other name. */
  datatype Union = Sindicontas | Auditors | OtherUnion(name: string)

  /** What survives between recalculations: the warning flag, the union
      contribution types last confirmed in their dialog, and the item list. */
  datatype Session = Session(warningShown: bool, unionTypes: seq<Union>, items: seq<LineItem>)

  /** The roles that receive the higher-education gratification. */
  const EligibleRoles: seq<string> := [
    "Assessor_Tecnico_de_Controle_Externo_Auditor_de_Controle_Externo",
    "Analista_Auxiliar_de_Controle_Externo"
  ]

  /** The fixed salary the granted function is a share of. */
  const ReferenceRole := "Assessor_Tecnico_de_Controle_Externo_Auditor_de_Controle_Externo"
  const ReferenceClass := "A"
  const ReferenceStep := "1"

  const TimeInServiceCap := 0.60
  const SindicontasFee := 40.00
  const AuditorsRate := 0.008
  const AssociationFee := 77.13
  const DentalFee := 33.06
  const HealthRate := 0.045
  const PensionRate := 0.14

  // ---------------------------------------------------------------------
  // Clamps and the warning flag

  /** The time-in-service percentage as a fraction, capped above at 60%;
      there is no lower clamp. */
  function TimeInServiceRate(raw: real): (pct: real)
    ensures pct <= TimeInServiceCap
    ensures pct <= raw / 100.0
    ensures pct == raw / 100.0 || pct == TimeInServiceCap
  {
    var p := raw / 100.0;
    if p > TimeInServiceCap then TimeInServiceCap else p
  }

  /** The flag after a recalculation: it turns on when the rate sits at the
      cap and it was off, turns off when the rate drops below the cap, and is
      otherwise left as it was. */
  function NextWarningShown(shown: bool, pct: real): bool {
    if pct == TimeInServiceCap && !shown then true
    else if pct < TimeInServiceCap then false
    else shown
  }

  /** The warning dialog opens on this recalculation. */
  predicate WarningFires(shown: bool, pct: real) {
    !shown && NextWarningShown(shown, pct)
  }

  /** The warning is edge-triggered: it fires exactly when the rate reaches the
      cap with the flag off; it never fires twice in a row for the same
      rate; at the cap the flag is on; below it the flag is off, which re-arms
      the warning. */
  lemma WarningEdgeTriggered(shown: bool, pct: real)
    requires pct <= TimeInServiceCap
    ensures WarningFires(shown, pct) <==> !shown && pct == TimeInServiceCap
    ensures !WarningFires(NextWarningShown(shown, pct), pct)
    ensures pct == TimeInServiceCap ==> NextWarningShown(shown, pct)
    ensures pct < TimeInServiceCap ==> !NextWarningShown(shown, pct)
  {
  }

  /** Typing 75 uses 60%, and typing it again does not show the warning
      again. */
  lemma WarningScenario()
    ensures TimeInServiceRate(75.0) == 0.60
    ensures WarningFires(false, TimeInServiceRate(75.0))
    ensures !WarningFires(NextWarningShown(false, TimeInServiceRate(75.0)), TimeInServiceRate(75.0))
    ensures !NextWarningShown(true, TimeInServiceRate(30.0))
  {
  }

  /** The productivity percentage, 0 when unparseable or negative and 100
      when above 100. */
  function ProductivityPercent(raw: Option<real>): (p: real)
    ensures 0.0 <= p <= 100.0
    ensures raw.Some? && 0.0 <= raw.value <= 100.0 ==> p == raw.value
    ensures p == 0.0 || p == 100.0 || (raw.Some? && p == raw.value)
    ensures raw.None? ==> p == 0.0
    ensures raw.Some? && raw.value < 0.0 ==> p == 0.0
    ensures raw.Some? && raw.value > 100.0 ==> p == 100.0
  {
    match raw
    case None => 0.0
    case Some(v) => if v < 0.0 then 0.0 else if v > 100.0 then 100.0 else v
  }

  /** The beneficiary count: text that does not parse counts as none. */
  function BeneficiaryCount(raw: Option<int>): int {
    raw.GetOr(0)
  }

  // ---------------------------------------------------------------------
  // Salary lookups

  /** The salary of a role, class and step, if the table has it. */
  function LookupSalary(t: SalaryTable, role: string, salaryClass: string, step: string): (r: Option<real>)
    ensures r.Some? <==> role in t && salaryClass in t[role] && step in t[role][salaryClass]
    ensures r.Some? ==> r.value == t[role][salaryClass][step]
  {
    if role in t && salaryClass in t[role] && step in t[role][salaryClass]
    then Some(t[role][salaryClass][step])
    else None
  }

  /** The employee's own salary before adjustments: zero until all three
      selectors are set, then the table entry. */
  function OriginalSalary(form: Form, tables: Tables): Option<real> {
    if form.role != [] && form.salaryClass != [] && form.step != []
    then LookupSalary(tables.salaries, form.role, form.salaryClass, form.step)
    else Some(0.0)
  }

  /** `rate` of `amount`: every percentage the calculation applies. */
  function Share(rate: real, amount: real): real {
    rate * amount
  }

  function TitleRate(t: Title): real {
    match t
    case NoTitle => 0.0
    case Specialization => 0.15
    case Masters => 0.25
    case Doctorate => 0.35
  }

  function TierShare(t: FunctionTier): real {
    match t
    case NoFunction => 0.0
    case Manager => 0.90
    case Coordinator => 1.00
  }

  /** The granted-function amount: a share of the fixed reference salary,
      adjusted like the employee's own, or zero without a function. */
  function Representation(form: Form, tables: Tables): Option<real> {
    if form.tier == NoFunction then Some(0.0)
    else
      match LookupSalary(tables.salaries, ReferenceRole, ReferenceClass, ReferenceStep)
      case None => None
      case Some(reference) => Some(TierShare(form.tier) * ApplyAdjustments(reference, form.adjustments))
  }

  // ---------------------------------------------------------------------
  // The arithmetic

  /** Every amount the calculation names. */
  datatype Breakdown = Breakdown(
    timeInServiceRate: real,
    base: real,
    gratification: real,
    courseBonus: real,
    titleBonus: real,
    representation: real,
    timeInService: real,
    timeInServiceForPension: real,
    productivity: real,
    pensionBase: real,
    pension: real,
    dependentDeduction: real,
    taxBase: real,
    incomeTax: Withholding,
    vacationThird: real,
    vacationTax: Withholding,
    gross: real)

  function Assemble(form: Form, tables: Tables, base: real, representation: real): Breakdown {
    var pct := TimeInServiceRate(form.timeInService);
    var courseBonus := if form.courses then Share(0.10, base) else 0.0;
    var titleBonus := Share(TitleRate(form.title), base);
    var gratification := if form.role in EligibleRoles then Share(0.80, base) else 0.0;
    var timeInService := Share(pct, base + gratification + titleBonus + representation);
    var timeInServiceForPension := Share(pct, base + gratification + titleBonus);
    var productivity := Share(ProductivityPercent(form.productivity) / 100.0, 0.90 * base);
    var pensionBase := base + gratification + titleBonus + timeInServiceForPension;
    var pension := Share(PensionRate, pensionBase);
    var dependentDeduction := tables.perDependent * form.dependents as real;
    var earnings := base + gratification + timeInService + titleBonus + courseBonus + productivity + representation;
    var taxBase := earnings - pension - dependentDeduction;
    var third := if form.vacation then earnings / 3.0 else 0.0;
    var vacationTax := if form.vacation then ComputeIncomeTax(third - dependentDeduction, tables.brackets)
                       else Withholding(0.0, 0.0);
    Breakdown(pct, base, gratification, courseBonus, titleBonus, representation, timeInService,
              timeInServiceForPension, productivity, pensionBase, pension, dependentDeduction, taxBase,
              ComputeIncomeTax(taxBase, tables.brackets), third, vacationTax, earnings + third)
  }

  /** The calculation, or `None` when a salary it needs is missing from the
      table (the page stops with an error there). */
  function Evaluate(form: Form, tables: Tables): Option<Breakdown> {
    match OriginalSalary(form, tables)
    case None => None
    case Some(original) =>
      match Representation(form, tables)
      case None => None
      case Some(representation) =>
        Some(Assemble(form, tables, ApplyAdjustments(original, form.adjustments), representation))
  }

  // ---------------------------------------------------------------------
  // The line items

  function FixedRows(b: Breakdown): seq<LineItem> {
    [ LineItem("D031", WithRate(IncomeTaxText, b.incomeTax.rate), b.incomeTax.tax),
      LineItem("R101", Text(TaxBaseText), b.taxBase),
      LineItem("R102", Text(PensionBaseText), b.pensionBase),
      LineItem("D026", Text(FinanprevText), b.pension),
      LineItem("R103", Text(GrossPayText), b.gross) ]
  }

  function VacationRows(form: Form, b: Breakdown): seq<LineItem> {
    if form.vacation then
      [ LineItem("P025", Text(VacationThirdText), b.vacationThird),
        LineItem("D055", WithRate(VacationTaxText, b.vacationTax.rate), b.vacationTax.tax) ]
    else []
  }

  function CourseRow(form: Form, b: Breakdown): seq<LineItem> {
    if form.courses then [LineItem("P316", Text(CoursesText), b.courseBonus)] else []
  }

  function TitleRow(form: Form, b: Breakdown): seq<LineItem> {
    if form.title != NoTitle then [LineItem("P317", Text(TitlesText), b.titleBonus)] else []
  }

  function RepresentationRow(form: Form, b: Breakdown): seq<LineItem> {
    if form.tier != NoFunction then [LineItem("P307", Text(FunctionText), b.representation)] else []
  }

  function HealthRow(form: Form, b: Breakdown): seq<LineItem> {
    if form.healthPlan then [LineItem("D070", Text(HealthPlanText), HealthRate * b.pensionBase)] else []
  }

  /** The item one confirmed union type contributes; an unknown type adds none. */
  function UnionRow(t: Union, b: Breakdown): seq<LineItem> {
    if t == Sindicontas then [LineItem("D303", Text(SindicontasText), SindicontasFee)]
    else if t == Auditors then [LineItem("D351", Text(AuditorsText), AuditorsRate * (b.base + b.gratification))]
    else []
  }

  /** One item per confirmed union type, in the order they were confirmed. */
  function UnionRows(types: seq<Union>, b: Breakdown): seq<LineItem>
    decreases |types|
  {
    if |types| == 0 then [] else UnionRow(types[0], b) + UnionRows(types[1..], b)
  }

  function UnionSection(form: Form, types: seq<Union>, b: Breakdown): seq<LineItem> {
    if form.unionDue && |types| > 0 then UnionRows(types, b) else []
  }

  function AssociationRow(form: Form): seq<LineItem> {
    if form.associationDue then [LineItem("D019", Text(AssociationText), AssociationFee)] else []
  }

  function DentalRow(form: Form): seq<LineItem> {
    var n := BeneficiaryCount(form.beneficiaries);
    if form.dentalPlan then [LineItem("D042", WithCount(DentalText, n), DentalFee * n as real)]
    else []
  }

  /** The items in the order the calculation pushes them. */
  function EmitItems(form: Form, types: seq<Union>, b: Breakdown): seq<LineItem> {
    FixedRows(b) + VacationRows(form, b) + CourseRow(form, b) + TitleRow(form, b)
    + RepresentationRow(form, b) + HealthRow(form, b) + UnionSection(form, types, b)
    + AssociationRow(form) + DentalRow(form)
  }

  // ---------------------------------------------------------------------
  // The recalculation

  /** The values the page shows outside the item rows. */
  datatype Display = Display(base: real, gratification: real, timeInService: real, productivity: real, dental: real)

  function DisplayOf(form: Form, b: Breakdown): Display {
    var dental := if form.dentalPlan then DentalFee * BeneficiaryCount(form.beneficiaries) as real else 0.0;
    Display(b.base, b.gratification, b.timeInService, b.productivity, dental)
  }

  /** A completed recalculation: the values outside the table and the table refresh. */
  datatype View = View(display: Display, table: Refresh)

  datatype Recomputed = Recomputed(session: Session, view: Option<View>)

  /** One recalculation. The warning flag is updated first, so it changes even
      when a missing salary stops the calculation; then the item list is
      rebuilt from scratch and put in display order. The confirmed union types
      are read, never changed. */
  function Recompute(session: Session, form: Form, tables: Tables): Recomputed {
    var shown := NextWarningShown(session.warningShown, TimeInServiceRate(form.timeInService));
    match Evaluate(form, tables)
    case None => Recomputed(session.(warningShown := shown), None)
    case Some(b) =>
      var table := RefreshTable(EmitItems(form, session.unionTypes, b));
      Recomputed(Session(shown, session.unionTypes, table.sorted), Some(View(DisplayOf(form, b), table)))
  }
}
