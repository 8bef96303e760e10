/** The per-tool form state of the tools screen (components/ToolsPage.tsx:104-116) and
    the field-update handlers of the business-plan form (222-248). */
module ToolForms {
  import opened Wrappers
  import opened ToolRegistry

  // One record per tool that has a form, with the fields of its object literal.
  datatype IdeaForm = IdeaForm(sector: string, interest: string)
  datatype ProductForm = ProductForm(projectName: string, description: string)
  datatype MarketForm = MarketForm(sector: string, location: string, target: string)
  datatype PlanForm = PlanForm(name: string, valueProp: string, revenue: string)
  datatype DeckForm = DeckForm(startupName: string, problem: string, solution: string)
  datatype FullPlanForm = FullPlanForm(name: string, industry: string, problem: string, solution: string, competitors: string, targetMarket: string, revenueModel: string)
  datatype SwotForm = SwotForm(name: string, description: string)
  datatype InvestorPitchForm = InvestorPitchForm(name: string, description: string, targetMarket: string, amount: string)
  datatype GtmForm = GtmForm(name: string, industry: string, target: string, pricing: string)
  datatype FinanceForm = FinanceForm(name: string, revenueModel: string, initialCap: string, burnRate: string)
  datatype DescGenForm = DescGenForm(projectName: string, features: string)

  /** The `forms` object: one record per tool kind except CV, which has none. */
  datatype Forms = Forms(
    idea: IdeaForm,
    product: ProductForm,
    market: MarketForm,
    plan: PlanForm,
    deck: DeckForm,
    fullPlan: FullPlanForm,
    swot: SwotForm,
    investorPitch: InvestorPitchForm,
    gtm: GtmForm,
    finance: FinanceForm,
    descGen: DescGenForm)

  /** The two pre-filled values of the market-analysis form. */
  const DefaultLocation: string := "السعودية والخليج"
  const DefaultTarget: string := "B2C"

  /** The `forms` state on mount. */
  const InitialForms: Forms :=
    Forms(
      IdeaForm("", ""),
      ProductForm("", ""),
      MarketForm("", DefaultLocation, DefaultTarget),
      PlanForm("", "", ""),
      DeckForm("", "", ""),
      FullPlanForm("", "", "", "", "", "", ""),
      SwotForm("", ""),
      InvestorPitchForm("", "", "", ""),
      GtmForm("", "", "", ""),
      FinanceForm("", "", "", ""),
      DescGenForm("", ""))

  /** Any one tool's record, tagged with its tool. */
  datatype Form =
    | IdeaFields(getIdea: IdeaForm)
    | ProductFields(getProduct: ProductForm)
    | MarketFields(getMarket: MarketForm)
    | PlanFields(getPlan: PlanForm)
    | DeckFields(getDeck: DeckForm)
    | FullPlanFields(getFullPlan: FullPlanForm)
    | SwotFields(getSwot: SwotForm)
    | InvestorPitchFields(getInvestorPitch: InvestorPitchForm)
    | GtmFields(getGtm: GtmForm)
    | FinanceFields(getFinance: FinanceForm)
    | DescGenFields(getDescGen: DescGenForm)

  /** `forms[t]`: the record of tool `t`; CV has none. */
  function FormOf(fs: Forms, t: ToolId): Option<Form> {
    match t
    case Idea => Some(IdeaFields(fs.idea))
    case Product => Some(ProductFields(fs.product))
    case Market => Some(MarketFields(fs.market))
    case Plan => Some(PlanFields(fs.plan))
    case Deck => Some(DeckFields(fs.deck))
    case FullPlan => Some(FullPlanFields(fs.fullPlan))
    case Swot => Some(SwotFields(fs.swot))
    case InvestorPitch => Some(InvestorPitchFields(fs.investorPitch))
    case Gtm => Some(GtmFields(fs.gtm))
    case Finance => Some(FinanceFields(fs.finance))
    case DescGen => Some(DescGenFields(fs.descGen))
    case Cv => None
  }

  /** The tool a record belongs to. */
  function FormTool(f: Form): ToolId {
    match f
    case IdeaFields(_) => Idea
    case ProductFields(_) => Product
    case MarketFields(_) => Market
    case PlanFields(_) => Plan
    case DeckFields(_) => Deck
    case FullPlanFields(_) => FullPlan
    case SwotFields(_) => Swot
    case InvestorPitchFields(_) => InvestorPitch
    case GtmFields(_) => Gtm
    case FinanceFields(_) => Finance
    case DescGenFields(_) => DescGen
  }

  /** Every tool but CV has exactly one record, and it is tagged with that tool. */
  lemma FormOfTool(fs: Forms, t: ToolId)
    ensures FormOf(fs, t).None? <==> t == Cv
    ensures FormOf(fs, t).Some? ==> FormTool(FormOf(fs, t).value) == t
  {
  }

  /** The record as the object the gateway receives: field names and values, in the
      order of the object literal. */
  function Fields(f: Form): seq<(string, string)> {
    match f
    case IdeaFields(r) => [("sector", r.sector), ("interest", r.interest)]
    case ProductFields(r) => [("projectName", r.projectName), ("description", r.description)]
    case MarketFields(r) => [("sector", r.sector), ("location", r.location), ("target", r.target)]
    case PlanFields(r) => [("name", r.name), ("valueProp", r.valueProp), ("revenue", r.revenue)]
    case DeckFields(r) => [("startupName", r.startupName), ("problem", r.problem), ("solution", r.solution)]
    case FullPlanFields(r) => [("name", r.name), ("industry", r.industry), ("problem", r.problem), ("solution", r.solution), ("competitors", r.competitors), ("targetMarket", r.targetMarket), ("revenueModel", r.revenueModel)]
    case SwotFields(r) => [("name", r.name), ("description", r.description)]
    case InvestorPitchFields(r) => [("name", r.name), ("description", r.description), ("targetMarket", r.targetMarket), ("amount", r.amount)]
    case GtmFields(r) => [("name", r.name), ("industry", r.industry), ("target", r.target), ("pricing", r.pricing)]
    case FinanceFields(r) => [("name", r.name), ("revenueModel", r.revenueModel), ("initialCap", r.initialCap), ("burnRate", r.burnRate)]
    case DescGenFields(r) => [("projectName", r.projectName), ("features", r.features)]
  }

  /** Every value of a field list is empty. */
  predicate AllBlank(kvs: seq<(string, string)>) {
    forall i :: 0 <= i < |kvs| ==> kvs[i].1 == ""
  }

  /** On mount every field of every form is empty, except the market form's location
      and target. */
  lemma InitialFormsBlank()
    ensures forall t :: t != Market && FormOf(InitialForms, t).Some? ==> AllBlank(Fields(FormOf(InitialForms, t).value))
    ensures Fields(FormOf(InitialForms, Market).value) == [("sector", ""), ("location", DefaultLocation), ("target", DefaultTarget)]
  {
  }

  // ---------------------------------------------------------------- business-plan form

  /** The seven inputs of the business-plan form. */
  datatype FullPlanField = Name | Industry | Problem | Solution | Competitors | TargetMarket | RevenueModel

  /** The value a business-plan input shows. */
  function FullPlanValue(p: FullPlanForm, f: FullPlanField): string {
    match f
    case Name => p.name
    case Industry => p.industry
    case Problem => p.problem
    case Solution => p.solution
    case Competitors => p.competitors
    case TargetMarket => p.targetMarket
    case RevenueModel => p.revenueModel
  }

  function SetFullPlanValue(p: FullPlanForm, f: FullPlanField, v: string): FullPlanForm {
    match f
    case Name => p.(name := v)
    case Industry => p.(industry := v)
    case Problem => p.(problem := v)
    case Solution => p.(solution := v)
    case Competitors => p.(competitors := v)
    case TargetMarket => p.(targetMarket := v)
    case RevenueModel => p.(revenueModel := v)
  }

  /** An input's change handler on the business-plan form: the edited
      input shows the new value, every other business-plan input and every other tool's
      record is unchanged. */
  function UpdateFullPlan(fs: Forms, f: FullPlanField, v: string): (r: Forms)
    ensures FullPlanValue(r.fullPlan, f) == v
    ensures forall g :: g != f ==> FullPlanValue(r.fullPlan, g) == FullPlanValue(fs.fullPlan, g)
    ensures forall t :: t != FullPlan ==> FormOf(r, t) == FormOf(fs, t)
  {
    fs.(fullPlan := SetFullPlanValue(fs.fullPlan, f, v))
  }

  /** Edits to different inputs commute, and a later edit of the same input overrides an earlier one. */
  lemma UpdatesCommute(fs: Forms, f: FullPlanField, g: FullPlanField, v: string, w: string)
    ensures f != g ==> UpdateFullPlan(UpdateFullPlan(fs, f, v), g, w) == UpdateFullPlan(UpdateFullPlan(fs, g, w), f, v)
    ensures UpdateFullPlan(UpdateFullPlan(fs, f, v), f, w) == UpdateFullPlan(fs, f, w)
  {
  }
}
