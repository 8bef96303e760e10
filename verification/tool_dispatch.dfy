/** Generation on the tools screen (components/ToolsPage.tsx:98-155, 165, 189): the
    routing of the open tool's form to its generator, the business-plan payload, and the
    request lifecycle over `activeTool`, `isLoading` and `result`.

    `handleGenerate` is split at its `await`: `Generate` is everything before it and
    returns the gateway call it makes, `Resolve` is everything after it and receives how
    the call ended. */
module ToolDispatch {
  import opened Wrappers
  import opened ToolRegistry
  import opened ToolForms

  // ---------------------------------------------------------------- routing

  /** The eleven generator functions of the gateway the screen imports (3-15). */
  datatype Generator =
    | GenerateStartupIdea
    | GenerateProductSpecs
    | GenerateMarketAnalysis
    | GenerateStrategicPlan
    | GeneratePitchDeckOutline
    | GenerateStructuredBusinessPlan
    | GenerateSwotAnalysis
    | GenerateInvestorPitch
    | GenerateGtmStrategy
    | GenerateFinancialForecast
    | GenerateProjectDescription

  /** The generator each branch of the dispatch chain calls (128-145); CV has no branch. */
  function GeneratorFor(t: ToolId): Option<Generator> {
    match t
    case Idea => Some(GenerateStartupIdea)
    case Product => Some(GenerateProductSpecs)
    case Market => Some(GenerateMarketAnalysis)
    case Plan => Some(GenerateStrategicPlan)
    case Deck => Some(GeneratePitchDeckOutline)
    case FullPlan => Some(GenerateStructuredBusinessPlan)
    case Swot => Some(GenerateSwotAnalysis)
    case InvestorPitch => Some(GenerateInvestorPitch)
    case Gtm => Some(GenerateGtmStrategy)
    case Finance => Some(GenerateFinancialForecast)
    case DescGen => Some(GenerateProjectDescription)
    case Cv => None
  }

  /** The tool whose branch calls a generator. */
  function ToolOfGenerator(g: Generator): ToolId {
    match g
    case GenerateStartupIdea => Idea
    case GenerateProductSpecs => Product
    case GenerateMarketAnalysis => Market
    case GenerateStrategicPlan => Plan
    case GeneratePitchDeckOutline => Deck
    case GenerateStructuredBusinessPlan => FullPlan
    case GenerateSwotAnalysis => Swot
    case GenerateInvestorPitch => InvestorPitch
    case GenerateGtmStrategy => Gtm
    case GenerateFinancialForecast => Finance
    case GenerateProjectDescription => DescGen
  }

  /** The routing is one-to-one: every tool but CV calls exactly one generator, every
      generator is called by exactly one tool, and CV calls none. */
  lemma RoutingIsBijective(t: ToolId, g: Generator)
    ensures GeneratorFor(t).None? <==> t == Cv
    ensures GeneratorFor(t) == Some(g) <==> ToolOfGenerator(g) == t
  {
  }

  // ---------------------------------------------------------------- payloads

  const MarketLabel: string := "Market: "
  const RevenueLabel: string := ", Revenue: "

  /** The `vision3yr` field the business-plan payload folds two inputs into (139). */
  function Vision3yr(targetMarket: string, revenueModel: string): string {
    MarketLabel + targetMarket + RevenueLabel + revenueModel
  }

  /** Splits a `vision3yr` value given the length of its market part. */
  function SplitVision(v: string, marketLength: nat): Option<(string, string)> {
    var n := |MarketLabel| + marketLength;
    if n + |RevenueLabel| <= |v| && v[..|MarketLabel|] == MarketLabel && v[n..n + |RevenueLabel|] == RevenueLabel
    then Some((v[|MarketLabel|..n], v[n + |RevenueLabel|..]))
    else None
  }

  /** The merge loses nothing but the boundary: knowing the length of the market input,
      both inputs are recovered, empty ones included, and a successful split is undone by
      merging again. */
  lemma VisionRoundTrip(targetMarket: string, revenueModel: string, v: string, marketLength: nat)
    ensures SplitVision(Vision3yr(targetMarket, revenueModel), |targetMarket|) == Some((targetMarket, revenueModel))
    ensures SplitVision(v, marketLength).Some? ==>
      var (tm, rm) := SplitVision(v, marketLength).value;
      Vision3yr(tm, rm) == v && |tm| == marketLength
  {
    var x := Vision3yr(targetMarket, revenueModel);
    var n := |MarketLabel| + |targetMarket|;
    assert x == MarketLabel + (targetMarket + (RevenueLabel + revenueModel));
    assert x[..|MarketLabel|] == MarketLabel;
    assert x[|MarketLabel|..n] == targetMarket;
    assert x[n..n + |RevenueLabel|] == RevenueLabel;
    assert x[n + |RevenueLabel|..] == revenueModel;
    if SplitVision(v, marketLength).Some? {
      var m := |MarketLabel| + marketLength;
      assert v == v[..|MarketLabel|] + v[|MarketLabel|..m] + v[m..m + |RevenueLabel|] + v[m + |RevenueLabel|..];
    }
  }

  /** The business-plan payload (133-140): five inputs passed as they are, and the target
      market and revenue model folded into `vision3yr`. */
  function FullPlanPayload(p: FullPlanForm): seq<(string, string)> {
    [ ("name", p.name), ("industry", p.industry), ("problem", p.problem),
      ("solution", p.solution), ("competitors", p.competitors),
      ("vision3yr", Vision3yr(p.targetMarket, p.revenueModel)) ]
  }

  /** The value of the first field named `key`, if any. */
  function Lookup(kvs: seq<(string, string)>, key: string): Option<string> {
    if kvs == [] then None
    else if kvs[0].0 == key then Some(kvs[0].1)
    else Lookup(kvs[1..], key)
  }

  /** The first field carrying `key` supplies its value. */
  lemma {:induction false} LookupFirst(kvs: seq<(string, string)>, i: nat, key: string)
    requires i < |kvs| && kvs[i].0 == key
    requires forall j :: 0 <= j < i ==> kvs[j].0 != key
    ensures Lookup(kvs, key) == Some(kvs[i].1)
    decreases i
  {
    if i > 0 {
      LookupFirst(kvs[1..], i - 1, key);
    }
  }

  /** A key no field carries is not found. */
  lemma {:induction false} LookupAbsent(kvs: seq<(string, string)>, key: string)
    requires forall j :: 0 <= j < |kvs| ==> kvs[j].0 != key
    ensures Lookup(kvs, key) == None
    decreases |kvs|
  {
    if kvs != [] {
      LookupAbsent(kvs[1..], key);
    }
  }

  /** What the business-plan generator receives, field by field: the five pass-through
      inputs unchanged, `vision3yr` exactly `"Market: " + targetMarket + ", Revenue: " +
      revenueModel`, and neither of the two merged inputs on its own. */
  lemma FullPlanPayloadFields(p: FullPlanForm)
    ensures var pl := FullPlanPayload(p);
            && Lookup(pl, "name") == Some(p.name)
            && Lookup(pl, "industry") == Some(p.industry)
            && Lookup(pl, "problem") == Some(p.problem)
            && Lookup(pl, "solution") == Some(p.solution)
            && Lookup(pl, "competitors") == Some(p.competitors)
            && Lookup(pl, "vision3yr") == Some("Market: " + p.targetMarket + ", Revenue: " + p.revenueModel)
            && Lookup(pl, "targetMarket") == None
            && Lookup(pl, "revenueModel") == None
  {
    var pl := FullPlanPayload(p);
    assert "industry"[0] != "solution"[0] && "targetMarket"[0] != "revenueModel"[0];
    LookupFirst(pl, 0, "name");
    LookupFirst(pl, 1, "industry");
    LookupFirst(pl, 2, "problem");
    LookupFirst(pl, 3, "solution");
    LookupFirst(pl, 4, "competitors");
    LookupFirst(pl, 5, "vision3yr");
    LookupAbsent(pl, "targetMarket");
    LookupAbsent(pl, "revenueModel");
  }

  /** One gateway call: the generator and the object it is given. */
  datatype GatewayCall = GatewayCall(generator: Generator, payload: seq<(string, string)>)

  /** The dispatch chain of `handleGenerate` (126-145): the open tool's record goes to its
      own generator unchanged, except that the business plan gets its merged payload; CV
      has no branch and calls nothing. */
  function BuildCall(t: ToolId, fs: Forms): (r: Option<GatewayCall>)
    ensures r.None? <==> t == Cv
    ensures r.Some? ==> ToolOfGenerator(r.value.generator) == t
    ensures r.Some? && t != FullPlan ==> r.value.payload == Fields(FormOf(fs, t).value)
    ensures t == FullPlan ==> r.Some? && r.value.payload == FullPlanPayload(fs.fullPlan)
  {
    match t
    case Idea => Some(GatewayCall(GenerateStartupIdea, Fields(IdeaFields(fs.idea))))
    case Product => Some(GatewayCall(GenerateProductSpecs, Fields(ProductFields(fs.product))))
    case Market => Some(GatewayCall(GenerateMarketAnalysis, Fields(MarketFields(fs.market))))
    case Plan => Some(GatewayCall(GenerateStrategicPlan, Fields(PlanFields(fs.plan))))
    case Deck => Some(GatewayCall(GeneratePitchDeckOutline, Fields(DeckFields(fs.deck))))
    case FullPlan => Some(GatewayCall(GenerateStructuredBusinessPlan, FullPlanPayload(fs.fullPlan)))
    case Swot => Some(GatewayCall(GenerateSwotAnalysis, Fields(SwotFields(fs.swot))))
    case InvestorPitch => Some(GatewayCall(GenerateInvestorPitch, Fields(InvestorPitchFields(fs.investorPitch))))
    case Gtm => Some(GatewayCall(GenerateGtmStrategy, Fields(GtmFields(fs.gtm))))
    case Finance => Some(GatewayCall(GenerateFinancialForecast, Fields(FinanceFields(fs.finance))))
    case DescGen => Some(GatewayCall(GenerateProjectDescription, Fields(DescGenFields(fs.descGen))))
    case Cv => None
  }

  /** A call depends on its own tool's record only: editing the business-plan form changes
      no other tool's call. */
  lemma CallIgnoresOtherForms(t: ToolId, fs: Forms, f: FullPlanField, v: string)
    requires t != FullPlan
    ensures BuildCall(t, UpdateFullPlan(fs, f, v)) == BuildCall(t, fs)
  {
    var r := UpdateFullPlan(fs, f, v);
    assert FormOf(r, t) == FormOf(fs, t);
  }

  // ---------------------------------------------------------------- lifecycle

  /** What a generator returns: text, or for the business plan its three sections. */
  datatype GenResult =
    | TextResult(text: string)
    | PlanResult(executiveSummary: string, marketAnalysis: string, financialProjections: string)

  /** The screen's generation state: `activeTool`, `isLoading`, `result` and `forms`. */
  datatype Tools = Tools(active: Option<ToolId>, loading: bool, result: Option<GenResult>, forms: Forms)

  const InitialTools: Tools := Tools(None, false, None, InitialForms)

  /** The alert shown when generation fails (151). */
  const GenerationFailedAlert: string := "فشل محرك المعالجة الذكية. يرجى المحاولة لاحقاً."

  /** Opening a tool from the catalog (189). */
  function OpenTool(v: Tools, t: ToolId): (r: Tools)
    ensures r.active == Some(t)
    ensures r.loading == v.loading && r.result == v.result && r.forms == v.forms
  {
    v.(active := Some(t))
  }

  /** Typing into a business-plan input (222-248). */
  function EditFullPlan(v: Tools, f: FullPlanField, value: string): (r: Tools)
    ensures FullPlanValue(r.forms.fullPlan, f) == value
    ensures forall t :: t != FullPlan ==> FormOf(r.forms, t) == FormOf(v.forms, t)
    ensures r.active == v.active && r.loading == v.loading && r.result == v.result
  {
    v.(forms := UpdateFullPlan(v.forms, f, value))
  }

  datatype GenerateStep = GenerateStep(view: Tools, call: Option<GatewayCall>)

  /** `handleGenerate` up to its `await` (118-126): without an open tool nothing happens;
      otherwise loading starts, the previous result is cleared, and the open tool's call
      is made. CV reaches no `await`: the handler runs to its end at once, storing the
      empty result and stopping loading. */
  function Generate(v: Tools): (r: GenerateStep)
    ensures v.active.None? ==> r.view == v && r.call.None?
    ensures v.active.Some? ==> r.view.result.None?
    ensures r.call.Some? <==> v.active.Some? && v.active.value != Cv
    ensures r.call.Some? ==> r.view.loading && r.call == BuildCall(v.active.value, v.forms)
    ensures v.active == Some(Cv) ==> !r.view.loading
    ensures r.view.active == v.active && r.view.forms == v.forms
  {
    match v.active
    case None => GenerateStep(v, None)
    case Some(t) =>
      match BuildCall(t, v.forms)
      case None => GenerateStep(v.(loading := false, result := None), None)
      case Some(call) => GenerateStep(v.(loading := true, result := None), Some(call))
  }

  /** How the gateway call ended. */
  datatype Outcome = Generated(value: GenResult) | GenerationFailed

  datatype ResolveStep = ResolveStep(view: Tools, alert: Option<string>)

  /** `handleGenerate` after its `await` (147-154): a returned value becomes the result;
      a failure raises the one fixed alert and leaves the result as it is; loading stops
      either way. The value is stored whichever tool is open by then. */
  function Resolve(v: Tools, o: Outcome): (r: ResolveStep)
    ensures !r.view.loading
    ensures o.Generated? ==> r.view.result == Some(o.value) && r.alert.None?
    ensures o.GenerationFailed? ==> r.view.result == v.result && r.alert == Some(GenerationFailedAlert)
    ensures r.view.active == v.active && r.view.forms == v.forms
  {
    match o
    case Generated(x) => ResolveStep(v.(result := Some(x), loading := false), None)
    case GenerationFailed => ResolveStep(v.(loading := false), Some(GenerationFailedAlert))
  }

  /** A whole generation for an open tool other than CV: exactly one call, then the
      returned value as the result, or on failure an empty result and the alert. */
  lemma GenerationCycle(v: Tools, o: Outcome)
    requires v.active.Some? && v.active.value != Cv
    ensures var g := Generate(v);
            var r := Resolve(g.view, o);
            && g.call.Some? && g.view.loading
            && !r.view.loading
            && (o.Generated? ==> r.view.result == Some(o.value) && r.alert.None?)
            && (o.GenerationFailed? ==> r.view.result.None? && r.alert == Some(GenerationFailedAlert))
  {
  }

  datatype BackStep = StayOnPage(view: Tools) | LeavePage

  /** The header's back button (165): with a tool open it returns to the catalog and
      clears the result, keeping the forms and the loading flag; without one it leaves the
      screen. */
  function Back(v: Tools): (r: BackStep)
    ensures r.LeavePage? <==> v.active.None?
    ensures r.StayOnPage? ==> r.view.active.None? && r.view.result.None?
    ensures r.StayOnPage? ==> r.view.forms == v.forms && r.view.loading == v.loading
  {
    if v.active.Some? then StayOnPage(v.(active := None, result := None)) else LeavePage
  }
}
