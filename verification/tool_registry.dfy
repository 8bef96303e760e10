/** The tool catalog of the tools screen (components/ToolsPage.tsx:22-96): the closed
    enumeration of tool kinds and the metadata of the tools the catalog offers. */
module ToolRegistry {
  import opened Wrappers

  /** The `ToolID` union: one constructor per tool kind. */
  datatype ToolId = Idea | Cv | Product | Market | Plan | Deck | FullPlan | Swot | InvestorPitch | Gtm | Finance | DescGen

  /** The string identifier of each tool kind, as the source spells it. */
  function ToolKey(t: ToolId): string {
    match t
    case Idea => "IDEA"
    case Cv => "CV"
    case Product => "PRODUCT"
    case Market => "MARKET"
    case Plan => "PLAN"
    case Deck => "DECK"
    case FullPlan => "FULL_PLAN"
    case Swot => "SWOT"
    case InvestorPitch => "INVESTOR_PITCH"
    case Gtm => "GTM"
    case Finance => "FINANCE"
    case DescGen => "DESC_GEN"
  }

  /** Reads a tool identifier; anything outside the enumeration is None. */
  function ParseToolKey(key: string): (r: Option<ToolId>)
  {
    if key == "IDEA" then Some(Idea)
    else if key == "CV" then Some(Cv)
    else if key == "PRODUCT" then Some(Product)
    else if key == "MARKET" then Some(Market)
    else if key == "PLAN" then Some(Plan)
    else if key == "DECK" then Some(Deck)
    else if key == "FULL_PLAN" then Some(FullPlan)
    else if key == "SWOT" then Some(Swot)
    else if key == "INVESTOR_PITCH" then Some(InvestorPitch)
    else if key == "GTM" then Some(Gtm)
    else if key == "FINANCE" then Some(Finance)
    else if key == "DESC_GEN" then Some(DescGen)
    else None
  }

  /** `ParseToolKey` inverts `ToolKey`: every identifier reads back as its tool, and only
      the twelve identifiers read as a tool at all. */
  lemma ToolKeyRoundTrip(t: ToolId, key: string)
    ensures ParseToolKey(ToolKey(t)) == Some(t)
    ensures ParseToolKey(key) == Some(t) ==> ToolKey(t) == key
  {
  }

  /** A catalog entry: the tool, its title (also the heading of the open tool's form)
      and the "AI logic" caption of its card. The descriptions, the icon and the colour
      are presentation only. */
  datatype ToolMeta = ToolMeta(id: ToolId, title: string, aiLogic: string)

  /** `TOOLS_META`, in display order. */
  const ToolsMeta: seq<ToolMeta> :=
    [
      ToolMeta(FullPlan, "معماري خطة العمل الشاملة", "Sequoia & McKinsey Frameworks"),
      ToolMeta(DescGen, "مولد وصف المشروع الذكي", "Strategic Copywriting"),
      ToolMeta(Gtm, "معماري استراتيجية النمو (GTM)", "Growth Marketing Patterns"),
      ToolMeta(Swot, "محلل SWOT الاستراتيجي", "Venture Capital Feasibility Model"),
      ToolMeta(Market, "محرك تحليل السوق", "Deep Trend Scanning"),
      ToolMeta(Idea, "مولد الأفكار الابتكارية", "Blue Ocean Strategy")
    ]

  /** Index of the first entry of `ms` for tool `id`, if there is one (`Array.prototype.findIndex`). */
  function FindIndex(ms: seq<ToolMeta>, id: ToolId): (r: Option<nat>)
    ensures r.Some? ==> r.value < |ms| && ms[r.value].id == id
    ensures r.Some? ==> forall j :: 0 <= j < r.value ==> ms[j].id != id
    ensures r.None? ==> forall j :: 0 <= j < |ms| ==> ms[j].id != id
  {
    if ms == [] then None
    else if ms[0].id == id then Some(0)
    else
      match FindIndex(ms[1..], id)
      case None => None
      case Some(k) => Some(k + 1)
  }

  /** The first catalog entry of a tool, used for the title
      of the open tool's form. */
  function FindMeta(id: ToolId): (r: Option<ToolMeta>)
    ensures r.Some? ==> r.value in ToolsMeta && r.value.id == id
    ensures r.None? ==> forall m :: m in ToolsMeta ==> m.id != id
  {
    match FindIndex(ToolsMeta, id)
    case None => None
    case Some(k) => Some(ToolsMeta[k])
  }

  /** The tools the catalog offers, in display order. */
  const CatalogTools: seq<ToolId> := [FullPlan, DescGen, Gtm, Swot, Market, Idea]

  /** The catalog lists six distinct tools, and its entries are for exactly those tools,
      in display order. */
  lemma CatalogIds()
    ensures |ToolsMeta| == |CatalogTools|
    ensures forall i :: 0 <= i < |ToolsMeta| ==> ToolsMeta[i].id == CatalogTools[i]
    ensures forall i, j :: 0 <= i < j < |CatalogTools| ==> CatalogTools[i] != CatalogTools[j]
  {
  }

  /** A tool has a catalog entry exactly when the catalog lists it; the other six kinds,
      CV among them, can never be opened from the screen. */
  lemma CatalogContents()
    ensures forall t :: FindMeta(t).Some? <==> t in CatalogTools
  {
    CatalogIds();
    forall t ensures FindMeta(t).Some? <==> t in CatalogTools {
      if t in CatalogTools {
        var i :| 0 <= i < |CatalogTools| && CatalogTools[i] == t;
        assert ToolsMeta[i] in ToolsMeta;
      }
    }
  }
}
