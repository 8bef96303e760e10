/** The tools screen as a user can drive it. The catalog cards are on screen only while no
    tool is open (components/ToolsPage.tsx:177-189), the business-plan inputs only while
    that tool is open (217-248), the generate button inside an open tool and disabled
    while loading (258-261), and the back button in the header (165). The gateway's answer
    is the one event that arrives from outside.

    Over every sequence of such events the model proves that at most one gateway call is
    in flight and that every press of the generate button makes one, and it exhibits that
    an answer resolving after the user switched tools is shown under the other tool. */
module ToolsTrace {
  import opened Wrappers
  import opened ToolRegistry
  import opened ToolForms
  import opened ToolDispatch

  /** The screen's state and the gateway call in flight, if any. */
  datatype ToolsPage = ToolsPage(view: Tools, pending: Option<GatewayCall>)

  const InitialToolsPage: ToolsPage := ToolsPage(InitialTools, None)

  datatype Event =
    | PickTool(tool: ToolId)
    | EditField(field: FullPlanField, value: string)
    | PressGenerate
    | AnswerArrives(outcome: Outcome)
    | PressBack

  /** Whether the event can happen now. Leaving the screen from the catalog is outside
      this model, so the back button only counts inside an open tool. */
  predicate Enabled(pg: ToolsPage, e: Event) {
    match e
    case PickTool(t) => pg.view.active.None? && t in CatalogTools
    case EditField(_, _) => pg.view.active == Some(FullPlan)
    case PressGenerate => pg.view.active.Some? && !pg.view.loading
    case AnswerArrives(_) => pg.pending.Some?
    case PressBack => pg.view.active.Some?
  }

  function Step(pg: ToolsPage, e: Event): ToolsPage {
    match e
    case PickTool(t) => pg.(view := OpenTool(pg.view, t))
    case EditField(f, v) => pg.(view := EditFullPlan(pg.view, f, v))
    case PressGenerate =>
      var g := Generate(pg.view);
      ToolsPage(g.view, if g.call.Some? then g.call else pg.pending)
    case AnswerArrives(o) => ToolsPage(Resolve(pg.view, o).view, None)
    case PressBack =>
      match Back(pg.view)
      case StayOnPage(v) => pg.(view := v)
      case LeavePage => pg
  }

  /** Every event of `es` is enabled when it happens. */
  predicate Valid(pg: ToolsPage, es: seq<Event>)
    decreases |es|
  {
    es == [] || (Enabled(pg, es[0]) && Valid(Step(pg, es[0]), es[1..]))
  }

  function Run(pg: ToolsPage, es: seq<Event>): ToolsPage
    decreases |es|
  {
    if es == [] then pg else Run(Step(pg, es[0]), es[1..])
  }

  /** What holds of every page the user can reach: the spinner shows exactly while a call
      is in flight, nothing is shown while loading, and only catalog tools are open. */
  ghost predicate Inv(pg: ToolsPage) {
    && (pg.pending.Some? <==> pg.view.loading)
    && (pg.view.loading ==> pg.view.result.None?)
    && (pg.view.active.Some? ==> pg.view.active.value in CatalogTools)
  }

  lemma InitialInv()
    ensures Inv(InitialToolsPage)
  {
  }

  /** Every enabled event preserves the invariant. */
  lemma StepPreservesInv(pg: ToolsPage, e: Event)
    requires Inv(pg) && Enabled(pg, e)
    ensures Inv(Step(pg, e))
  {
    if e.PressGenerate? {
      assert pg.view.active.value != Cv;
    }
  }

  lemma {:induction false} RunPreservesInv(pg: ToolsPage, es: seq<Event>)
    requires Inv(pg) && Valid(pg, es)
    ensures Inv(Run(pg, es))
    decreases |es|
  {
    if es != [] {
      StepPreservesInv(pg, es[0]);
      RunPreservesInv(Step(pg, es[0]), es[1..]);
    }
  }

  /** Every page reachable from the initial one satisfies the invariant. */
  lemma ReachableInv(es: seq<Event>)
    requires Valid(InitialToolsPage, es)
    ensures Inv(Run(InitialToolsPage, es))
  {
    InitialInv();
    RunPreservesInv(InitialToolsPage, es);
  }

  /** On a reachable page the generate button, when it can be pressed, finds no call in
      flight and makes exactly the call for the open tool and its form: calls never
      overlap and none is lost. */
  lemma GenerateMakesOneCall(es: seq<Event>)
    requires Valid(InitialToolsPage, es)
    ensures var pg := Run(InitialToolsPage, es);
            Enabled(pg, PressGenerate) ==>
              && pg.pending.None?
              && Step(pg, PressGenerate).pending == BuildCall(pg.view.active.value, pg.view.forms)
              && Step(pg, PressGenerate).pending.Some?
  {
    ReachableInv(es);
    var pg := Run(InitialToolsPage, es);
    if Enabled(pg, PressGenerate) {
      assert pg.view.active.value in CatalogTools;
    }
  }

  /** On a reachable page a failed generation shows no result: the alert is all the user
      gets. */
  lemma FailureShowsNothing(es: seq<Event>)
    requires Valid(InitialToolsPage, es)
    ensures var pg := Run(InitialToolsPage, es);
            Enabled(pg, AnswerArrives(GenerationFailed)) ==>
              && Step(pg, AnswerArrives(GenerationFailed)).view.result.None?
              && !Step(pg, AnswerArrives(GenerationFailed)).view.loading
  {
    ReachableInv(es);
  }

  /** Running `e` then `es` is running `es` from the page `e` leads to. */
  lemma RunCons(pg: ToolsPage, e: Event, es: seq<Event>)
    ensures Run(pg, [e] + es) == Run(Step(pg, e), es)
    ensures Valid(pg, [e] + es) <==> Enabled(pg, e) && Valid(Step(pg, e), es)
  {
    assert ([e] + es)[1..] == es;
  }

  /** Running four events is stepping through them, each enabled in turn. */
  lemma Steps4(pg: ToolsPage, e1: Event, e2: Event, e3: Event, e4: Event)
    ensures var p1 := Step(pg, e1);
            var p2 := Step(p1, e2);
            var p3 := Step(p2, e3);
            && Run(pg, [e1, e2, e3, e4]) == Step(p3, e4)
            && (Valid(pg, [e1, e2, e3, e4]) <==>
                  Enabled(pg, e1) && Enabled(p1, e2) && Enabled(p2, e3) && Enabled(p3, e4))
  {
    RunCons(pg, e1, [e2, e3, e4]);
    RunCons(Step(pg, e1), e2, [e3, e4]);
    RunCons(Step(Step(pg, e1), e2), e3, [e4]);
    RunCons(Step(Step(Step(pg, e1), e2), e3), e4, []);
    assert [e1] + [e2, e3, e4] == [e1, e2, e3, e4];
    assert [e2] + [e3, e4] == [e2, e3, e4];
    assert [e3] + [e4] == [e3, e4];
    assert [e4] + [] == [e4];
  }

  /** The handler keeps no record of which tool asked: generating, going back, and
      opening another catalog tool before the answer arrives shows that answer under the
      other tool. */
  lemma StaleResultInOtherTool(pg: ToolsPage, t2: ToolId, x: GenResult)
    requires Inv(pg) && pg.view.active.Some? && !pg.view.loading && t2 in CatalogTools
    ensures var es := [PressGenerate, PressBack, PickTool(t2), AnswerArrives(Generated(x))];
            var r := Run(pg, es);
            && Valid(pg, es)
            && r.view.active == Some(t2)
            && r.view.result == Some(x)
  {
    assert pg.view.active.value != Cv;
    Steps4(pg, PressGenerate, PressBack, PickTool(t2), AnswerArrives(Generated(x)));
  }
}
