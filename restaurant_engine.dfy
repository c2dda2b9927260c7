/** The adaptive restaurant-survey graph: a survey node and an analysis node, joined by one
    router. The language models and the web search are parameters (`Llm`); the prompts, the
    printing and the result cache are not modelled. */
module RestaurantEngine {
  import opened Wrappers
  import opened RestaurantSchema
  import opened Text

  const SurveyNodeName: string := "restaurant_survey_node"
  const AnalysisNodeName: string := "analysis_and_planning_node"

  /** Where the router sends the graph next. */
  datatype Route = End | Survey | Analysis

  /** The shared graph state. Keys the graph has not written yet are `None`. */
  datatype SurveyState = SurveyState(
    stationName: string,
    maxIterations: int,
    surveyIteration: int,
    discoveredAreas: seq<FoodArea>,
    surveyHistory: seq<SurveySummary>,
    currentAnalysis: Option<AnalysisNodeResponse>,
    nextPlan: Option<NextSurveyPlan>,
    currentProcess: Option<string>,
    shouldContinue: Option<bool>,
    completionReason: Option<string>,
    processingErrors: seq<string>)

  /** The dictionary a node returns: list keys go through their reducer, the others overwrite
      the state when present. */
  datatype Update = Update(
    currentProcess: Option<string>,
    surveyIteration: Option<int>,
    discoveredAreas: seq<FoodArea>,
    surveyHistory: seq<SurveySummary>,
    currentAnalysis: Option<AnalysisNodeResponse>,
    nextPlan: Option<NextSurveyPlan>,
    shouldContinue: Option<bool>,
    completionReason: Option<string>)

  datatype SearchParams = SearchParams(stationName: string, searchQuery: string, exclusionCriteria: string, focusArea: string)

  /** The web search together with the summarising model, the analysing model and the planning
      model, each as a function of what it is shown. */
  datatype Llm = Llm(
    summarize: (SurveyState, SearchParams) -> SurveySummaryGeneration,
    analyze: SurveyState -> AnalysisNodeResponse,
    plan: (SurveyState, AnalysisNodeResponse) -> NextSurveyPlan)

  /** The state the graph is started with. */
  function InitialState(stationName: string, numIterations: int): (st: SurveyState)
    ensures st.stationName == stationName && st.maxIterations == numIterations
    ensures st.surveyIteration == 0 && st.surveyHistory == [] && st.discoveredAreas == []
    ensures st.currentProcess.None? && st.nextPlan.None? && st.shouldContinue.None?
  {
    SurveyState(stationName, numIterations, 0, [], [], None, None, None, None, None, [])
  }

  /** LangGraph's merge of a node's update into the state. */
  function ApplyUpdate(st: SurveyState, u: Update): (r: SurveyState)
    ensures r.stationName == st.stationName && r.maxIterations == st.maxIterations
    ensures |r.surveyHistory| == |st.surveyHistory| + |u.surveyHistory|
    ensures r.surveyHistory[..|st.surveyHistory|] == st.surveyHistory
    ensures r.surveyHistory[|st.surveyHistory|..] == u.surveyHistory
    ensures |r.discoveredAreas| == |st.discoveredAreas| + |u.discoveredAreas|
    ensures r.discoveredAreas[..|st.discoveredAreas|] == st.discoveredAreas
    ensures r.discoveredAreas[|st.discoveredAreas|..] == u.discoveredAreas
    ensures r.processingErrors == st.processingErrors
    ensures u.surveyIteration.None? ==> r.surveyIteration == st.surveyIteration
    ensures u.surveyIteration.Some? ==> r.surveyIteration == u.surveyIteration.value
    ensures r.currentAnalysis == (if u.currentAnalysis.Some? then u.currentAnalysis else st.currentAnalysis)
    ensures r.nextPlan == (if u.nextPlan.Some? then u.nextPlan else st.nextPlan)
    ensures r.currentProcess == (if u.currentProcess.Some? then u.currentProcess else st.currentProcess)
    ensures r.shouldContinue == (if u.shouldContinue.Some? then u.shouldContinue else st.shouldContinue)
    ensures r.completionReason == (if u.completionReason.Some? then u.completionReason else st.completionReason)
  {
    SurveyState(
      st.stationName,
      st.maxIterations,
      u.surveyIteration.GetOr(st.surveyIteration),
      MergeAreas(st.discoveredAreas, u.discoveredAreas),
      MergeSurveyHistory(st.surveyHistory, u.surveyHistory),
      if u.currentAnalysis.Some? then u.currentAnalysis else st.currentAnalysis,
      if u.nextPlan.Some? then u.nextPlan else st.nextPlan,
      if u.currentProcess.Some? then u.currentProcess else st.currentProcess,
      if u.shouldContinue.Some? then u.shouldContinue else st.shouldContinue,
      if u.completionReason.Some? then u.completionReason else st.completionReason,
      MergeErrors(st.processingErrors, []))
  }

  /** `should_continue_adaptive_survey`. */
  function ShouldContinueAdaptiveSurvey(st: SurveyState): (r: Result<Route>)
    ensures st.surveyIteration >= st.maxIterations ==> r == Ok(End)
    ensures st.surveyIteration < st.maxIterations && (st.currentProcess.None? || st.currentProcess.value == "")
      ==> r == Ok(Survey)
    ensures r == Ok(Survey) ==> st.surveyIteration < st.maxIterations
    ensures r == Ok(Analysis) <==> st.surveyIteration < st.maxIterations && st.currentProcess == Some(SurveyNodeName)
    ensures r.Err? <==>
      st.surveyIteration < st.maxIterations && st.currentProcess.Some? && st.currentProcess.value != ""
      && st.currentProcess.value != SurveyNodeName
      && (st.currentProcess.value != AnalysisNodeName || st.shouldContinue.None?)
    ensures st.surveyIteration < st.maxIterations && st.currentProcess == Some(AnalysisNodeName) && st.shouldContinue.Some?
      ==> r == Ok(if st.shouldContinue.value then Survey else End)
  {
    if st.surveyIteration >= st.maxIterations then Ok(End)
    else if st.currentProcess.None? || st.currentProcess.value == "" then Ok(Survey)
    else if st.currentProcess.value == SurveyNodeName then Ok(Analysis)
    else if st.currentProcess.value == AnalysisNodeName then
      if st.shouldContinue.None? then Err(KeyError("should_continue"))
      else if !st.shouldContinue.value then Ok(End)
      else Ok(Survey)
    else Err(Exception("unexpected flow: " + st.currentProcess.value))
  }

  const DefaultQuerySuffix: string :=
    "周辺の飲食店が集まるエリア・商店街・グルメスポットを調査。SNS映えするエリアを優先し、各エリア内の代表店舗情報も含めて収集"

  /** `_get_search_params`: the default area survey on the first round, then the stored plan. */
  function GetSearchParams(st: SurveyState): (r: Result<SearchParams>)
    ensures r.Err? <==> st.surveyIteration != 0 && st.nextPlan.None?
    ensures r.Ok? ==> r.value.stationName == st.stationName
    ensures r.Ok? && st.surveyIteration == 0 ==>
      r.value.searchQuery == st.stationName + DefaultQuerySuffix && r.value.exclusionCriteria == ""
      && r.value.focusArea == st.stationName + "駅周辺全般"
    ensures r.Ok? && st.surveyIteration != 0 ==>
      r.value.searchQuery == st.nextPlan.value.searchQuery
      && r.value.exclusionCriteria == st.nextPlan.value.exclusionCriteria
      && r.value.focusArea == st.nextPlan.value.focusArea
  {
    if st.surveyIteration == 0 then
      Ok(SearchParams(st.stationName, st.stationName + DefaultQuerySuffix, "", st.stationName + "駅周辺全般"))
    else if st.nextPlan.None? then Err(KeyError("next_plan"))
    else
      var plan := st.nextPlan.value;
      Ok(SearchParams(st.stationName, plan.searchQuery, plan.exclusionCriteria, plan.focusArea))
  }

  /** `_generate_survey_summary_with_llm`: the model's fields plus the round number and strategy,
      with the geographical coverage stripped of surrounding whitespace. */
  function MakeSummary(st: SurveyState, params: SearchParams, gen: SurveySummaryGeneration): (s: SurveySummary)
    ensures s.iterationNumber == st.surveyIteration + 1 && s.searchStrategy == params.searchQuery
    ensures s.newAreasFound == gen.newAreasFound && s.newRestaurantsCount == gen.newRestaurantsCount
    ensures s.keyDiscoveries == gen.keyDiscoveries
    ensures s.geographicalCoverage == Strip(gen.geographicalCoverage)
  {
    SurveySummary(st.surveyIteration + 1, params.searchQuery, gen.newRestaurantsCount, gen.newAreasFound,
                  gen.keyDiscoveries, Strip(gen.geographicalCoverage))
  }

  /** `restaurant_survey_node`: one more round, one more history entry, its areas appended. */
  function RestaurantSurveyNode(st: SurveyState, llm: Llm): (r: Result<Update>)
    ensures r.Err? <==> st.surveyIteration != 0 && st.nextPlan.None?
    ensures r.Ok? ==>
      r.value.currentProcess == Some(SurveyNodeName)
      && r.value.surveyIteration == Some(st.surveyIteration + 1)
      && |r.value.surveyHistory| == 1
      && r.value.surveyHistory[0].iterationNumber == st.surveyIteration + 1
      && r.value.discoveredAreas == r.value.surveyHistory[0].newAreasFound
      && r.value.nextPlan.None? && r.value.shouldContinue.None?
  {
    match GetSearchParams(st)
    case Err(e) => Err(e)
    case Ok(params) =>
      var summary := MakeSummary(st, params, llm.summarize(st, params));
      Ok(Update(Some(SurveyNodeName), Some(st.surveyIteration + 1), summary.newAreasFound, [summary],
                None, None, None, None))
  }

  /** `analysis_and_planning_node`: continue only when the model says so and rounds remain; a
      plan is made exactly when continuing, a completion reason exactly when stopping. */
  function AnalysisAndPlanningNode(st: SurveyState, llm: Llm): (u: Update)
    ensures u.currentProcess == Some(AnalysisNodeName) && u.surveyIteration.None?
    ensures u.surveyHistory == [] && u.discoveredAreas == []
    ensures u.shouldContinue == Some(llm.analyze(st).continueSurvey && st.surveyIteration < st.maxIterations)
    ensures u.nextPlan.Some? <==> u.shouldContinue.value
    ensures u.completionReason.Some? <==> !u.shouldContinue.value
    ensures u.currentAnalysis == Some(llm.analyze(st))
  {
    var analysis := llm.analyze(st);
    var shouldContinue := analysis.continueSurvey && st.surveyIteration < st.maxIterations;
    Update(Some(AnalysisNodeName), None, [], [], Some(analysis),
           if shouldContinue then Some(llm.plan(st, analysis)) else None,
           Some(shouldContinue),
           if shouldContinue then None else Some(analysis.continuationReason))
  }

  /** After a survey round the router goes to analysis, or ends once the rounds are used up. */
  lemma RouteAfterSurvey(st: SurveyState, llm: Llm)
    requires RestaurantSurveyNode(st, llm).Ok?
    ensures ShouldContinueAdaptiveSurvey(ApplyUpdate(st, RestaurantSurveyNode(st, llm).value))
      == Ok(if st.surveyIteration + 1 < st.maxIterations then Analysis else End)
  {
  }

  /** After analysis the router goes back to surveying exactly when the model wants to continue
      and rounds remain; the plan that round needs is then in the state. */
  lemma RouteAfterAnalysis(st: SurveyState, llm: Llm)
    ensures var next := ApplyUpdate(st, AnalysisAndPlanningNode(st, llm));
      ShouldContinueAdaptiveSurvey(next)
        == Ok(if llm.analyze(st).continueSurvey && st.surveyIteration < st.maxIterations then Survey else End)
      && (ShouldContinueAdaptiveSurvey(next) == Ok(Survey) ==> next.nextPlan.Some?)
  {
  }

  /** What holds between two steps of the compiled graph, `node` being the step to run next. */
  ghost predicate GraphInvariant(st: SurveyState, node: Route, surveys: nat, stationName: string, numIterations: int)
  {
    && st.stationName == stationName && st.maxIterations == numIterations
    && st.surveyIteration == surveys && |st.surveyHistory| == surveys
    && (forall k :: 0 <= k < surveys ==> st.surveyHistory[k].iterationNumber == k + 1)
    && (node == Survey ==> surveys == 0 || (surveys < numIterations && st.nextPlan.Some?))
    && (node == Analysis ==> 1 <= surveys < numIterations)
    && (node == End ==> 1 <= surveys <= Max(1, numIterations))
  }

  /** A survey step succeeds, appends the round's summary and keeps the invariant. */
  lemma SurveyStepKeeps(st: SurveyState, surveys: nat, stationName: string, numIterations: int, llm: Llm)
    requires GraphInvariant(st, Survey, surveys, stationName, numIterations)
    ensures RestaurantSurveyNode(st, llm).Ok?
    ensures var next := ApplyUpdate(st, RestaurantSurveyNode(st, llm).value);
      ShouldContinueAdaptiveSurvey(next).Ok?
      && GraphInvariant(next, ShouldContinueAdaptiveSurvey(next).value, surveys + 1, stationName, numIterations)
  {
    var res := RestaurantSurveyNode(st, llm);
    assert res.Ok?;
    var u := res.value;
    RouteAfterSurvey(st, llm);
    var next := ApplyUpdate(st, u);
    assert next.surveyIteration == surveys + 1;
    assert next.surveyHistory == st.surveyHistory + u.surveyHistory;
    forall k | 0 <= k < surveys + 1
      ensures next.surveyHistory[k].iterationNumber == k + 1
    {
      if k < surveys {
        assert next.surveyHistory[k] == st.surveyHistory[k];
      }
    }
  }

  /** An analysis step keeps the invariant, and leads to another survey only while rounds remain. */
  lemma AnalysisStepKeeps(st: SurveyState, surveys: nat, stationName: string, numIterations: int, llm: Llm)
    requires GraphInvariant(st, Analysis, surveys, stationName, numIterations)
    ensures var next := ApplyUpdate(st, AnalysisAndPlanningNode(st, llm));
      ShouldContinueAdaptiveSurvey(next).Ok?
      && GraphInvariant(next, ShouldContinueAdaptiveSurvey(next).value, surveys, stationName, numIterations)
  {
    RouteAfterAnalysis(st, llm);
  }

  /** The compiled graph run by `survey_restaurant_information`: the survey node is the entry
      point, and after each node the router picks the next one. The survey node runs at least
      once and at most max(1, num_iterations) times, no node or router raises, and the history
      holds one summary per round, numbered 1, 2, ... LangGraph's recursion limit is not modelled. */
  method RunSurveyGraph(stationName: string, numIterations: int, llm: Llm) returns (final: SurveyState, surveys: nat)
    ensures 1 <= surveys <= Max(1, numIterations)
    ensures final.stationName == stationName && final.maxIterations == numIterations
    ensures final.surveyIteration == surveys && |final.surveyHistory| == surveys
    ensures forall k :: 0 <= k < surveys ==> final.surveyHistory[k].iterationNumber == k + 1
  {
    var st := InitialState(stationName, numIterations);
    var node := Survey;
    surveys := 0;
    while node != End
      invariant GraphInvariant(st, node, surveys, stationName, numIterations)
      decreases if node == Survey then 2 * Max(0, numIterations - surveys) + 1
                else if node == Analysis then 2 * Max(0, numIterations - surveys) + 2
                else 0
    {
      if node == Survey {
        SurveyStepKeeps(st, surveys, stationName, numIterations, llm);
        st := ApplyUpdate(st, RestaurantSurveyNode(st, llm).value);
        surveys := surveys + 1;
      } else {
        AnalysisStepKeeps(st, surveys, stationName, numIterations, llm);
        st := ApplyUpdate(st, AnalysisAndPlanningNode(st, llm));
      }
      node := ShouldContinueAdaptiveSurvey(st).value;
    }
    final := st;
  }
}
