/** The restaurant-survey agent's records and the list reducers LangGraph uses to merge node
    updates into the shared state. Free-text fields the language model fills in are kept as
    strings; only the fields the control flow reads are modelled. */
module RestaurantSchema {

  /** A food area found by one survey round (the per-restaurant details are not modelled). */
  datatype FoodArea = FoodArea(areaName: string, characteristics: string)

  /** One round's summary, as `restaurant_survey_node` stores it in the history. */
  datatype SurveySummary = SurveySummary(
    iterationNumber: int,
    searchStrategy: string,
    newRestaurantsCount: int,
    newAreasFound: seq<FoodArea>,
    keyDiscoveries: seq<string>,
    geographicalCoverage: string)

  /** What the summarising language model returns for one round. */
  datatype SurveySummaryGeneration = SurveySummaryGeneration(
    newRestaurantsCount: int,
    newAreasFound: seq<FoodArea>,
    keyDiscoveries: seq<string>,
    geographicalCoverage: string)

  /** What the analysing language model returns. */
  datatype AnalysisNodeResponse = AnalysisNodeResponse(
    continueSurvey: bool,
    continuationReason: string,
    surveyEvaluation: string,
    coverageGaps: seq<string>,
    nextStrategy: string)

  /** The plan for the next round, as the planning language model returns it. */
  datatype NextSurveyPlan = NextSurveyPlan(
    focusArea: string,
    targetCategories: seq<string>,
    exclusionCriteria: string,
    searchQuery: string)

  /** `merge_survey_history`: the existing history followed by the new entries. */
  function MergeSurveyHistory(existing: seq<SurveySummary>, incoming: seq<SurveySummary>): (r: seq<SurveySummary>)
    ensures |r| == |existing| + |incoming|
    ensures r[..|existing|] == existing && r[|existing|..] == incoming
  {
    existing + incoming
  }

  /** `merge_areas`: the areas found so far followed by the new ones. */
  function MergeAreas(existing: seq<FoodArea>, incoming: seq<FoodArea>): (r: seq<FoodArea>)
    ensures |r| == |existing| + |incoming|
    ensures r[..|existing|] == existing && r[|existing|..] == incoming
  {
    existing + incoming
  }

  /** `merge_errors`: the errors recorded so far followed by the new ones. */
  function MergeErrors(existing: seq<string>, incoming: seq<string>): (r: seq<string>)
    ensures |r| == |existing| + |incoming|
    ensures r[..|existing|] == existing && r[|existing|..] == incoming
  {
    existing + incoming
  }

  /** The history after LangGraph has applied a series of updates, one reducer call per update. */
  function FoldHistory(existing: seq<SurveySummary>, updates: seq<seq<SurveySummary>>): seq<SurveySummary>
    decreases |updates|
  {
    if |updates| == 0 then existing
    else FoldHistory(MergeSurveyHistory(existing, updates[0]), updates[1..])
  }

  /** All the updates' entries laid end to end. */
  function Flatten(updates: seq<seq<SurveySummary>>): seq<SurveySummary>
    decreases |updates|
  {
    if |updates| == 0 then [] else updates[0] + Flatten(updates[1..])
  }

  /** Merging an empty update changes nothing. */
  lemma MergeEmptyIsIdentity(existing: seq<SurveySummary>)
    ensures MergeSurveyHistory(existing, []) == existing
    ensures MergeSurveyHistory([], existing) == existing
  {
  }

  /** Two successive merges equal one merge of the two updates laid end to end. */
  lemma MergeAssociative(a: seq<SurveySummary>, b: seq<SurveySummary>, c: seq<SurveySummary>)
    ensures MergeSurveyHistory(MergeSurveyHistory(a, b), c) == MergeSurveyHistory(a, MergeSurveyHistory(b, c))
  {
  }

  /** However many updates arrive, the history keeps the old entries and then every update's
      entries in arrival order: nothing is lost, duplicated or reordered. */
  lemma {:induction false} FoldHistoryAppendsAll(existing: seq<SurveySummary>, updates: seq<seq<SurveySummary>>)
    ensures FoldHistory(existing, updates) == existing + Flatten(updates)
    decreases |updates|
  {
    if |updates| > 0 {
      FoldHistoryAppendsAll(existing + updates[0], updates[1..]);
      assert existing + updates[0] + Flatten(updates[1..]) == existing + (updates[0] + Flatten(updates[1..]));
    }
  }
}
