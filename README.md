# Route planner core, modelled in Dafny

The route planner is a supply-chain demo service. It takes a device-forecast
upload. An information step classifies news of disruptions into risk factors
and an overall risk level. A route-planning agent then runs four steps in a
fixed order:

1. It generates candidate shipping routes, one per transport mode, for every
   forecast.
2. It prices each route from a per-mode cost table and a risk multiplier.
3. It gives each route a risk score from keyword matches in the disruption
   titles.
4. It ranks the routes by a weighted composite score, flags the top three,
   adds a duration estimate and writes a summary recommendation.

Results live in three in-memory stores: tasks, routes and uploads. A repair
helper normalises route dictionaries before they are stored. A converter
turns them into typed route records.

This project models that deterministic core and proves what it guarantees.

- **Route-dict state.** `RouteRecord.Route` is a route dictionary as a class.
  - Keys written when the route is generated are `const` fields.
  - Keys written by the later steps (`total_cost`, `risk_score`,
    `optimization_rank`, `composite_score`, `recommended`,
    `estimated_duration`) are `var` fields of `Option` type. `None` means the
    key is absent.
  - The steps update these objects in place, so the caller's routes change
    too, as they do in the program.
- **Agent state.** `RoutePlanningAgent.PlanningState` is the state dictionary
  the agent's nodes mutate. Each node is a method on it.
- **Pure parts.** Generation, costing, risk scoring, durations and the
  summary also have pure reference functions. The methods are proved
  against them: `Plan`, `Estimate`, `RiskScore`, `DurationText`, `Summary`.
- **Optimizer.** `RouteOptimizerTool.optimize` is modelled as a stable
  insertion sort of index positions. A loop then writes the rank, the score
  and the top-three flag into each route.
- **Classification.** `RiskAnalysisTool.analyze` is a loop that builds the
  risk factors, followed by the counting rules.
- **Mock clients and search tools.** The two mock search clients are
  filters whose datasets are parameters. The two search tools map their
  results.
- **Stores.** The three stores are classes over an insertion-ordered
  dictionary value (`PyDict.Dict`). `backend/utils/storage.py` is a
  byte-identical copy of `backend/storage/storage.py`, and one model serves
  both.
- **Record conversion.** `OptimizedRoute.from_dict` is a function from a
  JSON object to a `Result`. The missing-key errors are explicit failures.
- **Repair.** `fix_route_data_for_storage` is a method with loops.
  - It is proved equal to a function (`FixedRoute`) that covers both
    outcomes.
  - On success the points are rebuilt.
  - On failure the original list is returned, with the locations visited
    before the failing point already filled in.

Numbers:

- Distances, costs and scores are `real`.
- A risk score is accumulated in integer hundredths, then stored as a real.
- Python's `round(x, 2)` is `Numeric.Round2` (round half up to hundredths).
- `int()` on a float is `Numeric.Trunc` (toward zero).

The Haversine distance tool, `uuid4`, the ISO timestamp and `str()` of
non-integer values are parameters.

## Model

| member | source | states |
|---|---|---|
| RoutePlanningTools.CostPerKm | backend/tools/route_planning_tools.py:21-29 | every per-km rate, including the default for an unknown mode, is positive |
| RoutePlanningTools.Estimate | backend/tools/route_planning_tools.py:27-31 | the cost is non-negative for non-negative inputs, and zero when the distance, quantity or multiplier is zero |
| RoutePlanningTools.EstimateRates | backend/tools/route_planning_tools.py:21-31 | cost = distance × rate × quantity × 0.01 × multiplier with air 2.5, sea 0.5, land 1.0; any other mode is priced like land |
| RoutePlanningTools.EstimateMonotone | backend/tools/route_planning_tools.py:27-31 | for a fixed mode and a non-negative multiplier, the cost does not decrease as distance and quantity grow |
| RoutePlanningTools.EstimateLinearInMultiplier | backend/tools/route_planning_tools.py:30-31 | scaling the risk multiplier by k scales the cost by k |
| RoutePlanningTools.CalculateScore | backend/tools/route_planning_tools.py:37-45 | the composite score lies in [0,1] for cost ≥ 0 and risk in [0,1]; at or above the 10000 cost ceiling it is 0.6 + 0.4·risk |
| RoutePlanningTools.ScoreMonotone | backend/tools/route_planning_tools.py:37-45 | the score does not decrease when cost or risk grows |
| RoutePlanningTools.InsertStable | backend/tools/route_planning_tools.py:48 | inserting a position into a sorted prefix adds exactly that position (as a multiset) and stays in range |
| RoutePlanningTools.InsertStableOrdered | backend/tools/route_planning_tools.py:48 | insertion keeps the order by key, with equal keys in input order (stability) |
| RoutePlanningTools.SortIndices | backend/tools/route_planning_tools.py:48 | the sort returns a permutation of the first n positions, ordered by key and stable on ties |
| RoutePlanningTools.SortStep | backend/tools/route_planning_tools.py:48 | one insertion step extends a sorted permutation of 0..n-1 to a sorted permutation of 0..n |
| RoutePlanningTools.OrderedMeans | backend/tools/route_planning_tools.py:48 | an ordered index list has non-decreasing keys, equal keys in increasing position, and no repeated position |
| RoutePlanningTools.SortCovers | backend/tools/route_planning_tools.py:48 | every input position appears in the sorted index list |
| RoutePlanningTools.PermuteKeepsAll | backend/tools/route_planning_tools.py:48-56 | permuting by an index list that covers every position keeps every element |
| RoutePlanningTools.PermuteDistinct | backend/tools/route_planning_tools.py:48-56 | the sorted list of distinct route objects has no route twice |
| RoutePlanningTools.PermuteSorted | backend/tools/route_planning_tools.py:48 | the sorted routes have non-decreasing composite scores, and routes with equal scores keep their input order |
| RoutePlanningTools.MarkRanks | backend/tools/route_planning_tools.py:51-54 | route k gets rank k+1, its own composite score, and `recommended` = k < 3; cost, risk and duration are untouched |
| RoutePlanningTools.Optimize | backend/tools/route_planning_tools.py:34-56 | it fails, changing nothing, exactly when some route lacks a cost or a risk; otherwise the result is a stable score-ordered permutation of the same route objects, ranked 1.., the first three flagged recommended, and no other field changes |
| RoutePlanningAgent.PlanningState.constructor | backend/agents/route_planning_agent.py:211-221 | the initial state holds one message, the inputs, no routes, no recommendation, not complete, step "starting" |
| RoutePlanningAgent.InitialState | backend/agents/route_planning_agent.py:211-221 | builds a fresh state whose one message announces the forecast count, with empty route lists and step "starting" |
| RoutePlanningAgent.PlanningState.Finish | backend/agents/route_planning_agent.py:197-203 | stores the optimized routes and their summary, sets complete and "optimization_complete", appends one message, keeps the candidates |
| RoutePlanningAgent.EndpointsChoice | backend/agents/route_planning_agent.py:52-63 | when both searches find something, the origin is the first hub ("singapore"/"hub" in the lowercased name) and the destination the first location whose name contains the forecast's destination; when a search is empty and there are at least two locations, they are the first two locations; selection fails (IndexError) exactly when a search is empty and there are fewer than two locations |
| RoutePlanningAgent.WaypointsShape | backend/agents/route_planning_agent.py:76-86 | waypoints run from origin to destination with orders 1,2[,3] and no arrival; there are three exactly when distance > 2000, more than two locations and one of them differs from both endpoints, and the middle one is such a location |
| RoutePlanningAgent.ForecastFanOut | backend/agents/route_planning_agent.py:66-96 | a forecast with endpoints yields air, sea, land when the distance is over 500 and land, air otherwise; every candidate carries the rounded non-negative distance and the forecast's data |
| RoutePlanningAgent.AllHaveEndpointsSnoc | backend/agents/route_planning_agent.py:51-63 | every forecast of a longer list has endpoints iff every earlier one does and the last one does |
| RoutePlanningAgent.PlanDefined | backend/agents/route_planning_agent.py:51-63 | generation succeeds exactly when every forecast has endpoints |
| RoutePlanningAgent.PlanCount | backend/agents/route_planning_agent.py:51-98 | the number of candidates is between 2 and 3 per forecast |
| RoutePlanningAgent.PlanExtends | backend/agents/route_planning_agent.py:51-98 | candidates of a longer forecast list are the earlier candidates followed by the new forecast's, in order |
| RoutePlanningAgent.BuildWaypoints | backend/agents/route_planning_agent.py:76-86 | the list built by insert and order rewriting equals the waypoint specification |
| RoutePlanningAgent.SelectEndpoints | backend/agents/route_planning_agent.py:52-63 | the endpoints chosen equal the endpoint specification, including the failing case |
| RoutePlanningAgent.AddVariants | backend/agents/route_planning_agent.py:72-98 | appends fresh, blank, distinct routes whose description is exactly the forecast's variants, keeping the earlier routes |
| RoutePlanningAgent.GenerateRoutes | backend/agents/route_planning_agent.py:48-98 | succeeds iff every forecast has endpoints; then the routes are fresh, distinct and blank, with the given ids, and describe exactly the generation plan |
| RoutePlanningAgent.RouteGenerationNode | backend/agents/route_planning_agent.py:41-106 | on success the candidates are the plan, the step is "routes_generated" and one "Generated n" message is appended; on failure the state is unchanged |
| RoutePlanningAgent.RiskMultiplier | backend/agents/route_planning_agent.py:113-118 | the multiplier is one of 1.0, 1.3, 1.6 |
| RoutePlanningAgent.RiskMultiplierLevels | backend/agents/route_planning_agent.py:113-118 | medium gives 1.3, high gives 1.6, and anything else (missing analysis, missing key, unknown level) gives 1.0 |
| RoutePlanningAgent.CostGrowsWithRisk | backend/agents/route_planning_agent.py:121-128 | the rounded cost is non-negative and does not decrease as the multiplier grows |
| RoutePlanningAgent.CostAnalysisNode | backend/agents/route_planning_agent.py:108-135 | every candidate gets `total_cost` = round(estimate, 2) under the overall-risk multiplier; no other route field changes; step "costs_analyzed" and one message |
| RoutePlanningAgent.Increment | backend/agents/route_planning_agent.py:152-157 | each disruption adds 0, 20 or 30 hundredths |
| RoutePlanningAgent.Increments | backend/agents/route_planning_agent.py:150-157 | the disruptions add at most 30 hundredths each |
| RoutePlanningAgent.RiskScoreRange | backend/agents/route_planning_agent.py:142-163 | the score is min(hundredths, 100)/100 and lies in [0.2, 1.0] |
| RoutePlanningAgent.SeaRouteCountsAirports | backend/agents/route_planning_agent.py:152 | a sea route counts a title containing "airport" as a port disruption (+0.3) |
| RoutePlanningAgent.RiskHundredthsAppend | backend/agents/route_planning_agent.py:146-161 | one more disruption adds exactly its own increment to the accumulated risk |
| RoutePlanningAgent.RouteRisk | backend/agents/route_planning_agent.py:146-163 | the accumulating loop computes the specified risk score |
| RoutePlanningAgent.RiskAssessmentNode | backend/agents/route_planning_agent.py:137-170 | every candidate gets its risk score; no other route field changes; step "risks_assessed" and one message |
| RoutePlanningAgent.DurationFactor | backend/agents/route_planning_agent.py:181-182 | the factor is in (0, 1] for every mode, 0.5 by default |
| RoutePlanningAgent.DurationDays | backend/agents/route_planning_agent.py:183 | a duration is at least one day |
| RoutePlanningAgent.DurationTextMeaning | backend/agents/route_planning_agent.py:183-184 | the text is a decimal number ≥ 1 followed by " days"; the number is the whole number of 500-km units of distance × factor, or 1 below two units |
| RoutePlanningAgent.Recommended | backend/agents/route_planning_agent.py:187 | the recommended routes are no more than the routes |
| RoutePlanningAgent.RecommendedAfterRanking | backend/agents/route_planning_agent.py:187-190 | after ranking, the recommended routes are exactly the first min(3, n) routes |
| RoutePlanningAgent.SumRisksBounds | backend/agents/route_planning_agent.py:193 | a sum of risks in [lo, hi] lies in [n·lo, n·hi] |
| RoutePlanningAgent.AverageRiskRange | backend/agents/route_planning_agent.py:193 | the average risk of a non-empty list of scored routes lies in [0.2, 1.0] |
| RoutePlanningAgent.AddDurations | backend/agents/route_planning_agent.py:180-184 | every route gets its duration text and keeps its cost, risk, rank, score and flag |
| RoutePlanningAgent.RankAndTime | backend/agents/route_planning_agent.py:177-184 | fails, changing nothing, exactly when a route lacks a cost or risk; otherwise returns the same routes, sorted by score with equal scores in candidate order (the ghost `order`), ranked, scored, flagged top three and timed |
| RoutePlanningAgent.ScoreOrderIsStableSort | backend/agents/route_planning_agent.py:177 | the order the node's contract states is the stable sort of the candidates by score that `sorted(key=calculate_score)` gives |
| RoutePlanningAgent.Summarize | backend/agents/route_planning_agent.py:187-203 | builds the specified recommendation and the "n routes recommended" message with n = min(3, routes) |
| RoutePlanningAgent.OptimizationNode | backend/agents/route_planning_agent.py:172-205 | succeeds iff every candidate is scored and there is at least one (the averages divide by n); then the optimized routes are the candidates in stable score order (equal scores in candidate order), ranked and timed, the recommendation is their summary, the state is complete |
| RoutePlanningAgent.Conclude | backend/agents/route_planning_agent.py:187-205 | an empty optimized list fails with the state unchanged; otherwise the list, still in the candidates' score order, is stored with its summary, the completion flag, the step and one message |
| RoutePlanningAgent.AnalyseRoutes | backend/agents/route_planning_agent.py:108-170 | cost then risk: every candidate carries its cost and risk, two messages are appended, step "risks_assessed" |
| RoutePlanningAgent.RunWorkflow | backend/agents/route_planning_agent.py:30-35 | the four nodes in order; it succeeds iff there are forecasts and each has endpoints; then the candidates are the plan, the optimized routes are them analysed, in stable score order, ranked and timed, the average risk lies in [0.2, 1.0], exactly four messages are appended and only the last step completes |
| RoutePlanningAgent.WorkflowRisk | backend/agents/route_planning_agent.py:193 | routes scored by the risk pass have an average risk in [0.2, 1.0] |
| InformationTools.KnowledgeHits | backend/tools/information_tools.py:10-18 | one hit per result, in order, copying text, score, metadata type and region; a result without metadata type is an error (KeyError) |
| InformationTools.DisruptionSearch | backend/tools/information_tools.py:24-37 | one disruption per client result, in order, with impact "medium" and the region or "global", copying title, content and url |
| InformationTools.DisruptionSearchGlobal | backend/tools/information_tools.py:26-34 | no region and the empty region behave the same, and both tag results "global" |
| InformationTools.Classify | backend/tools/information_tools.py:46-51 | a title gives a factor iff it mentions one of the terms; the factor's source is the title; it is high iff a geopolitical term is mentioned; its kind is that of the first group that matches, in the order geopolitical, logistics, environmental, so a title with a logistics and an environmental term but no geopolitical one is "logistics" |
| InformationTools.Factors | backend/tools/information_tools.py:45-51 | at most one factor per disruption, each high or medium |
| InformationTools.FactorsAppend | backend/tools/information_tools.py:45-51 | the factors of a concatenation are the concatenated factors (input order kept) |
| InformationTools.FactorSources | backend/tools/information_tools.py:45-51 | every factor comes from a disruption whose title classifies to it |
| InformationTools.CountSeverity | backend/tools/information_tools.py:54-55 | the count is at most the factor count and positive iff some factor has that severity |
| InformationTools.OverallRisk | backend/tools/information_tools.py:57-62 | "high" iff some factor is high; "medium" iff none is high and more than one is medium; otherwise "low" |
| InformationTools.SingleMediumIsLow | backend/tools/information_tools.py:59-62 | a single medium factor gives "low" |
| InformationTools.ClassifyDisruptions | backend/tools/information_tools.py:42-51 | the appending loop computes exactly the specified factors |
| InformationTools.Analyze | backend/tools/information_tools.py:40-73 | factors, overall risk, the first at most three sources as concerns, and exactly three recommendations chosen by risk ≠ low, medium count > 0, high count > 0 |
| ExternalClients.Query | backend/services/external_clients.py:13-16 | at most top_k matches, each scored 0.9 |
| ExternalClients.QueryExact | backend/services/external_clients.py:13-16 | every match comes from a document whose lowercased text contains the lowercased query; the result is always a prefix of the matches in stored order, of length min(top_k, matches) for top_k ≥ 0, so with top_k ≥ the documents it is exactly the matching documents in stored order |
| ExternalClients.EmptyQueryMatchesAll | backend/services/external_clients.py:16 | the empty query returns the first top_k documents |
| ExternalClients.Search | backend/services/external_clients.py:28-30 | no more items than stored |
| ExternalClients.SearchSelects | backend/services/external_clients.py:30 | the result is an order-preserving subsequence of the stored items, holding exactly those whose lowercased content contains some lowercased query word |
| ExternalClients.SearchWithoutTerms | backend/services/external_clients.py:30 | a query with no words (empty or spaces only) finds nothing |
| Schemas.LocationFromJson | backend/models/schemas.py:31-38 | a location read from a dict copies its id; capacity defaults to None and status to "active" |
| Schemas.LocationFromFields | backend/models/schemas.py:31-38 | a location built from fields copies its id |
| Schemas.PointFromJson | backend/models/schemas.py:74-80 | a point needs "location" and "order"; a missing estimated_arrival becomes None |
| Schemas.PointsFromJson | backend/models/schemas.py:72-81 | one point per entry, in order, and it fails iff some entry fails |
| Schemas.FirstMissing | backend/models/schemas.py:84-90 | names a required key that is missing, or confirms all are present |
| Schemas.FromDict | backend/models/schemas.py:69-91 | a converted route always has status "pending_approval" |
| Schemas.RouteWithPoints | backend/models/schemas.py:83-91 | the route holds exactly the converted points and status "pending_approval" |
| Schemas.FromDictMissingKey | backend/models/schemas.py:84-90 | a missing required top-level key is an error |
| Schemas.FromDictBadPoint | backend/models/schemas.py:74-78 | a point without "location" or "order" is an error |
| Schemas.FromDictCopies | backend/models/schemas.py:72-91 | id, cost, distance, risk, mode and duration are copied; no "points" gives no points; otherwise one point per entry with its order, and arrival None when absent |
| Schemas.PointsToJson | backend/models/schemas.py:53-56 | one dictionary per point, in order |
| Schemas.PointRoundTrip | backend/models/schemas.py:74-80 | reading back a written point gives the point |
| Schemas.PointsRoundTrip | backend/models/schemas.py:72-81 | reading back written points gives the points |
| Schemas.FromDictRoundTrip | backend/models/schemas.py:58-91 | converting a route's dictionary gives the route back, with its status reset to "pending_approval" |
| Schemas.ToDictFields | backend/models/schemas.py:83-91 | the route built from a route's dictionary and its points is that route with status "pending_approval" |
| Storage.Merge | backend/storage/storage.py:19 | `dict.update`: the keys are the union; updated keys take the new values, the others keep theirs |
| Storage.Updated | backend/storage/storage.py:16-19 | an existing task is merged with the updates, an unknown id changes nothing, other tasks and the key order are kept |
| Storage.UpdateIdempotent | backend/storage/storage.py:16-19 | applying the same update twice equals applying it once |
| Storage.Approved | backend/storage/storage.py:41-44 | an existing route's status becomes "approved", an unknown id changes nothing, other routes are kept |
| Storage.ApproveIdempotent | backend/storage/storage.py:41-44 | approving twice equals approving once |
| Storage.TaskStorage.constructor | backend/storage/storage.py:5-6 | a new store has no tasks |
| Storage.TaskStorage.CreateTask | backend/storage/storage.py:8-10 | the task is then returned for its id, overwriting an earlier one; other ids are unchanged; a new id is appended to the key order |
| Storage.TaskStorage.GetTask | backend/storage/storage.py:12-14 | the stored task, or None for an unknown id |
| Storage.TaskStorage.UpdateTask | backend/storage/storage.py:16-19 | the store becomes the merge-updated store; an unknown id is a no-op |
| Storage.TaskStorage.GetAllTasks | backend/storage/storage.py:21-23 | one task per stored id, in insertion order |
| Storage.RouteStorage.constructor | backend/storage/storage.py:26-27 | a new store has no routes |
| Storage.RouteStorage.StoreRoute | backend/storage/storage.py:29-31 | the route is then returned for its id; other ids are unchanged; a new id is appended to the key order |
| Storage.RouteStorage.GetRoute | backend/storage/storage.py:33-35 | the stored route, or None for an unknown id |
| Storage.RouteStorage.GetAllRoutes | backend/storage/storage.py:37-39 | one route per stored id, in insertion order |
| Storage.RouteStorage.ApproveRoute | backend/storage/storage.py:41-44 | only the named, present route's status becomes "approved"; every other route is unchanged |
| Storage.UploadStorage.constructor | backend/storage/storage.py:47-48 | a new store has no uploads |
| Storage.UploadStorage.StoreUpload | backend/storage/storage.py:50-52 | the upload is then returned for its id; other ids are unchanged; a new id is appended to the key order |
| Storage.UploadStorage.GetUpload | backend/storage/storage.py:54-56 | the stored upload, or None for an unknown id |
| Storage.UploadStorage.GetAllUploads | backend/storage/storage.py:58-60 | one upload per stored id, in insertion order |
| RouteRecord.Route.constructor | backend/agents/route_planning_agent.py:88-96 | a new route has the generation keys and none of the keys the later steps write |
| RouteRepair.FixLocation | backend/utils/routes.py:13-22 | the filled location has the original keys plus id, type, name, lat and lng |
| RouteRepair.FirstBad | backend/utils/routes.py:10-13 | the first point whose location is not a dictionary, the one the loop raises on |
| RouteRepair.FixedRoute | backend/utils/routes.py:1-37 | no "points" key returns the route unchanged; every key other than "points" is kept |
| RouteRepair.FillsMakeFixLocation | backend/utils/routes.py:13-22 | the five conditional writes, in source order, leave exactly the filled location: missing or falsy keys get their defaults, all else is kept |
| RouteRepair.FillLocation | backend/utils/routes.py:13-22 | the five conditional writes give the specified filled location |
| RouteRepair.RepairPoint | backend/utils/routes.py:8-30 | a point fails iff its location is not a dictionary; otherwise a dictionary point yields its one rebuilt point and any other value none |
| RouteRepair.RepairPoints | backend/utils/routes.py:6-30 | the loop succeeds iff no point is bad; then it yields the rebuilt points; otherwise the points visited before the bad one are filled in place |
| RouteRepair.FixRouteDataForStorage | backend/utils/routes.py:1-37 | the helper returns exactly the specified repaired route, on success and on the exception path |
| RouteRepair.FreshLocation | backend/utils/routes.py:10-22 | a point without a location gets one holding exactly the five defaults |
| RouteRepair.FixPointShape | backend/utils/routes.py:25-29 | a rebuilt point has exactly location, order (default 1) and estimated_arrival (default None) |
| RouteRepair.FixedPointsShape | backend/utils/routes.py:7-30 | one rebuilt point per dictionary entry, in order; non-dictionaries are dropped |
| RouteRepair.FixLocationIdempotent | backend/utils/routes.py:13-22 | filling a filled location again changes nothing, unless its type came from a falsy waypoint type |
| RouteRepair.FixPointIdempotent | backend/utils/routes.py:13-29 | rebuilding a rebuilt point with a truthy waypoint type changes nothing |
| RouteRepair.TouchIdempotent | backend/utils/routes.py:13-22 | filling in place twice equals once, and a point is bad afterwards iff it was before |
| RouteRepair.FixedPointsStable | backend/utils/routes.py:7-30 | every rebuilt point is a dictionary point that a second rebuild leaves unchanged |
| RouteRepair.FixedPointsIdempotent | backend/utils/routes.py:7-30 | rebuilding the rebuilt list changes nothing |
| RouteRepair.TouchedIdempotent | backend/utils/routes.py:10-37 | after a failure, the filled prefix is left unchanged by a second fill |
| RouteRepair.RebuiltRouteIdempotent | backend/utils/routes.py:1-34 | repairing a successfully repaired route changes nothing |
| RouteRepair.FailedRoute | backend/utils/routes.py:10-37 | on failure the result is the original route whose points before the bad one are filled in place and the rest untouched |
| RouteRepair.FailedRouteIdempotent | backend/utils/routes.py:13-37 | repairing a route whose repair failed changes nothing more |
| RouteRepair.FixedRouteIdempotent | backend/utils/routes.py:1-37 | repair is idempotent when no point carries a falsy waypoint type |
| RouteRepair.FailureKeepsPoints | backend/utils/routes.py:32-37 | on failure "points" keeps its length, the points from the bad one on are untouched, and earlier points keep their shape |
| RouteRepair.TouchShape | backend/utils/routes.py:13-22 | filling in place changes only a point's location |
| Numeric.Round2 | backend/agents/route_planning_agent.py:128 | the result is a whole number of hundredths within half a hundredth of the input |
| Numeric.Round2Monotone | backend/agents/route_planning_agent.py:128 | rounding does not reverse order |
| Numeric.Round2NonNegative | backend/agents/route_planning_agent.py:92 | rounding keeps non-negative values non-negative |
| Numeric.Round2OfHundredths | backend/agents/route_planning_agent.py:163 | rounding a whole number of hundredths changes nothing |
| Numeric.Trunc | backend/agents/route_planning_agent.py:183 | `int()` of a float truncates toward zero |
| Text.Lower | backend/tools/information_tools.py:46 | lowercasing maps each character and keeps the length |
| Text.AirportContainsPort | backend/agents/route_planning_agent.py:152 | a text containing "airport" contains "port" |
| Text.Words | backend/services/external_clients.py:30 | `split()` yields non-empty words containing no separator character |
| Text.WordsCollapse | backend/services/external_clients.py:30 | the words joined by single spaces are the text with leading and trailing separators dropped and each inner separator run replaced by one space, so the words are exactly the maximal runs of the text |
| Text.WordsEmpty | backend/services/external_clients.py:30 | `split()` is empty iff the text is empty or whitespace only |
| Text.NatToString | backend/agents/route_planning_agent.py:184 | the decimal text is non-empty digits with no leading zero |
| Text.NatToStringRoundTrip | backend/agents/route_planning_agent.py:184 | reading the decimal text back gives the number |
| Text.IntToString | backend/utils/routes.py:14-18 | the text is non-empty and starts with "-" iff the integer is negative |

## Left out

- The Haversine body of `DistanceCalculatorTool.calculate` is floating-point trigonometry. The distance is a parameter function returning a non-negative real.
- Numeric.Round2: ties round half up on exact reals. Python's `round` works on binary floats with round-half-even, so results can differ in the last hundredth at ties.
- Floating-point arithmetic in general: costs, scores and averages are exact reals.
- Text.Lower lowercases ASCII letters only. Python's `str.lower` also lowercases non-ASCII letters.
- Text.Words splits on the ASCII and Latin-1 whitespace characters. Python's `str.split()` also splits on the rest of Unicode whitespace.
- The LangGraph machinery is not modelled: `StateGraph`, `MemorySaver`, `astream`, message classes and the task-store writes inside `optimize_routes`. RunWorkflow models only the node order the graph's edges fix. Messages are plain strings.
- `backend/agents/information_agent.py`, `backend/main.py` and the configuration files are not part of this model. They hold HTTP plumbing, environment loading, tracing and LLM calls.
- The mock clients' literal datasets are parameters, not constants.
- `uuid4`, `datetime.now().isoformat()` and `str()` of a non-integer value are parameters (`idOf`, `now`, `show`).
- Pydantic coercion is not modelled. A field of the wrong JSON type is a failure, where pydantic would coerce some values (a numeric string to a number, say). An int is accepted where a float is expected.
- Storage: stored values are values. The program stores references, so a caller mutating a stored dict after storing it is not captured. Neither is `approve_route` changing an `OptimizedRoute` object another holder shares.
- RouteRepair.FixedRoute returns a new dictionary. The program mutates `route_data` and the location dicts in place, so two points sharing one location dict are not modelled as aliases.
- RouteRepair.Iterated: iterating over a dictionary of points walks its keys, which are strings and all dropped. It is given as an empty walk, and byte strings and other iterables are not modelled.
- Storage.Merge works on a map, so the key order of a task merged by `update_task` is not modelled. `task.update(updates)` keeps the task's keys in their order and appends new keys.
- Key order of the dictionaries built by the repair and by `.dict()` is not modelled. Dictionaries other than the stores are maps.
- RoutePlanningAgent.GenerateRoutes takes the upload's forecasts as a typed list. The `.get("device_forecasts", [])` default and a forecast without "model" (`"unknown"`) cannot arise from the typed upload and are not modelled.
- RoutePlanningAgent.RiskAssessmentNode treats every disruption title as a string. A non-string title would raise in `.lower()`.
- RoutePlanningTools.Optimize requires the candidate route objects to be distinct. The program also accepts the same dict twice, and it is then written twice.
- RoutePlanningTools.MarkRanks requires distinct route objects, for the same reason.
- RoutePlanningAgent.RankAndTime requires distinct route objects, for the same reason.
- RoutePlanningAgent.AddDurations requires distinct route objects, for the same reason.
- RoutePlanningAgent.CostAnalysisNode requires distinct route objects, for the same reason.
- RoutePlanningAgent.RiskAssessmentNode requires distinct route objects, for the same reason.
- RoutePlanningAgent.OptimizationNode requires distinct route objects, for the same reason.
- RoutePlanningAgent.AnalyseRoutes requires distinct route objects, for the same reason.
- RoutePlanningTools.Optimize states the permutation through an ordered index list and `Permute`, not as a multiset of route objects.
- Exceptions other than those the model names are not modelled: a missing dictionary key, an empty route list in the averages, a bad point location. Those it names become `Result`/`Option` failures or `ok = false`. Exception messages and the top-level "failed" task status are not modelled.
