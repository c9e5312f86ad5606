/** The route-planning agent: four nodes run in a fixed order over one
    shared state. Route generation builds the candidate routes, the cost and
    risk passes write a cost and a risk score into each of them, and the
    optimization node ranks them, adds a duration to each and summarises
    the top routes. The distance tool, route ids and the timestamp are
    parameters. */
module RoutePlanningAgent {
  import opened Wrappers
  import opened Text
  import opened Seqs
  import opened Numeric
  import opened Schemas
  import opened RouteRecord
  import opened RoutePlanningTools

  // ---------------------------------------------------------------------
  // The inputs the nodes read from the information analysis

  /** The part of one disruption the risk pass reads: its title, absent
      when the entry has no "title" key. */
  datatype DisruptionEntry = DisruptionEntry(title: Option<string>)

  /** The part of the risk assessment the cost pass reads. */
  datatype RiskSummary = RiskSummary(overallRisk: Option<string>)

  /** `information_analysis`: each part is None when its key is absent (an
      empty or missing analysis has neither). */
  datatype InformationAnalysis = InformationAnalysis(
    riskAssessment: Option<RiskSummary>,
    disruptionData: Option<seq<DisruptionEntry>>)

  /** `final_recommendation` of the optimization node. */
  datatype Recommendation = Recommendation(
    recommendedRoutes: seq<Route>,
    totalRoutesAnalyzed: nat,
    averageCost: real,
    averageRisk: real,
    optimizationTimestamp: string)

  /** `RoutePlanningState`, the dictionary every node reads and writes. The
      inputs are never reassigned by a node and are constant fields. */
  class PlanningState {
    var messages: seq<string>
    const uploadData: UploadData
    const informationAnalysis: InformationAnalysis
    const locations: seq<LocationPoint>
    var candidateRoutes: seq<Route>
    var optimizedRoutes: seq<Route>
    var finalRecommendation: Option<Recommendation>
    var processingComplete: bool
    var currentStep: string

    /** The initial state of a run: one opening message, no routes, no
        recommendation (the empty dictionary), step "starting". */
    constructor (opening: string, uploadData: UploadData, informationAnalysis: InformationAnalysis,
                 locations: seq<LocationPoint>)
      ensures messages == [opening]
      ensures this.uploadData == uploadData && this.informationAnalysis == informationAnalysis
      ensures this.locations == locations
      ensures candidateRoutes == [] && optimizedRoutes == [] && finalRecommendation == None
      ensures !processingComplete && currentStep == "starting"
    {
      messages := [opening];
      this.uploadData := uploadData;
      this.informationAnalysis := informationAnalysis;
      this.locations := locations;
      candidateRoutes := [];
      optimizedRoutes := [];
      finalRecommendation := None;
      processingComplete := false;
      currentStep := "starting";
    }

    /** The closing writes of the optimization node: the optimized list,
        the summary of it, the completion flag, the step and the message. */
    method Finish(optimized: seq<Route>, now: string)
      requires |optimized| > 0 && RankedAndTimed(optimized)
      modifies this
      ensures optimizedRoutes == optimized
      ensures finalRecommendation == Some(old(Summary(optimized, now)))
      ensures processingComplete && currentStep == "optimization_complete"
      ensures messages == old(messages) + [OptimizedMessage(MinInt(3, |optimized|))]
      ensures candidateRoutes == old(candidateRoutes)
    {
      var recommendation, message := Summarize(optimized, now);
      optimizedRoutes := optimized;
      finalRecommendation := Some(recommendation);
      processingComplete := true;
      currentStep := "optimization_complete";
      messages := messages + [message];
    }
  }

  /** The opening message of `optimize_routes`. */
  function OpeningMessage(upload: UploadData): string
  {
    "Optimize routes for " + NatToString(|upload.deviceForecasts|) + " forecasts"
  }

  /** The initial state `optimize_routes` hands to the workflow. */
  method InitialState(uploadData: UploadData, informationAnalysis: InformationAnalysis,
                      locations: seq<LocationPoint>) returns (state: PlanningState)
    ensures fresh(state)
    ensures state.messages == [OpeningMessage(uploadData)]
    ensures state.uploadData == uploadData && state.informationAnalysis == informationAnalysis
    ensures state.locations == locations
    ensures state.candidateRoutes == [] && state.optimizedRoutes == [] && state.finalRecommendation == None
    ensures !state.processingComplete && state.currentStep == "starting"
  {
    state := new PlanningState(OpeningMessage(uploadData), uploadData, informationAnalysis, locations);
  }

  // ---------------------------------------------------------------------
  // Route generation, as a specification

  /** A location that can serve as origin: its name mentions Singapore or a hub. */
  predicate IsHub(loc: LocationPoint)
  {
    Contains(Lower(loc.name), "singapore") || Contains(Lower(loc.name), "hub")
  }

  /** A location that can serve as the destination of a forecast. */
  predicate NamesDestination(destination: string, loc: LocationPoint)
  {
    Contains(Lower(loc.name), Lower(destination))
  }

  /** Origin and destination of one forecast: the first hub and the first
      location naming the destination; when either is missing, the first
      two locations. None is the IndexError of fewer than two locations. */
  function Endpoints(locs: seq<LocationPoint>, f: DeviceForecast): Option<(LocationPoint, LocationPoint)>
  {
    var origins := Filter(IsHub, locs);
    var dests := Filter((loc: LocationPoint) => NamesDestination(f.destination, loc), locs);
    if origins != [] && dests != [] then Some((origins[0], dests[0]))
    else if |locs| >= 2 then Some((locs[0], locs[1]))
    else None
  }

  /** The transport modes tried for a distance. */
  function TransportModes(distance: real): seq<string>
  {
    if distance > 500.0 then ["air", "sea", "land"] else ["land", "air"]
  }

  /** A location other than both endpoints. */
  predicate IsIntermediate(origin: LocationPoint, dest: LocationPoint, loc: LocationPoint)
  {
    loc != origin && loc != dest
  }

  /** The waypoints of a route: origin and destination, with the first
      other location between them on long routes. */
  function Waypoints(locs: seq<LocationPoint>, origin: LocationPoint, dest: LocationPoint, distance: real): seq<RoutePoint>
  {
    var mids := Filter((loc: LocationPoint) => IsIntermediate(origin, dest, loc), locs);
    if distance > 2000.0 && |locs| > 2 && mids != [] then
      [RoutePoint(origin, 1, None), RoutePoint(mids[0], 2, None), RoutePoint(dest, 3, None)]
    else
      [RoutePoint(origin, 1, None), RoutePoint(dest, 2, None)]
  }

  /** What generation decides for one route: every constant field but the id. */
  datatype Candidate = Candidate(
    forecastId: string,
    points: seq<RoutePoint>,
    totalDistance: real,
    transportMode: string,
    quantity: int,
    priority: string)

  function Describe(r: Route): Candidate
  {
    Candidate(r.forecastId, r.points, r.totalDistance, r.transportMode, r.quantity, r.priority)
  }

  function Described(rs: seq<Route>): (cs: seq<Candidate>)
    ensures |cs| == |rs| && forall k :: 0 <= k < |rs| ==> cs[k] == Describe(rs[k])
  {
    seq(|rs|, k requires 0 <= k < |rs| => Describe(rs[k]))
  }

  /** One candidate per mode, all over the same waypoints. */
  function Variants(f: DeviceForecast, points: seq<RoutePoint>, distance: real, modes: seq<string>): (cs: seq<Candidate>)
    ensures |cs| == |modes|
    ensures forall k :: 0 <= k < |modes| ==>
              cs[k] == Candidate(f.model, points, Round2(distance), modes[k], f.quantity, f.priority)
  {
    seq(|modes|, k requires 0 <= k < |modes| => Candidate(f.model, points, Round2(distance), modes[k], f.quantity, f.priority))
  }

  /** The candidates of one forecast, or None for its IndexError. */
  function ForecastCandidates(locs: seq<LocationPoint>, f: DeviceForecast, dist: DistanceTool): Option<seq<Candidate>>
  {
    match Endpoints(locs, f)
    case None => None
    case Some((origin, dest)) =>
      var d := dist(origin.lat, origin.lng, dest.lat, dest.lng);
      Some(Variants(f, Waypoints(locs, origin, dest, d), d, TransportModes(d)))
  }

  /** The candidates of all forecasts, in forecast order, or None when some
      forecast has no endpoints. */
  function Plan(locs: seq<LocationPoint>, fs: seq<DeviceForecast>, dist: DistanceTool): Option<seq<Candidate>>
    decreases |fs|
  {
    if fs == [] then Some([])
    else
      match Plan(locs, fs[..|fs| - 1], dist)
      case None => None
      case Some(before) =>
        match ForecastCandidates(locs, fs[|fs| - 1], dist)
        case None => None
        case Some(last) => Some(before + last)
  }

  function GeneratedMessage(n: nat): string
  {
    "Generated " + NatToString(n) + " candidate routes"
  }

  // ---------------------------------------------------------------------
  // Properties of route generation

  /** Endpoint selection: the first hub and the first location naming the
      destination when both exist; otherwise the first two locations; and
      an error exactly when that fallback has fewer than two locations. */
  lemma EndpointsChoice(locs: seq<LocationPoint>, f: DeviceForecast)
    ensures Endpoints(locs, f).None? <==>
              |locs| < 2 && ((forall i :: 0 <= i < |locs| ==> !IsHub(locs[i])) ||
                             (forall i :: 0 <= i < |locs| ==> !NamesDestination(f.destination, locs[i])))
    ensures (exists i :: 0 <= i < |locs| && IsHub(locs[i])) && (exists i :: 0 <= i < |locs| && NamesDestination(f.destination, locs[i])) ==>
              exists i, j :: 0 <= i < |locs| && 0 <= j < |locs| &&
                Endpoints(locs, f) == Some((locs[i], locs[j])) &&
                IsHub(locs[i]) && (forall k :: 0 <= k < i ==> !IsHub(locs[k])) &&
                NamesDestination(f.destination, locs[j]) && (forall k :: 0 <= k < j ==> !NamesDestination(f.destination, locs[k]))
    ensures ((forall i :: 0 <= i < |locs| ==> !IsHub(locs[i])) ||
             (forall i :: 0 <= i < |locs| ==> !NamesDestination(f.destination, locs[i]))) && |locs| >= 2 ==>
              Endpoints(locs, f) == Some((locs[0], locs[1]))
  {
    var isDest := (loc: LocationPoint) => NamesDestination(f.destination, loc);
    FilterEmpty(IsHub, locs);
    FilterEmpty(isDest, locs);
    if Filter(IsHub, locs) != [] && Filter(isDest, locs) != [] {
      FilterHead(IsHub, locs);
      FilterHead(isDest, locs);
    }
  }

  /** Each waypoint list runs from the origin to the destination with orders
      1, 2, ... and has three points exactly when the route is longer than
      2000, there are more than two locations and one of them is neither
      endpoint. */
  lemma WaypointsShape(locs: seq<LocationPoint>, origin: LocationPoint, dest: LocationPoint, distance: real)
    ensures var w := Waypoints(locs, origin, dest, distance);
            && (|w| == 2 || |w| == 3)
            && w[0].location == origin && w[|w| - 1].location == dest
            && (forall k :: 0 <= k < |w| ==> w[k].order == k + 1 && w[k].estimatedArrival == None)
            && (|w| == 3 <==> distance > 2000.0 && |locs| > 2 &&
                              exists i :: 0 <= i < |locs| && IsIntermediate(origin, dest, locs[i]))
    ensures |Waypoints(locs, origin, dest, distance)| == 3 ==>
              var l := Waypoints(locs, origin, dest, distance)[1].location;
              l in locs && IsIntermediate(origin, dest, l)
  {
    var p := (loc: LocationPoint) => IsIntermediate(origin, dest, loc);
    FilterEmpty(p, locs);
    FilterIsSubsequence(p, locs);
    if Filter(p, locs) != [] {
      assert Filter(p, locs)[0] in Filter(p, locs);
    }
  }

  /** Each forecast with endpoints yields air, sea and land variants when
      its distance is over 500, and land and air otherwise, all sharing its
      model, quantity, priority, waypoints and rounded distance. */
  lemma ForecastFanOut(locs: seq<LocationPoint>, f: DeviceForecast, dist: DistanceTool)
    requires Endpoints(locs, f).Some?
    ensures var (origin, dest) := Endpoints(locs, f).value;
            var d := dist(origin.lat, origin.lng, dest.lat, dest.lng);
            var cs := ForecastCandidates(locs, f, dist).value;
            && ForecastCandidates(locs, f, dist).Some?
            && (d > 500.0 ==> |cs| == 3 && cs[0].transportMode == "air" && cs[1].transportMode == "sea" && cs[2].transportMode == "land")
            && (d <= 500.0 ==> |cs| == 2 && cs[0].transportMode == "land" && cs[1].transportMode == "air")
            && forall k :: 0 <= k < |cs| ==>
                 cs[k].forecastId == f.model && cs[k].quantity == f.quantity && cs[k].priority == f.priority &&
                 cs[k].points == Waypoints(locs, origin, dest, d) && cs[k].totalDistance == Round2(d) &&
                 cs[k].totalDistance >= 0.0
  {
    var (origin, dest) := Endpoints(locs, f).value;
    var d := dist(origin.lat, origin.lng, dest.lat, dest.lng);
    Round2NonNegative(d);
  }

  /** Every forecast has an origin and a destination. */
  predicate AllHaveEndpoints(locs: seq<LocationPoint>, fs: seq<DeviceForecast>)
  {
    forall i :: 0 <= i < |fs| ==> Endpoints(locs, fs[i]).Some?
  }

  lemma AllHaveEndpointsSnoc(locs: seq<LocationPoint>, fs: seq<DeviceForecast>)
    requires fs != []
    ensures AllHaveEndpoints(locs, fs) <==>
              AllHaveEndpoints(locs, fs[..|fs| - 1]) && Endpoints(locs, fs[|fs| - 1]).Some?
  {
    var front := fs[..|fs| - 1];
    if AllHaveEndpoints(locs, front) && Endpoints(locs, fs[|fs| - 1]).Some? {
      forall i | 0 <= i < |fs| ensures Endpoints(locs, fs[i]).Some? {
        if i < |front| { assert front[i] == fs[i]; }
      }
    }
    if AllHaveEndpoints(locs, fs) {
      forall i | 0 <= i < |front| ensures Endpoints(locs, front[i]).Some? {
        assert front[i] == fs[i];
      }
    }
  }

  /** Generation fails exactly when some forecast has no endpoints. */
  lemma {:induction false} PlanDefined(locs: seq<LocationPoint>, fs: seq<DeviceForecast>, dist: DistanceTool)
    ensures Plan(locs, fs, dist).Some? <==> AllHaveEndpoints(locs, fs)
    decreases |fs|
  {
    if fs != [] {
      var front, last := fs[..|fs| - 1], fs[|fs| - 1];
      PlanDefined(locs, front, dist);
      AllHaveEndpointsSnoc(locs, fs);
      assert ForecastCandidates(locs, last, dist).Some? <==> Endpoints(locs, last).Some?;
    }
  }

  /** Every forecast contributes two or three candidates. */
  lemma {:induction false} PlanCount(locs: seq<LocationPoint>, fs: seq<DeviceForecast>, dist: DistanceTool)
    requires Plan(locs, fs, dist).Some?
    ensures 2 * |fs| <= |Plan(locs, fs, dist).value| <= 3 * |fs|
    decreases |fs|
  {
    if fs != [] {
      PlanCount(locs, fs[..|fs| - 1], dist);
    }
  }

  /** The candidates of the forecasts so far stay a prefix when one more
      forecast is planned. */
  lemma PlanExtends(locs: seq<LocationPoint>, fs: seq<DeviceForecast>, f: DeviceForecast, dist: DistanceTool)
    requires Plan(locs, fs, dist).Some? && ForecastCandidates(locs, f, dist).Some?
    ensures Plan(locs, fs + [f], dist) == Some(Plan(locs, fs, dist).value + ForecastCandidates(locs, f, dist).value)
  {
    assert (fs + [f])[..|fs|] == fs;
  }

  // ---------------------------------------------------------------------
  // Cost pass, as a specification

  /** The risk multiplier: 1.0, 1.3 or 1.6 for an overall risk of low,
      medium or high; 1.0 when the analysis has no risk assessment, the
      assessment has no overall risk, or the level is not one of the three. */
  function RiskMultiplier(info: InformationAnalysis): (m: real)
    ensures m == 1.0 || m == 1.3 || m == 1.6
  {
    match info.riskAssessment
    case None => 1.0
    case Some(assessment) =>
      var level := assessment.overallRisk.GetOr("low");
      if level == "low" then 1.0
      else if level == "medium" then 1.3
      else if level == "high" then 1.6
      else 1.0
  }

  /** The multiplier as the f-string prints it. */
  function ShowMultiplier(m: real): string
    requires m == 1.0 || m == 1.3 || m == 1.6
  {
    if m == 1.3 then "1.3" else if m == 1.6 then "1.6" else "1.0"
  }

  function CostMessage(info: InformationAnalysis): string
  {
    "Cost analysis complete with risk multiplier: " + ShowMultiplier(RiskMultiplier(info))
  }

  /** The multiplier follows the overall risk level, and a missing or
      unknown level counts as low. */
  lemma RiskMultiplierLevels(info: InformationAnalysis)
    ensures info.riskAssessment == Some(RiskSummary(Some("medium"))) ==> RiskMultiplier(info) == 1.3
    ensures info.riskAssessment == Some(RiskSummary(Some("high"))) ==> RiskMultiplier(info) == 1.6
    ensures RiskMultiplier(info) != 1.0 <==>
              info.riskAssessment.Some? && info.riskAssessment.value.overallRisk.Some? &&
              info.riskAssessment.value.overallRisk.value in {"medium", "high"}
  {
  }

  /** The rounded cost of a route never falls when the risk level rises. */
  lemma CostGrowsWithRisk(distance: real, mode: string, quantity: int, m1: real, m2: real)
    requires distance >= 0.0 && quantity >= 0 && 0.0 <= m1 <= m2
    ensures 0.0 <= Round2(Estimate(distance, mode, quantity, m1)) <= Round2(Estimate(distance, mode, quantity, m2))
  {
    var base := Estimate(distance, mode, quantity, 1.0);
    EstimateLinearInMultiplier(distance, mode, quantity, 1.0, m1);
    EstimateLinearInMultiplier(distance, mode, quantity, 1.0, m2);
    assert m1 * base <= m2 * base;
    Round2NonNegative(Estimate(distance, mode, quantity, m1));
    Round2Monotone(Estimate(distance, mode, quantity, m1), Estimate(distance, mode, quantity, m2));
  }

  // ---------------------------------------------------------------------
  // Risk pass, as a specification (in hundredths)

  /** The disruptions the risk pass reads; none without "disruption_data". */
  function Disruptions(info: InformationAnalysis): seq<DisruptionEntry>
  {
    info.disruptionData.GetOr([])
  }

  /** The lowercased title of a disruption, empty when it has none. */
  function TitleOf(d: DisruptionEntry): string
  {
    Lower(d.title.GetOr(""))
  }

  /** What one disruption adds to a route's risk, in hundredths: 30 for a
      sea route and a title mentioning a port, else 30 for an air route and
      a title mentioning an airport, else 20 for a title mentioning shipping. */
  function Increment(mode: string, title: string): (n: nat)
    ensures n == 0 || n == 20 || n == 30
  {
    if mode == "sea" && Contains(title, "port") then 30
    else if mode == "air" && Contains(title, "airport") then 30
    else if Contains(title, "shipping") then 20
    else 0
  }

  /** The increments of all disruptions, at most 30 each. */
  function Increments(mode: string, ds: seq<DisruptionEntry>): (n: nat)
    ensures n <= 30 * |ds|
    decreases |ds|
  {
    if ds == [] then 0
    else Increments(mode, ds[..|ds| - 1]) + Increment(mode, TitleOf(ds[|ds| - 1]))
  }

  /** The raw risk in hundredths: base 20, the disruption increments, and
      10 more for routes longer than 5000. */
  function RiskHundredths(mode: string, distance: real, ds: seq<DisruptionEntry>): nat
  {
    20 + Increments(mode, ds) + (if distance > 5000.0 then 10 else 0)
  }

  /** `min(round(risk_score, 2), 1.0)`. */
  function RiskScore(mode: string, distance: real, ds: seq<DisruptionEntry>): real
  {
    MinReal(Round2(RiskHundredths(mode, distance, ds) as real / 100.0), 1.0)
  }

  const RiskMessage := "Risk assessment complete for all candidate routes"

  /** The risk score is the raw hundredths capped at 100, so it lies
      between 0.2 and 1.0. */
  lemma RiskScoreRange(mode: string, distance: real, ds: seq<DisruptionEntry>)
    ensures RiskScore(mode, distance, ds) == MinInt(RiskHundredths(mode, distance, ds), 100) as real / 100.0
    ensures 0.2 <= RiskScore(mode, distance, ds) <= 1.0
  {
    Round2OfHundredths(RiskHundredths(mode, distance, ds));
  }

  /** A sea route counts a title mentioning an airport as a port disruption,
      since "airport" contains "port". */
  lemma SeaRouteCountsAirports(title: string)
    requires Contains(Lower(title), "airport")
    ensures Increment("sea", Lower(title)) == 30
  {
    AirportContainsPort(Lower(title));
  }

  /** Each disruption adds to the raw risk on its own: the raw risk of a
      list grows by exactly the increment of an appended disruption. */
  lemma RiskHundredthsAppend(mode: string, distance: real, ds: seq<DisruptionEntry>, d: DisruptionEntry)
    ensures RiskHundredths(mode, distance, ds + [d]) == RiskHundredths(mode, distance, ds) + Increment(mode, TitleOf(d))
  {
    assert (ds + [d])[..|ds|] == ds;
  }

  // ---------------------------------------------------------------------
  // Optimization summary, as a specification

  /** Days per 500 km by mode; any other mode like land. */
  function DurationFactor(mode: string): (f: real)
    ensures 0.0 < f <= 1.0
  {
    if mode == "air" then 0.1
    else if mode == "sea" then 1.0
    else if mode == "land" then 0.5
    else 0.5
  }

  /** `max(1, int(distance * factor / 500))`. */
  function DurationDays(mode: string, distance: real): (days: nat)
    ensures days >= 1
  {
    MaxInt(1, Trunc(distance * DurationFactor(mode) / 500.0))
  }

  function DurationText(mode: string, distance: real): string
  {
    NatToString(DurationDays(mode, distance)) + " days"
  }

  /** The duration text is a whole number of at least one day, followed by
      " days", and reading the number back gives the whole days of the trip
      (or 1 for trips shorter than a day). */
  lemma DurationTextMeaning(mode: string, distance: real)
    requires distance >= 0.0
    ensures var text := DurationText(mode, distance);
            var digits := text[..|text| - 5];
            && |text| > 5 && text[|text| - 5..] == " days"
            && (forall i :: 0 <= i < |digits| ==> IsDigit(digits[i]))
            && DecimalValue(digits) >= 1
            && (distance * DurationFactor(mode) >= 1000.0 ==>
                  (DecimalValue(digits) as real) * 500.0 <= distance * DurationFactor(mode) < (DecimalValue(digits) as real + 1.0) * 500.0)
            && (distance * DurationFactor(mode) < 1000.0 ==> DecimalValue(digits) == 1)
  {
    var text := DurationText(mode, distance);
    var days := DurationDays(mode, distance);
    assert text[..|text| - 5] == NatToString(days);
    NatToStringRoundTrip(days);
    var x := distance * DurationFactor(mode) / 500.0;
    assert x >= 0.0;
    assert x * 500.0 == distance * DurationFactor(mode);
  }

  /** `[r for r in routes if r.get("recommended", False)]`. */
  function Recommended(rs: seq<Route>): (top: seq<Route>)
    reads (set r | r in rs)`recommended
    ensures |top| <= |rs|
  {
    if rs == [] then []
    else (if rs[0].recommended == Some(true) then [rs[0]] else []) + Recommended(rs[1..])
  }

  /** When route k (counting from `offset`) is flagged exactly when k < 3,
      the recommended routes are the first ones, up to three in all. */
  lemma {:induction false} RecommendedAfterRanking(rs: seq<Route>, offset: nat)
    requires forall k :: 0 <= k < |rs| ==> rs[k].recommended == Some(k + offset < 3)
    ensures Recommended(rs) == rs[..MinInt(MaxInt(3 - offset, 0), |rs|)]
    decreases |rs|
  {
    if rs != [] {
      forall k | 0 <= k < |rs[1..]| ensures rs[1..][k].recommended == Some(k + (offset + 1) < 3) {
        assert rs[1..][k] == rs[k + 1];
      }
      RecommendedAfterRanking(rs[1..], offset + 1);
    }
  }

  predicate AllCosted(rs: seq<Route>)
    reads (set r | r in rs)`totalCost
  {
    forall k :: 0 <= k < |rs| ==> rs[k].totalCost.Some?
  }

  predicate AllRisked(rs: seq<Route>)
    reads (set r | r in rs)`riskScore
  {
    forall k :: 0 <= k < |rs| ==> rs[k].riskScore.Some?
  }

  function SumCosts(rs: seq<Route>): real
    reads (set r | r in rs)`totalCost
    requires AllCosted(rs)
    decreases |rs|
  {
    if rs == [] then 0.0 else SumCosts(rs[..|rs| - 1]) + rs[|rs| - 1].totalCost.value
  }

  function SumRisks(rs: seq<Route>): real
    reads (set r | r in rs)`riskScore
    requires AllRisked(rs)
    decreases |rs|
  {
    if rs == [] then 0.0 else SumRisks(rs[..|rs| - 1]) + rs[|rs| - 1].riskScore.value
  }

  /** `round(total / n, 2)`; n = 0 is the ZeroDivisionError. */
  function Average(total: real, n: nat): real
    requires n > 0
  {
    Round2(total / n as real)
  }

  /** A sum of risk scores that each lie in [lo, hi] lies in [n*lo, n*hi]. */
  lemma {:induction false} SumRisksBounds(rs: seq<Route>, lo: real, hi: real)
    requires AllRisked(rs)
    requires forall k :: 0 <= k < |rs| ==> lo <= rs[k].riskScore.value <= hi
    ensures |rs| as real * lo <= SumRisks(rs) <= |rs| as real * hi
    decreases |rs|
  {
    if rs != [] {
      SumRisksBounds(rs[..|rs| - 1], lo, hi);
    }
  }

  /** When every risk score lies between 0.2 and 1.0, so does the average. */
  lemma AverageRiskRange(rs: seq<Route>)
    requires |rs| > 0 && AllRisked(rs)
    requires forall k :: 0 <= k < |rs| ==> 0.2 <= rs[k].riskScore.value <= 1.0
    ensures 0.2 <= Average(SumRisks(rs), |rs|) <= 1.0
  {
    SumRisksBounds(rs, 0.2, 1.0);
    var n := |rs| as real;
    var avg := SumRisks(rs) / n;
    QuotientBounds(SumRisks(rs), n, 0.2, 1.0);
    Round2Monotone(0.2, avg);
    Round2Monotone(avg, 1.0);
    Round2OfHundredths(20);
    Round2OfHundredths(100);
  }

  function OptimizedMessage(recommended: nat): string
  {
    "Optimization complete. " + NatToString(recommended) + " routes recommended."
  }

  // ---------------------------------------------------------------------
  // The nodes

  /** A route as generation leaves it: none of the later keys present. */
  predicate Blank(r: Route)
    reads r
  {
    r.totalCost.None? && r.riskScore.None? && r.optimizationRank.None? &&
    r.compositeScore.None? && r.recommended.None? && r.estimatedDuration.None?
  }

  /** The waypoint list of one route: origin and destination, and on long
      routes the first other location inserted between them, with the
      destination's order moved to 3. */
  method BuildWaypoints(locs: seq<LocationPoint>, origin: LocationPoint, dest: LocationPoint, distance: real)
    returns (waypoints: seq<RoutePoint>)
    ensures waypoints == Waypoints(locs, origin, dest, distance)
  {
    waypoints := [RoutePoint(origin, 1, None), RoutePoint(dest, 2, None)];
    if distance > 2000.0 && |locs| > 2 {
      var intermediates := Filter((loc: LocationPoint) => IsIntermediate(origin, dest, loc), locs);
      if intermediates != [] {
        waypoints := waypoints[..1] + [RoutePoint(intermediates[0], 2, None)] + waypoints[1..];
        waypoints := waypoints[2 := waypoints[2].(order := 3)];
      }
    }
  }

  /** The endpoint search of one forecast, with the fallback to the first
      two locations; None is the IndexError. */
  method SelectEndpoints(locs: seq<LocationPoint>, f: DeviceForecast) returns (endpoints: Option<(LocationPoint, LocationPoint)>)
    ensures endpoints == Endpoints(locs, f)
  {
    var originCandidates := Filter(IsHub, locs);
    var destCandidates := Filter((loc: LocationPoint) => NamesDestination(f.destination, loc), locs);
    if originCandidates == [] || destCandidates == [] {
      originCandidates := Take(locs, 1);
      destCandidates := if |locs| >= 2 then locs[1..2] else [];
    }
    if originCandidates == [] || destCandidates == [] {
      return None;
    }
    return Some((originCandidates[0], destCandidates[0]));
  }

  /** The inner loop of generation: one new route per transport mode,
      appended to `routes`, each with the next id. */
  method AddVariants(routes: seq<Route>, locs: seq<LocationPoint>, f: DeviceForecast,
                     origin: LocationPoint, dest: LocationPoint, distance: real, idOf: nat -> string)
    returns (extended: seq<Route>)
    requires Distinct(routes)
    ensures Distinct(extended) && |extended| >= |routes| && forall k :: 0 <= k < |routes| ==> extended[k] == routes[k]
    ensures Described(extended) == Described(routes) + Variants(f, Waypoints(locs, origin, dest, distance), distance, TransportModes(distance))
    ensures forall k :: |routes| <= k < |extended| ==>
              fresh(extended[k]) && Blank(extended[k]) && extended[k].id == idOf(k)
  {
    var modes := TransportModes(distance);
    extended := routes;
    var j := 0;
    while j < |modes|
      invariant 0 <= j <= |modes|
      invariant Distinct(extended) && |extended| == |routes| + j && forall k :: 0 <= k < |routes| ==> extended[k] == routes[k]
      invariant Described(extended) == Described(routes) + Variants(f, Waypoints(locs, origin, dest, distance), distance, modes[..j])
      invariant forall k :: |routes| <= k < |extended| ==> fresh(extended[k]) && Blank(extended[k]) && extended[k].id == idOf(k)
    {
      var waypoints := BuildWaypoints(locs, origin, dest, distance);
      var route := new Route(idOf(|extended|), f.model, waypoints, Round2(distance), modes[j], f.quantity, f.priority);
      assert Described(extended + [route]) == Described(extended) + [Describe(route)];
      PrefixSnoc(modes, j);
      extended := extended + [route];
      j := j + 1;
    }
    assert modes[..|modes|] == modes;
  }

  /** The forecast loop of generation: the endpoints of each forecast,
      then one new route per transport mode, the route ids numbered in
      creation order. Fails at the first forecast without endpoints. */
  method GenerateRoutes(locs: seq<LocationPoint>, forecasts: seq<DeviceForecast>, dist: DistanceTool, idOf: nat -> string)
    returns (ok: bool, routes: seq<Route>)
    ensures ok <==> forall i :: 0 <= i < |forecasts| ==> Endpoints(locs, forecasts[i]).Some?
    ensures ok ==> Plan(locs, forecasts, dist) == Some(Described(routes)) && Distinct(routes)
    ensures ok ==> forall k :: 0 <= k < |routes| ==> fresh(routes[k]) && Blank(routes[k]) && routes[k].id == idOf(k)
  {
    routes := [];
    var i := 0;
    while i < |forecasts|
      invariant 0 <= i <= |forecasts|
      invariant Plan(locs, forecasts[..i], dist) == Some(Described(routes))
      invariant Distinct(routes)
      invariant forall k :: 0 <= k < |routes| ==> fresh(routes[k]) && Blank(routes[k]) && routes[k].id == idOf(k)
    {
      var f := forecasts[i];
      var endpoints := SelectEndpoints(locs, f);
      if endpoints.None? {
        return false, routes;
      }
      var (origin, destinationLoc) := endpoints.value;
      var distance := dist(origin.lat, origin.lng, destinationLoc.lat, destinationLoc.lng);
      ghost var before := routes;
      ghost var added := Variants(f, Waypoints(locs, origin, destinationLoc, distance), distance, TransportModes(distance));
      assert ForecastCandidates(locs, f, dist) == Some(added);
      routes := AddVariants(routes, locs, f, origin, destinationLoc, distance, idOf);
      PrefixSnoc(forecasts, i);
      PlanExtends(locs, forecasts[..i], f, dist);
      assert Plan(locs, forecasts[..i + 1], dist) == Some(Described(before) + added);
      i := i + 1;
    }
    assert forecasts[..i] == forecasts;
    PlanDefined(locs, forecasts, dist);
    ok := true;
  }

  /** `_route_generation_node`: the generated routes become the candidate
      routes. When a forecast has no endpoints the IndexError leaves the
      state as it was. */
  method RouteGenerationNode(state: PlanningState, dist: DistanceTool, idOf: nat -> string) returns (ok: bool)
    modifies state
    ensures ok <==> forall i :: 0 <= i < |state.uploadData.deviceForecasts| ==>
                      Endpoints(state.locations, state.uploadData.deviceForecasts[i]).Some?
    ensures !ok ==> unchanged(state)
    ensures ok ==> Plan(state.locations, state.uploadData.deviceForecasts, dist) == Some(Described(state.candidateRoutes))
    ensures ok ==> Distinct(state.candidateRoutes) &&
                   forall k :: 0 <= k < |state.candidateRoutes| ==>
                     fresh(state.candidateRoutes[k]) && Blank(state.candidateRoutes[k]) &&
                     state.candidateRoutes[k].id == idOf(k)
    ensures ok ==> state.currentStep == "routes_generated" &&
                   state.messages == old(state.messages) + [GeneratedMessage(|state.candidateRoutes|)]
    ensures ok ==> state.optimizedRoutes == old(state.optimizedRoutes) &&
                   state.finalRecommendation == old(state.finalRecommendation) &&
                   state.processingComplete == old(state.processingComplete)
  {
    var routes;
    ok, routes := GenerateRoutes(state.locations, state.uploadData.deviceForecasts, dist, idOf);
    if !ok {
      return;
    }
    state.candidateRoutes := routes;
    state.currentStep := "routes_generated";
    state.messages := state.messages + [GeneratedMessage(|routes|)];
  }

  /** `_cost_analysis_node`: every candidate route gets the rounded cost
      estimate for its distance, mode and quantity under the multiplier of
      the overall risk. */
  method CostAnalysisNode(state: PlanningState)
    requires Distinct(state.candidateRoutes)
    modifies state, state.candidateRoutes
    ensures state.candidateRoutes == old(state.candidateRoutes)
    ensures forall k :: 0 <= k < |state.candidateRoutes| ==>
              var r := state.candidateRoutes[k];
              r.totalCost == Some(Round2(Estimate(r.totalDistance, r.transportMode, r.quantity,
                                                  RiskMultiplier(state.informationAnalysis))))
    ensures forall r :: r in state.candidateRoutes ==>
              r.riskScore == old(r.riskScore) && r.optimizationRank == old(r.optimizationRank) &&
              r.compositeScore == old(r.compositeScore) && r.recommended == old(r.recommended) &&
              r.estimatedDuration == old(r.estimatedDuration)
    ensures state.currentStep == "costs_analyzed" &&
            state.messages == old(state.messages) + [CostMessage(state.informationAnalysis)]
    ensures state.optimizedRoutes == old(state.optimizedRoutes) &&
            state.finalRecommendation == old(state.finalRecommendation) &&
            state.processingComplete == old(state.processingComplete)
  {
    var riskMultiplier := 1.0;
    var info := state.informationAnalysis;
    if info.riskAssessment.Some? {
      var riskLevel := info.riskAssessment.value.overallRisk.GetOr("low");
      riskMultiplier := if riskLevel == "low" then 1.0
                        else if riskLevel == "medium" then 1.3
                        else if riskLevel == "high" then 1.6
                        else 1.0;
    }
    assert riskMultiplier == RiskMultiplier(info);
    var routes := state.candidateRoutes;
    var i := 0;
    while i < |routes|
      invariant 0 <= i <= |routes|
      invariant unchanged(state)
      invariant forall k :: 0 <= k < i ==>
                  routes[k].totalCost == Some(Round2(Estimate(routes[k].totalDistance, routes[k].transportMode,
                                                              routes[k].quantity, riskMultiplier)))
      invariant forall r :: r in routes ==>
                  r.riskScore == old(r.riskScore) && r.optimizationRank == old(r.optimizationRank) &&
                  r.compositeScore == old(r.compositeScore) && r.recommended == old(r.recommended) &&
                  r.estimatedDuration == old(r.estimatedDuration)
    {
      var route := routes[i];
      var cost := Estimate(route.totalDistance, route.transportMode, route.quantity, riskMultiplier);
      route.totalCost := Some(Round2(cost));
      i := i + 1;
    }
    state.currentStep := "costs_analyzed";
    state.messages := state.messages + ["Cost analysis complete with risk multiplier: " + ShowMultiplier(riskMultiplier)];
  }

  /** The inner loop of the risk pass: the raw risk of one route in
      hundredths, accumulated disruption by disruption. */
  method RouteRisk(mode: string, distance: real, ds: seq<DisruptionEntry>) returns (riskScore: real)
    ensures riskScore == RiskScore(mode, distance, ds)
  {
    var h: nat := 20;
    var j := 0;
    while j < |ds|
      invariant 0 <= j <= |ds|
      invariant h == 20 + Increments(mode, ds[..j])
    {
      var title := Lower(ds[j].title.GetOr(""));
      if mode == "sea" && Contains(title, "port") {
        h := h + 30;
      } else if mode == "air" && Contains(title, "airport") {
        h := h + 30;
      } else if Contains(title, "shipping") {
        h := h + 20;
      }
      assert ds[..j + 1][..j] == ds[..j];
      j := j + 1;
    }
    assert ds[..j] == ds;
    if distance > 5000.0 {
      h := h + 10;
    }
    riskScore := MinReal(Round2(h as real / 100.0), 1.0);
  }

  /** `_risk_assessment_node`: every candidate route gets the risk score
      of its mode and distance under the disruptions of the analysis. */
  method RiskAssessmentNode(state: PlanningState)
    requires Distinct(state.candidateRoutes)
    modifies state, state.candidateRoutes
    ensures state.candidateRoutes == old(state.candidateRoutes)
    ensures forall k :: 0 <= k < |state.candidateRoutes| ==>
              var r := state.candidateRoutes[k];
              r.riskScore == Some(RiskScore(r.transportMode, r.totalDistance, Disruptions(state.informationAnalysis)))
    ensures forall r :: r in state.candidateRoutes ==>
              r.totalCost == old(r.totalCost) && r.optimizationRank == old(r.optimizationRank) &&
              r.compositeScore == old(r.compositeScore) && r.recommended == old(r.recommended) &&
              r.estimatedDuration == old(r.estimatedDuration)
    ensures state.currentStep == "risks_assessed" && state.messages == old(state.messages) + [RiskMessage]
    ensures state.optimizedRoutes == old(state.optimizedRoutes) &&
            state.finalRecommendation == old(state.finalRecommendation) &&
            state.processingComplete == old(state.processingComplete)
  {
    var ds := Disruptions(state.informationAnalysis);
    var routes := state.candidateRoutes;
    var i := 0;
    while i < |routes|
      invariant 0 <= i <= |routes|
      invariant unchanged(state)
      invariant forall k :: 0 <= k < i ==>
                  routes[k].riskScore == Some(RiskScore(routes[k].transportMode, routes[k].totalDistance, ds))
      invariant forall r :: r in routes ==>
                  r.totalCost == old(r.totalCost) && r.optimizationRank == old(r.optimizationRank) &&
                  r.compositeScore == old(r.compositeScore) && r.recommended == old(r.recommended) &&
                  r.estimatedDuration == old(r.estimatedDuration)
    {
      var route := routes[i];
      var riskScore := RouteRisk(route.transportMode, route.totalDistance, ds);
      route.riskScore := Some(riskScore);
      i := i + 1;
    }
    state.currentStep := "risks_assessed";
    state.messages := state.messages + [RiskMessage];
  }

  /** The duration loop of the optimization node. */
  method AddDurations(routes: seq<Route>)
    requires Distinct(routes)
    modifies (set r | r in routes)`estimatedDuration
    ensures forall k :: 0 <= k < |routes| ==>
              routes[k].estimatedDuration == Some(DurationText(routes[k].transportMode, routes[k].totalDistance))
    ensures forall k :: 0 <= k < |routes| ==>
              && routes[k].totalCost == old(routes[k].totalCost) && routes[k].riskScore == old(routes[k].riskScore)
              && routes[k].optimizationRank == old(routes[k].optimizationRank)
              && routes[k].compositeScore == old(routes[k].compositeScore)
              && routes[k].recommended == old(routes[k].recommended)
  {
    var i := 0;
    while i < |routes|
      invariant 0 <= i <= |routes|
      invariant forall k :: 0 <= k < i ==>
                  routes[k].estimatedDuration == Some(DurationText(routes[k].transportMode, routes[k].totalDistance))
    {
      var route := routes[i];
      var factor := DurationFactor(route.transportMode);
      var durationDays := MaxInt(1, Trunc(route.totalDistance * factor / 500.0));
      assert durationDays == DurationDays(route.transportMode, route.totalDistance);
      route.estimatedDuration := Some(NatToString(durationDays) + " days");
      i := i + 1;
    }
  }

  /** The optimized routes as the optimization node leaves them: sorted by
      score, each with its 1-based rank, its score, the top-three flag and
      its duration. */
  predicate RankedAndTimed(opt: seq<Route>)
    reads opt
  {
    && AllScored(opt)
    && (forall i, j :: 0 <= i < j < |opt| ==> ScoreOf(opt[i]) <= ScoreOf(opt[j]))
    && (forall k :: 0 <= k < |opt| ==>
          && opt[k].optimizationRank == Some(k + 1)
          && opt[k].compositeScore == Some(ScoreOf(opt[k]))
          && opt[k].recommended == Some(k < 3)
          && opt[k].estimatedDuration == Some(DurationText(opt[k].transportMode, opt[k].totalDistance)))
  }

  /** `opt` lists `cands` at the positions `order`, and routes with equal
      (composite) scores keep their candidate order, as Python's `sorted`
      does; with the non-decreasing scores of `RankedAndTimed` this is the
      stable sort `Optimize` performs. */
  predicate FollowsScoreOrder(cands: seq<Route>, opt: seq<Route>, order: seq<nat>)
    reads (set r | r in opt)`compositeScore
  {
    && |order| == |cands| && InRange(order, |cands|) && opt == Permute(cands, order)
    && forall i, j :: 0 <= i < j < |opt| && opt[i].compositeScore == opt[j].compositeScore ==> order[i] < order[j]
  }

  /** The order the optimization node leaves is the stable sort of the
      candidates by score: read back on the candidates' own scores, the
      positions `order` are in the order `sorted(key=calculate_score)`
      gives. */
  lemma ScoreOrderIsStableSort(cands: seq<Route>, opt: seq<Route>, order: seq<nat>)
    requires AllScored(cands) && RankedAndTimed(opt) && FollowsScoreOrder(cands, opt, order)
    ensures Ordered(ScoresOf(cands), order)
  {
  }

  /** The optimizer call and the duration loop: the routes ranked, scored,
      flagged and timed, listing the candidates in the stable score order
      `order` (routes with equal scores keep their candidate order). */
  method RankAndTime(candidates: seq<Route>) returns (ok: bool, optimized: seq<Route>, ghost order: seq<nat>)
    requires Distinct(candidates)
    modifies candidates
    ensures ok == old(AllScored(candidates))
    ensures !ok ==> forall r :: r in candidates ==> unchanged(r)
    ensures forall r :: r in candidates ==> r.totalCost == old(r.totalCost) && r.riskScore == old(r.riskScore)
    ensures ok ==> |optimized| == |candidates| && Distinct(optimized) && (forall r :: r in candidates <==> r in optimized)
    ensures ok ==> RankedAndTimed(optimized)
    ensures ok ==> FollowsScoreOrder(candidates, optimized, order)
  {
    ok, optimized, order := Optimize(candidates);
    if ok {
      PermuteSorted(candidates, order);
      AddDurations(optimized);
    }
  }

  /** `final_recommendation`: the first three routes, the count, and the
      rounded average cost and risk. */
  function Summary(opt: seq<Route>, now: string): Recommendation
    reads (set r | r in opt)`totalCost, (set r | r in opt)`riskScore
    requires |opt| > 0 && AllScored(opt)
  {
    assert AllCosted(opt) && AllRisked(opt);
    Recommendation(opt[..MinInt(3, |opt|)], |opt|, Average(SumCosts(opt), |opt|), Average(SumRisks(opt), |opt|), now)
  }

  /** The summary of the optimization node: the flagged routes (at most
      three), the route count, the rounded averages and the closing message. */
  method Summarize(optimized: seq<Route>, now: string) returns (recommendation: Recommendation, message: string)
    requires |optimized| > 0 && RankedAndTimed(optimized)
    ensures recommendation == Summary(optimized, now)
    ensures message == OptimizedMessage(MinInt(3, |optimized|))
  {
    var topRoutes := Recommended(optimized);
    var n := |optimized|;
    RecommendedAfterRanking(optimized, 0);
    assert |topRoutes| == MinInt(3, n);
    recommendation := Recommendation(Take(topRoutes, 3), n, Average(SumCosts(optimized), n),
                                     Average(SumRisks(optimized), n), now);
    message := "Optimization complete. " + NatToString(|topRoutes|) + " routes recommended.";
  }

  /** `_optimization_node`: ranks the candidates with the optimizer, gives
      each a duration, and summarises: the first three routes, the count,
      and the rounded average cost and risk. A route without cost or risk
      (KeyError) or an empty candidate list (ZeroDivisionError) fails with
      the state as it was. The optimized list follows the stable score
      order `order` of the candidates. */
  method OptimizationNode(state: PlanningState, now: string) returns (ok: bool, ghost order: seq<nat>)
    requires Distinct(state.candidateRoutes)
    modifies state, state.candidateRoutes
    ensures ok <==> old(AllScored(state.candidateRoutes)) && |state.candidateRoutes| > 0
    ensures state.candidateRoutes == old(state.candidateRoutes)
    ensures !ok ==> unchanged(state) && forall r :: r in state.candidateRoutes ==> unchanged(r)
    ensures forall r :: r in state.candidateRoutes ==> r.totalCost == old(r.totalCost) && r.riskScore == old(r.riskScore)
    ensures ok ==> var opt := state.optimizedRoutes;
              && |opt| == |state.candidateRoutes| && Distinct(opt)
              && (forall r :: r in state.candidateRoutes <==> r in opt)
              && RankedAndTimed(opt)
    ensures ok ==> FollowsScoreOrder(state.candidateRoutes, state.optimizedRoutes, order)
    ensures ok ==> var opt := state.optimizedRoutes;
              && state.finalRecommendation == Some(Summary(opt, now))
              && state.processingComplete && state.currentStep == "optimization_complete"
              && state.messages == old(state.messages) + [OptimizedMessage(MinInt(3, |opt|))]
  {
    var optimizedOk, optimized;
    optimizedOk, optimized, order := RankAndTime(state.candidateRoutes);
    if !optimizedOk {
      return false, order;
    }
    ok := Conclude(state, optimized, now, order);
  }

  /** The rest of the optimization node once the optimizer succeeded: an
      empty list fails (ZeroDivisionError) with the state as it was,
      otherwise the summary is written. */
  method Conclude(state: PlanningState, optimized: seq<Route>, now: string, ghost order: seq<nat>) returns (ok: bool)
    requires |optimized| == |state.candidateRoutes| && RankedAndTimed(optimized)
    requires FollowsScoreOrder(state.candidateRoutes, optimized, order)
    modifies state
    ensures ok <==> |optimized| > 0
    ensures !ok ==> unchanged(state)
    ensures state.candidateRoutes == old(state.candidateRoutes)
    ensures ok ==> var opt := state.optimizedRoutes;
              && opt == optimized && RankedAndTimed(opt)
              && FollowsScoreOrder(state.candidateRoutes, opt, order)
              && state.finalRecommendation == Some(Summary(opt, now))
              && state.processingComplete && state.currentStep == "optimization_complete"
              && state.messages == old(state.messages) + [OptimizedMessage(MinInt(3, |opt|))]
  {
    if |optimized| == 0 {
      return false;
    }
    state.Finish(optimized, now);
    ok := true;
  }

  // ---------------------------------------------------------------------
  // The whole workflow

  /** Every route carries the cost and the risk score the cost and risk
      passes give it under the analysis `info`. */
  predicate Analysed(rs: seq<Route>, info: InformationAnalysis)
    reads (set r | r in rs)`totalCost, (set r | r in rs)`riskScore
  {
    forall r :: r in rs ==>
      && r.totalCost == Some(Round2(Estimate(r.totalDistance, r.transportMode, r.quantity, RiskMultiplier(info))))
      && r.riskScore == Some(RiskScore(r.transportMode, r.totalDistance, Disruptions(info)))
  }

  /** The cost and the risk pass in sequence. */
  method AnalyseRoutes(state: PlanningState)
    requires Distinct(state.candidateRoutes)
    modifies state, state.candidateRoutes
    ensures state.candidateRoutes == old(state.candidateRoutes)
    ensures Analysed(state.candidateRoutes, state.informationAnalysis) && AllScored(state.candidateRoutes)
    ensures state.currentStep == "risks_assessed" &&
            state.messages == old(state.messages) + [CostMessage(state.informationAnalysis), RiskMessage]
    ensures state.processingComplete == old(state.processingComplete)
  {
    CostAnalysisNode(state);
    RiskAssessmentNode(state);
    assert forall r :: r in state.candidateRoutes ==> exists k :: 0 <= k < |state.candidateRoutes| && state.candidateRoutes[k] == r;
  }

  /** The workflow of `optimize_routes`: generation, cost analysis, risk
      assessment and optimization, in that order, each appending one
      message. It fails when a forecast has no endpoints (IndexError) or
      there are no forecasts, hence no candidates (ZeroDivisionError);
      otherwise every optimized route carries its cost and risk, the routes
      are ranked, and the average risk of the recommendation lies in
      [0.2, 1.0]. The optimized routes follow the stable score order
      `order` of the candidates. */
  method RunWorkflow(state: PlanningState, dist: DistanceTool, idOf: nat -> string, now: string)
    returns (ok: bool, ghost order: seq<nat>)
    modifies state
    ensures ok <==> |state.uploadData.deviceForecasts| > 0 &&
                    forall i :: 0 <= i < |state.uploadData.deviceForecasts| ==>
                      Endpoints(state.locations, state.uploadData.deviceForecasts[i]).Some?
    ensures !ok ==> state.processingComplete == old(state.processingComplete)
    ensures ok ==> Plan(state.locations, state.uploadData.deviceForecasts, dist) == Some(Described(state.candidateRoutes))
    ensures ok ==> var opt := state.optimizedRoutes;
              && |opt| == |state.candidateRoutes| && (forall r :: r in state.candidateRoutes <==> r in opt)
              && Analysed(opt, state.informationAnalysis) && RankedAndTimed(opt)
              && state.finalRecommendation == Some(Summary(opt, now))
              && 0.2 <= state.finalRecommendation.value.averageRisk <= 1.0
    ensures ok ==> FollowsScoreOrder(state.candidateRoutes, state.optimizedRoutes, order)
    ensures ok ==> state.processingComplete && state.currentStep == "optimization_complete" &&
                   state.messages == old(state.messages) +
                     [GeneratedMessage(|state.candidateRoutes|), CostMessage(state.informationAnalysis),
                      RiskMessage, OptimizedMessage(MinInt(3, |state.candidateRoutes|))]
  {
    order := [];
    ok := RouteGenerationNode(state, dist, idOf);
    if !ok {
      return;
    }
    ghost var start, n := old(state.messages), |state.candidateRoutes|;
    ghost var m1, m2, m3 := GeneratedMessage(n), CostMessage(state.informationAnalysis), RiskMessage;
    PlanCount(state.locations, state.uploadData.deviceForecasts, dist);
    AnalyseRoutes(state);
    assert state.messages == start + [m1] + [m2, m3];
    ok, order := OptimizationNode(state, now);
    if ok {
      WorkflowRisk(state.optimizedRoutes, state.informationAnalysis);
      ghost var m4 := OptimizedMessage(MinInt(3, n));
      assert state.messages == start + [m1] + [m2, m3] + [m4];
      AppendFour(start, m1, m2, m3, m4);
    }
  }

  /** Appending one, two and one more messages appends all four. */
  lemma AppendFour<T>(s: seq<T>, a: T, b: T, c: T, d: T)
    ensures s + [a] + [b, c] + [d] == s + [a, b, c, d]
  {
  }

  /** Analysed routes have risk scores in [0.2, 1.0], so their average does too. */
  lemma WorkflowRisk(rs: seq<Route>, info: InformationAnalysis)
    requires |rs| > 0 && AllScored(rs) && Analysed(rs, info)
    ensures 0.2 <= Average(SumRisks(rs), |rs|) <= 1.0
  {
    forall k | 0 <= k < |rs|
      ensures 0.2 <= rs[k].riskScore.value <= 1.0
    {
      RiskScoreRange(rs[k].transportMode, rs[k].totalDistance, Disruptions(info));
    }
    AverageRiskRange(rs);
  }
}
