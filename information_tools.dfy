/** The information tools: the two search tools that reshape client hits,
    and the keyword risk analysis over disruption titles. */
module InformationTools {
  import opened Wrappers
  import opened Text
  import opened Seqs
  import opened Numeric
  import opened ExternalClients

  // ---------------------------------------------------------------------
  // KnowledgeSearchTool

  datatype KnowledgeHit = KnowledgeHit(content: string, relevanceScore: real, sourceType: string, region: Option<string>)

  /** The comprehension of `KnowledgeSearchTool.search`; `metadata["type"]`
      raises KeyError when a hit has no type. */
  function KnowledgeHits(results: seq<Match>, region: Option<string>): (r: Result<seq<KnowledgeHit>, string>)
    ensures r.Success? <==> forall i :: 0 <= i < |results| ==> "type" in results[i].metadata
    ensures r.Success? ==> |r.value| == |results|
    ensures r.Success? ==> forall i :: 0 <= i < |results| ==>
              r.value[i] == KnowledgeHit(results[i].text, results[i].score, results[i].metadata["type"], region)
  {
    if results == [] then Success([])
    else if "type" !in results[0].metadata then Failure("type")
    else
      match KnowledgeHits(results[1..], region)
      case Failure(e) =>
        assert forall i :: 0 <= i < |results[1..]| ==> results[1..][i] == results[i + 1];
        Failure(e)
      case Success(rest) =>
        assert forall i :: 0 < i < |results| ==> results[i] == results[1..][i - 1];
        Success([KnowledgeHit(results[0].text, results[0].score, results[0].metadata["type"], region)] + rest)
  }

  /** `KnowledgeSearchTool.search(query, region)` over the mock client. */
  function KnowledgeSearch(documents: seq<Document>, query: string, region: Option<string>): Result<seq<KnowledgeHit>, string>
  {
    KnowledgeHits(Query(documents, query, DefaultTopK), region)
  }

  // ---------------------------------------------------------------------
  // DisruptionSearchTool

  datatype Disruption = Disruption(title: string, summary: string, source: string, impactLevel: string, regionAffected: string)

  /** `region or default`: None and "" both fall back. */
  function RegionOr(region: Option<string>, default: string): (r: string)
    ensures region.Some? && region.value != "" ==> r == region.value
    ensures region.None? || region.value == "" ==> r == default
  {
    if region.Some? && region.value != "" then region.value else default
  }

  function DisruptionQuery(region: Option<string>): string
  {
    "supply chain disruption " + RegionOr(region, "") + " port airport shipping"
  }

  function ToDisruption(item: NewsItem, region: Option<string>): Disruption
  {
    Disruption(item.title, item.content, item.url, "medium", RegionOr(region, "global"))
  }

  /** `DisruptionSearchTool.search(query, region)` over the mock client. The
      tool builds its own query from the region and never reads `query`. */
  function DisruptionSearch(items: seq<NewsItem>, query: string, region: Option<string>): (r: seq<Disruption>)
    ensures |r| == |Search(items, DisruptionQuery(region))|
    ensures forall i :: 0 <= i < |r| ==> r[i].impactLevel == "medium" && r[i].regionAffected == RegionOr(region, "global")
    ensures forall i :: 0 <= i < |r| ==>
              var item := Search(items, DisruptionQuery(region))[i];
              r[i].title == item.title && r[i].summary == item.content && r[i].source == item.url
  {
    var found := Search(items, DisruptionQuery(region));
    seq(|found|, i requires 0 <= i < |found| => ToDisruption(found[i], region))
  }

  /** Without a region the disruptions are marked "global". */
  lemma DisruptionSearchGlobal(items: seq<NewsItem>, query: string)
    ensures forall d :: d in DisruptionSearch(items, query, None) ==> d.regionAffected == "global"
    ensures DisruptionSearch(items, query, None) == DisruptionSearch(items, query, Some(""))
  {
  }

  // ---------------------------------------------------------------------
  // RiskAnalysisTool

  datatype RiskFactor = RiskFactor(kind: string, severity: string, source: string)

  datatype RiskAssessment = RiskAssessment(
    overallRisk: string,
    riskFactors: seq<RiskFactor>,
    keyConcerns: seq<string>,
    recommendations: seq<string>)

  const GeopoliticalTerms: seq<string> := ["war", "conflict", "blockade"]
  const LogisticsTerms: seq<string> := ["port", "delay", "closure"]
  const EnvironmentalTerms: seq<string> := ["weather", "storm"]

  /** `any(term in text for term in terms)`. */
  predicate MentionsAny(text: string, terms: seq<string>)
  {
    exists t :: t in terms && Contains(text, t)
  }

  /** The factor kind of a classified title: the first keyword group that
      matches, in the order geopolitical, logistics, environmental. */
  function KindOf(text: string): string
  {
    if MentionsAny(text, GeopoliticalTerms) then "geopolitical"
    else if MentionsAny(text, LogisticsTerms) then "logistics"
    else "environmental"
  }

  /** The factor one disruption title yields: the first keyword group that
      matches the lower-cased title decides, and no match yields none. */
  function Classify(title: string): (r: Option<RiskFactor>)
    ensures r.Some? <==> MentionsAny(Lower(title), GeopoliticalTerms + LogisticsTerms + EnvironmentalTerms)
    ensures r.Some? ==> r.value.source == title
    ensures r.Some? ==> (r.value.severity == "high" <==> MentionsAny(Lower(title), GeopoliticalTerms))
    ensures r.Some? ==> r.value.severity in {"high", "medium"}
    ensures r.Some? ==> r.value.kind == KindOf(Lower(title))
  {
    var t := Lower(title);
    if MentionsAny(t, GeopoliticalTerms) then Some(RiskFactor("geopolitical", "high", title))
    else if MentionsAny(t, LogisticsTerms) then Some(RiskFactor("logistics", "medium", title))
    else if MentionsAny(t, EnvironmentalTerms) then Some(RiskFactor("environmental", "medium", title))
    else None
  }

  /** The factors the analysis loop collects, one per classified disruption
      in input order. */
  function Factors(ds: seq<Disruption>): (fs: seq<RiskFactor>)
    ensures |fs| <= |ds|
    ensures forall i :: 0 <= i < |fs| ==> fs[i].severity in {"high", "medium"}
  {
    if ds == [] then []
    else
      var last := ds[|ds| - 1];
      Factors(ds[..|ds| - 1]) + (match Classify(last.title) case Some(f) => [f] case None => [])
  }

  /** Factors of a concatenation are the concatenation of the factors: each
      disruption contributes on its own and the order is kept. */
  lemma {:induction false} FactorsAppend(a: seq<Disruption>, b: seq<Disruption>)
    ensures Factors(a + b) == Factors(a) + Factors(b)
    decreases |b|
  {
    if b != [] {
      var b' := b[..|b| - 1];
      assert (a + b)[..|a + b| - 1] == a + b';
      assert (a + b)[|a + b| - 1] == b[|b| - 1];
      FactorsAppend(a, b');
    } else {
      assert a + b == a;
    }
  }

  /** Every factor names a disruption's title as its source. */
  lemma {:induction false} FactorSources(ds: seq<Disruption>)
    ensures forall f :: f in Factors(ds) ==> exists d :: d in ds && Classify(d.title) == Some(f) && f.source == d.title
  {
    if ds != [] {
      var front := ds[..|ds| - 1];
      FactorSources(front);
      forall f | f in Factors(ds) ensures exists d :: d in ds && Classify(d.title) == Some(f) && f.source == d.title {
        if f in Factors(front) {
          var d :| d in front && Classify(d.title) == Some(f) && f.source == d.title;
          assert d in ds;
        } else {
          assert ds[|ds| - 1] in ds;
        }
      }
    }
  }

  function CountSeverity(fs: seq<RiskFactor>, severity: string): (n: nat)
    ensures n <= |fs|
    ensures n > 0 <==> exists i :: 0 <= i < |fs| && fs[i].severity == severity
  {
    if fs == [] then 0
    else
      var rest := CountSeverity(fs[1..], severity);
      assert forall i :: 0 < i < |fs| ==> fs[i] == fs[1..][i - 1];
      (if fs[0].severity == severity then 1 else 0) + rest
  }

  /** The threshold rule: any high factor makes the risk high, otherwise
      more than one medium factor makes it medium, otherwise it is low. */
  function OverallRisk(fs: seq<RiskFactor>): (r: string)
    ensures r == "high" <==> exists i :: 0 <= i < |fs| && fs[i].severity == "high"
    ensures r == "medium" <==> CountSeverity(fs, "high") == 0 && CountSeverity(fs, "medium") > 1
    ensures r in {"high", "medium", "low"}
  {
    if CountSeverity(fs, "high") > 0 then "high"
    else if CountSeverity(fs, "medium") > 1 then "medium"
    else "low"
  }

  /** A single medium factor and no high one gives "low". */
  lemma SingleMediumIsLow(f: RiskFactor)
    requires f.severity == "medium"
    ensures OverallRisk([f]) == "low"
  {
    assert CountSeverity([f], "medium") == 1;
  }

  function Sources(fs: seq<RiskFactor>): (r: seq<string>)
    ensures |r| == |fs|
    ensures forall i :: 0 <= i < |fs| ==> r[i] == fs[i].source
  {
    seq(|fs|, i requires 0 <= i < |fs| => fs[i].source)
  }

  /** The classification loop of `analyze`: one risk factor per disruption
      whose lower-cased title mentions a term, in input order. */
  method ClassifyDisruptions(disruptionData: seq<Disruption>) returns (riskFactors: seq<RiskFactor>)
    ensures riskFactors == Factors(disruptionData)
  {
    riskFactors := [];
    var i := 0;
    while i < |disruptionData|
      invariant 0 <= i <= |disruptionData|
      invariant riskFactors == Factors(disruptionData[..i])
    {
      var disruption := disruptionData[i];
      var title := Lower(disruption.title);
      if MentionsAny(title, GeopoliticalTerms) {
        riskFactors := riskFactors + [RiskFactor("geopolitical", "high", disruption.title)];
      } else if MentionsAny(title, LogisticsTerms) {
        riskFactors := riskFactors + [RiskFactor("logistics", "medium", disruption.title)];
      } else if MentionsAny(title, EnvironmentalTerms) {
        riskFactors := riskFactors + [RiskFactor("environmental", "medium", disruption.title)];
      }
      assert disruptionData[..i + 1][..i] == disruptionData[..i];
      i := i + 1;
    }
    assert disruptionData[..i] == disruptionData;
  }

  /** `RiskAnalysisTool.analyze`. `domainKnowledge` is accepted and not read. */
  method Analyze(domainKnowledge: seq<KnowledgeHit>, disruptionData: seq<Disruption>) returns (r: RiskAssessment)
    ensures r.riskFactors == Factors(disruptionData)
    ensures r.overallRisk == OverallRisk(r.riskFactors)
    ensures r.keyConcerns == Sources(r.riskFactors[..MinInt(3, |r.riskFactors|)])
    ensures |r.recommendations| == 3
    ensures r.recommendations[0] == if r.overallRisk != "low" then "Consider alternative routes" else "Proceed with standard routing"
    ensures r.recommendations[1] == if CountSeverity(r.riskFactors, "medium") > 0 then "Build buffer time" else "Standard timing acceptable"
    ensures r.recommendations[2] == if CountSeverity(r.riskFactors, "high") > 0 then "Monitor situation closely" else "Regular monitoring sufficient"
  {
    var riskFactors := ClassifyDisruptions(disruptionData);
    var highRisks := CountSeverity(riskFactors, "high");
    var mediumRisks := CountSeverity(riskFactors, "medium");
    var overallRisk;
    if highRisks > 0 {
      overallRisk := "high";
    } else if mediumRisks > 1 {
      overallRisk := "medium";
    } else {
      overallRisk := "low";
    }

    r := RiskAssessment(
      overallRisk,
      riskFactors,
      Sources(riskFactors[..MinInt(3, |riskFactors|)]),
      [ if overallRisk != "low" then "Consider alternative routes" else "Proceed with standard routing",
        if mediumRisks > 0 then "Build buffer time" else "Standard timing acceptable",
        if highRisks > 0 then "Monitor situation closely" else "Regular monitoring sufficient" ]);
  }
}
