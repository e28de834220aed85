/** The GEO (generative-engine optimisation) workflow: scrape the AI Overview for every target
    keyword, collect the competitor snippets, evaluate the bank's own content, then take exactly
    one of three optimisation branches chosen from the evaluation's average inclusion score, and
    finally predict the chance of inclusion. */
module GeoOptimization {
  import opened Wrappers
  import opened Errors
  import opened JsonValues
  import opened Graph

  datatype GeoStage =
    | ScrapeAiOverview
    | AnalyzeCompetitors
    | EvaluateIngContent
    | MonitorOnly
    | TargetedOptimization
    | ComprehensiveRewrite
    | PredictInclusion

  /** The workflow state; a key that was never written is `None`. `aiOverviewData` is a dict
      from keyword to AI Overview block, kept in insertion order. */
  datatype GeoState = GeoState(
    targetKeywords: Option<seq<string>>,
    aiOverviewData: Option<seq<(string, Json)>>,
    competitorSnippets: Option<seq<Json>>,
    ingContentAnalysis: Option<Json>,
    optimizationStrategy: Option<string>,
    optimizedContent: Option<Json>,
    inclusionPredictions: Option<Json>,
    timestamp: Option<string>)

  /** The collaborators the stages call (SERP scraping, snippet extraction, the LLM-backed
      evaluator and optimiser); each may raise. */
  datatype GeoAgents = GeoAgents(
    scrapeSerp: string -> Result<Json, Error>,
    extractSnippets: Json -> Result<seq<Json>, Error>,
    evaluateContent: (seq<string>, seq<Json>) -> Result<Json, Error>,
    targetedOptimize: (Json, seq<Json>) -> Result<Json, Error>,
    comprehensiveRewrite: (seq<string>, seq<Json>, Json) -> Result<Json, Error>,
    predictInclusion: (Json, seq<Json>, seq<string>) -> Result<Json, Error>)

  // ---------------------------------------------------------------------------------------
  // Insertion-ordered dicts
  // ---------------------------------------------------------------------------------------

  function Keys(d: seq<(string, Json)>): (ks: seq<string>)
    ensures |ks| == |d| && forall j :: 0 <= j < |d| ==> ks[j] == d[j].0
  {
    seq(|d|, j requires 0 <= j < |d| => d[j].0)
  }

  ghost predicate UniqueKeys(d: seq<(string, Json)>) {
    forall i, j :: 0 <= i < j < |d| ==> d[i].0 != d[j].0
  }

  /** Where `key` sits in `d`, or `|d|` when it is absent. */
  function IndexOf(d: seq<(string, Json)>, key: string): (i: nat)
    ensures i <= |d|
    ensures i < |d| ==> d[i].0 == key
    ensures forall j :: 0 <= j < i ==> d[j].0 != key
  {
    if |d| == 0 || d[0].0 == key then 0 else 1 + IndexOf(d[1..], key)
  }

  /** In a dict with unique keys, `Lookup` finds each key's one entry. */
  lemma LookupUnique(d: seq<(string, Json)>, i: nat)
    requires UniqueKeys(d) && i < |d|
    ensures Lookup(d, d[i].0) == Some(d[i].1)
  {
  }

  /** `d[key] = value`: an existing key keeps its place and takes the new value; a new key goes
      last. */
  function Put(d: seq<(string, Json)>, key: string, value: Json): (r: seq<(string, Json)>)
    requires UniqueKeys(d)
    ensures UniqueKeys(r)
    ensures Lookup(r, key) == Some(value)
    ensures forall k :: k != key ==> Lookup(r, k) == Lookup(d, k)
    ensures key in Keys(d) ==> Keys(r) == Keys(d)
    ensures key !in Keys(d) ==> Keys(r) == Keys(d) + [key]
  {
    var i := IndexOf(d, key);
    var r := if i < |d| then d[i := (key, value)] else d + [(key, value)];
    PutAt(d, key, value, i, r);
    r
  }

  /** Writing `(key, value)` at `key`'s index, or appending it when the key is new. */
  lemma PutAt(d: seq<(string, Json)>, key: string, value: Json, i: nat, r: seq<(string, Json)>)
    requires UniqueKeys(d) && i == IndexOf(d, key)
    requires r == if i < |d| then d[i := (key, value)] else d + [(key, value)]
    ensures UniqueKeys(r)
    ensures Lookup(r, key) == Some(value)
    ensures forall k :: k != key ==> Lookup(r, k) == Lookup(d, k)
    ensures key in Keys(d) ==> Keys(r) == Keys(d)
    ensures key !in Keys(d) ==> Keys(r) == Keys(d) + [key]
  {
    if i < |d| {
      assert Keys(d)[i] == key;
      PutReplace(d, key, value, i);
    } else {
      PutAppend(d, key, value);
    }
  }

  lemma PutReplace(d: seq<(string, Json)>, key: string, value: Json, i: nat)
    requires UniqueKeys(d) && i < |d| && d[i].0 == key
    ensures var r := d[i := (key, value)];
      && UniqueKeys(r)
      && Lookup(r, key) == Some(value)
      && (forall k :: k != key ==> Lookup(r, k) == Lookup(d, k))
      && Keys(r) == Keys(d)
  {
    var r := d[i := (key, value)];
    assert forall j :: 0 <= j < |r| ==> r[j].0 == d[j].0;
    assert UniqueKeys(r);
    LookupUnique(r, i);
    forall k | k != key
      ensures Lookup(r, k) == Lookup(d, k)
    {
      if exists j :: 0 <= j < |d| && d[j].0 == k {
        var j :| 0 <= j < |d| && d[j].0 == k;
        assert r[j] == d[j];
        LookupUnique(r, j);
        LookupUnique(d, j);
      }
    }
  }

  lemma PutAppend(d: seq<(string, Json)>, key: string, value: Json)
    requires UniqueKeys(d) && forall j :: 0 <= j < |d| ==> d[j].0 != key
    ensures var r := d + [(key, value)];
      && UniqueKeys(r)
      && Lookup(r, key) == Some(value)
      && (forall k :: k != key ==> Lookup(r, k) == Lookup(d, k))
      && key !in Keys(d)
      && Keys(r) == Keys(d) + [key]
  {
    var r := d + [(key, value)];
    assert r[..|r| - 1] == d;
  }

  /** The distinct elements of `s`, each where it first occurs. */
  function Dedup(s: seq<string>): (r: seq<string>)
    ensures forall x :: x in r <==> x in s
    ensures forall i, j :: 0 <= i < j < |r| ==> r[i] != r[j]
  {
    if |s| == 0 then []
    else
      var p := Dedup(s[..|s| - 1]);
      assert s == s[..|s| - 1] + [s[|s| - 1]];
      if s[|s| - 1] in p then p else p + [s[|s| - 1]]
  }

  // ---------------------------------------------------------------------------------------
  // scrape_ai_overview
  // ---------------------------------------------------------------------------------------

  /** `serp_data.get("ai_overview", {})` for one keyword's scrape. */
  function AiOverview(scrapeSerp: string -> Result<Json, Error>, keyword: string): (r: Result<Json, Error>)
    ensures scrapeSerp(keyword).Failure? ==> r == Failure(scrapeSerp(keyword).error)
    ensures scrapeSerp(keyword).Success? ==> r == Get(scrapeSerp(keyword).value, "ai_overview", JObject([]))
    ensures r.Success? <==> scrapeSerp(keyword).Success? && scrapeSerp(keyword).value.JObject?
  {
    var serp :- scrapeSerp(keyword);
    Get(serp, "ai_overview", JObject([]))
  }

  ghost predicate AllScraped(keywords: seq<string>, scrapeSerp: string -> Result<Json, Error>) {
    forall i :: 0 <= i < |keywords| ==> AiOverview(scrapeSerp, keywords[i]).Success?
  }

  /** `e` is what the first keyword whose scrape failed raised. */
  ghost predicate FirstFailure(keywords: seq<string>, scrapeSerp: string -> Result<Json, Error>, e: Error) {
    exists i :: 0 <= i < |keywords| && AiOverview(scrapeSerp, keywords[i]) == Failure(e)
                && AllScraped(keywords[..i], scrapeSerp)
  }

  /** `d` is the dict the loop builds: one entry per distinct keyword, in first-occurrence order,
      holding that keyword's AI Overview. */
  ghost predicate Scraped(keywords: seq<string>, scrapeSerp: string -> Result<Json, Error>, d: seq<(string, Json)>) {
    && UniqueKeys(d)
    && Keys(d) == Dedup(keywords)
    && AllScraped(keywords, scrapeSerp)
    && forall i :: 0 <= i < |keywords| ==> Lookup(d, keywords[i]) == Some(AiOverview(scrapeSerp, keywords[i]).value)
  }

  /** The scraping loop; the first keyword whose scrape fails stops it. */
  function ScrapeAll(keywords: seq<string>, scrapeSerp: string -> Result<Json, Error>): (r: Result<seq<(string, Json)>, Error>)
    ensures r.Success? <==> AllScraped(keywords, scrapeSerp)
    ensures r.Failure? ==> FirstFailure(keywords, scrapeSerp, r.error)
    ensures r.Success? ==> Scraped(keywords, scrapeSerp, r.value)
  {
    if |keywords| == 0 then Success([])
    else
      var front := keywords[..|keywords| - 1];
      var k := keywords[|keywords| - 1];
      assert keywords == front + [k];
      match ScrapeAll(front, scrapeSerp)
      case Failure(e) =>
        FailureCarries(front, k, scrapeSerp, e);
        Failure(e)
      case Success(d) =>
        match AiOverview(scrapeSerp, k)
        case Failure(e) =>
          assert keywords[..|front|] == front;
          Failure(e)
        case Success(v) =>
          ScrapeStep(front, k, scrapeSerp, d, v);
          Success(Put(d, k, v))
  }

  lemma FailureCarries(front: seq<string>, k: string, scrapeSerp: string -> Result<Json, Error>, e: Error)
    requires FirstFailure(front, scrapeSerp, e)
    ensures FirstFailure(front + [k], scrapeSerp, e)
    ensures !AllScraped(front + [k], scrapeSerp)
  {
    var i :| 0 <= i < |front| && AiOverview(scrapeSerp, front[i]) == Failure(e) && AllScraped(front[..i], scrapeSerp);
    assert (front + [k])[..i] == front[..i];
    assert (front + [k])[i] == front[i];
  }

  lemma ScrapeStep(front: seq<string>, k: string, scrapeSerp: string -> Result<Json, Error>, d: seq<(string, Json)>, v: Json)
    requires Scraped(front, scrapeSerp, d)
    requires AiOverview(scrapeSerp, k) == Success(v)
    ensures Scraped(front + [k], scrapeSerp, Put(d, k, v))
  {
    PutKeys(front, k, d, v);
    ScrapedSnoc(front, k, scrapeSerp);
    LookupsSnoc(front, k, scrapeSerp, d, v);
  }

  lemma PutKeys(front: seq<string>, k: string, d: seq<(string, Json)>, v: Json)
    requires UniqueKeys(d) && Keys(d) == Dedup(front)
    ensures Keys(Put(d, k, v)) == Dedup(front + [k])
  {
    DedupSnoc(front, k);
  }

  lemma ScrapedSnoc(front: seq<string>, k: string, scrapeSerp: string -> Result<Json, Error>)
    requires AllScraped(front, scrapeSerp) && AiOverview(scrapeSerp, k).Success?
    ensures AllScraped(front + [k], scrapeSerp)
  {
    var ks := front + [k];
    forall i | 0 <= i < |ks|
      ensures AiOverview(scrapeSerp, ks[i]).Success?
    {
      if i < |front| {
        assert ks[i] == front[i];
      }
    }
  }

  lemma LookupsSnoc(front: seq<string>, k: string, scrapeSerp: string -> Result<Json, Error>, d: seq<(string, Json)>, v: Json)
    requires UniqueKeys(d) && AllScraped(front, scrapeSerp)
    requires forall i :: 0 <= i < |front| ==> Lookup(d, front[i]) == Some(AiOverview(scrapeSerp, front[i]).value)
    requires AiOverview(scrapeSerp, k) == Success(v)
    ensures var ks, r := front + [k], Put(d, k, v);
      forall i :: 0 <= i < |ks| ==> Lookup(r, ks[i]) == Some(AiOverview(scrapeSerp, ks[i]).value)
  {
    var ks, r := front + [k], Put(d, k, v);
    forall i | 0 <= i < |ks|
      ensures Lookup(r, ks[i]) == Some(AiOverview(scrapeSerp, ks[i]).value)
    {
      if i < |front| {
        assert ks[i] == front[i];
      }
    }
  }

  lemma DedupSnoc(front: seq<string>, k: string)
    ensures Dedup(front + [k]) == if k in Dedup(front) then Dedup(front) else Dedup(front) + [k]
  {
    assert (front + [k])[..|front|] == front;
  }

  function Scrape(agents: GeoAgents, s: GeoState): (r: Result<GeoState, Error>)
    ensures s.targetKeywords.None? ==> r == Failure(KeyError("target_keywords"))
    ensures s.targetKeywords.Some? ==>
      var data := ScrapeAll(s.targetKeywords.value, agents.scrapeSerp);
      && (r.Success? <==> data.Success?)
      && (r.Failure? ==> r.error == data.error)
      && (r.Success? ==> r.value.aiOverviewData == Some(data.value))
    ensures r.Success? ==> r.value == s.(aiOverviewData := r.value.aiOverviewData)
    ensures r.Success? ==>
      && r.value.aiOverviewData.Some? && s.targetKeywords.Some?
      && forall k :: k in Keys(r.value.aiOverviewData.value) <==> k in s.targetKeywords.value
  {
    if s.targetKeywords.None? then Failure(KeyError("target_keywords"))
    else
      var data :- ScrapeAll(s.targetKeywords.value, agents.scrapeSerp);
      Success(s.(aiOverviewData := Some(data)))
  }

  // ---------------------------------------------------------------------------------------
  // analyze_competitors
  // ---------------------------------------------------------------------------------------

  /** The lists of `lists`, one after another. */
  function Flatten(lists: seq<seq<Json>>): seq<Json> {
    if |lists| == 0 then [] else lists[0] + Flatten(lists[1..])
  }

  lemma {:induction false} FlattenSnoc(lists: seq<seq<Json>>, l: seq<Json>)
    ensures Flatten(lists + [l]) == Flatten(lists) + l
  {
    if |lists| == 0 {
      assert lists + [l] == [l];
      assert Flatten([l]) == l + Flatten([]);
    } else {
      assert (lists + [l])[1..] == lists[1..] + [l];
      FlattenSnoc(lists[1..], l);
    }
  }

  /** One keyword's snippet list, or nothing when its extraction raised. */
  function SnippetsOf(extract: Json -> Result<seq<Json>, Error>, ai: Json): seq<Json> {
    match extract(ai)
    case Success(v) => v
    case Failure(_) => []
  }

  /** The per-keyword snippet lists, in dict order. */
  function PerKeyword(data: seq<(string, Json)>, extract: Json -> Result<seq<Json>, Error>): seq<seq<Json>> {
    seq(|data|, j requires 0 <= j < |data| => SnippetsOf(extract, data[j].1))
  }

  /** The snippet loop: the per-keyword lists concatenated in the dict's iteration order; the
      first extraction that raises stops it. */
  function CollectSnippets(data: seq<(string, Json)>, extract: Json -> Result<seq<Json>, Error>): (r: Result<seq<Json>, Error>)
    ensures r.Success? <==> forall j :: 0 <= j < |data| ==> extract(data[j].1).Success?
    ensures r.Failure? ==> exists j :: 0 <= j < |data| && extract(data[j].1) == Failure(r.error)
    ensures r.Success? ==> r.value == Flatten(PerKeyword(data, extract))
  {
    if |data| == 0 then Success([])
    else
      var front := data[..|data| - 1];
      var snippets :- CollectSnippets(front, extract);
      var more :- extract(data[|data| - 1].1);
      assert PerKeyword(data, extract) == PerKeyword(front, extract) + [more];
      FlattenSnoc(PerKeyword(front, extract), more);
      Success(snippets + more)
  }

  function AnalyzeSnippets(agents: GeoAgents, s: GeoState): (r: Result<GeoState, Error>)
    ensures s.aiOverviewData.None? ==> r == Failure(KeyError("ai_overview_data"))
    ensures s.aiOverviewData.Some? ==>
      var c := CollectSnippets(s.aiOverviewData.value, agents.extractSnippets);
      && (r.Success? <==> c.Success?)
      && (r.Failure? ==> r.error == c.error)
    ensures r.Success? ==> r.value == s.(competitorSnippets := r.value.competitorSnippets)
    ensures r.Success? ==>
      && s.aiOverviewData.Some?
      && r.value.competitorSnippets == Some(Flatten(PerKeyword(s.aiOverviewData.value, agents.extractSnippets)))
  {
    if s.aiOverviewData.None? then Failure(KeyError("ai_overview_data"))
    else
      var snippets :- CollectSnippets(s.aiOverviewData.value, agents.extractSnippets);
      Success(s.(competitorSnippets := Some(snippets)))
  }

  // ---------------------------------------------------------------------------------------
  // evaluate_ing_content and the router
  // ---------------------------------------------------------------------------------------

  function Evaluate(agents: GeoAgents, s: GeoState): (r: Result<GeoState, Error>)
    ensures s.targetKeywords.None? ==> r == Failure(KeyError("target_keywords"))
    ensures s.targetKeywords.Some? && s.competitorSnippets.None? ==> r == Failure(KeyError("competitor_snippets"))
    ensures s.targetKeywords.Some? && s.competitorSnippets.Some? ==>
      var answer := agents.evaluateContent(s.targetKeywords.value, s.competitorSnippets.value);
      && (r.Success? <==> answer.Success?)
      && (r.Failure? ==> r.error == answer.error)
      && (r.Success? ==> r.value.ingContentAnalysis == Some(answer.value))
    ensures r.Success? ==> r.value == s.(ingContentAnalysis := r.value.ingContentAnalysis) && r.value.ingContentAnalysis.Some?
  {
    if s.targetKeywords.None? then Failure(KeyError("target_keywords"))
    else if s.competitorSnippets.None? then Failure(KeyError("competitor_snippets"))
    else
      var analysis :- agents.evaluateContent(s.targetKeywords.value, s.competitorSnippets.value);
      Success(s.(ingContentAnalysis := Some(analysis)))
  }

  const WinningFrom: real := 85.0
  const MinorFrom: real := 60.0

  /** The three routing labels, each band's lower bound inclusive. */
  function Band(score: real): (name: string)
    ensures name == "already_winning" <==> score >= WinningFrom
    ensures name == "minor_optimization" <==> MinorFrom <= score < WinningFrom
    ensures name == "major_optimization" <==> score < MinorFrom
  {
    if score >= WinningFrom then "already_winning"
    else if score >= MinorFrom then "minor_optimization"
    else "major_optimization"
  }

  /** The average inclusion score of an analysis as the router compares it with 85 and 60: a
      missing key reads as 0, a JSON boolean compares as 0 or 1, and any other non-number
      cannot be ordered against an int. */
  function Score(analysis: Json): (r: Result<real, Error>)
    ensures !analysis.JObject? ==> r == Failure(AttributeError("get"))
    ensures analysis.JObject? && Lookup(analysis.fields, "average_inclusion_score").None? ==> r == Success(0.0)
    ensures analysis.JObject? && Lookup(analysis.fields, "average_inclusion_score").Some? ==>
      var v := Lookup(analysis.fields, "average_inclusion_score").value;
      && (v.JNumber? ==> r == Success(v.n))
      && (v.JBool? ==> r == Success(if v.b then 1.0 else 0.0))
      && (!v.JNumber? && !v.JBool? ==> r == Failure(TypeError))
  {
    var v :- Get(analysis, "average_inclusion_score", JNumber(0.0));
    match v
    case JNumber(n) => Success(n)
    case JBool(b) => Success(if b then 1.0 else 0.0)
    case _ => Failure(TypeError)
  }

  /** `_determine_optimization_strategy`. */
  function Router(s: GeoState): (r: Result<string, Error>)
    ensures s.ingContentAnalysis.None? ==> r == Failure(KeyError("ing_content_analysis"))
    ensures s.ingContentAnalysis.Some? ==>
      var score := Score(s.ingContentAnalysis.value);
      && (r.Success? <==> score.Success?)
      && (r.Failure? ==> r.error == score.error)
    ensures r.Success? ==> r.value in GeoRoutes
    ensures r.Success? ==>
      && s.ingContentAnalysis.Some? && Score(s.ingContentAnalysis.value).Success?
      && r.value == Band(Score(s.ingContentAnalysis.value).value)
  {
    if s.ingContentAnalysis.None? then Failure(KeyError("ing_content_analysis"))
    else
      var score :- Score(s.ingContentAnalysis.value);
      Success(Band(score))
  }

  const GeoRoutes: map<string, Target<GeoStage>> := map[
    "already_winning" := Stage(MonitorOnly),
    "minor_optimization" := Stage(TargetedOptimization),
    "major_optimization" := Stage(ComprehensiveRewrite)]

  /** The boundaries: 85 and 60 belong to the band above them. */
  lemma BandBoundaries()
    ensures Band(85.0) == "already_winning"
    ensures Band(84.999) == "minor_optimization"
    ensures Band(60.0) == "minor_optimization"
    ensures Band(59.999) == "major_optimization"
    ensures Band(0.0) == "major_optimization"
  {
  }

  /** A missing score routes to the major rewrite. */
  lemma MissingScoreIsMajor(fields: seq<(string, Json)>)
    requires Lookup(fields, "average_inclusion_score").None?
    ensures Router(GeoState(None, None, None, Some(JObject(fields)), None, None, None, None)) == Success("major_optimization")
  {
  }

  /** A higher score never routes to a heavier optimisation. */
  lemma BandMonotone(a: real, b: real)
    requires a <= b
    ensures Band(a) == "already_winning" ==> Band(b) == "already_winning"
    ensures Band(b) == "major_optimization" ==> Band(a) == "major_optimization"
  {
  }

  /** The three labels lead to three different branch stages, and to nothing else. */
  lemma RoutesAreBranches()
    ensures |GeoRoutes.Keys| == 3
    ensures forall l :: l in GeoRoutes ==> GeoRoutes[l].Stage? && IsBranch(GeoRoutes[l].name)
    ensures forall l, m :: l in GeoRoutes && m in GeoRoutes && l != m ==> GeoRoutes[l] != GeoRoutes[m]
  {
    assert GeoRoutes.Keys == {"already_winning", "minor_optimization", "major_optimization"};
  }

  // ---------------------------------------------------------------------------------------
  // The branch stages and the prediction
  // ---------------------------------------------------------------------------------------

  predicate IsBranch(n: GeoStage) {
    n == MonitorOnly || n == TargetedOptimization || n == ComprehensiveRewrite
  }

  /** The strategy name each branch stage records. */
  function StrategyOf(n: GeoStage): string
    requires IsBranch(n)
  {
    match n
    case MonitorOnly => "monitor"
    case TargetedOptimization => "targeted"
    case ComprehensiveRewrite => "comprehensive"
  }

  const NoChangesNeeded: Json := JObject([("status", JString("no_changes_needed"))])

  function Monitor(s: GeoState): (r: GeoState)
    ensures r.optimizationStrategy == Some(StrategyOf(MonitorOnly))
    ensures r.optimizedContent == Some(NoChangesNeeded)
    ensures r == s.(optimizationStrategy := r.optimizationStrategy, optimizedContent := r.optimizedContent)
  {
    s.(optimizationStrategy := Some("monitor"), optimizedContent := Some(NoChangesNeeded))
  }

  function Targeted(agents: GeoAgents, s: GeoState): (r: Result<GeoState, Error>)
    ensures s.ingContentAnalysis.None? ==> r == Failure(KeyError("ing_content_analysis"))
    ensures s.ingContentAnalysis.Some? && s.competitorSnippets.None? ==> r == Failure(KeyError("competitor_snippets"))
    ensures s.ingContentAnalysis.Some? && s.competitorSnippets.Some? ==>
      var answer := agents.targetedOptimize(s.ingContentAnalysis.value, s.competitorSnippets.value);
      && (r.Success? <==> answer.Success?)
      && (r.Failure? ==> r.error == answer.error)
      && (r.Success? ==> r.value.optimizedContent == Some(answer.value))
    ensures r.Success? ==> r.value == s.(optimizedContent := r.value.optimizedContent, optimizationStrategy := Some(StrategyOf(TargetedOptimization)))
    ensures r.Success? ==> r.value.optimizedContent.Some?
  {
    if s.ingContentAnalysis.None? then Failure(KeyError("ing_content_analysis"))
    else if s.competitorSnippets.None? then Failure(KeyError("competitor_snippets"))
    else
      var optimized :- agents.targetedOptimize(s.ingContentAnalysis.value, s.competitorSnippets.value);
      Success(s.(optimizedContent := Some(optimized), optimizationStrategy := Some("targeted")))
  }

  function Rewrite(agents: GeoAgents, s: GeoState): (r: Result<GeoState, Error>)
    ensures s.targetKeywords.None? ==> r == Failure(KeyError("target_keywords"))
    ensures s.targetKeywords.Some? && s.competitorSnippets.None? ==> r == Failure(KeyError("competitor_snippets"))
    ensures s.targetKeywords.Some? && s.competitorSnippets.Some? && s.ingContentAnalysis.None? ==>
      r == Failure(KeyError("ing_content_analysis"))
    ensures s.targetKeywords.Some? && s.competitorSnippets.Some? && s.ingContentAnalysis.Some? ==>
      var answer := agents.comprehensiveRewrite(s.targetKeywords.value, s.competitorSnippets.value, s.ingContentAnalysis.value);
      && (r.Success? <==> answer.Success?)
      && (r.Failure? ==> r.error == answer.error)
      && (r.Success? ==> r.value.optimizedContent == Some(answer.value))
    ensures r.Success? ==> r.value == s.(optimizedContent := r.value.optimizedContent, optimizationStrategy := Some(StrategyOf(ComprehensiveRewrite)))
    ensures r.Success? ==> r.value.optimizedContent.Some?
  {
    if s.targetKeywords.None? then Failure(KeyError("target_keywords"))
    else if s.competitorSnippets.None? then Failure(KeyError("competitor_snippets"))
    else if s.ingContentAnalysis.None? then Failure(KeyError("ing_content_analysis"))
    else
      var optimized :- agents.comprehensiveRewrite(s.targetKeywords.value, s.competitorSnippets.value, s.ingContentAnalysis.value);
      Success(s.(optimizedContent := Some(optimized), optimizationStrategy := Some("comprehensive")))
  }

  function Predict(agents: GeoAgents, s: GeoState): (r: Result<GeoState, Error>)
    ensures s.optimizedContent.None? ==> r == Failure(KeyError("optimized_content"))
    ensures s.optimizedContent.Some? && s.competitorSnippets.None? ==> r == Failure(KeyError("competitor_snippets"))
    ensures s.optimizedContent.Some? && s.competitorSnippets.Some? && s.targetKeywords.None? ==>
      r == Failure(KeyError("target_keywords"))
    ensures s.optimizedContent.Some? && s.competitorSnippets.Some? && s.targetKeywords.Some? ==>
      var answer := agents.predictInclusion(s.optimizedContent.value, s.competitorSnippets.value, s.targetKeywords.value);
      && (r.Success? <==> answer.Success?)
      && (r.Failure? ==> r.error == answer.error)
      && (r.Success? ==> r.value.inclusionPredictions == Some(answer.value))
    ensures r.Success? ==> r.value == s.(inclusionPredictions := r.value.inclusionPredictions) && r.value.inclusionPredictions.Some?
  {
    if s.optimizedContent.None? then Failure(KeyError("optimized_content"))
    else if s.competitorSnippets.None? then Failure(KeyError("competitor_snippets"))
    else if s.targetKeywords.None? then Failure(KeyError("target_keywords"))
    else
      var predictions :- agents.predictInclusion(s.optimizedContent.value, s.competitorSnippets.value, s.targetKeywords.value);
      Success(s.(inclusionPredictions := Some(predictions)))
  }

  // ---------------------------------------------------------------------------------------
  // The graph
  // ---------------------------------------------------------------------------------------

  function GeoStep(agents: GeoAgents, n: GeoStage, s: GeoState): Result<GeoState, Error> {
    match n
    case ScrapeAiOverview => Scrape(agents, s)
    case AnalyzeCompetitors => AnalyzeSnippets(agents, s)
    case EvaluateIngContent => Evaluate(agents, s)
    case MonitorOnly => Success(Monitor(s))
    case TargetedOptimization => Targeted(agents, s)
    case ComprehensiveRewrite => Rewrite(agents, s)
    case PredictInclusion => Predict(agents, s)
  }

  function GeoEdges(n: GeoStage): Edge<GeoStage, GeoState> {
    match n
    case ScrapeAiOverview => Always(Stage(AnalyzeCompetitors))
    case AnalyzeCompetitors => Always(Stage(EvaluateIngContent))
    case EvaluateIngContent => Branch(Router, GeoRoutes)
    case MonitorOnly => Always(Stage(PredictInclusion))
    case TargetedOptimization => Always(Stage(PredictInclusion))
    case ComprehensiveRewrite => Always(Stage(PredictInclusion))
    case PredictInclusion => Always(End)
  }

  function GeoGraph(agents: GeoAgents): Graph<GeoStage, GeoState> {
    Graph(ScrapeAiOverview, (n, s) => GeoStep(agents, n, s), GeoEdges)
  }

  function GeoRank(n: GeoStage): nat {
    match n
    case ScrapeAiOverview => 0
    case AnalyzeCompetitors => 1
    case EvaluateIngContent => 2
    case MonitorOnly => 3
    case TargetedOptimization => 3
    case ComprehensiveRewrite => 3
    case PredictInclusion => 4
  }

  const Prefix: seq<GeoStage> := [ScrapeAiOverview, AnalyzeCompetitors, EvaluateIngContent]

  /** The graph: entry `scrape_ai_overview`, unconditional edges through the three fixed stages,
      the router's table after the evaluation, every branch stage leading to the prediction and
      the prediction to END; every edge leads to a later rank, so there is no cycle. */
  lemma GeoTopology()
    ensures forall agents :: GeoGraph(agents).entry == ScrapeAiOverview
    ensures forall agents :: ChainTo(GeoGraph(agents), Prefix[..2], Stage(EvaluateIngContent))
    ensures GeoEdges(EvaluateIngContent) == Branch(Router, GeoRoutes)
    ensures forall n :: IsBranch(n) <==> GeoEdges(n) == Always(Stage(PredictInclusion))
    ensures GeoEdges(PredictInclusion) == Always(End)
    ensures forall agents :: Forward(GeoGraph(agents), GeoRank, 5)
  {
    RoutesAreBranches();
  }

  /** The run spelled out: the three fixed stages, the router on their result, then the chosen
      branch stage and the prediction. */
  function GeoPipeline(agents: GeoAgents, s: GeoState): Trace<GeoStage, GeoState> {
    AfterPrefix(agents, Sequence(GeoGraph(agents), Prefix, s))
  }

  /** What follows a trace of the fixed stages: nothing unless they finished; otherwise the
      router on their result, then the chosen branch stage and the prediction. */
  function AfterPrefix(agents: GeoAgents, t: Trace<GeoStage, GeoState>): Trace<GeoStage, GeoState> {
    if !t.outcome.Finished? then t
    else
      var mid := t.outcome.state;
      match Router(mid)
      case Failure(e) => Trace(t.path, RouterFailed(EvaluateIngContent, mid, e))
      case Success(route) =>
        var u := Sequence(GeoGraph(agents), [GeoRoutes[route].name, PredictInclusion], mid);
        Trace(t.path + u.path, u.outcome)
  }

  /** A trace with one more stage in front. */
  function Cons(at: GeoStage, t: Trace<GeoStage, GeoState>): Trace<GeoStage, GeoState> {
    Trace([at] + t.path, t.outcome)
  }

  /** `optimize_for_ai_overview(input_state)`: the graph's final state. */
  function OptimizeForAiOverview(agents: GeoAgents, input: GeoState): (r: Result<GeoState, Error>)
    ensures var t := Run(GeoGraph(agents), input);
      && (r.Success? <==> t.outcome.Finished?)
      && (r.Success? ==> r.value == t.outcome.state)
  {
    var t := Run(GeoGraph(agents), input);
    if t.outcome.Finished? then Success(t.outcome.state) else Failure(RunError(t.outcome))
  }

  lemma BranchWalk(agents: GeoAgents, b: GeoStage, s: GeoState, fuel: nat)
    requires IsBranch(b) && 2 <= fuel
    ensures Walk(GeoGraph(agents), b, s, fuel) == Sequence(GeoGraph(agents), [b, PredictInclusion], s)
  {
    var g := GeoGraph(agents);
    assert ChainTo(g, [b, PredictInclusion], End);
    WalkChain(g, [b, PredictInclusion], End, s, fuel);
  }

  /** From `evaluate_ing_content` on: the evaluation, the router on its result, then the chosen
      branch stage and the prediction. */
  function EvalTail(agents: GeoAgents, s: GeoState): Trace<GeoStage, GeoState> {
    match Evaluate(agents, s)
    case Failure(e) => Trace([EvaluateIngContent], StageFailed(EvaluateIngContent, s, e))
    case Success(mid) =>
      match Router(mid)
      case Failure(e) => Trace([EvaluateIngContent], RouterFailed(EvaluateIngContent, mid, e))
      case Success(route) =>
        Cons(EvaluateIngContent, Sequence(GeoGraph(agents), [GeoRoutes[route].name, PredictInclusion], mid))
  }

  /** From `analyze_competitors` on. */
  function AnalyzeTail(agents: GeoAgents, s: GeoState): Trace<GeoStage, GeoState> {
    match AnalyzeSnippets(agents, s)
    case Failure(e) => Trace([AnalyzeCompetitors], StageFailed(AnalyzeCompetitors, s, e))
    case Success(s2) => Cons(AnalyzeCompetitors, EvalTail(agents, s2))
  }

  /** The whole run, one stage at a time. */
  function Staged(agents: GeoAgents, s: GeoState): Trace<GeoStage, GeoState> {
    match Scrape(agents, s)
    case Failure(e) => Trace([ScrapeAiOverview], StageFailed(ScrapeAiOverview, s, e))
    case Success(s1) => Cons(ScrapeAiOverview, AnalyzeTail(agents, s1))
  }

  lemma EvaluateWalk(agents: GeoAgents, s: GeoState, fuel: nat)
    requires 3 <= fuel
    ensures Walk(GeoGraph(agents), EvaluateIngContent, s, fuel) == EvalTail(agents, s)
  {
    match Evaluate(agents, s)
    case Failure(e) =>
    case Success(mid) =>
      match Router(mid)
      case Failure(e) =>
      case Success(route) =>
        RoutesAreBranches();
        BranchWalk(agents, GeoRoutes[route].name, mid, fuel - 1);
  }

  lemma AnalyzeWalk(agents: GeoAgents, s: GeoState, fuel: nat)
    requires 4 <= fuel
    ensures Walk(GeoGraph(agents), AnalyzeCompetitors, s, fuel) == AnalyzeTail(agents, s)
  {
    match AnalyzeSnippets(agents, s)
    case Failure(e) =>
    case Success(s2) =>
      WalkAdvance(GeoGraph(agents), AnalyzeCompetitors, EvaluateIngContent, s, s2, fuel);
      EvaluateWalk(agents, s2, fuel - 1);
  }

  /** The executor runs the stages one by one as `Staged` spells out. */
  lemma RunIsStaged(agents: GeoAgents, s: GeoState)
    ensures Run(GeoGraph(agents), s) == Staged(agents, s)
  {
    match Scrape(agents, s)
    case Failure(e) =>
    case Success(s1) =>
      WalkAdvance(GeoGraph(agents), ScrapeAiOverview, AnalyzeCompetitors, s, s1, StepBudget);
      AnalyzeWalk(agents, s1, StepBudget - 1);
  }

  /** Putting a stage in front of the fixed stages' trace commutes with what follows them. */
  lemma AfterPrefixCons(agents: GeoAgents, at: GeoStage, t: Trace<GeoStage, GeoState>)
    ensures AfterPrefix(agents, Cons(at, t)) == Cons(at, AfterPrefix(agents, t))
  {
    if t.outcome.Finished? && Router(t.outcome.state).Success? {
      var u := Sequence(GeoGraph(agents), [GeoRoutes[Router(t.outcome.state).value].name, PredictInclusion], t.outcome.state);
      assert [at] + t.path + u.path == [at] + (t.path + u.path);
    }
  }

  lemma PrefixFromEvaluate(agents: GeoAgents, s: GeoState)
    ensures AfterPrefix(agents, Sequence(GeoGraph(agents), Prefix[2..], s)) == EvalTail(agents, s)
  {
    match Evaluate(agents, s)
    case Failure(e) =>
    case Success(s3) =>
      SequenceAdvance(GeoGraph(agents), Prefix[2..], s, s3);
      assert Prefix[2..][1..] == [];
  }

  lemma PrefixFromAnalyze(agents: GeoAgents, s: GeoState)
    ensures AfterPrefix(agents, Sequence(GeoGraph(agents), Prefix[1..], s)) == AnalyzeTail(agents, s)
  {
    match AnalyzeSnippets(agents, s)
    case Failure(e) =>
    case Success(s2) =>
      var g := GeoGraph(agents);
      SequenceAdvance(g, Prefix[1..], s, s2);
      assert Prefix[1..][1..] == Prefix[2..];
      AfterPrefixCons(agents, AnalyzeCompetitors, Sequence(g, Prefix[2..], s2));
      PrefixFromEvaluate(agents, s2);
  }

  /** The pipeline, stage by stage, is `Staged`. */
  lemma PipelineIsStaged(agents: GeoAgents, s: GeoState)
    ensures GeoPipeline(agents, s) == Staged(agents, s)
  {
    match Scrape(agents, s)
    case Failure(e) =>
    case Success(s1) =>
      var g := GeoGraph(agents);
      SequenceAdvance(g, Prefix, s, s1);
      AfterPrefixCons(agents, ScrapeAiOverview, Sequence(g, Prefix[1..], s1));
      PrefixFromAnalyze(agents, s1);
  }

  /** The executor does exactly what the pipeline spells out. */
  lemma GeoRunIsPipeline(agents: GeoAgents, s: GeoState)
    ensures Run(GeoGraph(agents), s) == GeoPipeline(agents, s)
  {
    RunIsStaged(agents, s);
    PipelineIsStaged(agents, s);
  }

  /** Every run ends on its own; a finished run executed exactly five distinct stages: the three
      fixed ones, exactly one branch stage, and the prediction. The branch stage's strategy name
      is the one the final state records, and it always holds optimised content. */
  lemma GeoRunShape(agents: GeoAgents, s: GeoState)
    ensures var t := Run(GeoGraph(agents), s);
      && (t.outcome.Finished? || t.outcome.StageFailed? || t.outcome.RouterFailed?)
      && (t.outcome.Finished? ==>
            && |t.path| == 5
            && t.path[..3] == Prefix
            && IsBranch(t.path[3])
            && t.path[4] == PredictInclusion
            && t.outcome.state.optimizationStrategy == Some(StrategyOf(t.path[3]))
            && t.outcome.state.optimizedContent.Some?
            && (t.path[3] == MonitorOnly ==> t.outcome.state.optimizedContent == Some(NoChangesNeeded)))
  {
    GeoRunIsPipeline(agents, s);
    var g := GeoGraph(agents);
    var t := Sequence(g, Prefix, s);
    if t.outcome.Finished? {
      var mid := t.outcome.state;
      match Router(mid)
      case Failure(e) =>
      case Success(route) =>
        RoutesAreBranches();
        var b := GeoRoutes[route].name;
        BranchTail(agents, b, mid);
        var u := Sequence(g, [b, PredictInclusion], mid);
        if u.outcome.Finished? {
          var p := Prefix + u.path;
          assert p[..3] == Prefix && p[3] == b && p[4] == PredictInclusion;
        }
    }
  }

  /** A branch stage followed by the prediction: when both finish, the state records the branch's
      strategy and holds optimised content. */
  lemma BranchTail(agents: GeoAgents, b: GeoStage, mid: GeoState)
    requires IsBranch(b)
    ensures var u := Sequence(GeoGraph(agents), [b, PredictInclusion], mid);
      && (u.outcome.Finished? || u.outcome.StageFailed?)
      && (u.outcome.Finished? ==>
            && u.path == [b, PredictInclusion]
            && u.outcome.state.optimizationStrategy == Some(StrategyOf(b))
            && u.outcome.state.optimizedContent.Some?
            && (b == MonitorOnly ==> u.outcome.state.optimizedContent == Some(NoChangesNeeded)))
  {
    var g := GeoGraph(agents);
    match GeoStep(agents, b, mid)
    case Failure(e) =>
    case Success(s4) =>
      SequenceAdvance(g, [b, PredictInclusion], mid, s4);
      assert [b, PredictInclusion][1..] == [PredictInclusion];
      match Predict(agents, s4)
      case Failure(e) =>
      case Success(s5) =>
        SequenceAdvance(g, [PredictInclusion], s4, s5);
        assert [PredictInclusion][1..] == [];
  }

  /** The route a finished run took is the one the score of the evaluation picked. */
  lemma GeoBranchFollowsScore(agents: GeoAgents, s: GeoState)
    requires Run(GeoGraph(agents), s).outcome.Finished?
    ensures var t := Sequence(GeoGraph(agents), Prefix, s);
      var path := Run(GeoGraph(agents), s).path;
      && t.outcome.Finished?
      && Router(t.outcome.state).Success?
      && |path| == 5
      && path[3] == GeoRoutes[Router(t.outcome.state).value].name
  {
    GeoRunIsPipeline(agents, s);
    PipelineBranch(agents, Sequence(GeoGraph(agents), Prefix, s));
  }

  /** After the fixed stages, a finished continuation took the branch the router picked. */
  lemma PipelineBranch(agents: GeoAgents, t: Trace<GeoStage, GeoState>)
    requires |t.path| == 3
    requires AfterPrefix(agents, t).outcome.Finished?
    ensures t.outcome.Finished? && Router(t.outcome.state).Success?
    ensures var path := AfterPrefix(agents, t).path;
      && |path| == 5
      && path[3] == GeoRoutes[Router(t.outcome.state).value].name
  {
    var mid := t.outcome.state;
    var route := Router(mid).value;
    RoutesAreBranches();
    var b := GeoRoutes[route].name;
    BranchTail(agents, b, mid);
    var u := Sequence(GeoGraph(agents), [b, PredictInclusion], mid);
    assert (t.path + u.path)[3] == u.path[0] == b;
  }

  /** The graph has no cycle: a run starts at most five stages, none twice. */
  lemma GeoTerminates(agents: GeoAgents, s: GeoState)
    ensures var t := Run(GeoGraph(agents), s);
      && !t.outcome.StepLimit?
      && 0 < |t.path| <= 5
      && t.path[0] == ScrapeAiOverview
      && forall i, j :: 0 <= i < j < |t.path| ==> t.path[i] != t.path[j]
  {
    var g := GeoGraph(agents);
    RoutesAreBranches();
    assert Forward(g, GeoRank, 5);
    ForwardRun(g, GeoRank, 5, s);
  }
}
