/** The news-intelligence workflow: a four-stage chain that scores RSS articles for relevance,
    extracts search intents, finds content gaps and ranks them into at most five content
    opportunities, followed by the post-processing that builds the dashboard report. */
module NewsIntelligence {
  import opened Wrappers
  import opened Errors
  import opened JsonValues
  import opened StableSort
  import opened Graph
  import RssService

  datatype NewsStage = ScanNews | ExtractIntents | AnalyzeGaps | PrioritizeOpportunities

  /** One competitive gap as the gap analyser returns it; every key may be missing. */
  datatype Gap = Gap(
    potentialHeadline: Option<Json>,
    urgencyScore: Option<real>,
    targetKeywords: Option<Json>,
    recommendedAngle: Option<Json>,
    competitorWeakness: Option<Json>,
    trafficPotential: Option<Json>)

  /** One content opportunity, built from a gap by renaming its keys. */
  datatype Opportunity = Opportunity(
    headline: Json,
    priority: real,
    keywords: Json,
    contentAngle: Json,
    aiOverviewGap: Json,
    estimatedTraffic: Json)

  /** The workflow state; a key that was never written is `None`. */
  datatype NewsState = NewsState(
    rssArticles: Option<seq<RssService.Article>>,
    trackedKeywords: Option<seq<string>>,
    relevantNews: Option<seq<Json>>,
    extractedIntents: Option<seq<Json>>,
    contentOpportunities: Option<seq<Opportunity>>,
    competitiveGaps: Option<seq<Gap>>,
    priorityLevel: Option<string>,
    timestamp: Option<string>)

  /** The three LLM-backed agents the stages call; each may raise. */
  datatype NewsAgents = NewsAgents(
    analyzeRelevance: (seq<RssService.Article>, seq<string>) -> Result<seq<Json>, Error>,
    extractFromNews: seq<Json> -> Result<seq<Json>, Error>,
    findOpportunities: (seq<Json>, seq<string>) -> Result<seq<Gap>, Error>)

  /** `AsWritten` follows the code line by line, defects included; `Corrected` is the evidently
      intended behaviour: no ranking failure on an empty gap list, and an urgency level derived
      from the priority instead of a key that is never written. */
  datatype Variant = AsWritten | Corrected

  /** A priority strictly above this makes an opportunity urgent. */
  const UrgentAbove: real := 80.0

  /** How many opportunities the ranking keeps. */
  const TopCount: nat := 5

  // ---------------------------------------------------------------------------------------
  // The first three stages: one agent call each, writing one key.
  // ---------------------------------------------------------------------------------------

  function ScanNewsRelevance(agents: NewsAgents, s: NewsState): (r: Result<NewsState, Error>)
    ensures s.rssArticles.None? ==> r == Failure(KeyError("rss_articles"))
    ensures s.rssArticles.Some? && s.trackedKeywords.None? ==> r == Failure(KeyError("tracked_keywords"))
    ensures s.rssArticles.Some? && s.trackedKeywords.Some? ==>
      var answer := agents.analyzeRelevance(s.rssArticles.value, s.trackedKeywords.value);
      && (r.Success? <==> answer.Success?)
      && (r.Failure? ==> r.error == answer.error)
      && (r.Success? ==> r.value.relevantNews == Some(answer.value))
    ensures r.Success? ==> r.value == s.(relevantNews := r.value.relevantNews) && r.value.relevantNews.Some?
  {
    if s.rssArticles.None? then Failure(KeyError("rss_articles"))
    else if s.trackedKeywords.None? then Failure(KeyError("tracked_keywords"))
    else
      var news :- agents.analyzeRelevance(s.rssArticles.value, s.trackedKeywords.value);
      Success(s.(relevantNews := Some(news)))
  }

  function ExtractSearchIntents(agents: NewsAgents, s: NewsState): (r: Result<NewsState, Error>)
    ensures s.relevantNews.None? ==> r == Failure(KeyError("relevant_news"))
    ensures s.relevantNews.Some? ==>
      var answer := agents.extractFromNews(s.relevantNews.value);
      && (r.Success? <==> answer.Success?)
      && (r.Failure? ==> r.error == answer.error)
      && (r.Success? ==> r.value.extractedIntents == Some(answer.value))
    ensures r.Success? ==> r.value == s.(extractedIntents := r.value.extractedIntents) && r.value.extractedIntents.Some?
  {
    if s.relevantNews.None? then Failure(KeyError("relevant_news"))
    else
      var intents :- agents.extractFromNews(s.relevantNews.value);
      Success(s.(extractedIntents := Some(intents)))
  }

  function AnalyzeCompetitiveGaps(agents: NewsAgents, s: NewsState): (r: Result<NewsState, Error>)
    ensures s.extractedIntents.None? ==> r == Failure(KeyError("extracted_intents"))
    ensures s.extractedIntents.Some? && s.trackedKeywords.None? ==> r == Failure(KeyError("tracked_keywords"))
    ensures s.extractedIntents.Some? && s.trackedKeywords.Some? ==>
      var answer := agents.findOpportunities(s.extractedIntents.value, s.trackedKeywords.value);
      && (r.Success? <==> answer.Success?)
      && (r.Failure? ==> r.error == answer.error)
      && (r.Success? ==> r.value.competitiveGaps == Some(answer.value))
    ensures r.Success? ==> r.value == s.(competitiveGaps := r.value.competitiveGaps) && r.value.competitiveGaps.Some?
  {
    if s.extractedIntents.None? then Failure(KeyError("extracted_intents"))
    else if s.trackedKeywords.None? then Failure(KeyError("tracked_keywords"))
    else
      var gaps :- agents.findOpportunities(s.extractedIntents.value, s.trackedKeywords.value);
      Success(s.(competitiveGaps := Some(gaps)))
  }

  // ---------------------------------------------------------------------------------------
  // Gaps to opportunities
  // ---------------------------------------------------------------------------------------

  /** Every key the opportunity dict reads is present. */
  predicate Complete(g: Gap) {
    && g.potentialHeadline.Some? && g.urgencyScore.Some? && g.targetKeywords.Some?
    && g.recommendedAngle.Some? && g.competitorWeakness.Some? && g.trafficPotential.Some?
  }

  predicate AllComplete(gaps: seq<Gap>) {
    forall i :: 0 <= i < |gaps| ==> Complete(gaps[i])
  }

  /** The gap an opportunity was built from: the key renaming read backwards. */
  function AsGap(o: Opportunity): Gap {
    Gap(Some(o.headline), Some(o.priority), Some(o.keywords),
        Some(o.contentAngle), Some(o.aiOverviewGap), Some(o.estimatedTraffic))
  }

  /** The opportunity dict for one gap. Its values are read in the order the dict literal
      lists them, so the first missing key is the one reported. */
  function ToOpportunity(g: Gap): (r: Result<Opportunity, Error>)
    ensures r.Success? <==> Complete(g)
    ensures r.Success? ==> AsGap(r.value) == g
    ensures r.Failure? ==> r.error.KeyError?
    ensures g.potentialHeadline.None? ==> r == Failure(KeyError("potential_headline"))
  {
    if g.potentialHeadline.None? then Failure(KeyError("potential_headline"))
    else if g.urgencyScore.None? then Failure(KeyError("urgency_score"))
    else if g.targetKeywords.None? then Failure(KeyError("target_keywords"))
    else if g.recommendedAngle.None? then Failure(KeyError("recommended_angle"))
    else if g.competitorWeakness.None? then Failure(KeyError("competitor_weakness"))
    else if g.trafficPotential.None? then Failure(KeyError("traffic_potential"))
    else Success(Opportunity(g.potentialHeadline.value, g.urgencyScore.value, g.targetKeywords.value,
                             g.recommendedAngle.value, g.competitorWeakness.value, g.trafficPotential.value))
  }

  /** The loop over the gaps: one opportunity per gap, in gap order; the first incomplete gap
      stops it. */
  function ToOpportunities(gaps: seq<Gap>): (r: Result<seq<Opportunity>, Error>)
    ensures r.Success? <==> AllComplete(gaps)
    ensures r.Success? ==> |r.value| == |gaps| && forall i :: 0 <= i < |gaps| ==> AsGap(r.value[i]) == gaps[i]
    ensures r.Failure? ==> r.error.KeyError?
  {
    if |gaps| == 0 then Success([])
    else
      var front :- ToOpportunities(gaps[..|gaps| - 1]);
      var last :- ToOpportunity(gaps[|gaps| - 1]);
      Success(front + [last])
  }

  // ---------------------------------------------------------------------------------------
  // Ranking
  // ---------------------------------------------------------------------------------------

  function PriorityOf(o: Opportunity): real {
    o.priority
  }

  predicate AtLeast(a: real, b: real) {
    a >= b
  }

  /** `opportunities.sort(key=priority, reverse=True)` followed by `[:5]`. */
  function Top(ops: seq<Opportunity>): seq<Opportunity> {
    Take(Sort(ops, PriorityOf, AtLeast), TopCount)
  }

  /** What the ranking keeps of `ops`: the five (or fewer) highest priorities, highest first,
      nothing dropped above anything kept, equal priorities in their original order. */
  ghost predicate TopPicks(ops: seq<Opportunity>, top: seq<Opportunity>) {
    && |top| == (if |ops| <= TopCount then |ops| else TopCount)
    && multiset(top) <= multiset(ops)
    && (forall i, j :: 0 <= i < j < |top| ==> top[i].priority >= top[j].priority)
    && (forall i, b :: 0 <= i < |top| && b in multiset(ops) - multiset(top) ==> top[i].priority >= b.priority)
    && (forall p :: WithKey(top, PriorityOf, p) <= WithKey(ops, PriorityOf, p))
  }

  lemma TopIsTopPicks(ops: seq<Opportunity>)
    ensures TopPicks(ops, Top(ops))
  {
    TopOfSort(ops, TopCount, PriorityOf, AtLeast);
    TopByPriority(ops);
  }

  /** The kept opportunities are ordered by priority and never outranked by a dropped one. */
  lemma TopByPriority(ops: seq<Opportunity>)
    ensures var top := Top(ops);
      && (forall i, j :: 0 <= i < j < |top| ==> top[i].priority >= top[j].priority)
      && (forall i, b :: 0 <= i < |top| && b in multiset(ops) - multiset(top) ==> top[i].priority >= b.priority)
  {
    TopOfSortLargest(ops, TopCount, PriorityOf, AtLeast);
    var top := Top(ops);
    forall i, j | 0 <= i < j < |top|
      ensures top[i].priority >= top[j].priority
    {
      assert AtLeast(PriorityOf(top[i]), PriorityOf(top[j]));
    }
    forall i, b | 0 <= i < |top| && b in multiset(ops) - multiset(top)
      ensures top[i].priority >= b.priority
    {
      assert AtLeast(PriorityOf(top[i]), PriorityOf(b));
    }
  }

  /** The ranking's first element holds the highest priority of all. */
  lemma {:induction false} SortHeadIsMax(ops: seq<Opportunity>)
    requires 0 < |ops|
    ensures var sorted := Sort(ops, PriorityOf, AtLeast);
      && (exists i :: 0 <= i < |ops| && ops[i] == sorted[0])
      && forall i :: 0 <= i < |ops| ==> sorted[0].priority >= ops[i].priority
  {
    var sorted := Sort(ops, PriorityOf, AtLeast);
    SortSorted(ops, PriorityOf, AtLeast);
    assert sorted[0] in multiset(ops);
    forall i | 0 <= i < |ops|
      ensures sorted[0].priority >= ops[i].priority
    {
      assert ops[i] in multiset(sorted);
      var j :| 0 <= j < |sorted| && sorted[j] == ops[i];
      if j > 0 {
        assert AtLeast(PriorityOf(sorted[0]), PriorityOf(sorted[j]));
      }
    }
  }

  /** The priority level: whether the highest-ranked opportunity is above the threshold. As
      written, `opportunities[0]` raises IndexError when there are none. */
  function PriorityLevel(variant: Variant, ranked: seq<Opportunity>): (r: Result<string, Error>)
    ensures r.Failure? <==> variant == AsWritten && |ranked| == 0
    ensures r.Failure? ==> r.error == IndexError
    ensures r.Success? ==> (r.value == "urgent" <==> 0 < |ranked| && ranked[0].priority > UrgentAbove)
    ensures r.Success? ==> r.value in {"urgent", "normal"}
  {
    if |ranked| == 0 then
      if variant == AsWritten then Failure(IndexError) else Success("normal")
    else if ranked[0].priority > UrgentAbove then Success("urgent")
    else Success("normal")
  }

  /** The ranking stage. */
  function Prioritize(variant: Variant, s: NewsState): (r: Result<NewsState, Error>)
    ensures s.competitiveGaps.None? ==> r == Failure(KeyError("competitive_gaps"))
    ensures s.competitiveGaps.Some? && !AllComplete(s.competitiveGaps.value) ==> r.Failure? && r.error.KeyError?
    ensures variant == AsWritten ==>
      (r.Success? <==> s.competitiveGaps.Some? && AllComplete(s.competitiveGaps.value) && |s.competitiveGaps.value| > 0)
    ensures variant == AsWritten && s.competitiveGaps == Some([]) ==> r == Failure(IndexError)
    ensures variant == Corrected ==>
      (r.Success? <==> s.competitiveGaps.Some? && AllComplete(s.competitiveGaps.value))
    ensures r.Success? ==>
      && r.value == s.(contentOpportunities := r.value.contentOpportunities, priorityLevel := r.value.priorityLevel)
      && r.value.contentOpportunities.Some?
      && TopPicks(ToOpportunities(s.competitiveGaps.value).value, r.value.contentOpportunities.value)
      && (r.value.priorityLevel == Some("urgent") <==>
            exists i :: 0 <= i < |s.competitiveGaps.value| && s.competitiveGaps.value[i].urgencyScore.value > UrgentAbove)
      && (r.value.priorityLevel == Some("urgent") || r.value.priorityLevel == Some("normal"))
  {
    if s.competitiveGaps.None? then Failure(KeyError("competitive_gaps"))
    else
      var gaps := s.competitiveGaps.value;
      var ops :- ToOpportunities(gaps);
      var ranked := Sort(ops, PriorityOf, AtLeast);
      var level :- PriorityLevel(variant, ranked);
      TopIsTopPicks(ops);
      UrgentIffAbove(gaps, ops);
      Success(s.(contentOpportunities := Some(Top(ops)), priorityLevel := Some(level)))
  }

  /** The head of the ranking is above the threshold exactly when some gap's urgency score is. */
  lemma UrgentIffAbove(gaps: seq<Gap>, ops: seq<Opportunity>)
    requires |ops| == |gaps| && AllComplete(gaps)
    requires forall i :: 0 <= i < |gaps| ==> AsGap(ops[i]) == gaps[i]
    ensures var ranked := Sort(ops, PriorityOf, AtLeast);
      (0 < |ranked| && ranked[0].priority > UrgentAbove) <==>
      exists i :: 0 <= i < |gaps| && gaps[i].urgencyScore.value > UrgentAbove
  {
    if 0 < |ops| {
      SortHeadIsMax(ops);
      var ranked := Sort(ops, PriorityOf, AtLeast);
      var k :| 0 <= k < |ops| && ops[k] == ranked[0];
      assert gaps[k].urgencyScore.value == ranked[0].priority;
      if exists i :: 0 <= i < |gaps| && gaps[i].urgencyScore.value > UrgentAbove {
        var i :| 0 <= i < |gaps| && gaps[i].urgencyScore.value > UrgentAbove;
        assert gaps[i].urgencyScore.value == ops[i].priority;
      }
    }
  }

  /** An analyser that finds no gaps: as written the ranking stage raises IndexError; corrected
      it records no opportunities at the normal level. */
  lemma NoGapsRanked(s: NewsState)
    requires s.competitiveGaps == Some([])
    ensures Prioritize(AsWritten, s) == Failure(IndexError)
    ensures Prioritize(Corrected, s) == Success(s.(contentOpportunities := Some([]), priorityLevel := Some("normal")))
  {
    assert Top([]) == [];
  }

  // ---------------------------------------------------------------------------------------
  // The graph
  // ---------------------------------------------------------------------------------------

  function NewsStep(agents: NewsAgents, variant: Variant, n: NewsStage, s: NewsState): Result<NewsState, Error> {
    match n
    case ScanNews => ScanNewsRelevance(agents, s)
    case ExtractIntents => ExtractSearchIntents(agents, s)
    case AnalyzeGaps => AnalyzeCompetitiveGaps(agents, s)
    case PrioritizeOpportunities => Prioritize(variant, s)
  }

  function NewsEdges(n: NewsStage): Edge<NewsStage, NewsState> {
    match n
    case ScanNews => Always(Stage(ExtractIntents))
    case ExtractIntents => Always(Stage(AnalyzeGaps))
    case AnalyzeGaps => Always(Stage(PrioritizeOpportunities))
    case PrioritizeOpportunities => Always(End)
  }

  function NewsGraph(agents: NewsAgents, variant: Variant): Graph<NewsStage, NewsState> {
    Graph(ScanNews, (n, s) => NewsStep(agents, variant, n, s), NewsEdges)
  }

  const NewsOrder: seq<NewsStage> := [ScanNews, ExtractIntents, AnalyzeGaps, PrioritizeOpportunities]

  function NewsRank(n: NewsStage): nat {
    match n
    case ScanNews => 0
    case ExtractIntents => 1
    case AnalyzeGaps => 2
    case PrioritizeOpportunities => 3
  }

  /** The graph: entry `scan_news`, four distinct stages, each with one unconditional edge,
      chained in the fixed order and ending at END, every edge leading to a later stage. */
  lemma NewsTopology()
    ensures NewsOrder[0] == ScanNews
    ensures forall i, j :: 0 <= i < j < |NewsOrder| ==> NewsOrder[i] != NewsOrder[j]
    ensures forall n: NewsStage :: n in NewsOrder
    ensures forall agents, variant :: NewsGraph(agents, variant).entry == ScanNews
    ensures forall agents, variant :: ChainTo(NewsGraph(agents, variant), NewsOrder, End)
    ensures forall agents, variant :: Forward(NewsGraph(agents, variant), NewsRank, 4)
  {
    forall n: NewsStage
      ensures n in NewsOrder
    {
      assert NewsOrder[NewsRank(n)] == n;
    }
  }

  /** A run is the four stages in their fixed order, stopping at the first one that raises. */
  lemma NewsRunIsChain(agents: NewsAgents, variant: Variant, s: NewsState)
    ensures Run(NewsGraph(agents, variant), s) == Sequence(NewsGraph(agents, variant), NewsOrder, s)
    ensures var t := Run(NewsGraph(agents, variant), s);
      && (t.outcome.Finished? || t.outcome.StageFailed?)
      && (t.outcome.Finished? ==> t.path == NewsOrder)
      && (t.outcome.StageFailed? ==> 0 < |t.path| && t.path <= NewsOrder)
  {
    var g := NewsGraph(agents, variant);
    assert ChainTo(g, NewsOrder, End);
    WalkChain(g, NewsOrder, End, s, StepBudget);
  }

  /** The graph has no cycle, so a run ends on its own after at most four stages. */
  lemma NewsTerminates(agents: NewsAgents, variant: Variant, s: NewsState)
    ensures var t := Run(NewsGraph(agents, variant), s);
      && !t.outcome.StepLimit?
      && 0 < |t.path| <= 4
      && t.path[0] == ScanNews
  {
    var g := NewsGraph(agents, variant);
    assert Forward(g, NewsRank, 4);
    ForwardRun(g, NewsRank, 4, s);
  }

  /** A finished run's state is the ranking stage's result on the state the first three stages
      left, which the first stage received as the input itself. */
  lemma NewsFinalState(agents: NewsAgents, variant: Variant, s: NewsState)
    requires Run(NewsGraph(agents, variant), s).outcome.Finished?
    ensures exists mid :: Prioritize(variant, mid) == Success(Run(NewsGraph(agents, variant), s).outcome.state)
    ensures ScanNewsRelevance(agents, s).Success?
  {
    var g := NewsGraph(agents, variant);
    NewsRunIsChain(agents, variant, s);
    assert g.stage(ScanNews, s) == ScanNewsRelevance(agents, s);
    ChainEndsRanked(agents, variant, s);
  }

  /** A finished chain ends with the ranking stage's result on the state the first three left. */
  lemma ChainEndsRanked(agents: NewsAgents, variant: Variant, s: NewsState)
    requires Sequence(NewsGraph(agents, variant), NewsOrder, s).outcome.Finished?
    ensures exists mid :: Prioritize(variant, mid) == Success(Sequence(NewsGraph(agents, variant), NewsOrder, s).outcome.state)
  {
    var g := NewsGraph(agents, variant);
    var front := [ScanNews, ExtractIntents, AnalyzeGaps];
    assert NewsOrder == front + [PrioritizeOpportunities];
    SequenceSnoc(g, front, PrioritizeOpportunities, s);
    var mid := Sequence(g, front, s).outcome.state;
    assert g.stage(PrioritizeOpportunities, mid) == Prioritize(variant, mid);
  }

  // ---------------------------------------------------------------------------------------
  // Post-processing
  // ---------------------------------------------------------------------------------------

  /** The dashboard report `analyze_news_opportunities` returns. */
  datatype Report = Report(
    contentOpportunities: seq<Opportunity>,
    urgentCount: nat,
    totalAnalyzed: nat,
    analysisTimestamp: string)

  /** `op["urgency_level"]`. The ranking stage never writes that key, so as written every read
      raises KeyError; corrected, the level is derived from the priority as the ranking stage
      does for the whole list. */
  function UrgencyLevel(variant: Variant, o: Opportunity): (r: Result<string, Error>)
    ensures variant == AsWritten ==> r == Failure(KeyError("urgency_level"))
    ensures variant == Corrected ==> r.Success? && (r.value == "urgent" <==> o.priority > UrgentAbove)
  {
    match variant
    case AsWritten => Failure(KeyError("urgency_level"))
    case Corrected => Success(if o.priority > UrgentAbove then "urgent" else "normal")
  }

  /** The number of urgent opportunities; the comprehension raises on the first failing read. */
  function UrgentCount(variant: Variant, ops: seq<Opportunity>): (r: Result<nat, Error>)
    ensures variant == AsWritten ==> (r.Success? <==> |ops| == 0)
    ensures variant == AsWritten && |ops| > 0 ==> r == Failure(KeyError("urgency_level"))
    ensures variant == Corrected ==> r.Success?
    ensures r.Success? ==> r.value <= |ops|
    ensures r.Success? ==> (r.value == 0 <==> forall i :: 0 <= i < |ops| ==> ops[i].priority <= UrgentAbove)
    ensures r.Success? ==> (r.value == |ops| <==> forall i :: 0 <= i < |ops| ==> ops[i].priority > UrgentAbove)
  {
    if |ops| == 0 then Success(0)
    else
      var level :- UrgencyLevel(variant, ops[0]);
      // A level was read, so the variant is `Corrected`, whose count of the rest never fails.
      var rest := UrgentCount(variant, ops[1..]).value;
      assert forall i :: 1 <= i < |ops| ==> ops[i] == ops[1..][i - 1];
      Success((if level == "urgent" then 1 else 0) + rest)
  }

  /** The positions from `lo` on whose opportunity is above the threshold. */
  function AbovePositions(ops: seq<Opportunity>, lo: nat): set<int> {
    set i | lo <= i < |ops| && ops[i].priority > UrgentAbove
  }

  /** How many opportunities are above the threshold: the count the report is meant to show. */
  function CountAbove(ops: seq<Opportunity>): nat {
    |AbovePositions(ops, 0)|
  }

  /** The positions from `lo` on are position `lo`, when it is above, and those from `lo + 1`. */
  lemma AbovePositionsSplit(ops: seq<Opportunity>, lo: nat)
    requires lo < |ops|
    ensures |AbovePositions(ops, lo)| == (if ops[lo].priority > UrgentAbove then 1 else 0) + |AbovePositions(ops, lo + 1)|
  {
    var rest := AbovePositions(ops, lo + 1);
    assert lo !in rest;
    if ops[lo].priority > UrgentAbove {
      assert AbovePositions(ops, lo) == rest + {lo};
    } else {
      assert AbovePositions(ops, lo) == rest;
    }
  }

  /** The opportunities above the threshold, counted one by one. */
  function AboveCount(ops: seq<Opportunity>): nat {
    if |ops| == 0 then 0 else (if ops[0].priority > UrgentAbove then 1 else 0) + AboveCount(ops[1..])
  }

  /** Counting the opportunities from `lo` on one by one gives the size of their set of positions
      above the threshold. */
  lemma {:induction false} AboveCountIsCard(ops: seq<Opportunity>, lo: nat)
    requires lo <= |ops|
    ensures AboveCount(ops[lo..]) == |AbovePositions(ops, lo)|
    decreases |ops| - lo
  {
    if lo == |ops| {
      assert AbovePositions(ops, lo) == {};
    } else {
      AboveCountIsCard(ops, lo + 1);
      AbovePositionsSplit(ops, lo);
      assert ops[lo..][0] == ops[lo] && ops[lo..][1..] == ops[lo + 1..];
    }
  }

  /** Corrected, the urgent count is the one-by-one count. */
  lemma {:induction false} UrgentCountIsAboveCount(ops: seq<Opportunity>)
    ensures UrgentCount(Corrected, ops) == Success(AboveCount(ops))
    decreases |ops|
  {
    if |ops| > 0 {
      UrgentCountCons(ops);
      UrgentCountIsAboveCount(ops[1..]);
    }
  }

  /** Corrected, the count of a non-empty list is its head's contribution plus the count of the rest. */
  lemma UrgentCountCons(ops: seq<Opportunity>)
    requires |ops| > 0
    ensures UrgentCount(Corrected, ops) ==
      Success((if ops[0].priority > UrgentAbove then 1 else 0) + UrgentCount(Corrected, ops[1..]).value)
  {
    var level := UrgencyLevel(Corrected, ops[0]);
    assert level == Success(if ops[0].priority > UrgentAbove then "urgent" else "normal");
    assert level.value == "urgent" <==> ops[0].priority > UrgentAbove;
  }

  /** Corrected, the urgent count is the number of opportunities above the threshold. */
  lemma UrgentCountIsCountAbove(ops: seq<Opportunity>)
    ensures UrgentCount(Corrected, ops) == Success(CountAbove(ops))
  {
    UrgentCountIsAboveCount(ops);
    AboveCountIsCard(ops, 0);
    assert ops[0..] == ops;
  }

  /** `analyze_news_opportunities(state)`: run the graph, then build the report. `now` stands for
      `datetime.now().isoformat()`. */
  function AnalyzeNewsOpportunities(agents: NewsAgents, variant: Variant, input: NewsState, now: string): (r: Result<Report, Error>)
    ensures var t := Run(NewsGraph(agents, variant), input);
      !t.outcome.Finished? ==> r == Failure(RunError(t.outcome))
  {
    var t := Run(NewsGraph(agents, variant), input);
    if !t.outcome.Finished? then Failure(RunError(t.outcome))
    else
      var out := t.outcome.state;
      if out.contentOpportunities.None? then Failure(KeyError("content_opportunities"))
      else
        var ops := out.contentOpportunities.value;
        var urgent :- UrgentCount(variant, ops);
        if input.rssArticles.None? then Failure(KeyError("rss_articles"))
        else Success(Report(ops, urgent, |input.rssArticles.value|, now))
  }

  /** As written, the report can never be built: with no gaps the ranking raises IndexError, and
      otherwise the first `urgency_level` read raises KeyError. */
  lemma AnalyzeAsWrittenAlwaysFails(agents: NewsAgents, input: NewsState, now: string)
    ensures AnalyzeNewsOpportunities(agents, AsWritten, input, now).Failure?
  {
    var t := Run(NewsGraph(agents, AsWritten), input);
    if t.outcome.Finished? {
      NewsFinalState(agents, AsWritten, input);
      var mid :| Prioritize(AsWritten, mid) == Success(t.outcome.state);
      assert |t.outcome.state.contentOpportunities.value| > 0;
    }
  }

  /** Corrected, the report is built exactly when the run finishes, counts the input articles,
      and counts as urgent exactly the kept opportunities above the threshold. */
  lemma AnalyzeCorrected(agents: NewsAgents, input: NewsState, now: string)
    ensures var t := Run(NewsGraph(agents, Corrected), input);
      var r := AnalyzeNewsOpportunities(agents, Corrected, input, now);
      && (r.Success? <==> t.outcome.Finished?)
      && (r.Success? ==>
            && r.value.contentOpportunities == t.outcome.state.contentOpportunities.value
            && r.value.totalAnalyzed == |input.rssArticles.value|
            && r.value.urgentCount == CountAbove(r.value.contentOpportunities)
            && r.value.urgentCount <= |r.value.contentOpportunities| <= TopCount
            && r.value.analysisTimestamp == now)
  {
    var t := Run(NewsGraph(agents, Corrected), input);
    if t.outcome.Finished? {
      NewsFinalState(agents, Corrected, input);
      var mid :| Prioritize(Corrected, mid) == Success(t.outcome.state);
      UrgentCountIsCountAbove(t.outcome.state.contentOpportunities.value);
    }
  }
}
