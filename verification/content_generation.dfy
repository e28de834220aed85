/** The content-generation workflow: a straight chain of five stages from a content brief to a
    reviewed article. The five stage methods are not part of the workflow's file, so the model
    takes them as supplied functions that return the next state or raise. */
module ContentGeneration {
  import opened Wrappers
  import opened Errors
  import opened JsonValues
  import opened Graph

  datatype ContentStage = CreateBrief | GenerateContent | EnforceBrand | OptimizeSeo | FinalReview

  /** The workflow state; a key that was never written is `None`. */
  datatype ContentState = ContentState(
    opportunityId: Option<string>,
    contentBrief: Option<Json>,
    generatedContent: Option<string>,
    brandCompliance: Option<Json>,
    seoOptimization: Option<Json>,
    finalArticle: Option<Json>,
    timestamp: Option<string>)

  /** The five stage methods, one per graph node. */
  datatype ContentStages = ContentStages(
    createBrief: ContentState -> Result<ContentState, Error>,
    generateContent: ContentState -> Result<ContentState, Error>,
    enforceBrand: ContentState -> Result<ContentState, Error>,
    optimizeSeo: ContentState -> Result<ContentState, Error>,
    finalReview: ContentState -> Result<ContentState, Error>)

  function ContentStep(stages: ContentStages, n: ContentStage, s: ContentState): Result<ContentState, Error> {
    match n
    case CreateBrief => stages.createBrief(s)
    case GenerateContent => stages.generateContent(s)
    case EnforceBrand => stages.enforceBrand(s)
    case OptimizeSeo => stages.optimizeSeo(s)
    case FinalReview => stages.finalReview(s)
  }

  function ContentEdges(n: ContentStage): Edge<ContentStage, ContentState> {
    match n
    case CreateBrief => Always(Stage(GenerateContent))
    case GenerateContent => Always(Stage(EnforceBrand))
    case EnforceBrand => Always(Stage(OptimizeSeo))
    case OptimizeSeo => Always(Stage(FinalReview))
    case FinalReview => Always(End)
  }

  function ContentGraph(stages: ContentStages): Graph<ContentStage, ContentState> {
    Graph(CreateBrief, (n, s) => ContentStep(stages, n, s), ContentEdges)
  }

  const ContentOrder: seq<ContentStage> := [CreateBrief, GenerateContent, EnforceBrand, OptimizeSeo, FinalReview]

  function ContentRank(n: ContentStage): nat {
    match n
    case CreateBrief => 0
    case GenerateContent => 1
    case EnforceBrand => 2
    case OptimizeSeo => 3
    case FinalReview => 4
  }

  /** The five stages applied one after another, the first one that raises ending it. */
  function Compose(stages: ContentStages, s: ContentState): Result<ContentState, Error> {
    var brief :- stages.createBrief(s);
    var draft :- stages.generateContent(brief);
    var onBrand :- stages.enforceBrand(draft);
    var optimized :- stages.optimizeSeo(onBrand);
    stages.finalReview(optimized)
  }

  /** `generate_optimized_article(input_state)`: the state the graph run ends with. */
  function GenerateOptimizedArticle(stages: ContentStages, input: ContentState): (r: Result<ContentState, Error>)
    ensures var t := Run(ContentGraph(stages), input);
      && (r.Success? <==> t.outcome.Finished?)
      && (r.Success? ==> r.value == t.outcome.state)
  {
    var t := Run(ContentGraph(stages), input);
    if t.outcome.Finished? then Success(t.outcome.state) else Failure(RunError(t.outcome))
  }

  /** The graph: entry `create_brief`, five distinct stages, each with one unconditional edge,
      chained in the fixed order and ending at END. */
  lemma ContentTopology()
    ensures ContentOrder[0] == CreateBrief
    ensures forall i, j :: 0 <= i < j < |ContentOrder| ==> ContentOrder[i] != ContentOrder[j]
    ensures forall n: ContentStage :: n in ContentOrder
    ensures forall stages :: ChainTo(ContentGraph(stages), ContentOrder, End)
    ensures forall stages :: ContentGraph(stages).entry == CreateBrief
  {
    forall n: ContentStage
      ensures n in ContentOrder
    {
      assert ContentOrder[ContentRank(n)] == n;
    }
  }

  /** A run is the five stages in order: it ends on its own, a finished run executed all five,
      a failed one a prefix of them ending at the stage that raised. */
  lemma ContentRunIsChain(stages: ContentStages, s: ContentState)
    ensures Run(ContentGraph(stages), s) == Sequence(ContentGraph(stages), ContentOrder, s)
    ensures var t := Run(ContentGraph(stages), s);
      && (t.outcome.Finished? || t.outcome.StageFailed?)
      && (t.outcome.Finished? ==> t.path == ContentOrder)
      && (t.outcome.StageFailed? ==> 0 < |t.path| && t.path <= ContentOrder && t.outcome.stage == t.path[|t.path| - 1])
  {
    var g := ContentGraph(stages);
    ContentTopology();
    WalkChain(g, ContentOrder, End, s, StepBudget);
  }

  /** The graph has no cycle, so no run reaches the step budget. */
  lemma ContentAcyclic(stages: ContentStages, s: ContentState)
    ensures var t := Run(ContentGraph(stages), s);
      && !t.outcome.StepLimit?
      && |t.path| <= 5
      && forall i, j :: 0 <= i < j < |t.path| ==> t.path[i] != t.path[j]
  {
    assert Forward(ContentGraph(stages), ContentRank, 5);
    ForwardRun(ContentGraph(stages), ContentRank, 5, s);
  }

  /** `generate_optimized_article` is the composition of the five stages. */
  lemma ArticleIsComposition(stages: ContentStages, s: ContentState)
    ensures GenerateOptimizedArticle(stages, s) == Compose(stages, s)
  {
    ContentRunIsChain(stages, s);
    SequenceMatchesCompose(stages, s);
  }

  /** The five stages run as a chain reach the same state, or the same error, as composing them
      by hand. */
  lemma SequenceMatchesCompose(stages: ContentStages, s: ContentState)
    ensures var t := Sequence(ContentGraph(stages), ContentOrder, s);
      && (t.outcome.Finished? <==> Compose(stages, s).Success?)
      && (t.outcome.Finished? ==> t.outcome.state == Compose(stages, s).value)
      && (t.outcome.StageFailed? ==> Compose(stages, s) == Failure(t.outcome.error))
  {
    SequenceIsFold(ContentGraph(stages), ContentOrder, s);
    FoldIsCompose(stages, s);
  }

  lemma FoldIsCompose(stages: ContentStages, s: ContentState)
    ensures Fold(ContentGraph(stages), ContentOrder, s) == Compose(stages, s)
  {
    var g := ContentGraph(stages);
    var ns := ContentOrder;
    var ns1, ns2, ns3, ns4 := ns[1..], ns[2..], ns[3..], ns[4..];
    assert ns1 == [GenerateContent, EnforceBrand, OptimizeSeo, FinalReview];
    assert ns2 == ns1[1..] == [EnforceBrand, OptimizeSeo, FinalReview];
    assert ns3 == ns2[1..] == [OptimizeSeo, FinalReview];
    assert ns4 == ns3[1..] == [FinalReview];
    assert ns4[1..] == [];
    match stages.createBrief(s)
    case Failure(e) =>
    case Success(s1) =>
      assert Fold(g, ns, s) == Fold(g, ns1, s1);
      match stages.generateContent(s1)
      case Failure(e) =>
      case Success(s2) =>
        assert Fold(g, ns1, s1) == Fold(g, ns2, s2);
        match stages.enforceBrand(s2)
        case Failure(e) =>
        case Success(s3) =>
          assert Fold(g, ns2, s2) == Fold(g, ns3, s3);
          match stages.optimizeSeo(s3)
          case Failure(e) =>
          case Success(s4) =>
            assert Fold(g, ns3, s3) == Fold(g, ns4, s4);
            match stages.finalReview(s4)
            case Failure(e) =>
            case Success(s5) =>
              assert Fold(g, ns4, s4) == Fold(g, [], s5);
  }
}
