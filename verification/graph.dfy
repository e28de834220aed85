/** The sequential graph executor the three workflows are built on (LangGraph's `StateGraph`
    as the workflows use it): named stages, one outgoing edge group per stage (an unconditional
    edge, or a router whose label is looked up in a table), an entry stage and the END sentinel.
    A run starts at the entry stage; each stage's return value replaces the state; the run stops
    at END, at the first failure, or when its step budget is spent. */
module Graph {
  import opened Wrappers
  import opened Errors

  /** Where an edge leads: a stage of the graph, or END. */
  datatype Target<N> = Stage(name: N) | End

  /** A stage's outgoing edge group: `add_edge` or `add_conditional_edges`. */
  datatype Edge<N, !S> =
    | Always(to: Target<N>)
    | Branch(router: S -> Result<string, Error>, routes: map<string, Target<N>>)

  /** `add_node` for every stage (`stage`), the edge groups and `set_entry_point`. */
  datatype Graph<!N, !S> = Graph(entry: N, stage: (N, S) -> Result<S, Error>, edges: N -> Edge<N, S>)

  /** How a run ended. A failing stage reports the state it was given. */
  datatype Outcome<N, S> =
    | Finished(state: S)
    | StageFailed(stage: N, before: S, error: Error)
    | RouterFailed(stage: N, state: S, error: Error)
    | UnknownRoute(stage: N, key: string)
    | StepLimit(state: S)

  /** The stages a run started, in order, and how it ended. */
  datatype Trace<N, S> = Trace(path: seq<N>, outcome: Outcome<N, S>)

  /** What an edge group decides once its stage has produced `s`. */
  datatype Step<N> = Go(to: Target<N>) | RouterRaised(error: Error) | Unrouted(key: string)

  /** LangGraph's default recursion limit: the most stages one invocation may run. */
  const StepBudget: nat := 25

  function Successor<N, S>(e: Edge<N, S>, s: S): Step<N> {
    match e
    case Always(to) => Go(to)
    case Branch(router, routes) =>
      match router(s)
      case Failure(err) => RouterRaised(err)
      case Success(key) => if key in routes then Go(routes[key]) else Unrouted(key)
  }

  /** Runs the graph from stage `at` with at most `fuel` more stages. */
  function Walk<N, S>(g: Graph<N, S>, at: N, s: S, fuel: nat): (t: Trace<N, S>)
    ensures |t.path| <= fuel
    ensures t.outcome.StepLimit? ==> |t.path| == fuel
    ensures fuel > 0 ==> 0 < |t.path| && t.path[0] == at
    decreases fuel
  {
    if fuel == 0 then Trace([], StepLimit(s))
    else
      match g.stage(at, s)
      case Failure(e) => Trace([at], StageFailed(at, s, e))
      case Success(s') =>
        match Successor(g.edges(at), s')
        case RouterRaised(err) => Trace([at], RouterFailed(at, s', err))
        case Unrouted(key) => Trace([at], UnknownRoute(at, key))
        case Go(End) => Trace([at], Finished(s'))
        case Go(Stage(m)) =>
          var t := Walk(g, m, s', fuel - 1);
          Trace([at] + t.path, t.outcome)
  }

  /** `ainvoke(initial_state)`: a run from the entry stage under the default recursion limit. */
  function Run<N, S>(g: Graph<N, S>, s: S): (t: Trace<N, S>)
    ensures 0 < |t.path| <= StepBudget && t.path[0] == g.entry
    ensures t.outcome.StepLimit? ==> |t.path| == StepBudget
    ensures g.stage(g.entry, s).Failure? ==> t == Trace([g.entry], StageFailed(g.entry, s, g.stage(g.entry, s).error))
  {
    Walk(g, g.entry, s, StepBudget)
  }

  // ---------------------------------------------------------------------------------------
  // Acyclic graphs: every run ends on its own and starts each stage at most once.
  // ---------------------------------------------------------------------------------------

  /** `rank` numbers the stages below `size` so that every edge leads to a higher rank:
      a topological order, which exists exactly when the graph has no cycle. */
  ghost predicate Forward<N(!new), S>(g: Graph<N, S>, rank: N -> nat, size: nat) {
    && (forall n :: rank(n) < size)
    && (forall n :: LeadsForward(g.edges(n), rank, rank(n)))
  }

  ghost predicate LeadsForward<N, S>(e: Edge<N, S>, rank: N -> nat, r: nat) {
    match e
    case Always(to) => to.Stage? ==> rank(to.name) > r
    case Branch(_, routes) => forall l :: l in routes && routes[l].Stage? ==> rank(routes[l].name) > r
  }

  ghost predicate Rising<N>(path: seq<N>, rank: N -> nat) {
    forall i, j :: 0 <= i < j < |path| ==> rank(path[i]) < rank(path[j])
  }

  lemma {:induction false} ForwardWalk<N(!new), S>(g: Graph<N, S>, rank: N -> nat, size: nat, at: N, s: S, fuel: nat)
    requires Forward(g, rank, size)
    requires fuel >= size - rank(at)
    ensures var t := Walk(g, at, s, fuel);
      && !t.outcome.StepLimit?
      && 0 < |t.path| <= size - rank(at)
      && t.path[0] == at
      && Rising(t.path, rank)
    decreases fuel
  {
    assert rank(at) < size;
    match g.stage(at, s)
    case Failure(e) =>
    case Success(s') =>
      assert LeadsForward(g.edges(at), rank, rank(at));
      match Successor(g.edges(at), s')
      case RouterRaised(err) =>
      case Unrouted(key) =>
      case Go(End) =>
      case Go(Stage(m)) =>
        assert rank(m) > rank(at) by {
          match g.edges(at)
          case Always(to) =>
          case Branch(router, routes) =>
            var key := router(s').value;
            assert key in routes && routes[key] == Stage(m);
        }
        assert rank(m) < size;
        ForwardWalk(g, rank, size, m, s', fuel - 1);
        var u := Walk(g, m, s', fuel - 1);
        assert Walk(g, at, s, fuel) == Trace([at] + u.path, u.outcome);
        RisingCons(at, u.path, rank);
  }

  /** A stage ranked below the first of a rising path extends it. */
  lemma RisingCons<N>(at: N, path: seq<N>, rank: N -> nat)
    requires Rising(path, rank)
    requires 0 < |path| ==> rank(at) < rank(path[0])
    ensures Rising([at] + path, rank)
  {
    var p := [at] + path;
    forall i, j | 0 <= i < j < |p|
      ensures rank(p[i]) < rank(p[j])
    {
      if i == 0 {
        assert p[j] == path[j - 1];
        if j > 1 {
          assert rank(path[0]) < rank(path[j - 1]);
        }
      } else {
        assert p[i] == path[i - 1] && p[j] == path[j - 1];
      }
    }
  }

  /** On an acyclic graph of `size` stages, a run never exhausts the step budget, starts at
      most `size` stages, never starts a stage twice, and begins at the entry stage. */
  lemma ForwardRun<N(!new), S>(g: Graph<N, S>, rank: N -> nat, size: nat, s: S)
    requires Forward(g, rank, size)
    requires size <= StepBudget
    ensures var t := Run(g, s);
      && !t.outcome.StepLimit?
      && 0 < |t.path| <= size
      && t.path[0] == g.entry
      && forall i, j :: 0 <= i < j < |t.path| ==> t.path[i] != t.path[j]
  {
    ForwardWalk(g, rank, size, g.entry, s, StepBudget);
  }

  // ---------------------------------------------------------------------------------------
  // Chains: along unconditional edges the executor is plain sequential composition.
  // ---------------------------------------------------------------------------------------

  /** Runs the stages `ns` one after another, stopping at the first failure. */
  function Sequence<N, S>(g: Graph<N, S>, ns: seq<N>, s: S): (t: Trace<N, S>)
    ensures t.outcome.Finished? || t.outcome.StageFailed?
    ensures t.outcome.Finished? ==> t.path == ns
    ensures t.outcome.StageFailed? ==> 0 < |t.path| && t.path <= ns && t.outcome.stage == t.path[|t.path| - 1]
  {
    if |ns| == 0 then Trace([], Finished(s))
    else
      match g.stage(ns[0], s)
      case Failure(e) => Trace([ns[0]], StageFailed(ns[0], s, e))
      case Success(s') =>
        var t := Sequence(g, ns[1..], s');
        assert ns == [ns[0]] + ns[1..];
        Trace([ns[0]] + t.path, t.outcome)
  }

  /** Each stage of `ns` has one unconditional edge, to the next stage of `ns`, and the last
      one's edge leads to `last`. */
  ghost predicate ChainTo<N, S>(g: Graph<N, S>, ns: seq<N>, last: Target<N>) {
    && (forall i :: 0 <= i < |ns| ==> g.edges(ns[i]).Always?)
    && (forall i :: 0 <= i < |ns| - 1 ==> g.edges(ns[i]).to == Stage(ns[i + 1]))
    && (0 < |ns| ==> g.edges(ns[|ns| - 1]).to == last)
  }

  /** A finished trace carried on from stage `last` (nothing more when `last` is END). */
  function Continue<N, S>(g: Graph<N, S>, t: Trace<N, S>, last: Target<N>, fuel: nat): Trace<N, S> {
    if t.outcome.Finished? && last.Stage? then
      var u := Walk(g, last.name, t.outcome.state, fuel);
      Trace(t.path + u.path, u.outcome)
    else t
  }

  lemma ChainTail<N, S>(g: Graph<N, S>, ns: seq<N>, last: Target<N>)
    requires 1 < |ns|
    requires ChainTo(g, ns, last)
    ensures ChainTo(g, ns[1..], last)
  {
    forall i | 0 <= i < |ns[1..]|
      ensures g.edges(ns[1..][i]).Always?
    {
      assert ns[1..][i] == ns[i + 1];
    }
    forall i | 0 <= i < |ns[1..]| - 1
      ensures g.edges(ns[1..][i]).to == Stage(ns[1..][i + 1])
    {
      assert ns[1..][i] == ns[i + 1] && ns[1..][i + 1] == ns[i + 2];
    }
    assert ns[1..][|ns[1..]| - 1] == ns[|ns| - 1];
  }

  lemma {:induction false} WalkChain<N, S>(g: Graph<N, S>, ns: seq<N>, last: Target<N>, s: S, fuel: nat)
    requires 0 < |ns| <= fuel
    requires ChainTo(g, ns, last)
    ensures Walk(g, ns[0], s, fuel) == Continue(g, Sequence(g, ns, s), last, fuel - |ns|)
    decreases |ns|
  {
    if |ns| == 1 || g.stage(ns[0], s).Failure? {
      WalkChainFirst(g, ns, last, s, fuel);
    } else {
      var s' := g.stage(ns[0], s).value;
      ChainTail(g, ns, last);
      WalkChain(g, ns[1..], last, s', fuel - 1);
      WalkChainStep(g, ns, last, s, s', fuel);
    }
  }

  /** The cases of `WalkChain` that end at the first stage: it raises, or it is the last one. */
  lemma WalkChainFirst<N, S>(g: Graph<N, S>, ns: seq<N>, last: Target<N>, s: S, fuel: nat)
    requires 0 < |ns| <= fuel
    requires ChainTo(g, ns, last)
    requires |ns| == 1 || g.stage(ns[0], s).Failure?
    ensures Walk(g, ns[0], s, fuel) == Continue(g, Sequence(g, ns, s), last, fuel - |ns|)
  {
    match g.stage(ns[0], s)
    case Failure(err) =>
    case Success(s') =>
      assert g.edges(ns[0]).to == last;
      assert Sequence(g, ns, s) == Trace([ns[0]], Finished(s'));
  }

  /** The inductive step of `WalkChain`: one stage, then the rest of the chain. */
  lemma WalkChainStep<N, S>(g: Graph<N, S>, ns: seq<N>, last: Target<N>, s: S, s': S, fuel: nat)
    requires 1 < |ns| <= fuel
    requires g.edges(ns[0]).Always? && g.edges(ns[0]).to == Stage(ns[1])
    requires g.stage(ns[0], s) == Success(s')
    requires Walk(g, ns[1], s', fuel - 1) == Continue(g, Sequence(g, ns[1..], s'), last, fuel - |ns|)
    ensures Walk(g, ns[0], s, fuel) == Continue(g, Sequence(g, ns, s), last, fuel - |ns|)
  {
    var w := Walk(g, ns[1], s', fuel - 1);
    var t := Sequence(g, ns[1..], s');
    var rest := fuel - |ns|;
    calc {
      Walk(g, ns[0], s, fuel);
      { WalkAdvance(g, ns[0], ns[1], s, s', fuel); }
      Trace([ns[0]] + w.path, w.outcome);
      Trace([ns[0]] + Continue(g, t, last, rest).path, Continue(g, t, last, rest).outcome);
      { ContinuePrepend(g, ns[0], t, last, rest); }
      Continue(g, Trace([ns[0]] + t.path, t.outcome), last, rest);
      { SequenceAdvance(g, ns, s, s'); }
      Continue(g, Sequence(g, ns, s), last, rest);
    }
  }

  /** Carrying on from a trace commutes with putting one more stage in front of it. */
  lemma ContinuePrepend<N, S>(g: Graph<N, S>, at: N, t: Trace<N, S>, last: Target<N>, fuel: nat)
    ensures var c := Continue(g, t, last, fuel);
      Continue(g, Trace([at] + t.path, t.outcome), last, fuel) == Trace([at] + c.path, c.outcome)
  {
    if t.outcome.Finished? && last.Stage? {
      var u := Walk(g, last.name, t.outcome.state, fuel);
      assert [at] + (t.path + u.path) == ([at] + t.path) + u.path;
    }
  }

  lemma WalkAdvance<N, S>(g: Graph<N, S>, at: N, m: N, s: S, s': S, fuel: nat)
    requires 0 < fuel
    requires g.edges(at).Always? && g.edges(at).to == Stage(m)
    requires g.stage(at, s) == Success(s')
    ensures var w := Walk(g, m, s', fuel - 1); Walk(g, at, s, fuel) == Trace([at] + w.path, w.outcome)
  {
  }

  lemma SequenceAdvance<N, S>(g: Graph<N, S>, ns: seq<N>, s: S, s': S)
    requires 0 < |ns|
    requires g.stage(ns[0], s) == Success(s')
    ensures var t := Sequence(g, ns[1..], s'); Sequence(g, ns, s) == Trace([ns[0]] + t.path, t.outcome)
  {
  }

  /** The exception `ainvoke` raises for a run that did not finish. */
  function RunError<N, S>(o: Outcome<N, S>): (e: Error)
    requires !o.Finished?
  {
    match o
    case StageFailed(_, _, err) => err
    case RouterFailed(_, _, err) => err
    case UnknownRoute(_, key) => GraphError("no branch for " + key)
    case StepLimit(_) => GraphError("recursion limit reached")
  }

  /** Appending one stage to a sequence runs it on the state the sequence finished with. */
  lemma {:induction false} SequenceSnoc<N, S>(g: Graph<N, S>, ns: seq<N>, n: N, s: S)
    ensures var t := Sequence(g, ns, s);
      Sequence(g, ns + [n], s) ==
        if !t.outcome.Finished? then t
        else match g.stage(n, t.outcome.state)
          case Failure(e) => Trace(ns + [n], StageFailed(n, t.outcome.state, e))
          case Success(y) => Trace(ns + [n], Finished(y))
    decreases |ns|
  {
    if |ns| == 0 {
      assert [] + [n] == [n];
    } else {
      assert (ns + [n])[0] == ns[0] && (ns + [n])[1..] == ns[1..] + [n];
      match g.stage(ns[0], s)
      case Failure(e) =>
      case Success(s') =>
        SequenceSnoc(g, ns[1..], n, s');
        assert [ns[0]] + (ns[1..] + [n]) == ns + [n];
    }
  }

  /** The stages `ns` composed as plain functions: the final state, or the first error. */
  function Fold<N, S>(g: Graph<N, S>, ns: seq<N>, s: S): Result<S, Error> {
    if |ns| == 0 then Success(s)
    else
      match g.stage(ns[0], s)
      case Failure(e) => Failure(e)
      case Success(s') => Fold(g, ns[1..], s')
  }

  /** Running a sequence ends the way composing its stages does. */
  lemma {:induction false} SequenceIsFold<N, S>(g: Graph<N, S>, ns: seq<N>, s: S)
    ensures var o, r := Sequence(g, ns, s).outcome, Fold(g, ns, s);
      && (o.Finished? <==> r.Success?)
      && (o.Finished? ==> o.state == r.value)
      && (o.StageFailed? ==> r == Failure(o.error))
    decreases |ns|
  {
    if |ns| > 0 {
      match g.stage(ns[0], s)
      case Failure(e) =>
      case Success(s') =>
        SequenceAdvance(g, ns, s, s');
        SequenceIsFold(g, ns[1..], s');
    }
  }
}
