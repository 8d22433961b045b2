/** The graph builders of cfviz.py: `extract_graph`, `handle_terminals`,
    `handle_psuedo_params` and the composition that `main` performs once the template
    is loaded.  A graph is a dict that the builders update in place; here it is a `Graph`
    object, and a subgraph, once appended to its parent, is kept as a `GraphValue`. */
module Graphs {
  import opened Results
  import opened Values
  import opened References
  import opened ReferenceLaws

  const ResourcesKey := "Resources"
  const ParametersKey := "Parameters"
  const OutputsKey := "Outputs"
  const DescriptionKey := "Description"
  const TerminalStyle := "filled,rounded"
  const PseudoPrefix := "AWS::"
  const PseudoGraphName := "Psuedo Parameters"
  const PseudoShape := "ellipse"

  /** `{'name': item}` */
  datatype Node = Node(name: string)

  /** Why building the graph stops: the walk raised, `.items()`/`.get` reached a value that
      is not a dict, `template['Resources']` is missing, or an edge origin has no
      `startswith` because it is not a string. */
  datatype BuildError =
    | WalkFailed(cause: Error)
    | NotAMapping(found: Value)
    | MissingKey(key: string)
    | FromNotString(found: Value)

  /** A graph dict as a value: the optional `shape`, `style` and `rank` keys are `Option`s. */
  datatype GraphValue = GraphValue(
    name: Value,
    nodes: seq<Node>,
    edges: seq<Edge>,
    subgraphs: seq<GraphValue>,
    shape: Option<string>,
    style: Option<string>,
    rank: Option<string>)

  class Graph {
    var name: Value
    var nodes: seq<Node>
    var edges: seq<Edge>
    var subgraphs: seq<GraphValue>
    var shape: Option<string>
    var style: Option<string>
    var rank: Option<string>

    /** `{'name': name, 'nodes': [], 'edges': [], 'subgraphs': []}` */
    constructor (name: Value)
      ensures this.name == name && nodes == [] && edges == [] && subgraphs == []
      ensures shape == None && style == None && rank == None
    {
      this.name := name;
      nodes, edges, subgraphs := [], [], [];
      shape, style, rank := None, None, None;
    }

    function Snapshot(): GraphValue
      reads this
    {
      GraphValue(name, nodes, edges, subgraphs, shape, style, rank)
    }
  }

  // ---- Specification of extract_graph ----

  /** One node per key of the section, in the section's order. */
  function NodesOf(entries: seq<Entry>): seq<Node> {
    if entries == [] then []
    else NodesOf(entries[..|entries| - 1]) + [Node(entries[|entries| - 1].key)]
  }

  /** The edges of every item of a section, each walked with its own key as context,
      concatenated in the section's order; the first item whose walk raises stops it. */
  function SectionRefs(entries: seq<Entry>): Result<seq<Edge>, Error> {
    if entries == [] then Success([])
    else
      var last := entries[|entries| - 1];
      Concat(SectionRefs(entries[..|entries| - 1]), FindRefs(last.key, last.value))
  }

  /** A graph with a node for every key and nothing else, as `extract_graph` returns it. */
  function SectionGraph(name: Value, entries: seq<Entry>): GraphValue {
    GraphValue(name, NodesOf(entries), [], [], None, None, None)
  }

  /** `extract_graph(name, elem)`: the section graph and, separately, the section's edges. */
  method ExtractGraph(name: Value, elem: Value) returns (r: Result<(Graph, seq<Edge>), BuildError>)
    ensures !elem.Map? ==> r == Failure(NotAMapping(elem))
    ensures elem.Map? ==> (r.Success? <==> SectionRefs(elem.entries).Success?)
    ensures elem.Map? && r.Failure? ==> r.error == WalkFailed(SectionRefs(elem.entries).error)
    ensures r.Success? ==>
              elem.Map? && fresh(r.value.0) &&
              r.value.0.Snapshot() == SectionGraph(name, elem.entries) &&
              r.value.1 == SectionRefs(elem.entries).value
  {
    if !elem.Map? {
      return Failure(NotAMapping(elem));
    }
    var entries := elem.entries;
    var graph := new Graph(name);
    var edges: seq<Edge> := [];
    var i := 0;
    while i < |entries|
      invariant 0 <= i <= |entries|
      invariant SectionRefs(entries[..i]) == Success(edges)
      invariant graph.Snapshot() == SectionGraph(name, entries[..i])
    {
      var item, details := entries[i].key, entries[i].value;
      assert entries[..i + 1][..i] == entries[..i];
      graph.nodes := graph.nodes + [Node(item)];
      var found := FindRefs(item, details);
      if found.Failure? {
        SectionConcat(entries[..i + 1], entries[i + 1..]);
        assert entries[..i + 1] + entries[i + 1..] == entries;
        return Failure(WalkFailed(found.error));
      }
      edges := edges + found.value;
      i := i + 1;
    }
    assert entries[..i] == entries;
    return Success((graph, edges));
  }

  lemma {:induction false} SectionConcat(a: seq<Entry>, b: seq<Entry>)
    ensures SectionRefs(a + b) == Concat(SectionRefs(a), SectionRefs(b))
    decreases |b|
  {
    if b == [] {
      assert a + b == a;
      ConcatEmpty(SectionRefs(a));
    } else {
      var n := |b|;
      var last := b[n - 1];
      assert (a + b)[..|a + b| - 1] == a + b[..n - 1];
      assert (a + b)[|a + b| - 1] == last;
      SectionConcat(a, b[..n - 1]);
      ConcatAssoc(SectionRefs(a), SectionRefs(b[..n - 1]), FindRefs(last.key, last.value));
    }
  }

  // ---- Properties of a section ----

  /** `extract_graph` gives exactly one node per key, in key order. */
  lemma {:induction false} NodesFollowKeys(entries: seq<Entry>)
    ensures |NodesOf(entries)| == |entries|
    ensures forall i :: 0 <= i < |entries| ==> NodesOf(entries)[i] == Node(entries[i].key)
  {
    if entries != [] {
      var init := entries[..|entries| - 1];
      NodesFollowKeys(init);
      assert forall i :: 0 <= i < |init| ==> init[i] == entries[i];
    }
  }

  /** Every edge of a section points at one of the section's own keys. */
  lemma {:induction false} SectionTargets(entries: seq<Entry>)
    requires SectionRefs(entries).Success?
    ensures forall e :: e in SectionRefs(entries).value ==> HasKey(entries, e.to)
  {
    if entries != [] {
      var n := |entries|;
      var init, last := entries[..n - 1], entries[n - 1];
      SectionTargets(init);
      forall e | e in SectionRefs(entries).value
        ensures HasKey(entries, e.to)
      {
        if e in SectionRefs(init).value {
          var i :| 0 <= i < |init| && init[i].key == e.to;
          assert entries[i].key == e.to;
        } else {
          assert e.to == entries[n - 1].key;
        }
      }
    }
  }

  /** A section's walk raises exactly when some item holds a malformed reference construct
      or a `null`. */
  lemma {:induction false} SectionSucceeds(entries: seq<Entry>)
    ensures SectionRefs(entries).Success? <==>
            forall i :: 0 <= i < |entries| ==> WellShaped(entries[i].value)
  {
    if entries != [] {
      var n := |entries|;
      var init, last := entries[..n - 1], entries[n - 1];
      SectionSucceeds(init);
      FindRefsSucceeds(last.key, last.value);
      assert forall i :: 0 <= i < n - 1 ==> init[i] == entries[i];
    }
  }

  /** An empty section gives no nodes and no edges. */
  lemma EmptySection(name: Value)
    ensures SectionGraph(name, []).nodes == [] && SectionRefs([]) == Success([])
  {
  }

  // ---- handle_terminals ----

  /** A section's walk with its failure reported as a build error. */
  function Lift(r: Result<seq<Edge>, Error>): Result<seq<Edge>, BuildError> {
    match r
    case Success(edges) => Success(edges)
    case Failure(e) => Failure(WalkFailed(e))
  }

  /** The edges that `handle_terminals` adds for section `name`: none when the template has
      no such key, otherwise that section's edges (or the reason extracting it raises). */
  function TerminalRefs(template: seq<Entry>, name: string): Result<seq<Edge>, BuildError> {
    match Lookup(template, name)
    case None => Success([])
    case Some(section) =>
      if section.Map? then Lift(SectionRefs(section.entries)) else Failure(NotAMapping(section))
  }

  /** The styled subgraph that `handle_terminals` appends for a present section. */
  function TerminalGraph(name: string, rank: string, entries: seq<Entry>): GraphValue {
    SectionGraph(Str(name), entries).(style := Some(TerminalStyle), rank := Some(rank))
  }

  /** The graph `g` after `handle_terminals` has added section `name` with rank `rank`:
      unchanged when the template has no such section, otherwise with the section's styled
      subgraph appended to its subgraphs and the section's edges to its edges. */
  function AfterTerminal(g: GraphValue, template: seq<Entry>, name: string, rank: string): GraphValue
    requires TerminalRefs(template, name).Success?
  {
    match Lookup(template, name)
    case Some(Map(entries)) =>
      g.(subgraphs := g.subgraphs + [TerminalGraph(name, rank, entries)],
         edges := g.edges + TerminalRefs(template, name).value)
    case _ => g
  }

  /** `handle_terminals(template, graph, name, rank)`; when extracting the section raises,
      the graph is left as it was. */
  method HandleTerminals(template: seq<Entry>, graph: Graph, name: string, rank: string)
    returns (r: Result<(), BuildError>)
    modifies graph
    ensures r.Success? <==> TerminalRefs(template, name).Success?
    ensures r.Failure? ==> r.error == TerminalRefs(template, name).error
    ensures !HasKey(template, name) ==> r.Success? && graph.Snapshot() == old(graph.Snapshot())
    ensures graph.Snapshot() ==
              if r.Success? then AfterTerminal(old(graph.Snapshot()), template, name, rank)
              else old(graph.Snapshot())
  {
    var section := Lookup(template, name);
    if section.None? {
      return Success(());
    }
    var extracted := ExtractGraph(Str(name), section.value);
    if extracted.Failure? {
      return Failure(extracted.error);
    }
    var subgraph, edges := extracted.value.0, extracted.value.1;
    subgraph.rank := Some(rank);
    subgraph.style := Some(TerminalStyle);
    graph.subgraphs := graph.subgraphs + [subgraph.Snapshot()];
    graph.edges := graph.edges + edges;
    return Success(());
  }

  // ---- handle_psuedo_params ----

  /** The distinct edge origins that carry the pseudo-parameter prefix. */
  function PseudoNames(edges: seq<Edge>): set<string> {
    set e | e in edges && e.from.Str? && PseudoPrefix <= e.from.text :: e.from.text
  }

  predicate Distinct(nodes: seq<Node>) {
    forall i, j :: 0 <= i < j < |nodes| ==> nodes[i] != nodes[j]
  }

  function NodeNames(nodes: seq<Node>): set<string> {
    set n | n in nodes :: n.name
  }

  /** What `handle_psuedo_params(edges)` returns: an ellipse-shaped graph without edges or
      subgraphs whose nodes are the pseudo-parameter origins, each once, in any order. */
  predicate IsPseudoGraph(g: GraphValue, edges: seq<Edge>) {
    g.name == Str(PseudoGraphName) && g.edges == [] && g.subgraphs == [] &&
    g.shape == Some(PseudoShape) && g.style == None && g.rank == None &&
    Distinct(g.nodes) && NodeNames(g.nodes) == PseudoNames(edges)
  }

  lemma NodeNamesAppend(nodes: seq<Node>, n: Node)
    ensures NodeNames(nodes + [n]) == NodeNames(nodes) + {n.name}
  {
    assert forall m :: m in nodes + [n] <==> m in nodes || m == n;
  }

  predicate AllFromsAreStrings(edges: seq<Edge>) {
    forall i :: 0 <= i < |edges| ==> edges[i].from.Str?
  }

  /** `handle_psuedo_params(edges)`; it raises at the first edge whose origin is not a string. */
  method HandlePseudoParams(edges: seq<Edge>) returns (r: Result<Graph, BuildError>)
    ensures r.Success? <==> AllFromsAreStrings(edges)
    ensures r.Failure? ==>
              exists i :: 0 <= i < |edges| && !edges[i].from.Str? && AllFromsAreStrings(edges[..i]) &&
                          r.error == FromNotString(edges[i].from)
    ensures r.Success? ==> fresh(r.value) && IsPseudoGraph(r.value.Snapshot(), edges)
  {
    var params: set<string> := {};
    var i := 0;
    while i < |edges|
      invariant 0 <= i <= |edges|
      invariant AllFromsAreStrings(edges[..i])
      invariant params == PseudoNames(edges[..i])
    {
      var from := edges[i].from;
      assert edges[..i + 1] == edges[..i] + [edges[i]];
      if !from.Str? {
        return Failure(FromNotString(from));
      }
      if PseudoPrefix <= from.text {
        params := params + {from.text};
      }
      i := i + 1;
    }
    assert edges[..i] == edges;
    var graph := new Graph(Str(PseudoGraphName));
    graph.shape := Some(PseudoShape);
    var rest := params;
    while rest != {}
      invariant rest <= params
      invariant Distinct(graph.nodes)
      invariant NodeNames(graph.nodes) == params - rest
      invariant graph.name == Str(PseudoGraphName) && graph.edges == [] && graph.subgraphs == []
      invariant graph.shape == Some(PseudoShape) && graph.style == None && graph.rank == None
      decreases rest
    {
      var n :| n in rest;
      NodeNamesAppend(graph.nodes, Node(n));
      graph.nodes := graph.nodes + [Node(n)];
      rest := rest - {n};
    }
    return Success(graph);
  }

  // ---- main, once the template is loaded ----

  /** `template.get('Description', '')` */
  function Description(template: seq<Entry>): (r: Value)
    ensures !HasKey(template, DescriptionKey) ==> r == Str("")
    ensures forall i :: 0 <= i < |template| && template[i].key == DescriptionKey && DistinctKeys(template) ==>
              r == template[i].value
  {
    LookupAll(template);
    match Lookup(template, DescriptionKey)
    case Some(v) => v
    case None => Str("")
  }

  /** The edges of the `Resources` section, which the template must have. */
  function ResourceRefs(template: seq<Entry>): Result<seq<Edge>, BuildError> {
    match Lookup(template, ResourcesKey)
    case None => Failure(MissingKey(ResourcesKey))
    case Some(section) =>
      if section.Map? then Lift(SectionRefs(section.entries)) else Failure(NotAMapping(section))
  }

  /** Every edge of the finished graph: the resources' edges, then those of `Parameters`,
      then those of `Outputs`. */
  function AllRefs(template: seq<Entry>): Result<seq<Edge>, BuildError> {
    Concat(Concat(ResourceRefs(template), TerminalRefs(template, ParametersKey)),
           TerminalRefs(template, OutputsKey))
  }

  /** The terminal subgraph a present section contributes, or nothing. */
  function TerminalList(template: seq<Entry>, name: string, rank: string): seq<GraphValue> {
    match Lookup(template, name)
    case Some(Map(entries)) => [TerminalGraph(name, rank, entries)]
    case _ => []
  }

  /** What lines 16-21 of `main` leave in the top-level graph: the description as its
      name, one node per resource, every edge of `AllRefs` in that order, the subgraphs of
      the present `Parameters` (rank `source`) and `Outputs` (rank `sink`) sections, and last
      the pseudo-parameter subgraph of all those edges. */
  predicate Composed(g: GraphValue, template: seq<Entry>) {
    ResourceRefs(template).Success? && AllRefs(template).Success? &&
    g.name == Description(template) &&
    g.nodes == NodesOf(Lookup(template, ResourcesKey).value.entries) &&
    g.edges == AllRefs(template).value &&
    g.shape == None && g.style == None && g.rank == None &&
    |g.subgraphs| > 0 &&
    g.subgraphs[..|g.subgraphs| - 1] ==
      TerminalList(template, ParametersKey, "source") + TerminalList(template, OutputsKey, "sink") &&
    IsPseudoGraph(g.subgraphs[|g.subgraphs| - 1], g.edges)
  }

  /** Lines 16-21 of `main`, from the loaded template to the graph handed to `render`. */
  method BuildGraph(template: Value) returns (r: Result<Graph, BuildError>)
    ensures !template.Map? ==> r == Failure(NotAMapping(template))
    ensures template.Map? && AllRefs(template.entries).Failure? ==>
              r == Failure(AllRefs(template.entries).error)
    ensures template.Map? && AllRefs(template.entries).Success? ==>
              (r.Success? <==> AllFromsAreStrings(AllRefs(template.entries).value))
    ensures r.Failure? && template.Map? && AllRefs(template.entries).Success? ==>
              r.error.FromNotString?
    ensures r.Success? ==> template.Map? && fresh(r.value) && Composed(r.value.Snapshot(), template.entries)
  {
    if !template.Map? {
      return Failure(NotAMapping(template));
    }
    var t := template.entries;
    var resources := Lookup(t, ResourcesKey);
    if resources.None? {
      return Failure(MissingKey(ResourcesKey));
    }
    var extracted := ExtractGraph(Description(t), resources.value);
    if extracted.Failure? {
      return Failure(extracted.error);
    }
    var graph, edges := extracted.value.0, extracted.value.1;
    graph.edges := graph.edges + edges;
    assert graph.edges == edges;
    assert ResourceRefs(t) == Lift(SectionRefs(resources.value.entries));
    var finished := FinishGraph(t, graph);
    if finished.Failure? {
      return Failure(finished.error);
    }
    return Success(graph);
  }

  /** Lines 19-21 of `main`: the two terminal sections and the pseudo-parameter subgraph
      added to the resources graph. */
  method FinishGraph(t: seq<Entry>, graph: Graph) returns (r: Result<(), BuildError>)
    requires ResourceRefs(t) == Success(graph.edges)
    requires graph.Snapshot() ==
               SectionGraph(Description(t), Lookup(t, ResourcesKey).value.entries).(edges := graph.edges)
    modifies graph
    ensures AllRefs(t).Failure? ==> r == Failure(AllRefs(t).error)
    ensures AllRefs(t).Success? ==> (r.Success? <==> AllFromsAreStrings(AllRefs(t).value))
    ensures r.Failure? && AllRefs(t).Success? ==> r.error.FromNotString?
    ensures r.Success? ==> Composed(graph.Snapshot(), t)
  {
    ghost var g0 := graph.Snapshot();
    var parameters := HandleTerminals(t, graph, ParametersKey, "source");
    if parameters.Failure? {
      return Failure(parameters.error);
    }
    ghost var g1 := graph.Snapshot();
    var outputs := HandleTerminals(t, graph, OutputsKey, "sink");
    if outputs.Failure? {
      return Failure(outputs.error);
    }
    ComposeEdges(t, g0, g1, graph.Snapshot());
    var pseudo := HandlePseudoParams(graph.edges);
    if pseudo.Failure? {
      return Failure(pseudo.error);
    }
    ghost var g2 := graph.Snapshot();
    graph.subgraphs := graph.subgraphs + [pseudo.value.Snapshot()];
    ComposeGraph(t, g0, g2, pseudo.value.Snapshot());
    return Success(());
  }

  /** The edges gathered after both terminal sections are `AllRefs`. */
  lemma ComposeEdges(t: seq<Entry>, g0: GraphValue, g1: GraphValue, g2: GraphValue)
    requires ResourceRefs(t) == Success(g0.edges)
    requires TerminalRefs(t, ParametersKey).Success? && TerminalRefs(t, OutputsKey).Success?
    requires g1 == AfterTerminal(g0, t, ParametersKey, "source")
    requires g2 == AfterTerminal(g1, t, OutputsKey, "sink")
    ensures AllRefs(t) == Success(g2.edges)
  {
    AfterTerminalEdges(g0, t, ParametersKey, "source");
    AfterTerminalEdges(g1, t, OutputsKey, "sink");
  }

  lemma AfterTerminalEdges(g: GraphValue, t: seq<Entry>, name: string, rank: string)
    requires TerminalRefs(t, name).Success?
    ensures AfterTerminal(g, t, name, rank).edges == g.edges + TerminalRefs(t, name).value
  {
    if Lookup(t, name).None? {
      assert g.edges + [] == g.edges;
    }
  }

  /** The finished graph is `Composed`. */
  lemma ComposeGraph(t: seq<Entry>, g0: GraphValue, g2: GraphValue, pseudo: GraphValue)
    requires ResourceRefs(t) == Success(g0.edges)
    requires Lookup(t, ResourcesKey).Some? && Lookup(t, ResourcesKey).value.Map?
    requires g0 == SectionGraph(Description(t), Lookup(t, ResourcesKey).value.entries).(edges := g0.edges)
    requires TerminalRefs(t, ParametersKey).Success? && TerminalRefs(t, OutputsKey).Success?
    requires g2 == AfterTerminal(AfterTerminal(g0, t, ParametersKey, "source"), t, OutputsKey, "sink")
    requires AllRefs(t) == Success(g2.edges)
    requires IsPseudoGraph(pseudo, g2.edges)
    ensures Composed(g2.(subgraphs := g2.subgraphs + [pseudo]), t)
  {
    var g := g2.(subgraphs := g2.subgraphs + [pseudo]);
    assert g.subgraphs[..|g.subgraphs| - 1] == g2.subgraphs;
  }

  // ---- Properties of the whole graph ----

  /** `key` is an item of section `name` of the template. */
  predicate InSection(template: seq<Entry>, name: string, key: string) {
    match Lookup(template, name)
    case Some(Map(entries)) => HasKey(entries, key)
    case _ => false
  }

  lemma TerminalTargets(template: seq<Entry>, name: string)
    requires TerminalRefs(template, name).Success?
    ensures forall e :: e in TerminalRefs(template, name).value ==> InSection(template, name, e.to)
  {
    var section := Lookup(template, name);
    if section.Some? {
      SectionTargets(section.value.entries);
    }
  }

  /** Every edge of the finished graph points at a declared resource, parameter or output:
      the `to` end of each edge is always a node of the graph or of one of its subgraphs. */
  lemma EdgeTargetsDeclared(template: seq<Entry>)
    requires AllRefs(template).Success?
    ensures forall e :: e in AllRefs(template).value ==>
              InSection(template, ResourcesKey, e.to) || InSection(template, ParametersKey, e.to) ||
              InSection(template, OutputsKey, e.to)
  {
    var section := Lookup(template, ResourcesKey);
    SectionTargets(section.value.entries);
    TerminalTargets(template, ParametersKey);
    TerminalTargets(template, OutputsKey);
  }

  /** A template whose `Resources` section is empty and which has no `Parameters` or
      `Outputs` section gives no nodes and no edges, whatever else it holds. */
  lemma EmptyTemplate(t: seq<Entry>)
    requires Lookup(t, ResourcesKey) == Some(Map([]))
    requires !HasKey(t, ParametersKey) && !HasKey(t, OutputsKey)
    ensures AllRefs(t) == Success([])
    ensures NodesOf(Lookup(t, ResourcesKey).value.entries) == []
  {
    assert ResourceRefs(t) == Success([]);
    var none: seq<Edge> := [];
    assert none + none == none;
  }

  /** A bucket and a policy whose target is `{"Ref": "Bucket"}`: two nodes, one edge. */
  lemma BucketPolicyExample()
    ensures var bucket := Entry("Bucket", Map([Entry("Type", Str("X"))]));
            var target := Map([Entry("Target", Map([Entry(RefKey, Str("Bucket"))]))]);
            var policy := Entry("Policy", Map([Entry("Type", Str("Y")), Entry("Properties", target)]));
            var t := [Entry(ResourcesKey, Map([bucket, policy]))];
            AllRefs(t) == Success([Edge(Str("Bucket"), "Policy")]) &&
            NodesOf([bucket, policy]) == [Node("Bucket"), Node("Policy")]
  {
    var bucket := Entry("Bucket", Map([Entry("Type", Str("X"))]));
    var reference := Map([Entry(RefKey, Str("Bucket"))]);
    var target := Map([Entry("Target", reference)]);
    var policy := Entry("Policy", Map([Entry("Type", Str("Y")), Entry("Properties", target)]));
    var t := [Entry(ResourcesKey, Map([bucket, policy]))];
    OtherKeyTransparent("Bucket", "Type", Str("X"));
    RefShape("Policy", Str("Bucket"));
    OtherKeyTransparent("Policy", "Target", reference);
    OtherKeyTransparent("Policy", "Properties", target);
    OtherKeyTransparent("Policy", "Type", Str("Y"));
    MapConcat("Policy", [Entry("Type", Str("Y"))], [Entry("Properties", target)]);
    assert [Entry("Type", Str("Y"))] + [Entry("Properties", target)] == policy.value.entries;
    EmptyConcat(FindRefs("Policy", target));
    assert FindRefs("Bucket", bucket.value) == Success([]);
    assert FindRefs("Policy", policy.value) == Success([Edge(Str("Bucket"), "Policy")]);
    assert [bucket, policy][..1] == [bucket];
    assert [bucket][..0] == [];
    assert SectionRefs([bucket]) == Success([]);
    EmptyConcat(FindRefs("Policy", policy.value));
    assert SectionRefs([bucket, policy]) == Success([Edge(Str("Bucket"), "Policy")]);
    assert NodesOf([bucket]) == [Node("Bucket")];
    assert Lookup(t, ResourcesKey) == Some(Map([bucket, policy]));
    assert !HasKey(t, ParametersKey) && !HasKey(t, OutputsKey);
    assert ResourceRefs(t) == Success([Edge(Str("Bucket"), "Policy")]);
    ConcatEmpty(ResourceRefs(t));
    ConcatEmpty(Concat(ResourceRefs(t), TerminalRefs(t, ParametersKey)));
  }
}
