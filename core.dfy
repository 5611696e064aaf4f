/** The pipeline topology of a team: one graph node per agent, in the order
    of the team profile, chained from the graph's entry point through every
    agent to its exit point. The graph library is represented only by the
    nodes and edges added to it. */
module Core {
  import opened Python
  import Profiles

  /** An endpoint of an edge: the graph's entry point, its exit point, or
      the node registered under an agent's name. */
  datatype Vertex = Start | End | Agent(name: Value)

  datatype Edge = Edge(source: Vertex, target: Vertex)

  /** What the agent factory is given for one profile: the model name, the
      harness (whose tools the agent may call) and the system prompt. The
      agent built from it is opaque. */
  datatype AgentNode = AgentNode(model: Value, harness: Profiles.Harness, systemPrompt: Value)

  /** A compiled graph: the nodes and the edges it was built with. */
  datatype Pipeline = Pipeline(nodes: seq<(Value, AgentNode)>, edges: seq<Edge>)

  /** The names nodes are registered under, in the order they were added. */
  function Keys(nodes: seq<(Value, AgentNode)>): (keys: seq<Value>)
    ensures |keys| == |nodes| && forall i :: 0 <= i < |nodes| ==> keys[i] == nodes[i].0
  {
    seq(|nodes|, i requires 0 <= i < |nodes| => nodes[i].0)
  }

  /** The message of the graph library's rejection of a name that is
      already registered. A name that is not a string is shown by its type. */
  function AlreadyPresentMessage(name: Value): string
  {
    "Node `" + (if name.Str? then name.s else TypeName(name)) + "` already present."
  }

  /** A graph under construction. Nodes and edges are kept in the order they
      were added. */
  class StateGraph {
    var nodes: seq<(Value, AgentNode)>
    var edges: seq<Edge>

    constructor ()
      ensures nodes == [] && edges == []
    {
      nodes := [];
      edges := [];
    }

    /** Registers `node` under `name`, or raises ValueError, changing
        nothing, when a node is already registered under that name. */
    method AddNode(name: Value, node: AgentNode) returns (error: Option<Exception>)
      modifies this
      ensures error.Some? <==> name in Keys(old(nodes))
      ensures error.Some? ==> error.value == ValueError(AlreadyPresentMessage(name)) && nodes == old(nodes)
      ensures error.None? ==> nodes == old(nodes) + [(name, node)]
      ensures edges == old(edges)
    {
      if name in Keys(nodes) {
        return Some(ValueError(AlreadyPresentMessage(name)));
      }
      nodes := nodes + [(name, node)];
      error := None;
    }

    method AddEdge(source: Vertex, target: Vertex)
      modifies this
      ensures edges == old(edges) + [Edge(source, target)]
      ensures nodes == old(nodes)
    {
      edges := edges + [Edge(source, target)];
    }

    function Compile(): (p: Pipeline)
      reads this
      ensures p.nodes == nodes && p.edges == edges
    {
      Pipeline(nodes, edges)
    }
  }

  /** The arguments of the agent built for one profile. */
  function AgentOf(profile: Profiles.AgentProfile): AgentNode
  {
    AgentNode(profile.model.name, profile.harness, profile.model.systemPrompt)
  }

  function NamesOf(profiles: seq<Profiles.AgentProfile>): (names: seq<Value>)
    ensures |names| == |profiles| && forall i :: 0 <= i < |profiles| ==> names[i] == profiles[i].name
  {
    seq(|profiles|, i requires 0 <= i < |profiles| => profiles[i].name)
  }

  /** One node per profile, keyed by the agent's name, in profile order. */
  function NodesOf(profiles: seq<Profiles.AgentProfile>): (nodes: seq<(Value, AgentNode)>)
    ensures |nodes| == |profiles|
    ensures forall i :: 0 <= i < |profiles| ==> nodes[i] == (profiles[i].name, AgentOf(profiles[i]))
  {
    seq(|profiles|, i requires 0 <= i < |profiles| => (profiles[i].name, AgentOf(profiles[i])))
  }

  /** The `k`-th vertex of the path through `names`: the entry point, the
      agents in order, then the exit point. */
  function PathVertex(names: seq<Value>, k: nat): Vertex
    requires k <= |names| + 1
  {
    if k == 0 then Start
    else if k == |names| + 1 then End
    else Agent(names[k - 1])
  }

  /** The edges of the chain through `names`, each from one vertex of the
      path to the next. */
  function ChainEdges(names: seq<Value>): (edges: seq<Edge>)
    ensures |edges| == |names| + 1
    ensures forall k :: 0 <= k < |edges| ==> edges[k] == Edge(PathVertex(names, k), PathVertex(names, k + 1))
  {
    seq(|names| + 1, k requires 0 <= k < |names| + 1 => Edge(PathVertex(names, k), PathVertex(names, k + 1)))
  }

  predicate DistinctNames(names: seq<Value>)
  {
    forall i, j :: 0 <= i < j < |names| ==> names[i] != names[j]
  }

  lemma DistinctSnoc(names: seq<Value>, name: Value)
    requires DistinctNames(names) && name !in names
    ensures DistinctNames(names + [name])
  {
    var extended := names + [name];
    forall a, b | 0 <= a < b < |extended| ensures extended[a] != extended[b] {
      if b == |names| {
        assert extended[a] == names[a];
      }
    }
  }

  /** The position of the first name that repeats an earlier one, looking
      from position `i` on, where the names before `i` are distinct. */
  function FirstRepeatFrom(names: seq<Value>, i: nat): (r: Option<nat>)
    requires i <= |names| && DistinctNames(names[..i])
    ensures r.None? <==> DistinctNames(names)
    ensures r.Some? ==> && i <= r.value < |names|
                        && names[r.value] in names[..r.value]
                        && DistinctNames(names[..r.value])
    decreases |names| - i
  {
    if i == |names| then
      assert names[..i] == names;
      None
    else if names[i] in names[..i] then
      assert !DistinctNames(names) by {
        var j :| 0 <= j < i && names[..i][j] == names[i];
        assert names[j] == names[i];
      }
      Some(i)
    else
      assert names[..i + 1] == names[..i] + [names[i]];
      DistinctSnoc(names[..i], names[i]);
      FirstRepeatFrom(names, i + 1)
  }

  /** The position of the first name that repeats an earlier one, if any. */
  function FirstRepeat(names: seq<Value>): (r: Option<nat>)
    ensures r.None? <==> DistinctNames(names)
    ensures r.Some? ==> && r.value < |names|
                        && names[r.value] in names[..r.value]
                        && DistinctNames(names[..r.value])
  {
    assert names[..0] == [];
    FirstRepeatFrom(names, 0)
  }

  /** The first repeat is the only position that repeats an earlier name
      while all names before it are distinct. */
  lemma FirstRepeatUnique(names: seq<Value>, k: nat)
    requires k < |names| && names[k] in names[..k] && DistinctNames(names[..k])
    ensures FirstRepeat(names) == Some(k)
  {
    var r := FirstRepeat(names);
    assert r.Some? by {
      var j :| 0 <= j < k && names[..k][j] == names[k];
      assert names[j] == names[k];
    }
  }

  /** What building a team gives: the ValueError of the first repeated agent
      name, the IndexError of an empty team, or the pipeline. */
  function TeamPipeline(team: Profiles.TeamProfile): (r: Result<Pipeline, Exception>)
    ensures r.Ok? <==> |team.agentProfiles| > 0 && DistinctNames(NamesOf(team.agentProfiles))
    ensures r.Err? ==> (r.error.ValueError? <==> !DistinctNames(NamesOf(team.agentProfiles)))
  {
    var names := NamesOf(team.agentProfiles);
    match FirstRepeat(names)
    case Some(k) => Err(ValueError(AlreadyPresentMessage(names[k])))
    case None =>
      if names == [] then Err(IndexError("list index out of range"))
      else Ok(Pipeline(NodesOf(team.agentProfiles), ChainEdges(names)))
  }

  /** The first loop of `build_team`: for each profile, records its name and
      adds its agent's node to the graph, until a name is already present. */
  method AddAgentNodes(graph: StateGraph, profiles: seq<Profiles.AgentProfile>)
    returns (agents: seq<Value>, error: Option<Exception>)
    requires graph.nodes == [] && graph.edges == []
    modifies graph
    ensures error.None? <==> DistinctNames(NamesOf(profiles))
    ensures error.Some? ==> error.value == ValueError(AlreadyPresentMessage(NamesOf(profiles)[FirstRepeat(NamesOf(profiles)).value]))
    ensures error.None? ==> agents == NamesOf(profiles) && graph.nodes == NodesOf(profiles)
    ensures graph.edges == []
  {
    ghost var names := NamesOf(profiles);
    agents := [];
    var i := 0;
    while i < |profiles|
      invariant 0 <= i <= |profiles|
      invariant agents == names[..i] && DistinctNames(agents)
      invariant graph.nodes == NodesOf(profiles[..i])
      invariant graph.edges == []
    {
      var profile := profiles[i];
      var agent := AgentOf(profile);
      assert Keys(graph.nodes) == names[..i];
      error := graph.AddNode(profile.name, agent);
      if error.Some? {
        FirstRepeatUnique(names, i);
        return;
      }
      agents := agents + [profile.name];
      assert names[..i + 1] == names[..i] + [names[i]];
      DistinctSnoc(names[..i], names[i]);
      i := i + 1;
      assert profiles[..i] == profiles[..i - 1] + [profile];
      assert agents == names[..i];
    }
    assert profiles[..i] == profiles;
    assert names[..i] == names;
    error := None;
  }

  /** The edges of `build_team`: from the entry point to the first agent,
      between each pair of consecutive agents, and from the last agent to the
      exit point. */
  method AddChainEdges(graph: StateGraph, agents: seq<Value>)
    requires |agents| > 0 && graph.edges == []
    modifies graph
    ensures graph.edges == ChainEdges(agents)
    ensures graph.nodes == old(graph.nodes)
  {
    ghost var chain := ChainEdges(agents);
    graph.AddEdge(Start, Agent(agents[0]));
    var k := 0;
    while k < |agents| - 1
      invariant 0 <= k <= |agents| - 1
      invariant graph.nodes == old(graph.nodes)
      invariant graph.edges == chain[..k + 1]
    {
      graph.AddEdge(Agent(agents[k]), Agent(agents[k + 1]));
      assert chain[..k + 2] == chain[..k + 1] + [chain[k + 1]];
      k := k + 1;
    }
    graph.AddEdge(Agent(agents[|agents| - 1]), End);
    assert chain == chain[..|agents|] + [chain[|agents|]];
  }

  /** `build_team`: adds a node per agent, then the chain of edges. A
      repeated agent name fails at its node; an empty team fails at the first
      edge. */
  method BuildTeam(team: Profiles.TeamProfile) returns (r: Result<Pipeline, Exception>)
    ensures r == TeamPipeline(team)
    ensures r.Err? <==> team.agentProfiles == [] || !DistinctNames(NamesOf(team.agentProfiles))
    ensures r.Err? ==> (r.error.IndexError? <==> team.agentProfiles == [])
    ensures r.Err? ==> (r.error.ValueError? <==> !DistinctNames(NamesOf(team.agentProfiles)))
    ensures r.Ok? ==> r.value.nodes == NodesOf(team.agentProfiles)
    ensures r.Ok? ==> r.value.edges == ChainEdges(NamesOf(team.agentProfiles))
  {
    var graph := new StateGraph();
    var agents, error := AddAgentNodes(graph, team.agentProfiles);
    if error.Some? {
      return Err(error.value);
    }
    if |agents| == 0 {
      return Err(IndexError("list index out of range"));
    }
    AddChainEdges(graph, agents);
    r := Ok(graph.Compile());
  }

  // ---------------------------------------------------------------------
  // The shape of the chain
  // ---------------------------------------------------------------------

  /** The entry point has exactly one outgoing edge, to the first agent, and
      no incoming edge. */
  lemma StartEdges(names: seq<Value>, e: Edge)
    requires |names| > 0 && e in ChainEdges(names)
    ensures e.source == Start <==> e == Edge(Start, Agent(names[0]))
    ensures e.target != Start
  {
  }

  /** The exit point has exactly one incoming edge, from the last agent, and
      no outgoing edge. */
  lemma EndEdges(names: seq<Value>, e: Edge)
    requires |names| > 0 && e in ChainEdges(names)
    ensures e.target == End <==> e == Edge(Agent(names[|names| - 1]), End)
    ensures e.source != End
  {
  }

  /** An edge between two agents joins consecutive agents, and every pair of
      consecutive agents is joined. */
  lemma AgentEdges(names: seq<Value>, a: Value, b: Value)
    ensures Edge(Agent(a), Agent(b)) in ChainEdges(names)
            <==> exists i :: 0 <= i < |names| - 1 && names[i] == a && names[i + 1] == b
  {
    var edges := ChainEdges(names);
    if Edge(Agent(a), Agent(b)) in edges {
      var k :| 0 <= k < |edges| && edges[k] == Edge(Agent(a), Agent(b));
      assert names[k - 1] == a && names[k] == b;
    }
    if i :| 0 <= i < |names| - 1 && names[i] == a && names[i + 1] == b {
      assert edges[i + 1] == Edge(Agent(a), Agent(b));
    }
  }

  /** The position of a vertex along the path: the entry point first, the
      exit point last; an agent is placed at the first occurrence of its
      name, and a name not in the chain is placed with the exit point. */
  function Rank(names: seq<Value>, v: Vertex): nat
  {
    match v
    case Start => 0
    case End => |names| + 1
    case Agent(name) => if name in names then Profiles.ListIndex(names, name) + 1 else |names| + 1
  }

  /** With distinct agent names every edge goes one step forward along the
      path, so the chain has no cycle. */
  lemma {:induction false} EdgesGoForward(names: seq<Value>, e: Edge)
    requires DistinctNames(names) && e in ChainEdges(names)
    ensures Rank(names, e.target) == Rank(names, e.source) + 1
  {
    var edges := ChainEdges(names);
    var k :| 0 <= k < |edges| && edges[k] == e;
    PathVertexRank(names, k);
    PathVertexRank(names, k + 1);
  }

  lemma PathVertexRank(names: seq<Value>, k: nat)
    requires DistinctNames(names) && k <= |names| + 1
    ensures Rank(names, PathVertex(names, k)) == k
  {
    if 0 < k <= |names| {
      var i := Profiles.ListIndex(names, names[k - 1]);
      assert i == k - 1;
    }
  }

  /** With distinct agent names no vertex has two outgoing or two incoming
      edges: the chain has no branch. */
  lemma NoBranches(names: seq<Value>, e1: Edge, e2: Edge)
    requires DistinctNames(names) && e1 in ChainEdges(names) && e2 in ChainEdges(names)
    ensures e1.source == e2.source ==> e1 == e2
    ensures e1.target == e2.target ==> e1 == e2
  {
    var edges := ChainEdges(names);
    var k1 :| 0 <= k1 < |edges| && edges[k1] == e1;
    var k2 :| 0 <= k2 < |edges| && edges[k2] == e2;
    if e1.source == e2.source {
      PathVertexInjective(names, k1, k2);
    }
    if e1.target == e2.target {
      PathVertexInjective(names, k1 + 1, k2 + 1);
    }
  }

  /** With distinct names each vertex occurs once along the path. */
  lemma PathVertexInjective(names: seq<Value>, k1: nat, k2: nat)
    requires DistinctNames(names) && k1 <= |names| + 1 && k2 <= |names| + 1
    requires PathVertex(names, k1) == PathVertex(names, k2)
    ensures k1 == k2
  {
    PathVertexRank(names, k1);
    PathVertexRank(names, k2);
  }

  /** Every edge of a built pipeline joins vertices the graph knows: the
      entry point, the exit point, or a node registered under an agent's
      name. */
  lemma ChainEndpointsRegistered(team: Profiles.TeamProfile, e: Edge)
    requires TeamPipeline(team).Ok? && e in TeamPipeline(team).value.edges
    ensures e.source.Agent? ==> e.source.name in Keys(TeamPipeline(team).value.nodes)
    ensures e.target.Agent? ==> e.target.name in Keys(TeamPipeline(team).value.nodes)
  {
    var p := TeamPipeline(team).value;
    var names := NamesOf(team.agentProfiles);
    assert Keys(p.nodes) == names;
    var k :| 0 <= k < |p.edges| && p.edges[k] == e;
  }

  /** A pipeline that builds is a simple path from the entry point through
      every agent to the exit point: no vertex has two outgoing or two
      incoming edges and every edge moves one step forward. */
  lemma BuiltPipelineIsPath(team: Profiles.TeamProfile, e1: Edge, e2: Edge)
    requires TeamPipeline(team).Ok?
    requires e1 in TeamPipeline(team).value.edges && e2 in TeamPipeline(team).value.edges
    ensures e1.source == e2.source ==> e1 == e2
    ensures e1.target == e2.target ==> e1 == e2
    ensures Rank(NamesOf(team.agentProfiles), e1.target) == Rank(NamesOf(team.agentProfiles), e1.source) + 1
  {
    var names := NamesOf(team.agentProfiles);
    NoBranches(names, e1, e2);
    EdgesGoForward(names, e1);
  }

  // ---------------------------------------------------------------------
  // Evaluating a team
  // ---------------------------------------------------------------------

  /** A chat message of the graph's message state. */
  datatype Message = Message(role: string, content: string)

  /** The conversation a team is started on: the task, as one message from
      the user. */
  function SeedConversation(task: string): (messages: seq<Message>)
    ensures |messages| == 1 && messages[0].role == "user" && messages[0].content == task
  {
    [Message("user", task)]
  }

  /** The record an evaluation returns. */
  datatype Outcome = Outcome(name: Value, messages: seq<Message>, timeTaken: string)

  /** `evaluate`: builds the team's pipeline, runs it on the seed
      conversation and labels the output with the team's name. Running the
      pipeline is the parameter `invoke`; the formatted elapsed time is the
      parameter `timeTaken`. */
  method Evaluate(team: Profiles.TeamProfile, task: string,
                  invoke: (Pipeline, seq<Message>) -> Result<seq<Message>, Exception>, timeTaken: string)
    returns (r: Result<Outcome, Exception>)
    ensures TeamPipeline(team).Err? ==> r == Err(TeamPipeline(team).error)
    ensures TeamPipeline(team).Ok? ==>
              var output := invoke(TeamPipeline(team).value, SeedConversation(task));
              && (r.Err? <==> output.Err?)
              && (r.Err? ==> r.error == output.error)
              && (r.Ok? ==> r.value == Outcome(team.name, output.value, timeTaken))
  {
    var pipeline := BuildTeam(team);
    if pipeline.Err? {
      return Err(pipeline.error);
    }
    var output := invoke(pipeline.value, SeedConversation(task));
    if output.Err? {
      return Err(output.error);
    }
    r := Ok(Outcome(team.name, output.value, timeTaken));
  }
}
