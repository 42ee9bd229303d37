/** Workflow definitions and, stated declaratively, what makes one executable. */
module Definitions {
  import opened Ids
  import opened Json
  import opened Graphs
  import opened InlineConfig

  datatype NodeType =
    | Input | Output | Agent | Supervisor | Tool | Condition | Parallel | Join | BoundedLoop
    | Subworkflow | Timer | Event | Handoff | Approval | RequestInformation

  datatype Branch = Default | WhenTrue | WhenFalse | Continue | Exit | Approved | Denied

  /**
   * `hasRoute` and `hasPolicy` say that the node names a model route and a policy bundle;
   * `hasReference` says that Python's UUID parser accepts the tool or deployment id in its
   * configuration.
   */
  datatype Node = Node(
    id: Id, kind: NodeType, config: map<string, Json>, timeout: nat, hasRoute: bool, hasPolicy: bool, hasReference: bool)

  datatype Edge = Edge(id: Id, source: Id, target: Id, branch: Branch)

  datatype Definition = Definition(
    entry: Id, nodes: seq<Node>, edges: seq<Edge>, maxSteps: nat, maxDuration: nat)

  const WAIT_KINDS: set<NodeType> := {Timer, Event, Approval, RequestInformation}
  const UNSUPPORTED: set<NodeType> := {Supervisor, Handoff}

  /** `nodes_by_id`: a later node with the same id replaces an earlier one. */
  function NodesById(nodes: seq<Node>): map<Id, Node> {
    if nodes == [] then map[]
    else NodesById(nodes[..|nodes| - 1])[nodes[|nodes| - 1].id := nodes[|nodes| - 1]]
  }

  lemma {:induction false} NodesByIdMembers(nodes: seq<Node>)
    ensures forall n | n in nodes :: n.id in NodesById(nodes)
    ensures forall i | i in NodesById(nodes) :: NodesById(nodes)[i] in nodes && NodesById(nodes)[i].id == i
  {
    if nodes != [] {
      var n := |nodes| - 1;
      assert nodes == nodes[..n] + [nodes[n]];
      NodesByIdMembers(nodes[..n]);
    }
  }

  function NodeIds(d: Definition): (ids: set<Id>)
    ensures forall n | n in d.nodes :: n.id in ids
  {
    NodesByIdMembers(d.nodes);
    NodesById(d.nodes).Keys
  }

  function NodeAt(d: Definition, id: Id): (n: Node)
    requires id in NodeIds(d)
    ensures n in d.nodes && n.id == id
  {
    NodesByIdMembers(d.nodes);
    NodesById(d.nodes)[id]
  }

  function Outgoing(edges: seq<Edge>, id: Id): seq<Edge> {
    if edges == [] then []
    else
      var n := |edges| - 1;
      Outgoing(edges[..n], id) + if edges[n].source == id then [edges[n]] else []
  }

  function Incoming(edges: seq<Edge>, id: Id): seq<Edge> {
    if edges == [] then []
    else
      var n := |edges| - 1;
      Incoming(edges[..n], id) + if edges[n].target == id then [edges[n]] else []
  }

  lemma FilterSnoc(edges: seq<Edge>, e: Edge, id: Id)
    ensures Outgoing(edges + [e], id) == Outgoing(edges, id) + if e.source == id then [e] else []
    ensures Incoming(edges + [e], id) == Incoming(edges, id) + if e.target == id then [e] else []
  {
    assert (edges + [e])[..|edges|] == edges;
  }

  lemma {:induction false} OutgoingMembers(edges: seq<Edge>, id: Id)
    ensures forall e :: e in Outgoing(edges, id) <==> e in edges && e.source == id
  {
    if edges != [] {
      var n := |edges| - 1;
      assert edges == edges[..n] + [edges[n]];
      OutgoingMembers(edges[..n], id);
    }
  }

  lemma {:induction false} IncomingMembers(edges: seq<Edge>, id: Id)
    ensures forall e :: e in Incoming(edges, id) <==> e in edges && e.target == id
  {
    if edges != [] {
      var n := |edges| - 1;
      assert edges == edges[..n] + [edges[n]];
      IncomingMembers(edges[..n], id);
    }
  }

  predicate Known(e: Edge, ids: set<Id>) {
    e.source in ids && e.target in ids
  }

  /** The edges whose two ends exist, which is all the validator builds its lists from. */
  function KnownEdges(edges: seq<Edge>, ids: set<Id>): seq<Edge> {
    if edges == [] then []
    else
      var n := |edges| - 1;
      KnownEdges(edges[..n], ids) + if Known(edges[n], ids) then [edges[n]] else []
  }

  lemma {:induction false} KnownEdgesMembers(edges: seq<Edge>, ids: set<Id>)
    ensures forall e :: e in KnownEdges(edges, ids) <==> e in edges && Known(e, ids)
    ensures (forall e | e in edges :: Known(e, ids)) <==> KnownEdges(edges, ids) == edges
  {
    if edges != [] {
      var n := |edges| - 1;
      assert edges == edges[..n] + [edges[n]];
      KnownEdgesMembers(edges[..n], ids);
    }
  }

  function ArcsWithin(edges: seq<Edge>, ids: set<Id>): (arcs: Arcs)
    ensures forall a, b :: (a, b) in arcs <==>
                           a in ids && b in ids && exists e | e in edges :: e.source == a && e.target == b
  {
    set e | e in edges && e.source in ids && e.target in ids :: (e.source, e.target)
  }

  function Branches(edges: seq<Edge>): (r: seq<Branch>)
    ensures |r| == |edges| && forall i | 0 <= i < |r| :: r[i] == edges[i].branch
  {
    seq(|edges|, i requires 0 <= i < |edges| => edges[i].branch)
  }

  /** Exactly one edge for each of two branches: Python's `sorted(branches) == [b, c]`. */
  predicate Forks(edges: seq<Edge>, b: Branch, c: Branch) {
    multiset(Branches(edges)) == multiset{b, c}
  }

  predicate SingleDefault(edges: seq<Edge>) {
    |edges| == 1 && edges[0].branch == Default
  }

  /** The edges a node of each type must have. */
  predicate EdgeRule(kind: NodeType, out: seq<Edge>, incoming: seq<Edge>) {
    match kind
    case Output => out == []
    case Condition => Forks(out, WhenFalse, WhenTrue)
    case Parallel => |out| >= 2 && forall e | e in out :: e.branch == Default
    case Join => |incoming| >= 2 && |out| == 1
    case BoundedLoop => Forks(out, Continue, Exit)
    case Approval => Forks(out, Approved, Denied)
    case Agent | Tool | Subworkflow | Timer | Event | RequestInformation => SingleDefault(out)
    case Input | Supervisor | Handoff => |out| == 1
  }

  predicate ValidKey(config: map<string, Json>, key: string) {
    key in config && config[key].Str? &&
    var s := config[key].s;
    1 <= |s| <= 100 && 'a' <= s[0] <= 'z' &&
    forall c | c in s :: 'a' <= c <= 'z' || '0' <= c <= '9' || c == '_' || c == '-'
  }

  predicate PositiveInt(config: map<string, Json>, key: string) {
    key in config && config[key].Int? && config[key].i > 0
  }

  predicate OneOf(config: map<string, Json>, key: string, allowed: set<string>) {
    key in config && config[key].Str? && config[key].s in allowed
  }

  /** The configuration a node of each type must carry. */
  predicate ConfigRule(n: Node) {
    match n.kind
    case Condition =>
      && OneOf(n.config, "operator", OPERATORS)
      && "field" in n.config && n.config["field"].Str? && n.config["field"].s != ""
      && "value" in n.config
    case BoundedLoop =>
      && PositiveInt(n.config, "max_iterations") && PositiveInt(n.config, "max_duration_seconds")
      && PositiveInt(n.config, "max_tokens") && PositiveInt(n.config, "max_cost_minor")
    case Agent =>
      && n.hasRoute && n.hasPolicy
      && ValidKey(n.config, "input_state_key") && ValidKey(n.config, "result_state_key")
      && PositiveInt(n.config, "max_output_tokens") && n.config["max_output_tokens"].i <= 32768
    case Tool => n.hasReference && ValidKey(n.config, "arguments_state_key") && ValidKey(n.config, "result_state_key")
    case Subworkflow => n.hasReference && ValidKey(n.config, "result_state_key")
    case Timer => PositiveInt(n.config, "delay_seconds") && n.config["delay_seconds"].i <= n.timeout
    case Event => ValidKey(n.config, "event_key") && ValidKey(n.config, "state_key")
    case Approval =>
      OneOf(n.config, "risk", {"low", "medium", "high", "critical"}) && ValidKey(n.config, "reason_code")
    case RequestInformation => ValidKey(n.config, "state_key") && ValidKey(n.config, "reason_code")
    case _ => true
  }

  /** No node id repeats an earlier one. */
  predicate DistinctNodeIds(nodes: seq<Node>) {
    nodes == [] ||
    var n := |nodes| - 1;
    nodes[n].id !in NodesById(nodes[..n]) && DistinctNodeIds(nodes[..n])
  }

  /** No edge id repeats an earlier one. */
  predicate DistinctEdgeIds(edges: seq<Edge>) {
    edges == [] ||
    var n := |edges| - 1;
    edges[n].id !in EdgeIds(edges[..n]) && DistinctEdgeIds(edges[..n])
  }

  function EdgeIds(edges: seq<Edge>): set<Id> {
    set e | e in edges :: e.id
  }

  /** How one more edge changes the validator's graph. */
  lemma ArcsSnoc(edges: seq<Edge>, e: Edge, ids: set<Id>)
    ensures ArcsWithin(edges + [e], ids) ==
            ArcsWithin(edges, ids) + if Known(e, ids) then {(e.source, e.target)} else {}
  {
    assert forall f :: f in edges + [e] <==> f in edges || f == e;
  }

  predicate EdgesKnown(d: Definition) {
    forall e {:trigger Known(e, NodeIds(d))} | e in d.edges :: Known(e, NodeIds(d))
  }

  predicate EntryRule(d: Definition) {
    && d.entry in NodeIds(d)
    && NodeAt(d, d.entry).kind == Input
    && Incoming(KnownEdges(d.edges, NodeIds(d)), d.entry) == []
  }

  predicate Has(d: Definition, kinds: set<NodeType>) {
    exists n | n in d.nodes :: n.kind in kinds
  }

  function NonLoopIds(d: Definition): set<Id> {
    set n | n in d.nodes && n.kind != BoundedLoop :: n.id
  }

  ghost predicate AllReachable(d: Definition) {
    var arcs := ArcsWithin(d.edges, NodeIds(d));
    forall id {:trigger Reaches(arcs, d.entry, id)} | id in NodeIds(d) :: Reaches(arcs, d.entry, id)
  }

  predicate MixRule(d: Definition) {
    && (Has(d, {Parallel}) ==> !Has(d, WAIT_KINDS + {Subworkflow, Tool, Agent}))
    && !(Has(d, {Tool}) && Has(d, {Agent}))
  }

  /** The conditions a definition must meet to be `valid`. */
  ghost predicate WellFormed(d: Definition) {
    && DistinctNodeIds(d.nodes) && DistinctEdgeIds(d.edges) && EdgesKnown(d) && EntryRule(d)
    && Has(d, {Output})
    && (forall n {:trigger NodeRule(d, n)} | n in d.nodes :: NodeRule(d, n))
    && AllReachable(d)
    && !HasCycle(ArcsWithin(d.edges, NonLoopIds(d)))
    && MixRule(d)
  }

  predicate NodeRule(d: Definition, n: Node) {
    var known := KnownEdges(d.edges, NodeIds(d));
    !Sensitive(Obj(n.config)) && ConfigRule(n) && EdgeRule(n.kind, Outgoing(known, n.id), Incoming(known, n.id))
  }

  /** Valid, and every node type is one the engine runs. */
  ghost predicate Executable(d: Definition) {
    WellFormed(d) && !Has(d, UNSUPPORTED)
  }

  /** In a well-formed definition every cycle of the whole graph passes a bounded loop. */
  lemma EveryCycleMeetsALoop(d: Definition, p: seq<Id>)
    requires WellFormed(d) && Cycle(ArcsWithin(d.edges, NodeIds(d)), p)
    ensures exists k | 0 <= k < |p| :: p[k] in NodeIds(d) && NodeAt(d, p[k]).kind == BoundedLoop
  {
    var whole, inner := ArcsWithin(d.edges, NodeIds(d)), ArcsWithin(d.edges, NonLoopIds(d));
    if forall k | 0 <= k < |p| :: p[k] in NonLoopIds(d) {
      forall i | 0 <= i < |p| - 1 ensures (p[i], p[i + 1]) in inner {
        assert (p[i], p[i + 1]) in whole;
      }
      assert Cycle(inner, p);
      assert false;
    }
    var k :| 0 <= k < |p| && p[k] !in NonLoopIds(d);
    assert p[k] in NodeIds(d) by {
      if k + 1 < |p| {
        assert (p[k], p[k + 1]) in whole;
      } else {
        assert (p[k - 1], p[k - 1 + 1]) in whole;
      }
    }
    assert NodeAt(d, p[k]) in d.nodes;
  }
}
