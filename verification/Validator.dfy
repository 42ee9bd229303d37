/** `validate_workflow_definition`: it accepts exactly the well-formed definitions. */
module Validator {
  import opened Ids
  import opened Graphs
  import opened Definitions
  import opened CycleSearch
  import opened Json
  import opened InlineConfig

  datatype Issue =
    | DuplicateNodeId(id: Id) | DuplicateEdgeId(id: Id) | UnknownSource(id: Id) | UnknownTarget(id: Id)
    | EntryMissing | EntryNotInput | EntryHasIncoming | OutputMissing
    | SensitiveConfig(id: Id, path: Path) | NotExecutable(id: Id) | ConfigInvalid(id: Id) | EdgesInvalid(id: Id)
    | Unreachable(id: Id) | OutputUnreachable | UnboundedCycle
    | ParallelMix(kinds: set<NodeType>) | AgentToolMix

  datatype ValidationResult = ValidationResult(valid: bool, executable: bool, issues: seq<Issue>)

  /** Some node type is not one the engine runs. */
  predicate Unsupported(issues: seq<Issue>) {
    exists x | x in issues :: x.NotExecutable?
  }

  /** Nothing else is wrong. */
  predicate Clean(issues: seq<Issue>) {
    forall x | x in issues :: x.NotExecutable?
  }

  lemma Joined(a: seq<Issue>, b: seq<Issue>)
    ensures Unsupported(a + b) <==> Unsupported(a) || Unsupported(b)
    ensures Clean(a + b) <==> Clean(a) && Clean(b)
    ensures UnboundedCycle in a + b <==> UnboundedCycle in a || UnboundedCycle in b
  {
    var c := a + b;
    assert forall x :: x in c <==> x in a || x in b;
  }

  lemma JoinedOne(a: seq<Issue>, x: Issue)
    ensures Unsupported(a + [x]) <==> Unsupported(a) || x.NotExecutable?
    ensures Clean(a + [x]) <==> Clean(a) && x.NotExecutable?
    ensures UnboundedCycle in a + [x] <==> UnboundedCycle in a || x == UnboundedCycle
  {
    var b := [x];
    assert forall y :: y in b <==> y == x;
    Joined(a, b);
  }

  /** Issues of neither of the two kinds the verdict singles out. */
  predicate Plain(issues: seq<Issue>) {
    forall x | x in issues :: !x.NotExecutable? && !x.UnboundedCycle?
  }

  method IndexNodes(nodes: seq<Node>) returns (byId: map<Id, Node>, issues: seq<Issue>)
    ensures byId == NodesById(nodes)
    ensures issues == [] <==> DistinctNodeIds(nodes)
    ensures Plain(issues)
  {
    byId, issues := map[], [];
    var i := 0;
    while i < |nodes|
      invariant 0 <= i <= |nodes|
      invariant byId == NodesById(nodes[..i])
      invariant issues == [] <==> DistinctNodeIds(nodes[..i])
      invariant Plain(issues)
    {
      assert nodes[..i + 1][..i] == nodes[..i];
      if nodes[i].id in byId {
        issues := issues + [DuplicateNodeId(nodes[i].id)];
      }
      byId := byId[nodes[i].id := nodes[i]];
      i := i + 1;
    }
    assert nodes[..i] == nodes;
  }

  /** The issues of one edge. */
  method CheckEdge(e: Edge, seen: set<Id>, ids: set<Id>) returns (issues: seq<Issue>)
    ensures issues == [] <==> e.id !in seen && Known(e, ids)
    ensures Plain(issues)
  {
    issues := [];
    if e.id in seen {
      issues := issues + [DuplicateEdgeId(e.id)];
    }
    if e.source !in ids {
      issues := issues + [UnknownSource(e.source)];
    }
    if e.target !in ids {
      issues := issues + [UnknownTarget(e.target)];
    }
  }

  ghost predicate ListsOf(edges: seq<Edge>, ids: set<Id>, outgoing: map<Id, seq<Edge>>, incoming: map<Id, seq<Edge>>) {
    && outgoing.Keys == incoming.Keys == ids
    && (forall id | id in ids :: outgoing[id] == Outgoing(KnownEdges(edges, ids), id))
    && (forall id | id in ids :: incoming[id] == Incoming(KnownEdges(edges, ids), id))
  }

  /** Files one edge whose two ends exist. */
  method FileEdge(ghost before: seq<Edge>, e: Edge, ids: set<Id>, outgoing: map<Id, seq<Edge>>, incoming: map<Id, seq<Edge>>)
    returns (outgoing': map<Id, seq<Edge>>, incoming': map<Id, seq<Edge>>)
    requires ListsOf(before, ids, outgoing, incoming)
    ensures ListsOf(before + [e], ids, outgoing', incoming')
  {
    ghost var known := KnownEdges(before, ids);
    assert (before + [e])[..|before|] == before;
    assert KnownEdges(before + [e], ids) == if Known(e, ids) then known + [e] else known;
    forall id | id in ids
      ensures Outgoing(known + [e], id) == Outgoing(known, id) + if e.source == id then [e] else []
      ensures Incoming(known + [e], id) == Incoming(known, id) + if e.target == id then [e] else []
    {
      FilterSnoc(known, e, id);
    }
    outgoing', incoming' := outgoing, incoming;
    if Known(e, ids) {
      outgoing' := outgoing[e.source := outgoing[e.source] + [e]];
      incoming' := incoming[e.target := incoming[e.target] + [e]];
    }
  }

  /** Distinct edge ids, and two known ends each. */
  predicate EdgesClean(edges: seq<Edge>, ids: set<Id>) {
    DistinctEdgeIds(edges) && KnownEdges(edges, ids) == edges
  }

  method IndexEdges(edges: seq<Edge>, ids: set<Id>)
    returns (outgoing: map<Id, seq<Edge>>, incoming: map<Id, seq<Edge>>, issues: seq<Issue>)
    ensures ListsOf(edges, ids, outgoing, incoming)
    ensures issues == [] <==> EdgesClean(edges, ids)
    ensures Plain(issues)
  {
    outgoing, incoming, issues := map id | id in ids :: [], map id | id in ids :: [], [];
    var seen: set<Id> := {};
    var i := 0;
    while i < |edges|
      invariant 0 <= i <= |edges|
      invariant ListsOf(edges[..i], ids, outgoing, incoming)
      invariant seen == EdgeIds(edges[..i])
      invariant issues == [] <==> EdgesClean(edges[..i], ids)
      invariant Plain(issues)
    {
      assert edges[..i + 1] == edges[..i] + [edges[i]];
      CleanSnoc(edges[..i], edges[i], ids);
      var found := CheckEdge(edges[i], seen, ids);
      issues := issues + found;
      seen := seen + {edges[i].id};
      outgoing, incoming := FileEdge(edges[..i], edges[i], ids, outgoing, incoming);
      i := i + 1;
    }
    assert edges[..i] == edges;
  }

  lemma CleanSnoc(edges: seq<Edge>, e: Edge, ids: set<Id>)
    ensures EdgeIds(edges + [e]) == EdgeIds(edges) + {e.id}
    ensures EdgesClean(edges + [e], ids) <==>
            EdgesClean(edges, ids) && e.id !in EdgeIds(edges) && Known(e, ids)
  {
    var grown := edges + [e];
    assert grown[..|edges|] == edges;
    assert forall f :: f in grown <==> f in edges || f == e;
    KnownEdgesMembers(edges, ids);
    KnownEdgesMembers(grown, ids);
  }

  method CheckEntry(d: Definition, byId: map<Id, Node>, ghost outgoing: map<Id, seq<Edge>>, incoming: map<Id, seq<Edge>>)
    returns (issues: seq<Issue>)
    requires byId == NodesById(d.nodes) && ListsOf(d.edges, NodeIds(d), outgoing, incoming)
    ensures issues == [] <==> EntryRule(d) && Has(d, {Output})
    ensures Plain(issues)
  {
    issues := [];
    if d.entry !in byId {
      issues := [EntryMissing];
    } else if byId[d.entry].kind != Input {
      issues := [EntryNotInput];
    } else if incoming[d.entry] != [] {
      issues := [EntryHasIncoming];
    }
    if !Has(d, {Output}) {
      issues := issues + [OutputMissing];
    }
  }

  /** The issues of one node, given what its type and its two rules say. */
  method CheckNode(id: Id, inline: seq<Path>, supported: bool, configured: bool, connected: bool) returns (issues: seq<Issue>)
    ensures Unsupported(issues) <==> !supported
    ensures Clean(issues) <==> inline == [] && configured && connected
    ensures UnboundedCycle !in issues
  {
    issues := ReportInline(id, inline);
    PlainIsNotClean(issues);
    if !supported {
      JoinedOne(issues, NotExecutable(id));
      issues := issues + [NotExecutable(id)];
    }
    if !configured {
      JoinedOne(issues, ConfigInvalid(id));
      issues := issues + [ConfigInvalid(id)];
    }
    if !connected {
      JoinedOne(issues, EdgesInvalid(id));
      issues := issues + [EdgesInvalid(id)];
    }
  }

  /** One issue for each forbidden path. */
  method ReportInline(id: Id, inline: seq<Path>) returns (issues: seq<Issue>)
    ensures |issues| == |inline| && forall i | 0 <= i < |issues| :: issues[i] == SensitiveConfig(id, inline[i])
    ensures Plain(issues)
  {
    issues := [];
    for i := 0 to |inline|
      invariant |issues| == i && forall k | 0 <= k < i :: issues[k] == SensitiveConfig(id, inline[k])
    {
      issues := issues + [SensitiveConfig(id, inline[i])];
    }
  }

  lemma NothingNamed(v: Json, paths: seq<Path>)
    requires forall p :: p in paths <==> Names(v, p)
    ensures paths == [] <==> !Sensitive(v)
  {
    hide Names, Sensitive;
    SensitiveMeans(v);
    if paths != [] {
      assert paths[0] in paths;
      assert Names(v, paths[0]);
    }
    if Sensitive(v) {
      var p: Path :| Names(v, p);
      assert p in paths;
    }
  }

  /** The first `k` nodes keep their rules. */
  predicate RulesUpTo(d: Definition, k: nat)
    requires k <= |d.nodes|
    ensures RulesUpTo(d, k) <==> forall i | 0 <= i < k :: NodeRule(d, d.nodes[i])
  {
    k == 0 || (NodeRule(d, d.nodes[k - 1]) && RulesUpTo(d, k - 1))
  }

  /** One of the first `k` nodes is of an unsupported type. */
  predicate UnsupportedUpTo(d: Definition, k: nat)
    requires k <= |d.nodes|
    ensures UnsupportedUpTo(d, k) <==> exists i | 0 <= i < k :: d.nodes[i].kind in UNSUPPORTED
  {
    k != 0 && (d.nodes[k - 1].kind in UNSUPPORTED || UnsupportedUpTo(d, k - 1))
  }

  method CheckNodes(d: Definition, outgoing: map<Id, seq<Edge>>, incoming: map<Id, seq<Edge>>)
    returns (issues: seq<Issue>)
    requires ListsOf(d.edges, NodeIds(d), outgoing, incoming)
    ensures UnboundedCycle !in issues
    ensures Unsupported(issues) <==> Has(d, UNSUPPORTED)
    ensures Clean(issues) <==> RulesUpTo(d, |d.nodes|)
  {
    issues := [];
    var i := 0;
    while i < |d.nodes|
      invariant 0 <= i <= |d.nodes|
      invariant UnboundedCycle !in issues
      invariant Unsupported(issues) <==> UnsupportedUpTo(d, i)
      invariant Clean(issues) <==> RulesUpTo(d, i)
    {
      var n := d.nodes[i];
      var connected := EdgeRule(n.kind, outgoing[n.id], incoming[n.id]);
      var inline := ForbiddenPaths(Obj(n.config));
      NothingNamed(Obj(n.config), inline);
      var found := CheckNode(n.id, inline, n.kind !in UNSUPPORTED, ConfigRule(n), connected);
      Joined(issues, found);
      issues := issues + found;
      i := i + 1;
    }
  }

  function Targets(edges: seq<Edge>): (r: seq<Id>)
    ensures forall b :: b in r <==> exists e | e in edges :: e.target == b
  {
    if edges == [] then [] else [edges[0].target] + Targets(edges[1..])
  }

  lemma TargetsAreArcs(d: Definition, id: Id, out: seq<Edge>)
    requires out == Outgoing(KnownEdges(d.edges, NodeIds(d)), id) && id in NodeIds(d)
    ensures forall b :: (id, b) in ArcsWithin(d.edges, NodeIds(d)) <==> b in Targets(out)
  {
    KnownEdgesMembers(d.edges, NodeIds(d));
    OutgoingMembers(KnownEdges(d.edges, NodeIds(d)), id);
  }

  method FindReachable(d: Definition, outgoing: map<Id, seq<Edge>>, ghost incoming: map<Id, seq<Edge>>)
    returns (reachable: set<Id>)
    requires ListsOf(d.edges, NodeIds(d), outgoing, incoming)
    requires d.entry in NodeIds(d)
    ensures forall b :: b in reachable <==> Reaches(ArcsWithin(d.edges, NodeIds(d)), d.entry, b)
  {
    var ids := NodeIds(d);
    ghost var arcs := ArcsWithin(d.edges, ids);
    var targets := map id | id in ids :: Targets(outgoing[id]);
    forall a, b ensures (a, b) in arcs <==> a in ids && b in targets[a] {
      if a in ids {
        TargetsAreArcs(d, a, outgoing[a]);
      }
    }
    reachable := Reachable(d.entry, ids, targets, arcs);
  }

  method CheckReachable(d: Definition, reachable: set<Id>) returns (issues: seq<Issue>)
    requires forall b :: b in reachable <==> Reaches(ArcsWithin(d.edges, NodeIds(d)), d.entry, b)
    ensures Has(d, {Output}) ==> (issues == [] <==> AllReachable(d))
    ensures Plain(issues)
  {
    var ids := NodeIds(d);
    issues := [];
    var missing := SortIds(ids - reachable);
    var i := 0;
    while i < |missing|
      invariant 0 <= i <= |missing| && |issues| == i && Plain(issues)
    {
      issues := issues + [Unreachable(missing[i])];
      i := i + 1;
    }
    assert AllReachable(d) <==> ids <= reachable;
    assert ids <= reachable <==> missing == [] by {
      if !(ids <= reachable) {
        ghost var id :| id in ids && id !in reachable;
        assert id in missing;
      }
    }
    if Has(d, {Output}) && !exists n | n in d.nodes :: n.kind == Output && n.id in reachable {
      ghost var n :| n in d.nodes && n.kind == Output;
      assert n.id in ids;
      issues := issues + [OutputUnreachable];
    }
  }

  /** The adjacency lists of the restricted graph, built edge by edge. */
  method Adjacency(edges: seq<Edge>, ids: set<Id>) returns (adjacency: map<Id, seq<Id>>)
    ensures adjacency.Keys == ids
    ensures forall a, b :: (a, b) in ArcsWithin(edges, ids) <==> a in ids && b in adjacency[a]
  {
    adjacency := map id | id in ids :: [];
    var i := 0;
    while i < |edges|
      invariant 0 <= i <= |edges| && adjacency.Keys == ids
      invariant forall a, b :: (a, b) in ArcsWithin(edges[..i], ids) <==> a in ids && b in adjacency[a]
    {
      var e := edges[i];
      assert edges[..i + 1] == edges[..i] + [e];
      ArcsSnoc(edges[..i], e, ids);
      if Known(e, ids) {
        adjacency := adjacency[e.source := adjacency[e.source] + [e.target]];
      }
      i := i + 1;
    }
    assert edges[..i] == edges;
  }

  /** The cycle rule. */
  method CheckCycles(d: Definition) returns (issues: seq<Issue>)
    ensures issues == if HasCycle(ArcsWithin(d.edges, NonLoopIds(d))) then [UnboundedCycle] else []
  {
    var ids := NonLoopIds(d);
    var adjacency := Adjacency(d.edges, ids);
    ghost var arcs := ArcsWithin(d.edges, ids);
    var search := new DepthFirst(ids, adjacency, arcs);
    var found := search.Run();
    issues := if found then [UnboundedCycle] else [];
  }

  method CheckMixes(d: Definition) returns (issues: seq<Issue>)
    ensures issues == [] <==> MixRule(d)
    ensures Plain(issues)
  {
    issues := [];
    var mixes := [WAIT_KINDS, {Subworkflow}, {Tool}, {Agent}];
    var i := 0;
    while i < |mixes|
      invariant 0 <= i <= |mixes| && Plain(issues)
      invariant issues == [] <==> forall k | 0 <= k < i :: !(Has(d, {Parallel}) && Has(d, mixes[k]))
    {
      if Has(d, {Parallel}) && Has(d, mixes[i]) {
        issues := issues + [ParallelMix(mixes[i])];
      }
      i := i + 1;
    }
    assert Has(d, WAIT_KINDS + {Subworkflow, Tool, Agent}) <==>
           Has(d, mixes[0]) || Has(d, mixes[1]) || Has(d, mixes[2]) || Has(d, mixes[3]);
    if Has(d, {Tool}) && Has(d, {Agent}) {
      issues := issues + [AgentToolMix];
    }
  }

  /**
   * The verdict equals the declarative rules: `valid` is WellFormed (plus supported node
   * types when deploying), `executable` is Executable, and the cycle issue is reported
   * exactly when some cycle avoids every bounded loop.
   */
  method Validate(d: Definition, forDeployment: bool) returns (r: ValidationResult)
    ensures r.valid <==> WellFormed(d) && (forDeployment ==> !Has(d, UNSUPPORTED))
    ensures r.executable <==> Executable(d)
    ensures UnboundedCycle in r.issues <==> HasCycle(ArcsWithin(d.edges, NonLoopIds(d)))
  {
    var issues, outgoing, incoming := CheckShape(d);
    PlainIsNotClean(issues);
    var found := CheckNodes(d, outgoing, incoming);
    Joined(issues, found);
    issues := issues + found;
    found := CheckGraph(d, outgoing, incoming);
    Joined(issues, found);
    issues := issues + found;
    var errors := !Clean(issues) || (forDeployment && Unsupported(issues));
    r := ValidationResult(!errors, !errors && !Unsupported(issues), issues);
  }

  /** The rules on ids, edge ends, entry and outputs. */
  ghost predicate ShapeRule(d: Definition) {
    DistinctNodeIds(d.nodes) && DistinctEdgeIds(d.edges) && EdgesKnown(d) && EntryRule(d) && Has(d, {Output})
  }

  method CheckShape(d: Definition)
    returns (issues: seq<Issue>, outgoing: map<Id, seq<Edge>>, incoming: map<Id, seq<Edge>>)
    ensures ListsOf(d.edges, NodeIds(d), outgoing, incoming)
    ensures Plain(issues) && (issues == [] <==> ShapeRule(d))
  {
    var byId, nodeIssues := IndexNodes(d.nodes);
    var edgeIssues;
    outgoing, incoming, edgeIssues := IndexEdges(d.edges, byId.Keys);
    var entryIssues := CheckEntry(d, byId, outgoing, incoming);
    KnownEdgesMembers(d.edges, NodeIds(d));
    issues := nodeIssues + edgeIssues + entryIssues;
  }

  method CheckGraph(d: Definition, outgoing: map<Id, seq<Edge>>, ghost incoming: map<Id, seq<Edge>>)
    returns (issues: seq<Issue>)
    requires ListsOf(d.edges, NodeIds(d), outgoing, incoming)
    ensures !Unsupported(issues)
    ensures UnboundedCycle in issues <==> HasCycle(ArcsWithin(d.edges, NonLoopIds(d)))
    ensures d.entry in NodeIds(d) && Has(d, {Output}) ==>
              (Clean(issues) <==> AllReachable(d) && !HasCycle(ArcsWithin(d.edges, NonLoopIds(d))) && MixRule(d))
  {
    issues := [];
    if d.entry in NodeIds(d) {
      var reachable := FindReachable(d, outgoing, incoming);
      issues := CheckReachable(d, reachable);
    }
    PlainIsNotClean(issues);
    var cycleIssues := CheckCycles(d);
    Joined(issues, cycleIssues);
    issues := issues + cycleIssues;
    var mixIssues := CheckMixes(d);
    PlainIsNotClean(mixIssues);
    Joined(issues, mixIssues);
    issues := issues + mixIssues;
  }

  lemma PlainIsNotClean(issues: seq<Issue>)
    requires Plain(issues)
    ensures !Unsupported(issues) && UnboundedCycle !in issues && (Clean(issues) <==> issues == [])
  {
    if issues != [] {
      assert issues[0] in issues;
    }
  }
}
