/** What the validator accepts, stated on nodes, edges and configurations without its helper predicates. */
module DefinitionRules {
  import opened Ids
  import opened Json
  import opened Graphs
  import opened InlineConfig
  import opened Definitions

  // ---------------------------------------------------------------- edges

  predicate OneOfEach(out: seq<Edge>, b: Branch, c: Branch) {
    |out| == 2 && ((out[0].branch == b && out[1].branch == c) || (out[0].branch == c && out[1].branch == b))
  }

  /** The edges a node of each type may have. */
  predicate EdgesAllowed(kind: NodeType, out: seq<Edge>, incoming: seq<Edge>) {
    match kind
    case Input => |out| == 1
    case Output => |out| == 0
    case Agent => |out| == 1 && out[0].branch == Default
    case Supervisor => |out| == 1
    case Tool => |out| == 1 && out[0].branch == Default
    case Condition => OneOfEach(out, WhenTrue, WhenFalse)
    case Parallel => |out| >= 2 && forall i | 0 <= i < |out| :: out[i].branch == Default
    case Join => |out| == 1 && |incoming| >= 2
    case BoundedLoop => OneOfEach(out, Continue, Exit)
    case Subworkflow => |out| == 1 && out[0].branch == Default
    case Timer => |out| == 1 && out[0].branch == Default
    case Event => |out| == 1 && out[0].branch == Default
    case Handoff => |out| == 1
    case Approval => OneOfEach(out, Approved, Denied)
    case RequestInformation => |out| == 1 && out[0].branch == Default
  }

  lemma SamePair<T>(x: T, y: T, b: T, c: T)
    requires b != c
    ensures multiset{x, y} == multiset{b, c} <==> (x == b && y == c) || (x == c && y == b)
  {
    if multiset{x, y} == multiset{b, c} {
      assert b in multiset{x, y} && c in multiset{x, y};
    }
  }

  lemma ForksMeans(out: seq<Edge>, b: Branch, c: Branch)
    requires b != c
    ensures Forks(out, b, c) <==> OneOfEach(out, b, c)
  {
    var bs := Branches(out);
    assert |multiset(bs)| == |bs| && |multiset{b, c}| == 2;
    if |out| == 2 {
      assert bs == [out[0].branch, out[1].branch];
      assert multiset(bs) == multiset{out[0].branch, out[1].branch};
      SamePair(out[0].branch, out[1].branch, b, c);
    }
  }

  lemma EdgeRuleMeans(kind: NodeType, out: seq<Edge>, incoming: seq<Edge>)
    ensures EdgeRule(kind, out, incoming) <==> EdgesAllowed(kind, out, incoming)
  {
    hide Forks, OneOfEach;
    ForksMeans(out, WhenFalse, WhenTrue);
    ForksMeans(out, Continue, Exit);
    ForksMeans(out, Approved, Denied);
    Swapped(out, WhenFalse, WhenTrue);
    if kind == Parallel && EdgeRule(kind, out, incoming) {
      forall i | 0 <= i < |out| ensures out[i].branch == Default {
        assert out[i] in out;
      }
    }
  }

  lemma Swapped(out: seq<Edge>, b: Branch, c: Branch)
    ensures OneOfEach(out, b, c) <==> OneOfEach(out, c, b)
  {
  }

  // ---------------------------------------------------------------- configuration

  const LETTERS: string := "abcdefghijklmnopqrstuvwxyz"
  const NAME_CHARACTERS: string := "abcdefghijklmnopqrstuvwxyz0123456789_-"

  /** A name: a small letter, then up to 99 small letters, digits, underscores and hyphens. */
  predicate IsName(v: Json) {
    v.Str? && 1 <= |v.s| <= 100 && v.s[0] in LETTERS && forall i | 0 <= i < |v.s| :: v.s[i] in NAME_CHARACTERS
  }

  predicate Named(n: Node, key: string) {
    key in n.config && IsName(n.config[key])
  }

  predicate Counts(n: Node, key: string, most: Option<int>) {
    key in n.config && n.config[key].Int? && n.config[key].i >= 1 && (most.Some? ==> n.config[key].i <= most.value)
  }

  /** The configuration a node of each type must have. */
  predicate ConfigAllowed(n: Node) {
    match n.kind
    case Agent =>
      && n.hasRoute && n.hasPolicy && Named(n, "input_state_key") && Named(n, "result_state_key")
      && Counts(n, "max_output_tokens", Some(32768))
    case Tool => n.hasReference && Named(n, "arguments_state_key") && Named(n, "result_state_key")
    case Condition =>
      && "operator" in n.config
      && n.config["operator"] in {Str("eq"), Str("ne"), Str("gt"), Str("gte"), Str("lt"), Str("lte")}
      && "field" in n.config && n.config["field"].Str? && |n.config["field"].s| > 0 && "value" in n.config
    case BoundedLoop =>
      && Counts(n, "max_iterations", None) && Counts(n, "max_duration_seconds", None)
      && Counts(n, "max_tokens", None) && Counts(n, "max_cost_minor", None)
    case Subworkflow => n.hasReference && Named(n, "result_state_key")
    case Timer => Counts(n, "delay_seconds", Some(n.timeout))
    case Event => Named(n, "event_key") && Named(n, "state_key")
    case Approval =>
      && "risk" in n.config && n.config["risk"] in {Str("low"), Str("medium"), Str("high"), Str("critical")}
      && Named(n, "reason_code")
    case RequestInformation => Named(n, "state_key") && Named(n, "reason_code")
    case _ => true
  }

  lemma LetterMeans(c: char)
    ensures c in LETTERS <==> 'a' <= c <= 'z'
    ensures c in NAME_CHARACTERS <==> 'a' <= c <= 'z' || '0' <= c <= '9' || c == '_' || c == '-'
  {
    LettersInOrder();
    if 'a' <= c <= 'z' {
      var i := c as int - 'a' as int;
      assert LETTERS[i] == c && NAME_CHARACTERS[i] == c;
    }
    if '0' <= c <= '9' {
      var i := 26 + (c as int - '0' as int);
      assert NAME_CHARACTERS[i] == c;
    }
    if c in LETTERS {
      var i :| 0 <= i < |LETTERS| && LETTERS[i] == c;
    }
    if c in NAME_CHARACTERS {
      var i :| 0 <= i < |NAME_CHARACTERS| && NAME_CHARACTERS[i] == c;
      assert i < 26 ==> NAME_CHARACTERS[i] == LETTERS[i];
    }
    assert NAME_CHARACTERS[36] == '_' && NAME_CHARACTERS[37] == '-';
  }

  lemma LettersInOrder()
    ensures |LETTERS| == 26 && |NAME_CHARACTERS| == 38 && NAME_CHARACTERS[..26] == LETTERS
    ensures forall i | 0 <= i < 26 :: LETTERS[i] as int == 'a' as int + i
    ensures forall i | 26 <= i < 36 :: NAME_CHARACTERS[i] as int == '0' as int + i - 26
  {
  }

  lemma NameMeans(n: Node, key: string)
    ensures ValidKey(n.config, key) <==> Named(n, key)
  {
    forall c ensures c in LETTERS <==> 'a' <= c <= 'z'
             ensures c in NAME_CHARACTERS <==> 'a' <= c <= 'z' || '0' <= c <= '9' || c == '_' || c == '-'
    {
      LetterMeans(c);
    }
    if key in n.config && n.config[key].Str? {
      var s := n.config[key].s;
      assert (forall c | c in s :: c in NAME_CHARACTERS) <==> forall i | 0 <= i < |s| :: s[i] in NAME_CHARACTERS by {
        forall i | 0 <= i < |s| ensures s[i] in s {
        }
      }
    }
  }

  lemma TextMeans(n: Node, key: string, allowed: set<string>)
    ensures OneOf(n.config, key, allowed) <==> key in n.config && exists s | s in allowed :: n.config[key] == Str(s)
  {
  }

  lemma ConfigRuleMeans(n: Node)
    ensures ConfigRule(n) <==> ConfigAllowed(n)
  {
    hide ValidKey, Named, OneOf;
    NameMeans(n, "input_state_key");
    NameMeans(n, "result_state_key");
    NameMeans(n, "arguments_state_key");
    NameMeans(n, "event_key");
    NameMeans(n, "state_key");
    NameMeans(n, "reason_code");
    TextMeans(n, "operator", OPERATORS);
    TextMeans(n, "risk", {"low", "medium", "high", "critical"});
  }

  // ---------------------------------------------------------------- the whole definition

  lemma LastNodeDiffers(nodes: seq<Node>, n: nat)
    requires n < |nodes|
    ensures nodes[n].id !in NodesById(nodes[..n]) <==> forall i | 0 <= i < n :: nodes[i].id != nodes[n].id
  {
    hide NodesById;
    var rest := nodes[..n];
    NodesByIdMembers(rest);
    if nodes[n].id in NodesById(rest) {
      var i :| 0 <= i < n && rest[i] == NodesById(rest)[nodes[n].id];
      assert nodes[i].id == nodes[n].id;
    }
    if i :| 0 <= i < n && nodes[i].id == nodes[n].id {
      assert rest[i] in rest;
    }
  }

  lemma {:induction false} NodeIdsDistinct(nodes: seq<Node>)
    ensures DistinctNodeIds(nodes) <==> forall i, j | 0 <= i < j < |nodes| :: nodes[i].id != nodes[j].id
    decreases |nodes|
  {
    hide NodesById;
    if nodes != [] {
      var n := |nodes| - 1;
      NodeIdsDistinct(nodes[..n]);
      LastNodeDiffers(nodes, n);
      assert forall i | 0 <= i < n :: nodes[..n][i] == nodes[i];
    }
  }

  lemma LastEdgeDiffers(edges: seq<Edge>, n: nat)
    requires n < |edges|
    ensures edges[n].id !in EdgeIds(edges[..n]) <==> forall i | 0 <= i < n :: edges[i].id != edges[n].id
  {
    var rest := edges[..n];
    if edges[n].id in EdgeIds(rest) {
      var e :| e in rest && e.id == edges[n].id;
      var i :| 0 <= i < n && rest[i] == e;
      assert edges[i].id == edges[n].id;
    }
    if i :| 0 <= i < n && edges[i].id == edges[n].id {
      assert rest[i] in rest;
    }
  }

  lemma {:induction false} EdgeIdsDistinct(edges: seq<Edge>)
    ensures DistinctEdgeIds(edges) <==> forall i, j | 0 <= i < j < |edges| :: edges[i].id != edges[j].id
    decreases |edges|
  {
    hide EdgeIds;
    if edges != [] {
      var n := |edges| - 1;
      EdgeIdsDistinct(edges[..n]);
      LastEdgeDiffers(edges, n);
      assert forall i | 0 <= i < n :: edges[..n][i] == edges[i];
    }
  }

  predicate IsNode(d: Definition, id: Id) {
    exists n | n in d.nodes :: n.id == id
  }

  predicate HasKind(d: Definition, kind: NodeType) {
    exists n | n in d.nodes :: n.kind == kind
  }

  predicate Waits(d: Definition) {
    HasKind(d, Timer) || HasKind(d, Event) || HasKind(d, Approval) || HasKind(d, RequestInformation)
  }

  /** An edge between two nodes that are no loops. */
  function PlainArcs(d: Definition): Arcs {
    set e, m, n | e in d.edges && m in d.nodes && n in d.nodes && m.id == e.source && n.id == e.target
                  && m.kind != BoundedLoop && n.kind != BoundedLoop :: (e.source, e.target)
  }

  /** What the validator demands of a definition. */
  ghost predicate Accepted(d: Definition) {
    && (forall i, j | 0 <= i < j < |d.nodes| :: d.nodes[i].id != d.nodes[j].id)
    && (forall i, j | 0 <= i < j < |d.edges| :: d.edges[i].id != d.edges[j].id)
    && (forall e | e in d.edges :: IsNode(d, e.source) && IsNode(d, e.target))
    && (exists n | n in d.nodes :: n.id == d.entry && n.kind == Input)
    && (forall e | e in d.edges :: e.target != d.entry)
    && HasKind(d, Output)
    && (forall n | n in d.nodes ::
          && !Sensitive(Obj(n.config)) && ConfigAllowed(n)
          && EdgesAllowed(n.kind, Outgoing(d.edges, n.id), Incoming(d.edges, n.id)))
    && (forall n | n in d.nodes :: Reaches(set e | e in d.edges :: (e.source, e.target), d.entry, n.id))
    && !HasCycle(PlainArcs(d))
    && (HasKind(d, Parallel) ==> !Waits(d) && !HasKind(d, Subworkflow) && !HasKind(d, Tool) && !HasKind(d, Agent))
    && !(HasKind(d, Tool) && HasKind(d, Agent))
  }

  lemma NodeIdMeans(d: Definition, id: Id)
    ensures id in NodeIds(d) <==> IsNode(d, id)
  {
    NodesByIdMembers(d.nodes);
    if id in NodeIds(d) {
      assert NodeAt(d, id) in d.nodes;
    }
  }

  lemma HasMeans(d: Definition, kinds: set<NodeType>)
    ensures Has(d, kinds) <==> exists kind | kind in kinds :: HasKind(d, kind)
  {
    if Has(d, kinds) {
      var n :| n in d.nodes && n.kind in kinds;
      assert HasKind(d, n.kind);
    }
  }

  lemma MixMeans(d: Definition)
    ensures MixRule(d) <==>
            && (HasKind(d, Parallel) ==> !Waits(d) && !HasKind(d, Subworkflow) && !HasKind(d, Tool) && !HasKind(d, Agent))
            && !(HasKind(d, Tool) && HasKind(d, Agent))
  {
    hide HasKind, Has;
    HasMeans(d, {Parallel});
    HasMeans(d, {Tool});
    HasMeans(d, {Agent});
    HasMeans(d, WAIT_KINDS + {Subworkflow, Tool, Agent});
    WaitKinds(d);
  }

  lemma WaitKinds(d: Definition)
    ensures (exists kind | kind in WAIT_KINDS + {Subworkflow, Tool, Agent} :: HasKind(d, kind)) <==>
            Waits(d) || HasKind(d, Subworkflow) || HasKind(d, Tool) || HasKind(d, Agent)
  {
    hide HasKind;
    assert {Timer, Event, Approval, RequestInformation} == WAIT_KINDS;
  }

  lemma PlainArcsMeans(d: Definition)
    requires forall i, j | 0 <= i < j < |d.nodes| :: d.nodes[i].id != d.nodes[j].id
    ensures ArcsWithin(d.edges, NonLoopIds(d)) == PlainArcs(d)
  {
    var inner := ArcsWithin(d.edges, NonLoopIds(d));
    forall a, b ensures (a, b) in inner <==> (a, b) in PlainArcs(d) {
      if (a, b) in inner {
        var e :| e in d.edges && e.source == a && e.target == b;
        var m :| m in d.nodes && m.kind != BoundedLoop && m.id == a;
        var n :| n in d.nodes && n.kind != BoundedLoop && n.id == b;
      }
    }
  }

  lemma WholeArcsMean(d: Definition)
    requires forall e | e in d.edges :: IsNode(d, e.source) && IsNode(d, e.target)
    ensures ArcsWithin(d.edges, NodeIds(d)) == set e | e in d.edges :: (e.source, e.target)
  {
    var whole, all := ArcsWithin(d.edges, NodeIds(d)), set e | e in d.edges :: (e.source, e.target);
    forall a, b ensures (a, b) in whole <==> (a, b) in all {
      NodeIdMeans(d, a);
      NodeIdMeans(d, b);
    }
  }

  lemma EntryMeans(d: Definition)
    requires KnownEdges(d.edges, NodeIds(d)) == d.edges
    requires forall i, j | 0 <= i < j < |d.nodes| :: d.nodes[i].id != d.nodes[j].id
    ensures EntryRule(d) <==>
            (exists n | n in d.nodes :: n.id == d.entry && n.kind == Input) && forall e | e in d.edges :: e.target != d.entry
  {
    hide KnownEdges, Incoming, NodesById;
    NodeIdMeans(d, d.entry);
    IncomingMembers(d.edges, d.entry);
    assert Incoming(d.edges, d.entry) == [] <==> forall e | e in d.edges :: e.target != d.entry by {
      if Incoming(d.edges, d.entry) != [] {
        assert Incoming(d.edges, d.entry)[0] in Incoming(d.edges, d.entry);
      }
      if exists e | e in d.edges :: e.target == d.entry {
        var e :| e in d.edges && e.target == d.entry;
        assert e in Incoming(d.edges, d.entry);
      }
    }
    if n :| n in d.nodes && n.id == d.entry && n.kind == Input {
      SameNode(d, n);
    }
  }

  lemma SameNode(d: Definition, n: Node)
    requires n in d.nodes && forall i, j | 0 <= i < j < |d.nodes| :: d.nodes[i].id != d.nodes[j].id
    ensures n.id in NodeIds(d) && NodeAt(d, n.id) == n
  {
    var m := NodeAt(d, n.id);
    var i :| 0 <= i < |d.nodes| && d.nodes[i] == m;
    var j :| 0 <= j < |d.nodes| && d.nodes[j] == n;
  }

  lemma KnownMeans(d: Definition)
    ensures EdgesKnown(d) <==> forall e | e in d.edges :: IsNode(d, e.source) && IsNode(d, e.target)
    ensures EdgesKnown(d) ==> KnownEdges(d.edges, NodeIds(d)) == d.edges
  {
    hide KnownEdges, IsNode, NodeIds;
    KnownEdgesMembers(d.edges, NodeIds(d));
    forall e | e in d.edges ensures Known(e, NodeIds(d)) <==> IsNode(d, e.source) && IsNode(d, e.target) {
      NodeIdMeans(d, e.source);
      NodeIdMeans(d, e.target);
    }
  }

  lemma RulesMean(d: Definition)
    requires KnownEdges(d.edges, NodeIds(d)) == d.edges
    ensures (forall n {:trigger NodeRule(d, n)} | n in d.nodes :: NodeRule(d, n)) <==>
            forall n | n in d.nodes ::
              && !Sensitive(Obj(n.config)) && ConfigAllowed(n)
              && EdgesAllowed(n.kind, Outgoing(d.edges, n.id), Incoming(d.edges, n.id))
  {
    hide KnownEdges, Outgoing, Incoming, ConfigRule, EdgeRule, ConfigAllowed, EdgesAllowed, Sensitive, NodesById;
    forall n | n in d.nodes
      ensures NodeRule(d, n) <==>
              && !Sensitive(Obj(n.config)) && ConfigAllowed(n)
              && EdgesAllowed(n.kind, Outgoing(d.edges, n.id), Incoming(d.edges, n.id))
    {
      ConfigRuleMeans(n);
      EdgeRuleMeans(n.kind, Outgoing(d.edges, n.id), Incoming(d.edges, n.id));
    }
  }

  lemma ReachableMeans(d: Definition)
    requires forall e | e in d.edges :: IsNode(d, e.source) && IsNode(d, e.target)
    ensures AllReachable(d) <==> forall n | n in d.nodes :: Reaches(set e | e in d.edges :: (e.source, e.target), d.entry, n.id)
  {
    hide Reaches, NodesById;
    WholeArcsMean(d);
    if forall n | n in d.nodes :: Reaches(set e | e in d.edges :: (e.source, e.target), d.entry, n.id) {
      forall id | id in NodeIds(d) ensures Reaches(ArcsWithin(d.edges, NodeIds(d)), d.entry, id) {
        NodeIdMeans(d, id);
      }
    }
  }

  lemma OutputMeans(d: Definition)
    ensures Has(d, {Output}) <==> HasKind(d, Output)
  {
  }

  /** A definition is well-formed exactly when it meets these demands. */
  lemma WellFormedMeans(d: Definition)
    ensures WellFormed(d) <==> Accepted(d)
  {
    hide DistinctNodeIds, DistinctEdgeIds, EdgesKnown, EntryRule, Has, HasKind, Waits, NodeRule, AllReachable, Reaches, HasCycle, MixRule,
      ConfigAllowed, EdgesAllowed, Sensitive, KnownEdges, Outgoing, Incoming, IsNode, PlainArcs, ArcsWithin, NonLoopIds, NodeIds;
    NodeIdsDistinct(d.nodes);
    EdgeIdsDistinct(d.edges);
    KnownMeans(d);
    OutputMeans(d);
    MixMeans(d);
    if DistinctNodeIds(d.nodes) && EdgesKnown(d) {
      EntryMeans(d);
      RulesMean(d);
      ReachableMeans(d);
      PlainArcsMeans(d);
    }
  }

  /** A definition is executable when it is accepted and has no supervisor and no handoff node. */
  lemma ExecutableMeans(d: Definition)
    ensures Executable(d) <==> Accepted(d) && !HasKind(d, Supervisor) && !HasKind(d, Handoff)
  {
    hide WellFormed, Accepted;
    WellFormedMeans(d);
  }

  /** Each of the eight sensitive names is refused at any depth, however it is spelled. */
  lemma SensitiveNames(key: string, value: Json)
    requires key in {"api_key", "API-Key", "arguments", "authorization", "Output", "password", "prompt", "secret", "TOKEN"}
    ensures Sensitive(Obj(map[key := value])) && Sensitive(Arr([Obj(map[key := value])]))
  {
    SensitiveName(key);
    var v := Obj(map[key := value]);
    assert key in v.fields;
    assert Sensitive(v);
    assert [v][0] == v;
  }

  lemma SensitiveName(key: string)
    requires key in {"api_key", "API-Key", "arguments", "authorization", "Output", "password", "prompt", "secret", "TOKEN"}
    ensures Normalized(key) in FORBIDDEN
  {
    if key == "API-Key" {
      assert Normalized(key) == "api_key";
    } else if key == "Output" {
      assert Normalized(key) == "output";
    } else if key == "TOKEN" {
      assert Normalized(key) == "token";
    } else {
      assert Normalized(key) == key;
    }
  }
}
