/**
 * Loop counts alone do not bound a run: an executable definition whose run never ends, because
 * the exit edge of its bounded loop leads back into a cycle. Only the step limit stops it.
 */
module EndlessRun {
  import opened Ids
  import opened Json
  import opened Graphs
  import opened InlineConfig
  import opened Definitions
  import opened Interpreter

  const LOOP_CONFIG: map<string, Json> :=
    map["max_iterations" := Int(1), "max_duration_seconds" := Int(1), "max_tokens" := Int(1), "max_cost_minor" := Int(1)]

  const CHECK_CONFIG: map<string, Json> := map["operator" := Str("eq"), "field" := Str("go"), "value" := Bool(true)]

  const START: Node := Node("a", Input, map[], 1, false, false, false)
  const LOOP: Node := Node("b", BoundedLoop, LOOP_CONFIG, 1, false, false, false)
  const CHECK: Node := Node("c", Condition, CHECK_CONFIG, 1, false, false, false)
  const END: Node := Node("d", Output, map[], 1, false, false, false)

  const ENTER: Edge := Edge("1", "a", "b", Default)
  const AGAIN: Edge := Edge("2", "b", "c", Continue)
  const LEAVE: Edge := Edge("3", "b", "c", Exit)
  const BACK: Edge := Edge("4", "c", "b", WhenFalse)
  const OUT: Edge := Edge("5", "c", "d", WhenTrue)

  const NODES: seq<Node> := [START, LOOP, CHECK, END]
  const EDGES: seq<Edge> := [ENTER, AGAIN, LEAVE, BACK, OUT]

  const ENDLESS: Definition := Definition("a", NODES, EDGES, 1000, 60)

  lemma NodesOf()
    ensures NodesById(NODES) == map["a" := START, "b" := LOOP, "c" := CHECK, "d" := END]
    ensures NodeIds(ENDLESS) == {"a", "b", "c", "d"} && DistinctNodeIds(NODES)
  {
    var one, two, three := [START], [START, LOOP], [START, LOOP, CHECK];
    assert one[..0] == [] && two[..1] == one && three[..2] == two && NODES[..3] == three;
    assert NodesById(one) == map["a" := START] && DistinctNodeIds(one);
    assert NodesById(two) == map["a" := START, "b" := LOOP] && DistinctNodeIds(two);
    assert NodesById(three) == map["a" := START, "b" := LOOP, "c" := CHECK] && DistinctNodeIds(three);
  }

  lemma Unlisted(id: Id)
    ensures Outgoing([], id) == [] && Incoming([], id) == []
  {
  }

  /** The edges of a node, edge by edge. */
  lemma EdgesOf(id: Id)
    ensures Outgoing(EDGES, id) ==
            (if ENTER.source == id then [ENTER] else []) + (if AGAIN.source == id then [AGAIN] else []) +
            (if LEAVE.source == id then [LEAVE] else []) + (if BACK.source == id then [BACK] else []) +
            (if OUT.source == id then [OUT] else [])
    ensures id == "a" ==> Incoming(EDGES, id) == []
  {
    hide Outgoing, Incoming;
    var one, two, three, four := [ENTER], [ENTER, AGAIN], [ENTER, AGAIN, LEAVE], [ENTER, AGAIN, LEAVE, BACK];
    assert [] + [ENTER] == one && one + [AGAIN] == two && two + [LEAVE] == three && three + [BACK] == four && four + [OUT] == EDGES;
    Unlisted(id);
    FilterSnoc([], ENTER, id);
    FilterSnoc(one, AGAIN, id);
    FilterSnoc(two, LEAVE, id);
    FilterSnoc(three, BACK, id);
    FilterSnoc(four, OUT, id);
  }

  lemma EdgesOfEach()
    ensures Outgoing(EDGES, "a") == [ENTER] && Outgoing(EDGES, "b") == [AGAIN, LEAVE]
    ensures Outgoing(EDGES, "c") == [BACK, OUT] && Outgoing(EDGES, "d") == [] && Incoming(EDGES, "a") == []
  {
    hide Outgoing, Incoming;
    EdgesOf("a");
    EdgesOf("b");
    EdgesOf("c");
    EdgesOf("d");
  }

  lemma DistinctEdges()
    ensures DistinctEdgeIds(EDGES)
  {
    var one, two, three, four := [ENTER], [ENTER, AGAIN], [ENTER, AGAIN, LEAVE], [ENTER, AGAIN, LEAVE, BACK];
    assert one[..0] == [] && two[..1] == one && three[..2] == two && four[..3] == three && EDGES[..4] == four;
    assert DistinctEdgeIds(one);
    assert DistinctEdgeIds(two);
    assert DistinctEdgeIds(three);
    assert DistinctEdgeIds(four);
  }

  lemma EveryEdgeKnown()
    ensures EdgesKnown(ENDLESS) && KnownEdges(EDGES, NodeIds(ENDLESS)) == EDGES
  {
    hide KnownEdges, NodesById, DistinctNodeIds;
    NodesOf();
    KnownEdgesMembers(EDGES, NodeIds(ENDLESS));
  }

  lemma RuleHolds(n: Node)
    requires n in NODES && !Sensitive(Obj(n.config)) && ConfigRule(n) && EdgeRule(n.kind, Outgoing(EDGES, n.id), Incoming(EDGES, n.id))
    ensures NodeRule(ENDLESS, n)
  {
    hide KnownEdges, NodesById, ConfigRule, EdgeRule, Outgoing, Incoming, EdgesKnown, Sensitive;
    EveryEdgeKnown();
  }

  /** A key of these lengths is never a forbidden one. */
  lemma LongKey(key: string)
    requires |key| in {10, 14, 20}
    ensures Normalized(key) !in FORBIDDEN
  {
    hide Normalized;
  }

  lemma LoopConfigIsClean()
    ensures !Sensitive(Obj(map[])) && !Sensitive(Obj(LOOP_CONFIG))
  {
    hide Normalized;
    LongKey("max_iterations");
    LongKey("max_duration_seconds");
    LongKey("max_tokens");
    LongKey("max_cost_minor");
  }

  lemma CheckConfigIsClean()
    ensures !Sensitive(Obj(CHECK_CONFIG))
  {
    hide Normalized;
    assert Normalized("operator")[0] == 'o' && Normalized("field")[0] == 'f' && Normalized("value")[0] == 'v';
    assert |Normalized("operator")| == 8 && |Normalized("field")| == 5 && |Normalized("value")| == 5;
  }

  lemma ForksOf()
    ensures Forks([AGAIN, LEAVE], Continue, Exit) && Forks([BACK, OUT], WhenFalse, WhenTrue)
  {
    assert Branches([AGAIN, LEAVE]) == [Continue, Exit];
    assert Branches([BACK, OUT]) == [WhenFalse, WhenTrue];
  }

  lemma EveryNodeRule()
    ensures forall n {:trigger NodeRule(ENDLESS, n)} | n in NODES :: NodeRule(ENDLESS, n)
  {
    hide Outgoing, Incoming, NodeRule, Forks, Sensitive;
    LoopConfigIsClean();
    CheckConfigIsClean();
    EdgesOfEach();
    ForksOf();
    RuleHolds(START);
    RuleHolds(LOOP);
    RuleHolds(CHECK);
    RuleHolds(END);
  }

  lemma EveryNodeReached()
    ensures AllReachable(ENDLESS)
  {
    hide NodesById, DistinctNodeIds;
    NodesOf();
    var arcs := ArcsWithin(EDGES, NodeIds(ENDLESS));
    assert ENTER in EDGES && AGAIN in EDGES && OUT in EDGES;
    assert ("a", "b") in arcs && ("b", "c") in arcs && ("c", "d") in arcs;
    assert WalkBetween(arcs, ["a"], "a", "a");
    ReachesExtend(arcs, "a", "a", "b");
    ReachesExtend(arcs, "a", "b", "c");
    ReachesExtend(arcs, "a", "c", "d");
  }

  lemma NonLoops()
    ensures NonLoopIds(ENDLESS) == {"a", "c", "d"}
  {
    assert START in NODES && CHECK in NODES && END in NODES;
  }

  /** The only arc that avoids the loop leads from the check to the end. */
  lemma LoopFreeArcs(x: Id, y: Id)
    requires (x, y) in ArcsWithin(EDGES, NonLoopIds(ENDLESS))
    ensures x == "c" && y == "d"
  {
    hide NonLoopIds, ArcsWithin;
    NonLoops();
    var e :| e in EDGES && e.source == x && e.target == y;
  }

  lemma NoUnboundedCycle()
    ensures !HasCycle(ArcsWithin(EDGES, NonLoopIds(ENDLESS)))
  {
    hide ArcsWithin, NonLoopIds;
    var arcs := ArcsWithin(EDGES, NonLoopIds(ENDLESS));
    if p :| Cycle(arcs, p) {
      assert (p[0], p[0 + 1]) in arcs && (p[|p| - 2], p[|p| - 2 + 1]) in arcs;
      LoopFreeArcs(p[0], p[1]);
      LoopFreeArcs(p[|p| - 2], p[|p| - 1]);
    }
  }

  lemma EntryAndMix()
    ensures EntryRule(ENDLESS) && Has(ENDLESS, {Output}) && MixRule(ENDLESS) && !Has(ENDLESS, UNSUPPORTED)
  {
    hide Outgoing, Incoming, KnownEdges;
    NodesOf();
    EdgesOfEach();
    EveryEdgeKnown();
    assert END in NODES;
  }

  /** The definition passes every rule of the validator. */
  lemma EndlessIsExecutable()
    ensures Executable(ENDLESS)
  {
    hide NodeRule, AllReachable, HasCycle, DistinctNodeIds, DistinctEdgeIds, EdgesKnown, EntryRule, MixRule, Has, NodesById,
      ArcsWithin, KnownEdges;
    NodesOf();
    DistinctEdges();
    EveryEdgeKnown();
    EntryAndMix();
    EveryNodeRule();
    EveryNodeReached();
    NoUnboundedCycle();
  }

  // ---------------------------------------------------------------- the run

  /** One node is active, and it is the start, the loop or the check. */
  predicate Going(x: Core) {
    x.current in {["a"], ["b"], ["c"]} && x.state == map[]
  }

  lemma CheckFails()
    ensures ConditionBranch(CHECK, map[]) == Some(WhenFalse)
  {
    assert SplitDots("go") == ["go"];
  }

  lemma TargetsOf()
    ensures FirstTarget([AGAIN, LEAVE], Continue) == Some("c") == FirstTarget([AGAIN, LEAVE], Exit)
    ensures FirstTarget([BACK, OUT], WhenFalse) == Some("b")
  {
    assert [AGAIN, LEAVE][1..] == [LEAVE];
  }

  lemma NextOf(id: Id, loops: map<Id, nat>)
    requires id in {"a", "b", "c"}
    ensures id in NodeIds(ENDLESS)
    ensures NextNodes(ENDLESS, NodeAt(ENDLESS, id), map[], loops, Nothing) in {Some(["b"]), Some(["c"])}
    ensures StateAfter(NodeAt(ENDLESS, id), map[], Nothing) == Some(map[])
    ensures NodeAt(ENDLESS, id).kind != Join
  {
    hide Outgoing, Incoming, ConditionBranch, DistinctNodeIds, FirstTarget;
    NodesOf();
    EdgesOfEach();
    TargetsOf();
    CheckFails();
  }

  lemma OnlyReady(d: Definition, x: Core, id: Id)
    requires x.current == [id] && id in NodeIds(d) && NodeAt(d, id).kind != Join
    ensures Ready(d, x) == [id]
  {
    assert Elements(x.current) == {id};
    SortSingleton(id);
    assert FilterReady(d, [id][1..], Elements(x.completed)) == [];
  }

  lemma SoleSuccessor(current: seq<Id>, id: Id, next: Id)
    requires current == [id]
    ensures SortIds((Elements(current) - {id}) + Elements([next])) == [next]
  {
    assert (Elements(current) - {id}) + Elements([next]) == {next};
    SortSingleton(next);
  }

  /** Every step leads on. */
  lemma GoesOn(x: Core)
    requires Going(x)
    ensures Step(ENDLESS, x, Nothing).Some? && Going(Step(ENDLESS, x, Nothing).value)
  {
    hide NextNodes, StateAfter, Ready, SortIds, NodesById, Elements;
    var id := x.current[0];
    NextOf(id, x.loops);
    OnlyReady(ENDLESS, x, id);
    var next := NextNodes(ENDLESS, NodeAt(ENDLESS, id), map[], x.loops, Nothing).value;
    assert next == [next[0]];
    SoleSuccessor(x.current, id, next[0]);
  }

  /** A run that goes on at every record never ends. */
  lemma {:induction false} GoesOnForever(d: Definition, x: Core, n: nat)
    requires Going(x) && forall y: Core {:trigger Step(d, y, Nothing)} | Going(y) ::
               Step(d, y, Nothing).Some? && Going(Step(d, y, Nothing).value)
    ensures Iterate(d, x, n).Some? && Going(Iterate(d, x, n).value)
  {
    hide Step, Going;
    if n > 0 {
      GoesOnForever(d, x, n - 1);
    }
  }

  /** The interpreter can take any number of steps on this definition and never completes. */
  lemma NeverEnds(n: nat)
    ensures Executable(ENDLESS)
    ensures Iterate(ENDLESS, Fresh(ENDLESS, map[]), n).Some?
    ensures Iterate(ENDLESS, Fresh(ENDLESS, map[]), n).value.current != []
  {
    hide Step, Iterate, Executable;
    EndlessIsExecutable();
    forall y: Core {:trigger Step(ENDLESS, y, Nothing)} | Going(y)
      ensures Step(ENDLESS, y, Nothing).Some? && Going(Step(ENDLESS, y, Nothing).value)
    {
      GoesOn(y);
    }
    GoesOnForever(ENDLESS, Fresh(ENDLESS, map[]), n);
  }
}
