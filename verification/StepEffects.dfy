/** Exactly what a step does to every part of the record. */
module StepEffects {
  import opened Ids
  import opened Json
  import opened Definitions
  import opened Interpreter
  import opened InterpreterProofs

  /** The state after: one key holds the value, and every other key is as it was. */
  predicate WritesKey(before: State, after: State, key: string, value: State) {
    && key in after && after[key] == Obj(value)
    && (forall k | k in before && k != key :: k in after && after[k] == before[k])
    && forall k | k in after && k != key :: k in before
  }

  /** The key under which a node stores what it receives. */
  predicate StoresUnder(n: Node, name: string, key: string) {
    name in n.config && n.config[name] == Str(key)
  }

  /** Storing a value writes it under the configured key. */
  lemma StoredWrites(n: Node, name: string, state: State, value: State, after: State)
    requires Stored(n, name, state, value) == Some(after)
    ensures exists key :: StoresUnder(n, name, key) && WritesKey(state, after, key, value)
  {
    var key := n.config[name].s;
    assert StoresUnder(n, name, key) && WritesKey(state, after, key, value);
  }

  lemma RunNodeState(d: Definition, x: Core, id: Id, outside: Outside, y: Core)
    requires id in NodeIds(d) && RunNode(d, x, id, outside) == Some(y)
    ensures StateAfter(NodeAt(d, id), x.state, outside) == Some(y.state)
  {
    hide NextNodes, SortIds, StateAfter, NodesById, LoopsAfter, Ascending;
  }

  /** An event or information node writes the response under its `state_key` and nothing else. */
  lemma ResponseIsWritten(d: Definition, x: Core, id: Id, outside: Outside, y: Core)
    requires id in NodeIds(d) && NodeAt(d, id).kind in {Event, RequestInformation} && RunNode(d, x, id, outside) == Some(y)
    ensures outside.Response? && outside.resolution == Received && outside.payload.Some?
    ensures exists key :: StoresUnder(NodeAt(d, id), "state_key", key) && WritesKey(x.state, y.state, key, outside.payload.value)
  {
    hide RunNode, NodesById, NodeAt, Stored, WritesKey, StoresUnder;
    RunNodeState(d, x, id, outside, y);
    StoredWrites(NodeAt(d, id), "state_key", x.state, outside.payload.value, y.state);
  }

  /** A subworkflow node writes the child's final state under its `result_state_key` and nothing else. */
  lemma ResultIsWritten(d: Definition, x: Core, id: Id, outside: Outside, y: Core)
    requires id in NodeIds(d) && NodeAt(d, id).kind == Subworkflow && RunNode(d, x, id, outside) == Some(y)
    ensures outside.Result?
    ensures exists key :: StoresUnder(NodeAt(d, id), "result_state_key", key) && WritesKey(x.state, y.state, key, outside.value)
  {
    hide RunNode, NodesById, NodeAt, Stored, WritesKey, StoresUnder;
    RunNodeState(d, x, id, outside, y);
    StoredWrites(NodeAt(d, id), "result_state_key", x.state, outside.value, y.state);
  }

  /** Every other node leaves the state alone; a timer needs its time and an approval an answer. */
  lemma OthersKeepState(d: Definition, x: Core, id: Id, outside: Outside, y: Core)
    requires id in NodeIds(d) && NodeAt(d, id).kind !in {Event, RequestInformation, Subworkflow, Agent, Tool}
    requires RunNode(d, x, id, outside) == Some(y)
    ensures y.state == x.state
    ensures NodeAt(d, id).kind == Timer ==> outside.Response? && outside.resolution == Elapsed
    ensures NodeAt(d, id).kind == Approval ==> outside.Response? && outside.resolution in {Granted, Refused}
  {
    hide RunNode, NodesById, NodeAt, Stored;
    RunNodeState(d, x, id, outside, y);
  }

  /**
   * The rest of the record: the node is on the path and among the completed nodes, the other
   * active nodes stay active beside its successors, and the step is counted.
   */
  lemma StepIsExact(d: Definition, x: Core, id: Id, outside: Outside, y: Core)
    requires id in NodeIds(d) && RunNode(d, x, id, outside) == Some(y)
    ensures y.path == x.path + [id] && y.steps == x.steps + 1
    ensures forall t :: t in y.completed <==> t in x.completed || t == id
    ensures x.completed <= y.completed && |y.completed| == |x.completed| + if id in x.completed then 0 else 1
    ensures NextNodes(d, NodeAt(d, id), y.state, x.loops, outside).Some?
    ensures forall t :: t in y.current <==>
              (t in x.current && t != id) || t in NextNodes(d, NodeAt(d, id), y.state, x.loops, outside).value
    ensures Ascending(y.current)
    ensures y.loops == LoopsAfter(NodeAt(d, id), x.loops)
  {
    hide NextNodes, StateAfter, NodesById, LoopsAfter, Ascending;
  }

  /** Only a bounded loop below its maximum counts, and it counts one. */
  lemma LoopsAreExact(n: Node, loops: map<Id, nat>)
    requires n.kind == BoundedLoop ==> "max_iterations" in n.config && n.config["max_iterations"].Int? && n.config["max_iterations"].i > 0
    ensures forall k | k != n.id :: (k in LoopsAfter(n, loops) <==> k in loops) && (k in loops ==> LoopsAfter(n, loops)[k] == loops[k])
    ensures var count := if n.id in loops then loops[n.id] else 0;
            if n.kind == BoundedLoop && count < n.config["max_iterations"].i
            then n.id in LoopsAfter(n, loops) && LoopsAfter(n, loops)[n.id] == count + 1
            else LoopsAfter(n, loops) == loops
  {
  }

  /** The engine runs the least ready node: every active node that exists, a join only after all its parents. */
  lemma RunsTheFirst(d: Definition, x: Core, outside: Outside, y: Core)
    requires Step(d, x, outside) == Some(y)
    ensures y.path != []
    ensures var id := y.path[|y.path| - 1];
            && id in x.current && id in NodeIds(d) && MayRun(d, x, id)
            && (forall other | other in x.current && other in NodeIds(d) && MayRun(d, x, other) :: Leq(id, other))
            && RunNode(d, x, id, outside) == Some(y)
  {
    hide RunNode, NodesById, NodeReady, Leq;
    ReadyIsExact(d, x);
    var id := Ready(d, x)[0];
    assert id in Ready(d, x);
    StepIsExact(d, x, id, outside, y);
    assert y.path[|y.path| - 1] == id;
    MayRunMeans(d, x, id);
    forall other | other in x.current && other in NodeIds(d) && MayRun(d, x, other) ensures Leq(id, other) {
      MayRunMeans(d, x, other);
      var k :| 0 <= k < |Ready(d, x)| && Ready(d, x)[k] == other;
      LeqTotal(id, id);
    }
  }

  predicate MayRun(d: Definition, x: Core, id: Id)
    requires id in NodeIds(d)
  {
    NodeAt(d, id).kind == Join ==> forall e | e in d.edges && e.target == id :: e.source in x.completed
  }

  lemma MayRunMeans(d: Definition, x: Core, id: Id)
    requires id in NodeIds(d)
    ensures MayRun(d, x, id) <==> NodeReady(d, id, Elements(x.completed))
  {
  }

  /** A node with one outgoing edge is followed by that edge's target. */
  lemma SingleEdgeFollows(d: Definition, id: Id, state: State, loops: map<Id, nat>, outside: Outside, e: Edge)
    requires Executable(d) && id in NodeIds(d) && e in d.edges && e.source == id
    requires NodeAt(d, id).kind !in {Output, Condition, Parallel, BoundedLoop, Approval}
    ensures NextNodes(d, NodeAt(d, id), state, loops, outside) == Some([e.target])
    ensures forall f | f in d.edges && f.source == id :: f == e
  {
    hide Executable, WellFormed, ConfigRule, Outgoing, Incoming, NodesById;
    WellFormedOf(d);
    RuleOf(d, id);
    OutgoingMembers(d.edges, id);
    var out := Outgoing(d.edges, id);
    assert e in out && |out| == 1;
    forall f | f in d.edges && f.source == id ensures f == e {
      assert f in out;
    }
  }
}
