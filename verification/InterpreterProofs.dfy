/** What every run of the interpreter keeps, on every executable definition. */
module InterpreterProofs {
  import opened Ids
  import opened Json
  import opened Definitions
  import opened Interpreter

  /** `n` is the entry, or an earlier node of the path has an edge to it. */
  ghost predicate Fed(d: Definition, path: seq<Id>, n: Id) {
    n == d.entry || exists i | 0 <= i < |path| :: (path[i], n) in Graph(d)
  }

  ghost predicate InsideGraph(d: Definition, x: Core) {
    && x.steps == |x.path|
    && (forall id :: id in x.completed <==> id in x.path)
    && (forall id | id in x.current :: id in NodeIds(d))
    && (forall id | id in x.path :: id in NodeIds(d))
  }

  ghost predicate WellFed(d: Definition, x: Core) {
    && (forall id | id in x.current :: Fed(d, x.path, id))
    && forall k | 0 <= k < |x.path| :: Fed(d, x.path[..k], x.path[k])
  }

  /** Every join on the path comes after each of its parents. */
  ghost predicate JoinsWaited(d: Definition, x: Core) {
    forall k, a | 0 <= k < |x.path| && (a, x.path[k]) in Graph(d) && JoinAt(d, x.path[k]) :: a in x.path[..k]
  }

  predicate JoinAt(d: Definition, id: Id) {
    id in NodeIds(d) && NodeAt(d, id).kind == Join
  }

  predicate OutputAt(d: Definition, id: Id) {
    id in NodeIds(d) && NodeAt(d, id).kind == Output
  }

  ghost predicate LoopsBounded(d: Definition, x: Core) {
    forall id | id in x.loops :: id in NodeIds(d) && x.loops[id] <= MaxIterations(NodeAt(d, id))
  }

  /** Only an output node can empty the active set. */
  ghost predicate EndsAtOutput(d: Definition, x: Core) {
    x.current == [] ==> x.path != [] && OutputAt(d, x.path[|x.path| - 1])
  }

  ghost predicate Invariant(d: Definition, x: Core) {
    InsideGraph(d, x) && WellFed(d, x) && JoinsWaited(d, x) && LoopsBounded(d, x) && EndsAtOutput(d, x)
  }

  lemma FreshInvariant(d: Definition, input: State)
    requires Executable(d)
    ensures Invariant(d, Fresh(d, input))
  {
  }

  /** In an executable definition the engine's edge list of a node obeys the node's rule. */
  lemma RuleOf(d: Definition, id: Id)
    requires WellFormed(d) && id in NodeIds(d)
    ensures NodeAt(d, id) in d.nodes
    ensures ConfigRule(NodeAt(d, id))
    ensures EdgeRule(NodeAt(d, id).kind, Outgoing(d.edges, id), Incoming(d.edges, id))
  {
    KnownEdgesMembers(d.edges, NodeIds(d));
    assert NodeRule(d, NodeAt(d, id));
  }

  lemma {:induction false} FirstTargetFinds(edges: seq<Edge>, e: Edge)
    requires e in edges
    ensures FirstTarget(edges, e.branch).Some?
    ensures exists f | f in edges :: FirstTarget(edges, e.branch) == Some(f.target)
  {
    if edges[0].branch == e.branch {
      assert edges[0] in edges;
    } else {
      FirstTargetFinds(edges[1..], e);
    }
  }

  /** Both branches of a fork lead somewhere along one of its edges. */
  lemma ForkFinds(edges: seq<Edge>, b: Branch, c: Branch)
    requires Forks(edges, b, c)
    ensures exists f | f in edges :: FirstTarget(edges, b) == Some(f.target)
    ensures exists f | f in edges :: FirstTarget(edges, c) == Some(f.target)
  {
    var bs := Branches(edges);
    assert b in multiset(bs) && c in multiset(bs);
    var i :| 0 <= i < |bs| && bs[i] == b;
    var j :| 0 <= j < |bs| && bs[j] == c;
    FirstTargetFinds(edges, edges[i]);
    FirstTargetFinds(edges, edges[j]);
  }

  lemma EdgeIsArc(d: Definition, id: Id, e: Edge)
    requires WellFormed(d) && id in NodeIds(d) && e in Outgoing(d.edges, id)
    ensures (id, e.target) in Graph(d)
  {
    OutgoingMembers(d.edges, id);
    assert Known(e, NodeIds(d));
  }

  lemma EdgesAreArcs(d: Definition, id: Id)
    requires WellFormed(d) && id in NodeIds(d)
    ensures forall e | e in Outgoing(d.edges, id) :: (id, e.target) in Graph(d)
  {
    forall e | e in Outgoing(d.edges, id) ensures (id, e.target) in Graph(d) {
      EdgeIsArc(d, id, e);
    }
  }

  lemma ConditionDecides(n: Node, state: State)
    requires n.kind == Condition && ConfigRule(n)
    ensures ConditionBranch(n, state) in {Some(WhenTrue), Some(WhenFalse)}
  {
  }

  /** Successors exist, are reached by edges, and are absent only at an output node. */
  ghost predicate GoodNext(d: Definition, id: Id, next: Option<seq<Id>>)
    requires id in NodeIds(d)
  {
    && next.Some?
    && (forall t | t in next.value :: (id, t) in Graph(d))
    && (next.value == [] <==> NodeAt(d, id).kind == Output)
  }

  /** A branch that the engine's lookup finds, along an edge. */
  ghost predicate Leaves(d: Definition, id: Id, b: Branch) {
    var t := FirstTarget(Outgoing(d.edges, id), b);
    t.Some? && (id, t.value) in Graph(d)
  }

  lemma ForkLeaves(d: Definition, id: Id, b: Branch, c: Branch)
    requires WellFormed(d) && id in NodeIds(d) && Forks(Outgoing(d.edges, id), b, c)
    ensures Leaves(d, id, b) && Leaves(d, id, c)
  {
    ForkFinds(Outgoing(d.edges, id), b, c);
    EdgesAreArcs(d, id);
  }

  lemma WellFormedOf(d: Definition)
    requires Executable(d)
    ensures WellFormed(d)
  {
    hide WellFormed;
  }

  lemma NextOfCondition(d: Definition, id: Id, state: State, loops: map<Id, nat>, outside: Outside)
    requires Executable(d) && id in NodeIds(d) && NodeAt(d, id).kind == Condition
    ensures GoodNext(d, id, NextNodes(d, NodeAt(d, id), state, loops, outside))
  {
    hide Executable, WellFormed, ConditionBranch, ConfigRule, Forks, FirstTarget, Outgoing, Incoming;
    WellFormedOf(d);
    RuleOf(d, id);
    ConditionDecides(NodeAt(d, id), state);
    ForkLeaves(d, id, WhenFalse, WhenTrue);
  }

  lemma NextOfLoop(d: Definition, id: Id, state: State, loops: map<Id, nat>, outside: Outside)
    requires Executable(d) && id in NodeIds(d) && NodeAt(d, id).kind == BoundedLoop
    ensures GoodNext(d, id, NextNodes(d, NodeAt(d, id), state, loops, outside))
  {
    hide Executable, WellFormed, ConfigRule, Forks, FirstTarget, Outgoing, Incoming;
    WellFormedOf(d);
    RuleOf(d, id);
    ForkLeaves(d, id, Continue, Exit);
  }

  lemma NextOfApproval(d: Definition, id: Id, state: State, loops: map<Id, nat>, outside: Outside)
    requires Executable(d) && id in NodeIds(d) && NodeAt(d, id).kind == Approval && Suits(Approval, outside)
    ensures GoodNext(d, id, NextNodes(d, NodeAt(d, id), state, loops, outside))
  {
    hide Executable, WellFormed, ConfigRule, Forks, FirstTarget, Outgoing, Incoming;
    WellFormedOf(d);
    RuleOf(d, id);
    ForkLeaves(d, id, Approved, Denied);
  }

  lemma NextOfOther(d: Definition, id: Id, state: State, loops: map<Id, nat>, outside: Outside)
    requires Executable(d) && id in NodeIds(d) && NodeAt(d, id).kind !in {Condition, BoundedLoop, Approval}
    ensures GoodNext(d, id, NextNodes(d, NodeAt(d, id), state, loops, outside))
  {
    hide Executable, WellFormed, ConfigRule, Forks, Outgoing, Incoming;
    WellFormedOf(d);
    RuleOf(d, id);
    EdgesAreArcs(d, id);
    var out := Outgoing(d.edges, id);
    if out != [] {
      assert out[0] in out;
      assert out[0].target in Targets(out);
    }
  }

  /** `_next_nodes` always finds its branch, follows edges only, and stops only at outputs. */
  lemma NextNodesTotal(d: Definition, id: Id, state: State, loops: map<Id, nat>, outside: Outside)
    requires Executable(d) && id in NodeIds(d) && Suits(NodeAt(d, id).kind, outside)
    ensures GoodNext(d, id, NextNodes(d, NodeAt(d, id), state, loops, outside))
  {
    match NodeAt(d, id).kind
    case Condition => NextOfCondition(d, id, state, loops, outside);
    case BoundedLoop => NextOfLoop(d, id, state, loops, outside);
    case Approval => NextOfApproval(d, id, state, loops, outside);
    case _ => NextOfOther(d, id, state, loops, outside);
  }

  /** With a suitable outside input every node of an executable definition runs. */
  lemma RunNodeTotal(d: Definition, x: Core, id: Id, outside: Outside)
    requires Executable(d) && id in NodeIds(d) && Suits(NodeAt(d, id).kind, outside)
    ensures RunNode(d, x, id, outside).Some?
  {
    hide Executable, WellFormed, EdgeRule, NextNodes;
    WellFormedOf(d);
    RuleOf(d, id);
    var state := StateAfter(NodeAt(d, id), x.state, outside);
    assert state.Some?;
    NextNodesTotal(d, id, state.value, x.loops, outside);
  }

  /** A node that ran had a suitable outside input. */
  lemma RanSuits(d: Definition, x: Core, id: Id, outside: Outside)
    requires id in NodeIds(d) && RunNode(d, x, id, outside).Some?
    ensures Suits(NodeAt(d, id).kind, outside)
  {
  }

  /** What one step does to the active set and the path. */
  lemma StepShape(d: Definition, x: Core, id: Id, outside: Outside, y: Core)
    requires Executable(d) && id in NodeIds(d) && RunNode(d, x, id, outside) == Some(y)
    ensures y.path == x.path + [id] && y.steps == x.steps + 1
    ensures forall t | t in y.current :: (t in x.current && t != id) || (id, t) in Graph(d)
    ensures y.current == [] ==> NodeAt(d, id).kind == Output
  {
    RanSuits(d, x, id, outside);
    var n := NodeAt(d, id);
    var state := StateAfter(n, x.state, outside).value;
    NextNodesTotal(d, id, state, x.loops, outside);
    var next := NextNodes(d, n, state, x.loops, outside).value;
    if next != [] {
      assert next[0] in Elements(next);
      assert next[0] in y.current;
    }
  }

  lemma ArcEnds(d: Definition, a: Id, b: Id)
    requires (a, b) in Graph(d)
    ensures a in NodeIds(d) && b in NodeIds(d)
  {
  }

  lemma StepInside(d: Definition, x: Core, id: Id, outside: Outside, y: Core)
    requires Executable(d) && id in NodeIds(d) && RunNode(d, x, id, outside) == Some(y)
    requires InsideGraph(d, x) && EndsAtOutput(d, x)
    ensures InsideGraph(d, y) && EndsAtOutput(d, y)
  {
    StepShape(d, x, id, outside, y);
    forall t | t in y.current ensures t in NodeIds(d) {
      if (id, t) in Graph(d) {
        ArcEnds(d, id, t);
      }
    }
    assert y.path[|y.path| - 1] == id;
  }

  lemma FedGrows(d: Definition, path: seq<Id>, more: Id, n: Id)
    requires Fed(d, path, n)
    ensures Fed(d, path + [more], n)
  {
    if n != d.entry {
      var i :| 0 <= i < |path| && (path[i], n) in Graph(d);
      assert (path + [more])[i] == path[i];
    }
  }

  lemma StepFed(d: Definition, x: Core, id: Id, outside: Outside, y: Core)
    requires Executable(d) && id in NodeIds(d) && id in x.current && RunNode(d, x, id, outside) == Some(y)
    requires WellFed(d, x)
    ensures WellFed(d, y)
  {
    hide Executable, RunNode;
    StepShape(d, x, id, outside, y);
    forall t | t in y.current ensures Fed(d, y.path, t) {
      if (id, t) in Graph(d) {
        assert y.path[|x.path|] == id;
      } else {
        FedGrows(d, x.path, id, t);
      }
    }
    forall k | 0 <= k < |y.path| ensures Fed(d, y.path[..k], y.path[k]) {
      assert y.path[..k] == x.path[..k];
      if k == |x.path| {
        assert x.path[..k] == x.path;
      }
    }
  }

  /** A ready join has every parent on the path. */
  lemma ReadyJoin(d: Definition, x: Core, id: Id, a: Id)
    requires id in NodeIds(d) && NodeReady(d, id, Elements(x.completed)) && InsideGraph(d, x)
    requires JoinAt(d, id) && (a, id) in Graph(d)
    ensures a in x.path
  {
    var e :| e in d.edges && e.source == a && e.target == id;
  }

  lemma StepJoins(d: Definition, x: Core, id: Id, outside: Outside, y: Core)
    requires id in NodeIds(d) && NodeReady(d, id, Elements(x.completed)) && RunNode(d, x, id, outside) == Some(y)
    requires InsideGraph(d, x) && JoinsWaited(d, x)
    ensures JoinsWaited(d, y)
  {
    assert y.path == x.path + [id];
    forall k, a | 0 <= k < |y.path| && (a, y.path[k]) in Graph(d) && JoinAt(d, y.path[k])
      ensures a in y.path[..k]
    {
      assert y.path[..k] == x.path[..k];
      if k == |x.path| {
        ReadyJoin(d, x, id, a);
        assert x.path[..k] == x.path;
      } else {
        assert y.path[k] == x.path[k];
      }
    }
  }

  lemma StepLoops(d: Definition, x: Core, id: Id, outside: Outside, y: Core)
    requires id in NodeIds(d) && RunNode(d, x, id, outside) == Some(y) && LoopsBounded(d, x)
    ensures LoopsBounded(d, y)
  {
    assert NodeAt(d, id).id == id;
  }

  lemma {:induction false} FilterExact(d: Definition, ids: seq<Id>, completed: set<Id>)
    requires Ascending(ids)
    ensures Ascending(FilterReady(d, ids, completed))
    ensures forall id | id in ids && id in NodeIds(d) && NodeReady(d, id, completed) :: id in FilterReady(d, ids, completed)
  {
    hide NodeReady, NodesById, Leq;
    if ids != [] {
      var rest := ids[1..];
      assert ids == [ids[0]] + rest;
      FilterExact(d, rest, completed);
      var kept := FilterReady(d, rest, completed);
      forall k | 0 <= k < |kept| ensures Leq(ids[0], kept[k]) && ids[0] != kept[k] {
        assert kept[k] in rest;
        var i :| 0 <= i < |rest| && rest[i] == kept[k];
        assert rest[i] == ids[i + 1];
      }
    }
  }

  /** The ready nodes are exactly the active nodes that may run, in ascending order. */
  lemma ReadyIsExact(d: Definition, x: Core)
    ensures forall id :: id in Ready(d, x) <==> id in x.current && id in NodeIds(d) && NodeReady(d, id, Elements(x.completed))
    ensures Ascending(Ready(d, x))
  {
    hide NodeReady, NodesById, Ascending;
    FilterExact(d, SortIds(Elements(x.current)), Elements(x.completed));
  }

  /** Every step keeps the invariant, whatever the outside supplies. */
  lemma StepKeepsInvariant(d: Definition, x: Core, outside: Outside, y: Core)
    requires Executable(d) && Invariant(d, x) && Step(d, x, outside) == Some(y)
    ensures Invariant(d, y)
  {
    var id := Ready(d, x)[0];
    assert id in Ready(d, x);
    StepInside(d, x, id, outside, y);
    StepFed(d, x, id, outside, y);
    StepJoins(d, x, id, outside, y);
    StepLoops(d, x, id, outside, y);
  }

  /** The interpreter is total on executable definitions: a ready node with a suitable input runs. */
  lemma StepTotal(d: Definition, x: Core, outside: Outside)
    requires Executable(d) && Invariant(d, x) && Ready(d, x) != []
    requires Suits(NodeAt(d, Ready(d, x)[0]).kind, outside)
    ensures Step(d, x, outside).Some?
  {
    assert Ready(d, x)[0] in Ready(d, x);
    RunNodeTotal(d, x, Ready(d, x)[0], outside);
  }

  /** Every record that a run of an executable definition can reach satisfies the invariant. */
  lemma {:induction false} RunInvariant(d: Definition, input: State, outs: seq<Outside>, y: Core)
    requires Executable(d) && Run(d, Fresh(d, input), outs) == Some(y)
    ensures Invariant(d, y)
    decreases |outs|
  {
    if outs == [] {
      FreshInvariant(d, input);
    } else {
      var n := |outs| - 1;
      var x := Run(d, Fresh(d, input), outs[..n]).value;
      RunInvariant(d, input, outs[..n], x);
      StepKeepsInvariant(d, x, outs[n], y);
    }
  }
}
