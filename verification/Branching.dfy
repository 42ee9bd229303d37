/** Which edge a node follows, stated on the edges of the definition and the path of the run. */
module Branching {
  import opened Ids
  import opened Json
  import opened Definitions
  import opened Interpreter
  import opened InterpreterProofs
  import opened RunBounds

  /** The node has an edge on this branch, and every such edge leads to the one successor. */
  ghost predicate Follows(d: Definition, id: Id, b: Branch, next: Option<seq<Id>>) {
    && (exists e | e in d.edges :: e.source == id && e.branch == b)
    && forall e | e in d.edges && e.source == id && e.branch == b :: next == Some([e.target])
  }

  /** A fork has one edge per branch, so the first edge on a branch is the only one. */
  lemma {:induction false} OnlyTarget(edges: seq<Edge>, b: Branch, e: Edge)
    requires e in edges && e.branch == b && multiset(Branches(edges))[b] == 1
    ensures FirstTarget(edges, b) == Some(e.target)
  {
    var rest := edges[1..];
    assert edges == [edges[0]] + rest;
    assert Branches(edges) == [edges[0].branch] + Branches(rest);
    assert multiset(Branches(edges)) == multiset{edges[0].branch} + multiset(Branches(rest));
    if edges[0].branch == b {
      if e != edges[0] {
        BranchCounted(rest, e);
      }
    } else {
      OnlyTarget(rest, b, e);
    }
  }

  lemma BranchCounted(edges: seq<Edge>, e: Edge)
    requires e in edges
    ensures multiset(Branches(edges))[e.branch] >= 1
  {
    var i :| 0 <= i < |edges| && edges[i] == e;
    assert Branches(edges)[i] == e.branch;
    assert e.branch in Branches(edges);
  }

  lemma ForkFollows(d: Definition, id: Id, b: Branch, c: Branch, taken: Branch)
    requires WellFormed(d) && id in NodeIds(d) && Forks(Outgoing(d.edges, id), b, c) && b != c && taken in {b, c}
    ensures FirstTarget(Outgoing(d.edges, id), taken).Some?
    ensures Follows(d, id, taken, Some([FirstTarget(Outgoing(d.edges, id), taken).value]))
  {
    hide WellFormed, FirstTarget;
    var out := Outgoing(d.edges, id);
    OutgoingMembers(d.edges, id);
    assert multiset(Branches(out))[taken] == 1;
    assert taken in Branches(out);
    var i :| 0 <= i < |out| && Branches(out)[i] == taken;
    assert out[i] in out;
    forall e | e in d.edges && e.source == id && e.branch == taken ensures FirstTarget(out, taken) == Some(e.target) {
      OnlyTarget(out, taken, e);
    }
    assert out[i] in d.edges && out[i].source == id && out[i].branch == taken;
  }

  /** The comparison that a condition node states holds of the run state. */
  predicate Holds(n: Node, state: State)
    requires n.kind == Condition && ConfigRule(n)
  {
    Compare(Lookup(Obj(state), SplitDots(n.config["field"].s)), ParseOperator(n.config["operator"].s).value, n.config["value"])
  }

  /** A condition follows its `true` edge exactly when its comparison holds, and else its `false` edge. */
  lemma ConditionFollows(d: Definition, id: Id, state: State, loops: map<Id, nat>, outside: Outside)
    requires Executable(d) && id in NodeIds(d) && NodeAt(d, id).kind == Condition
    ensures ConfigRule(NodeAt(d, id))
    ensures Follows(d, id, if Holds(NodeAt(d, id), state) then WhenTrue else WhenFalse,
                    NextNodes(d, NodeAt(d, id), state, loops, outside))
  {
    hide Executable, WellFormed, Follows, Forks, FirstTarget, Outgoing, Incoming;
    WellFormedOf(d);
    RuleOf(d, id);
    var n := NodeAt(d, id);
    var taken := if Holds(n, state) then WhenTrue else WhenFalse;
    assert ConditionBranch(n, state) == Some(taken);
    ForkFollows(d, id, WhenFalse, WhenTrue, taken);
  }

  /** An approval node follows the edge of its answer. */
  lemma ApprovalFollows(d: Definition, id: Id, state: State, loops: map<Id, nat>, outside: Outside)
    requires Executable(d) && id in NodeIds(d) && NodeAt(d, id).kind == Approval && Suits(Approval, outside)
    ensures Follows(d, id, if outside.resolution == Granted then Approved else Denied,
                    NextNodes(d, NodeAt(d, id), state, loops, outside))
  {
    hide Executable, WellFormed, ConfigRule, Follows, Forks, FirstTarget, Outgoing, Incoming;
    WellFormedOf(d);
    RuleOf(d, id);
    ForkFollows(d, id, Approved, Denied, if outside.resolution == Granted then Approved else Denied);
  }

  /** A parallel node activates exactly the targets of its edges. */
  lemma ParallelFollows(d: Definition, id: Id, state: State, loops: map<Id, nat>, outside: Outside)
    requires Executable(d) && id in NodeIds(d) && NodeAt(d, id).kind == Parallel
    ensures var next := NextNodes(d, NodeAt(d, id), state, loops, outside);
            && next.Some? && Ascending(next.value)
            && forall t :: t in next.value <==> exists e | e in d.edges :: e.source == id && e.target == t
  {
    hide Executable, WellFormed, Outgoing, Incoming, Ascending;
    OutgoingMembers(d.edges, id);
    var out := Outgoing(d.edges, id);
    forall t ensures t in Targets(out) <==> exists e | e in d.edges :: e.source == id && e.target == t {
      if e :| e in d.edges && e.source == id && e.target == t {
        assert e in out;
      }
    }
  }

  // ---------------------------------------------------------------- loops count their visits

  function Visits(path: seq<Id>, id: Id): nat {
    multiset(path)[id]
  }

  function Smaller(a: nat, b: nat): nat {
    if a < b then a else b
  }

  /** A loop's count is the number of its visits, up to its maximum. */
  lemma {:induction false} LoopCountIsVisits(d: Definition, input: State, outs: seq<Outside>, y: Core, id: Id)
    requires Executable(d) && Run(d, Fresh(d, input), outs) == Some(y)
    requires id in NodeIds(d) && NodeAt(d, id).kind == BoundedLoop
    ensures LoopCount(y.loops, id) == Smaller(Visits(y.path, id), MaxIterations(NodeAt(d, id)))
    decreases |outs|
  {
    hide Executable, Step, MaxIterations;
    if outs != [] {
      var n := |outs| - 1;
      var x := Run(d, Fresh(d, input), outs[..n]).value;
      LoopCountIsVisits(d, input, outs[..n], x, id);
      StepVisits(d, x, outs[n], y, id);
    }
  }

  lemma StepVisits(d: Definition, x: Core, outside: Outside, y: Core, id: Id)
    requires Step(d, x, outside) == Some(y) && id in NodeIds(d) && NodeAt(d, id).kind == BoundedLoop
    requires LoopCount(x.loops, id) == Smaller(Visits(x.path, id), MaxIterations(NodeAt(d, id)))
    ensures LoopCount(y.loops, id) == Smaller(Visits(y.path, id), MaxIterations(NodeAt(d, id)))
  {
    hide Step, Ready, MaxIterations, NodesById;
    StepPath(d, x, outside, y);
    StepCountsLoop(d, x, outside, y, id);
  }

  lemma StepPath(d: Definition, x: Core, outside: Outside, y: Core)
    requires Step(d, x, outside) == Some(y)
    ensures Ready(d, x) != [] && y.path == x.path + [Ready(d, x)[0]]
    ensures forall id :: Visits(y.path, id) == Visits(x.path, id) + if id == Ready(d, x)[0] then 1 else 0
  {
    hide NextNodes, StateAfter;
    var at := Ready(d, x)[0];
    assert at in Ready(d, x);
  }

  /**
   * In every run, a bounded loop follows its `continue` edge on its first `max_iterations`
   * visits and its `exit` edge on every later one.
   */
  lemma LoopFollows(d: Definition, input: State, outs: seq<Outside>, y: Core, id: Id, outside: Outside)
    requires Executable(d) && Run(d, Fresh(d, input), outs) == Some(y)
    requires id in NodeIds(d) && NodeAt(d, id).kind == BoundedLoop
    ensures Follows(d, id, if Visits(y.path, id) < MaxIterations(NodeAt(d, id)) then Continue else Exit,
                    NextNodes(d, NodeAt(d, id), y.state, y.loops, outside))
  {
    hide Executable, WellFormed, ConfigRule, Follows, Forks, FirstTarget, Outgoing, Incoming, MaxIterations, Run;
    WellFormedOf(d);
    RuleOf(d, id);
    LoopCountIsVisits(d, input, outs, y, id);
    ForkFollows(d, id, Continue, Exit, if Visits(y.path, id) < MaxIterations(NodeAt(d, id)) then Continue else Exit);
  }
}
