/**
 * When loop counts do bound a run: if the graph without the `continue` edges of its loops has
 * no cycle, a run of a parallel-free definition is at most as long as its loops allow.
 */
module RunLength {
  import opened Ids
  import opened Json
  import opened Graphs
  import opened Definitions
  import opened Interpreter
  import opened InterpreterProofs
  import opened RunBounds

  /** The edge is not the `continue` edge of a bounded loop. */
  predicate Forward(d: Definition, e: Edge) {
    && e.source in NodeIds(d) && e.target in NodeIds(d)
    && (NodeAt(d, e.source).kind == BoundedLoop ==> e.branch != Continue)
  }

  function ForwardArcs(d: Definition): (arcs: Arcs)
    ensures forall e | e in d.edges && Forward(d, e) :: (e.source, e.target) in arcs
    ensures forall a, b | (a, b) in arcs :: a in NodeIds(d) && b in NodeIds(d)
  {
    set e | e in d.edges && Forward(d, e) :: (e.source, e.target)
  }

  // ---------------------------------------------------------------- how often loops continued

  /** The continues taken so far by the loops in `ids`. */
  ghost function Total(ids: set<Id>, loops: map<Id, nat>): nat {
    if ids == {} then 0
    else
      var id :| id in ids;
      LoopCount(loops, id) + Total(ids - {id}, loops)
  }

  lemma {:induction false} TotalWithout(ids: set<Id>, loops: map<Id, nat>, id: Id)
    requires id in ids
    ensures Total(ids, loops) == LoopCount(loops, id) + Total(ids - {id}, loops)
    decreases ids
  {
    var other :| other in ids && Total(ids, loops) == LoopCount(loops, other) + Total(ids - {other}, loops);
    if other != id {
      TotalWithout(ids - {other}, loops, id);
      TotalWithout(ids - {id}, loops, other);
      assert ids - {other} - {id} == ids - {id} - {other};
    }
  }

  lemma {:induction false} TotalAgrees(ids: set<Id>, loops: map<Id, nat>, more: map<Id, nat>)
    requires forall id | id in ids :: LoopCount(more, id) == LoopCount(loops, id)
    ensures Total(ids, more) == Total(ids, loops)
    decreases ids
  {
    if ids != {} {
      var id :| id in ids;
      TotalWithout(ids, loops, id);
      TotalWithout(ids, more, id);
      TotalAgrees(ids - {id}, loops, more);
    }
  }

  /** The continues that the loops of the definition allow in all. */
  ghost function Allowed(d: Definition, ids: set<Id>): nat
    requires ids <= NodeIds(d)
  {
    if ids == {} then 0
    else
      var id :| id in ids;
      MaxIterations(NodeAt(d, id)) + Allowed(d, ids - {id})
  }

  lemma {:induction false} AllowedWithout(d: Definition, ids: set<Id>, id: Id)
    requires ids <= NodeIds(d) && id in ids
    ensures Allowed(d, ids) == MaxIterations(NodeAt(d, id)) + Allowed(d, ids - {id})
    decreases ids
  {
    hide MaxIterations, NodesById;
    var other :| other in ids && Allowed(d, ids) == MaxIterations(NodeAt(d, other)) + Allowed(d, ids - {other});
    if other != id {
      AllowedWithout(d, ids - {other}, id);
      AllowedWithout(d, ids - {id}, other);
      assert ids - {other} - {id} == ids - {id} - {other};
    }
  }

  lemma {:induction false} TotalIsAllowed(d: Definition, ids: set<Id>, loops: map<Id, nat>)
    requires ids <= NodeIds(d) && forall id | id in ids :: LoopCount(loops, id) <= MaxIterations(NodeAt(d, id))
    ensures Total(ids, loops) <= Allowed(d, ids)
    decreases ids
  {
    hide MaxIterations, NodesById;
    if ids != {} {
      var id :| id in ids;
      TotalWithout(ids, loops, id);
      AllowedWithout(d, ids, id);
      TotalIsAllowed(d, ids - {id}, loops);
    }
  }

  // ---------------------------------------------------------------- stretches between continues

  /** A walk along forward edges. */
  ghost predicate Stretch(d: Definition, p: seq<Id>) {
    && (forall i | 0 <= i < |p| :: p[i] in NodeIds(d))
    && forall i | 0 <= i < |p| - 1 :: (p[i], p[i + 1]) in ForwardArcs(d)
  }

  /** Without a forward cycle a stretch visits no node twice. */
  lemma StretchIsShort(d: Definition, p: seq<Id>)
    requires Stretch(d, p) && !HasCycle(ForwardArcs(d))
    ensures |p| <= |NodeIds(d)|
  {
    hide NodeIds, ForwardArcs;
    forall i, j | 0 <= i < j < |p| ensures p[i] != p[j] {
      if p[i] == p[j] {
        RepeatIsCycle(ForwardArcs(d), p, i, j);
      }
    }
    Pigeonhole(p, NodeIds(d));
  }

  lemma StretchGrows(d: Definition, p: seq<Id>, id: Id)
    requires Stretch(d, p) && id in NodeIds(d) && (p != [] ==> (p[|p| - 1], id) in ForwardArcs(d))
    ensures Stretch(d, p + [id])
  {
    hide NodeIds, ForwardArcs;
    var q := p + [id];
    forall i | 0 <= i < |q| - 1 ensures (q[i], q[i + 1]) in ForwardArcs(d) {
      assert q[i] == p[i];
      if i < |p| - 1 {
        assert q[i + 1] == p[i + 1];
      }
    }
  }

  // ---------------------------------------------------------------- one step

  lemma {:induction false} TargetEdge(edges: seq<Edge>, b: Branch)
    requires FirstTarget(edges, b).Some?
    ensures exists e | e in edges :: e.branch == b && e.target == FirstTarget(edges, b).value
  {
    if edges[0].branch == b {
      assert edges[0] in edges;
    } else {
      TargetEdge(edges[1..], b);
    }
  }

  lemma EdgeIsForward(d: Definition, id: Id, e: Edge)
    requires WellFormed(d) && id in NodeIds(d) && e in Outgoing(d.edges, id)
    requires NodeAt(d, id).kind == BoundedLoop ==> e.branch != Continue
    ensures (id, e.target) in ForwardArcs(d) && e.target in NodeIds(d)
  {
    hide ForwardArcs, NodesById;
    OutgoingMembers(d.edges, id);
    assert Known(e, NodeIds(d));
  }

  /** A successor is reached by a forward edge, unless a loop takes its `continue` edge. */
  lemma SuccessorIsForward(d: Definition, id: Id, state: State, loops: map<Id, nat>, outside: Outside, t: Id)
    requires WellFormed(d) && id in NodeIds(d) && NodeAt(d, id).kind != Parallel
    requires NextNodes(d, NodeAt(d, id), state, loops, outside) == Some([t])
    requires NodeAt(d, id).kind == BoundedLoop ==> LoopCount(loops, id) >= MaxIterations(NodeAt(d, id))
    ensures (id, t) in ForwardArcs(d) && t in NodeIds(d)
  {
    hide WellFormed, ForwardArcs, Outgoing, FirstTarget, ConditionBranch, MaxIterations, NodesById;
    var n := NodeAt(d, id);
    var out := Outgoing(d.edges, id);
    if n.kind in {Condition, BoundedLoop, Approval} {
      var b := ChosenBranch(n, state, loops, outside).value;
      NotContinue(n, state, loops, outside);
      TargetEdge(out, b);
      var e :| e in out && e.branch == b && e.target == t;
      EdgeIsForward(d, id, e);
    } else {
      assert out[0] in out;
      EdgeIsForward(d, id, out[0]);
    }
  }

  lemma NotContinue(n: Node, state: State, loops: map<Id, nat>, outside: Outside)
    requires ChosenBranch(n, state, loops, outside).Some?
    requires n.kind == BoundedLoop ==> LoopCount(loops, n.id) >= MaxIterations(n)
    ensures ChosenBranch(n, state, loops, outside).value != Continue
  {
    hide MaxIterations;
  }

  // ---------------------------------------------------------------- the pace of a run

  /** From position `k` on the path is a stretch, and `k` is paid for by continues. */
  ghost predicate PacedAt(d: Definition, x: Core, k: nat) {
    && k <= |x.path| && Stretch(d, x.path[k..] + x.current)
    && k <= Total(NodeIds(d), x.loops) * |NodeIds(d)|
  }

  ghost predicate Paced(d: Definition, x: Core) {
    exists k: nat :: PacedAt(d, x, k)
  }

  lemma FreshPaced(d: Definition, input: State)
    requires Executable(d)
    ensures Paced(d, Fresh(d, input))
  {
    hide Executable, Stretch, Total;
    EntryKnown(d);
    var x := Fresh(d, input);
    assert x.path[0..] + x.current == [d.entry];
    ShortStretch(d, [d.entry]);
    assert PacedAt(d, x, 0);
  }

  lemma EntryKnown(d: Definition)
    requires Executable(d)
    ensures d.entry in NodeIds(d)
  {
    hide NodesById;
  }

  /** The only active node of a parallel-free definition is followed by its one successor. */
  lemma SerialNext(d: Definition, x: Core, outside: Outside, y: Core, id: Id, state: State)
    requires id in NodeIds(d) && NodeAt(d, id).kind != Parallel && x.current == [id]
    requires RunNode(d, x, id, outside) == Some(y) && StateAfter(NodeAt(d, id), x.state, outside) == Some(state)
    ensures y.path == x.path + x.current && |y.current| <= 1
    ensures NextNodes(d, NodeAt(d, id), state, x.loops, outside) == Some(y.current)
  {
    hide NextNodes, StateAfter, NodesById;
    var next := NextNodes(d, NodeAt(d, id), state, x.loops, outside).value;
    SingleNext(d, NodeAt(d, id), state, x.loops, outside);
    SingletonSet(next);
    assert (Elements(x.current) - {id}) + Elements(next) == Elements(next);
  }

  lemma StateRan(d: Definition, x: Core, outside: Outside, id: Id)
    requires id in NodeIds(d) && RunNode(d, x, id, outside).Some?
    ensures StateAfter(NodeAt(d, id), x.state, outside).Some?
  {
    hide NextNodes, StateAfter, NodesById;
  }

  /** Only the loop that ran can have counted. */
  lemma SerialLoops(d: Definition, x: Core, outside: Outside, y: Core, id: Id)
    requires Ready(d, x) != [] && Ready(d, x)[0] == id && Step(d, x, outside) == Some(y)
    ensures LoopCount(y.loops, id) == LoopCount(x.loops, id) + if TakesContinue(d, x, id) then 1 else 0
    ensures forall other | other != id :: LoopCount(y.loops, other) == LoopCount(x.loops, other)
  {
    hide Step, Ready, LoopCount, MaxIterations, NodesById;
    forall other ensures LoopCount(y.loops, other) == LoopCount(x.loops, other) + if TakesContinue(d, x, other) then 1 else 0 {
      StepCountsLoop(d, x, outside, y, other);
    }
  }

  /** What one step of a parallel-free definition does. */
  lemma SerialStep(d: Definition, x: Core, outside: Outside, y: Core)
    requires Executable(d) && !Has(d, {Parallel}) && Serial(d, x) && Step(d, x, outside) == Some(y)
    ensures |x.current| == 1 && x.current[0] in NodeIds(d) && y.path == x.path + x.current && |y.current| <= 1
    ensures LoopCount(y.loops, x.current[0]) ==
            LoopCount(x.loops, x.current[0]) + if TakesContinue(d, x, x.current[0]) then 1 else 0
    ensures forall id | id != x.current[0] :: LoopCount(y.loops, id) == LoopCount(x.loops, id)
    ensures y.current != [] ==> y.current[0] in NodeIds(d)
    ensures y.current != [] && !TakesContinue(d, x, x.current[0]) ==> (x.current[0], y.current[0]) in ForwardArcs(d)
  {
    hide Executable, WellFormed, Has, Serial, ForwardArcs, NextNodes, StateAfter, NodesById, Ready, MaxIterations, RunNode, LoopCount;
    SerialReady(d, x);
    var id := x.current[0];
    NotParallel(d, id);
    StateRan(d, x, outside, id);
    var state := StateAfter(NodeAt(d, id), x.state, outside).value;
    SerialNext(d, x, outside, y, id, state);
    SerialLoops(d, x, outside, y, id);
    if y.current != [] {
      WellFormedOf(d);
      RanSuits(d, x, id, outside);
      NextNodesTotal(d, id, state, x.loops, outside);
      assert y.current == [y.current[0]] && y.current[0] in y.current;
      ArcEnds(d, id, y.current[0]);
      if !TakesContinue(d, x, id) {
        SuccessorIsForward(d, id, state, x.loops, outside, y.current[0]);
      }
    }
  }

  lemma StepPaced(d: Definition, x: Core, outside: Outside, y: Core)
    requires Executable(d) && !Has(d, {Parallel}) && !HasCycle(ForwardArcs(d))
    requires Serial(d, x) && Paced(d, x) && Step(d, x, outside) == Some(y)
    ensures Paced(d, y)
  {
    hide Executable, Has, Serial, Step, ForwardArcs, NodeIds, TakesContinue, HasCycle, Stretch, LoopCount;
    SerialStep(d, x, outside, y);
    var k: nat :| PacedAt(d, x, k);
    var id := x.current[0];
    var p := x.path[k..] + x.current;
    StretchIsShort(d, p);
    assert y.path[k..] == p;
    TotalSteps(NodeIds(d), x.loops, y.loops, id);
    if TakesContinue(d, x, id) {
      assert |y.path| == k + |p|;
      Distribute(Total(NodeIds(d), x.loops), |NodeIds(d)|);
      assert y.path[|y.path|..] + y.current == y.current;
      ShortStretch(d, y.current);
      assert PacedAt(d, y, |y.path|);
    } else {
      if y.current == [] {
        assert p + y.current == p;
      } else {
        assert y.current == [y.current[0]];
        StretchGrows(d, p, y.current[0]);
      }
      assert PacedAt(d, y, k);
    }
  }

  lemma ShortStretch(d: Definition, p: seq<Id>)
    requires |p| <= 1 && (p != [] ==> p[0] in NodeIds(d))
    ensures Stretch(d, p)
  {
  }

  lemma Distribute(total: nat, n: nat)
    ensures (total + 1) * n == total * n + n
  {
  }

  lemma TotalSteps(ids: set<Id>, loops: map<Id, nat>, more: map<Id, nat>, id: Id)
    requires id in ids && forall other | other != id :: LoopCount(more, other) == LoopCount(loops, other)
    ensures Total(ids, more) == Total(ids, loops) + LoopCount(more, id) - LoopCount(loops, id)
  {
    hide LoopCount;
    TotalWithout(ids, loops, id);
    TotalWithout(ids, more, id);
    TotalAgrees(ids - {id}, loops, more);
  }

  lemma {:induction false} RunPaced(d: Definition, input: State, outs: seq<Outside>, y: Core)
    requires Executable(d) && !Has(d, {Parallel}) && !HasCycle(ForwardArcs(d)) && Run(d, Fresh(d, input), outs) == Some(y)
    ensures Paced(d, y)
    decreases |outs|
  {
    hide Executable, Has, Serial, Step, ForwardArcs, NodeIds, HasCycle, Paced;
    if outs == [] {
      FreshPaced(d, input);
    } else {
      var n := |outs| - 1;
      var x := Run(d, Fresh(d, input), outs[..n]).value;
      RunPaced(d, input, outs[..n], x);
      RunIsSerial(d, input, outs[..n], x);
      StepPaced(d, x, outs[n], y);
    }
  }

  /** The longest run that the loops of the definition allow. */
  ghost function Longest(d: Definition): nat {
    (Allowed(d, NodeIds(d)) + 1) * |NodeIds(d)|
  }

  /**
   * If every cycle of a parallel-free executable definition uses a `continue` edge, no run is
   * longer than one pass over all nodes for each continue that the loops allow, and one more.
   */
  lemma RunIsBounded(d: Definition, input: State, outs: seq<Outside>, y: Core)
    requires Executable(d) && !Has(d, {Parallel}) && !HasCycle(ForwardArcs(d)) && Run(d, Fresh(d, input), outs) == Some(y)
    ensures |y.path| + |y.current| <= Longest(d)
  {
    hide Executable, Has, Run, ForwardArcs, HasCycle, MaxIterations, NodesById;
    RunPaced(d, input, outs, y);
    var k: nat :| PacedAt(d, y, k);
    StretchIsShort(d, y.path[k..] + y.current);
    LoopsAllowed(d, input, outs, y);
    TotalIsAllowed(d, NodeIds(d), y.loops);
    var total, allowed, n := Total(NodeIds(d), y.loops), Allowed(d, NodeIds(d)), |NodeIds(d)|;
    Distribute(allowed, n);
    Ordered(total, allowed, n);
  }

  lemma LoopsAllowed(d: Definition, input: State, outs: seq<Outside>, y: Core)
    requires Executable(d) && Run(d, Fresh(d, input), outs) == Some(y)
    ensures forall id | id in NodeIds(d) :: LoopCount(y.loops, id) <= MaxIterations(NodeAt(d, id))
  {
    hide Executable, Run, MaxIterations, NodesById, WellFed, JoinsWaited, InsideGraph, EndsAtOutput;
    RunInvariant(d, input, outs, y);
  }

  lemma Ordered(a: nat, b: nat, n: nat)
    requires a <= b
    ensures a * n <= b * n
  {
  }
}
