/** How far a run can go: loop counts, and walks that avoid every loop. */
module RunBounds {
  import opened Ids
  import opened Json
  import opened Graphs
  import opened Definitions
  import opened Interpreter
  import opened InterpreterProofs

  /** The next step runs bounded loop `id` and takes its continue edge. */
  predicate TakesContinue(d: Definition, x: Core, id: Id) {
    && Ready(d, x) != [] && Ready(d, x)[0] == id && id in NodeIds(d)
    && NodeAt(d, id).kind == BoundedLoop && LoopCount(x.loops, id) < MaxIterations(NodeAt(d, id))
  }

  /** How often a run takes the continue edge of loop `id`. */
  function Continues(d: Definition, x: Core, outs: seq<Outside>, id: Id): nat
    decreases |outs|
  {
    if outs == [] then 0
    else
      var n := |outs| - 1;
      var y := Run(d, x, outs[..n]);
      Continues(d, x, outs[..n], id) + if y.Some? && TakesContinue(d, y.value, id) then 1 else 0
  }

  lemma StepCountsLoop(d: Definition, x: Core, outside: Outside, y: Core, id: Id)
    requires Step(d, x, outside) == Some(y)
    ensures LoopCount(y.loops, id) == LoopCount(x.loops, id) + if TakesContinue(d, x, id) then 1 else 0
  {
    var at := Ready(d, x)[0];
    assert at in Ready(d, x);
    assert NodeAt(d, at).id == at;
  }

  lemma {:induction false} RunCountsLoop(d: Definition, x: Core, outs: seq<Outside>, y: Core, id: Id)
    requires Run(d, x, outs) == Some(y)
    ensures LoopCount(y.loops, id) == LoopCount(x.loops, id) + Continues(d, x, outs, id)
    decreases |outs|
  {
    if outs != [] {
      var n := |outs| - 1;
      var mid := Run(d, x, outs[..n]).value;
      RunCountsLoop(d, x, outs[..n], mid, id);
      StepCountsLoop(d, mid, outs[n], y, id);
    }
  }

  /** Over a whole run, a loop node takes `continue` at most max_iterations times. */
  lemma ContinueBound(d: Definition, input: State, outs: seq<Outside>, y: Core, id: Id)
    requires Executable(d) && Run(d, Fresh(d, input), outs) == Some(y) && id in NodeIds(d)
    ensures Continues(d, Fresh(d, input), outs, id) <= MaxIterations(NodeAt(d, id))
  {
    RunCountsLoop(d, Fresh(d, input), outs, y, id);
    RunInvariant(d, input, outs, y);
  }

  /** One active node, reached by an edge from the last node of a path that is a walk. */
  ghost predicate Serial(d: Definition, x: Core) {
    if x.path == [] then x.current == [d.entry]
    else
      && Walk(Graph(d), x.path)
      && (x.current == [] || (|x.current| == 1 && (x.path[|x.path| - 1], x.current[0]) in Graph(d)))
  }

  lemma SingleNext(d: Definition, n: Node, state: State, loops: map<Id, nat>, outside: Outside)
    requires n.kind != Parallel && NextNodes(d, n, state, loops, outside).Some?
    ensures |NextNodes(d, n, state, loops, outside).value| <= 1
  {
  }

  lemma SingletonSet(next: seq<Id>)
    requires |next| <= 1
    ensures SortIds(Elements(next)) == next
  {
    if next == [] {
      assert Elements(next) == {};
    } else {
      assert Elements(next) == {next[0]};
      SortSingleton(next[0]);
    }
  }

  /** Running the only active node of a parallel-free definition leaves its one successor active. */
  lemma SerialCurrent(d: Definition, x: Core, id: Id, outside: Outside, y: Core)
    requires id in NodeIds(d) && NodeAt(d, id).kind != Parallel && x.current == [id]
    requires RunNode(d, x, id, outside) == Some(y)
    ensures |y.current| <= 1
  {
    var n := NodeAt(d, id);
    var state := StateAfter(n, x.state, outside).value;
    var next := NextNodes(d, n, state, x.loops, outside).value;
    SingleNext(d, n, state, x.loops, outside);
    SingletonSet(next);
    assert (Elements(x.current) - {id}) + Elements(next) == Elements(next);
  }

  lemma NotParallel(d: Definition, id: Id)
    requires id in NodeIds(d) && !Has(d, {Parallel})
    ensures NodeAt(d, id).kind != Parallel
  {
    assert NodeAt(d, id) in d.nodes;
  }

  lemma SerialGrows(d: Definition, x: Core, id: Id, y: Core)
    requires Serial(d, x) && x.current == [id] && y.path == x.path + [id] && |y.current| <= 1
    requires forall t | t in y.current :: (id, t) in Graph(d)
    ensures Serial(d, y)
  {
    if x.path != [] {
      WalkExtend(Graph(d), x.path, id);
    }
    if y.current != [] {
      assert y.current[0] in y.current;
    }
  }

  lemma SerialReady(d: Definition, x: Core)
    requires Serial(d, x) && Ready(d, x) != []
    ensures x.current == [Ready(d, x)[0]] && Ready(d, x)[0] in NodeIds(d)
  {
    assert Ready(d, x)[0] in Ready(d, x);
  }

  lemma StepKeepsSerial(d: Definition, x: Core, outside: Outside, y: Core)
    requires Executable(d) && !Has(d, {Parallel}) && Serial(d, x) && Step(d, x, outside) == Some(y)
    ensures Serial(d, y)
  {
    var id := Ready(d, x)[0];
    SerialReady(d, x);
    NotParallel(d, id);
    SerialCurrent(d, x, id, outside, y);
    StepShape(d, x, id, outside, y);
    SerialGrows(d, x, id, y);
  }

  lemma {:induction false} RunIsSerial(d: Definition, input: State, outs: seq<Outside>, y: Core)
    requires Executable(d) && !Has(d, {Parallel}) && Run(d, Fresh(d, input), outs) == Some(y)
    ensures Serial(d, y)
    decreases |outs|
  {
    if outs != [] {
      var n := |outs| - 1;
      var mid := Run(d, Fresh(d, input), outs[..n]).value;
      RunIsSerial(d, input, outs[..n], mid);
      StepKeepsSerial(d, mid, outs[n], y);
    }
  }

  /** A walk through non-loop nodes of a well-formed definition never repeats a node. */
  lemma LoopFreeWalkIsSimple(d: Definition, p: seq<Id>, i: nat, j: nat)
    requires WellFormed(d) && Walk(Graph(d), p) && (forall k | 0 <= k < |p| :: p[k] in NonLoopIds(d))
    requires i < j < |p|
    ensures p[i] != p[j]
  {
    var inner := ArcsWithin(d.edges, NonLoopIds(d));
    forall k | 0 <= k < |p| - 1 ensures (p[k], p[k + 1]) in inner {
      assert (p[k], p[k + 1]) in Graph(d);
    }
    if p[i] == p[j] {
      RepeatIsCycle(inner, p, i, j);
      assert false;
    }
  }

  lemma {:induction false} Pigeonhole(p: seq<Id>, s: set<Id>)
    requires forall k | 0 <= k < |p| :: p[k] in s
    requires forall i, j | 0 <= i < j < |p| :: p[i] != p[j]
    ensures |p| <= |s|
    decreases |p|
  {
    if p != [] {
      var n := |p| - 1;
      forall k | 0 <= k < n ensures p[..n][k] in s - {p[n]} {
        assert p[k] != p[n];
      }
      Pigeonhole(p[..n], s - {p[n]});
      assert |s - {p[n]}| == |s| - 1;
    }
  }

  /**
   * In a parallel-free executable definition, any stretch of any run's path that avoids
   * bounded loops repeats no node, so it is no longer than the number of non-loop nodes.
   */
  lemma StretchBound(d: Definition, input: State, outs: seq<Outside>, y: Core, i: nat, j: nat)
    requires Executable(d) && !Has(d, {Parallel}) && Run(d, Fresh(d, input), outs) == Some(y)
    requires i <= j <= |y.path| && forall k | i <= k < j :: y.path[k] in NonLoopIds(d)
    ensures forall k, l | i <= k < l < j :: y.path[k] != y.path[l]
    ensures j - i <= |NonLoopIds(d)|
  {
    hide Executable, Run, Has, Walk;
    assert WellFormed(d) && (i < j ==> Walk(Graph(d), y.path)) by {
      hide WellFormed;
      WellFormedOf(d);
      RunIsSerial(d, input, outs, y);
    }
    hide WellFormed;
    if i < j {
      SubWalk(Graph(d), y.path, i, j);
      StretchOfWalk(d, y.path[i..j]);
      forall k, l | i <= k < l < j ensures y.path[k] != y.path[l] {
        assert y.path[i..j][k - i] != y.path[i..j][l - i];
      }
    }
  }

  lemma SubWalk(arcs: Arcs, p: seq<Id>, i: nat, j: nat)
    requires Walk(arcs, p) && i < j <= |p|
    ensures Walk(arcs, p[i..j])
  {
    var q := p[i..j];
    forall k | 0 <= k < |q| - 1 ensures (q[k], q[k + 1]) in arcs {
      assert (p[i + k], p[i + k + 1]) in arcs;
    }
  }

  lemma StretchOfWalk(d: Definition, p: seq<Id>)
    requires WellFormed(d) && Walk(Graph(d), p) && (forall k | 0 <= k < |p| :: p[k] in NonLoopIds(d))
    ensures forall i, j | 0 <= i < j < |p| :: p[i] != p[j]
    ensures |p| <= |NonLoopIds(d)|
  {
    forall i, j | 0 <= i < j < |p| ensures p[i] != p[j] {
      LoopFreeWalkIsSimple(d, p, i, j);
    }
    Pigeonhole(p, NonLoopIds(d));
  }
}
