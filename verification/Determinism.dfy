/** Runs of the interpreter on nodes whose outcome the definition and the state alone decide. */
module Determinism {
  import opened Ids
  import opened Json
  import opened Definitions
  import opened Interpreter

  lemma DeterministicNode(d: Definition, id: Id, x: Core, outside: Outside)
    requires Deterministic(d) && id in NodeIds(d)
    ensures RunNode(d, x, id, outside) == RunNode(d, x, id, Nothing)
    ensures RunNode(d, x, id, outside).Some? ==> RunNode(d, x, id, outside).value.state == x.state
  {
    hide NextNodes, StateAfter, LoopsAfter, Elements, SortIds, Deterministic, NodesById;
    var n := NodeAt(d, id);
    DeterministicKind(d, n);
    DeterministicOutside(d, n, x.state, x.loops, outside);
  }

  lemma DeterministicKind(d: Definition, n: Node)
    requires Deterministic(d) && n in d.nodes
    ensures n.kind in DETERMINISTIC
  {
  }

  lemma DeterministicOutside(d: Definition, n: Node, state: State, loops: map<Id, nat>, outside: Outside)
    requires n.kind in DETERMINISTIC
    ensures StateAfter(n, state, outside) == Some(state) == StateAfter(n, state, Nothing)
    ensures NextNodes(d, n, state, loops, outside) == NextNodes(d, n, state, loops, Nothing)
  {
    hide ConditionBranch, SortIds, Outgoing, FirstTarget;
  }

  lemma DeterministicStep(d: Definition, x: Core, outside: Outside)
    requires Deterministic(d)
    ensures Step(d, x, outside) == Step(d, x, Nothing)
    ensures Step(d, x, outside).Some? ==> Step(d, x, outside).value.state == x.state
    ensures Step(d, x, outside).Some? ==> Step(d, x, outside).value.steps == x.steps + 1
  {
    hide RunNode, Deterministic, NodeReady;
    var ready := Ready(d, x);
    if ready != [] {
      assert ready[0] in ready;
      DeterministicNode(d, ready[0], x, outside);
      RunNodeSteps(d, x, ready[0], outside);
    }
  }

  lemma RunNodeSteps(d: Definition, x: Core, id: Id, outside: Outside)
    requires id in NodeIds(d)
    ensures RunNode(d, x, id, outside).Some? ==> RunNode(d, x, id, outside).value.steps == x.steps + 1
  {
    hide NextNodes, StateAfter;
  }

  lemma {:induction false} IterateCompose(d: Definition, x: Core, m: nat, n: nat)
    requires Iterate(d, x, m).Some?
    ensures Iterate(d, x, m + n) == Iterate(d, Iterate(d, x, m).value, n)
    decreases n
  {
    hide Step;
    if n > 0 {
      IterateCompose(d, x, m, n - 1);
    }
  }

  lemma StepNeedsReady(d: Definition, x: Core, outside: Outside)
    requires Step(d, x, outside).Some?
    ensures Ready(d, x) != [] && x.current != []
  {
    hide RunNode, NodeReady;
    assert Ready(d, x)[0] in Ready(d, x);
  }

  lemma EmptyStops(d: Definition, x: Core)
    requires x.current == []
    ensures Step(d, x, Nothing).None?
  {
    hide Step;
    if Step(d, x, Nothing).Some? {
      StepNeedsReady(d, x, Nothing);
    }
  }

  lemma {:induction false} NothingAfterStop(d: Definition, x: Core, n: nat)
    requires n > 0 && Step(d, x, Nothing).None?
    ensures Iterate(d, x, n).None?
    decreases n
  {
    hide Step;
    if n > 1 {
      NothingAfterStop(d, x, n - 1);
    }
  }

  /** Two runs of the interpreter from one record that both end have the same length and end. */
  lemma SameEnd(d: Definition, x: Core, m: nat, n: nat, y: Core, z: Core)
    requires Iterate(d, x, m) == Some(y) && Iterate(d, x, n) == Some(z) && Step(d, y, Nothing).None? && m <= n
    ensures m == n && y == z
  {
    hide Step;
    if m < n {
      IterateCompose(d, x, m, n - m);
      NothingAfterStop(d, y, n - m);
    }
  }
}
