/**
 * Exactly when a run ends: a deterministic, parallel-free run goes on forever if and only if a
 * node becomes active twice with no `continue` taken in between, and then that shows within as
 * many steps as the loops allow.
 */
module RunEnds {
  import opened Ids
  import opened Json
  import opened Definitions
  import opened Interpreter
  import opened InterpreterProofs
  import opened RunBounds
  import opened RunLength
  import opened Determinism

  /** The definitions of the theorem. */
  ghost predicate Plain(d: Definition) {
    Executable(d) && !Has(d, {Parallel}) && Deterministic(d)
  }

  ghost predicate EndsAt(d: Definition, x: Core, n: nat) {
    Iterate(d, x, n).Some? && Step(d, Iterate(d, x, n).value, Nothing).None?
  }

  ghost predicate Ends(d: Definition, x: Core) {
    exists n: nat :: EndsAt(d, x, n)
  }

  ghost predicate GoesOn(d: Definition, x: Core) {
    forall n: nat :: Iterate(d, x, n).Some?
  }

  lemma {:induction false} StopsBefore(d: Definition, x: Core, n: nat)
    requires Iterate(d, x, n).None?
    ensures exists m: nat :: m < n && EndsAt(d, x, m)
    decreases n
  {
    hide Step;
    assert n > 0;
    if Iterate(d, x, n - 1).Some? {
      assert EndsAt(d, x, n - 1);
    } else {
      StopsBefore(d, x, n - 1);
    }
  }

  /** A run ends or goes on, and not both. */
  lemma EndsOrGoesOn(d: Definition, x: Core)
    ensures Ends(d, x) <==> !GoesOn(d, x)
  {
    hide Step;
    if n: nat :| EndsAt(d, x, n) {
      assert Iterate(d, x, n + 1).None?;
    }
    if n: nat :| Iterate(d, x, n).None? {
      StopsBefore(d, x, n);
    }
  }

  lemma {:induction false} EarlierToo(d: Definition, x: Core, m: nat, n: nat)
    requires m <= n && Iterate(d, x, n).Some?
    ensures Iterate(d, x, m).Some?
    decreases n - m
  {
    hide Step;
    if m < n {
      EarlierToo(d, x, m, n - 1);
    }
  }

  // ---------------------------------------------------------------- records that behave alike

  /** `y` has the same active node, state and loop counts as `x`, and no fewer completed nodes. */
  ghost predicate Alike(x: Core, y: Core) {
    && y.current == x.current && y.state == x.state
    && (forall id :: LoopCount(y.loops, id) == LoopCount(x.loops, id))
    && Elements(x.completed) <= Elements(y.completed)
  }

  lemma ReadyAlone(d: Definition, y: Core, id: Id)
    requires y.current == [id] && id in NodeIds(d) && NodeReady(d, id, Elements(y.completed))
    ensures Ready(d, y) == [id]
  {
    hide NodeReady, NodesById;
    assert Elements(y.current) == {id};
    SortSingleton(id);
    assert FilterReady(d, [id][1..], Elements(y.completed)) == [];
  }

  lemma NextAlike(d: Definition, n: Node, state: State, loops: map<Id, nat>, more: map<Id, nat>)
    requires forall id :: LoopCount(more, id) == LoopCount(loops, id)
    ensures NextNodes(d, n, state, more, Nothing) == NextNodes(d, n, state, loops, Nothing)
  {
    hide Outgoing, FirstTarget, ConditionBranch, SortIds, MaxIterations;
  }

  lemma LoopsAlike(n: Node, loops: map<Id, nat>, more: map<Id, nat>)
    requires forall id :: LoopCount(more, id) == LoopCount(loops, id)
    ensures forall id :: LoopCount(LoopsAfter(n, more), id) == LoopCount(LoopsAfter(n, loops), id)
  {
    hide MaxIterations;
    forall id ensures LoopCount(LoopsAfter(n, more), id) == LoopCount(LoopsAfter(n, loops), id) {
      assert LoopCount(more, id) == LoopCount(loops, id) && LoopCount(more, n.id) == LoopCount(loops, n.id);
    }
  }

  lemma RunAlike(d: Definition, x: Core, y: Core, id: Id)
    requires Alike(x, y) && Deterministic(d) && id in NodeIds(d) && RunNode(d, x, id, Nothing).Some?
    ensures RunNode(d, y, id, Nothing).Some? && Alike(RunNode(d, x, id, Nothing).value, RunNode(d, y, id, Nothing).value)
  {
    hide NextNodes, StateAfter, LoopsAfter, LoopCount, SortIds, NodesById, Deterministic;
    var n := NodeAt(d, id);
    DeterministicKind(d, n);
    DeterministicOutside(d, n, x.state, x.loops, Nothing);
    DeterministicOutside(d, n, y.state, y.loops, Nothing);
    NextAlike(d, n, x.state, x.loops, y.loops);
    LoopsAlike(n, x.loops, y.loops);
  }

  lemma StepAlike(d: Definition, x: Core, y: Core)
    requires Plain(d) && Serial(d, x) && Alike(x, y) && Step(d, x, Nothing).Some?
    ensures Step(d, y, Nothing).Some? && Alike(Step(d, x, Nothing).value, Step(d, y, Nothing).value)
  {
    hide Executable, Has, Serial, Deterministic, RunNode, LoopCount, NodesById;
    SerialReady(d, x);
    var id := x.current[0];
    assert id in Ready(d, x);
    ReadyGrows(d, id, Elements(x.completed), Elements(y.completed));
    hide Ready;
    ReadyAlone(d, y, id);
    RunAlike(d, x, y, id);
  }

  lemma ReadyGrows(d: Definition, id: Id, some: set<Id>, more: set<Id>)
    requires id in NodeIds(d) && NodeReady(d, id, some) && some <= more
    ensures NodeReady(d, id, more)
  {
  }

  // ---------------------------------------------------------------- the run from a fresh start

  /** Nothing comes from outside. */
  function Silence(n: nat): seq<Outside> {
    seq(n, _ => Nothing)
  }

  lemma {:induction false} IterateIsRun(d: Definition, x: Core, n: nat)
    ensures Iterate(d, x, n) == Run(d, x, Silence(n))
  {
    hide Step;
    if n > 0 {
      IterateIsRun(d, x, n - 1);
      assert Silence(n)[..n - 1] == Silence(n - 1);
    }
  }

  /** What every record of the run satisfies. */
  lemma RecordFacts(d: Definition, input: State, n: nat)
    requires Plain(d) && Iterate(d, Fresh(d, input), n).Some?
    ensures var y := Iterate(d, Fresh(d, input), n).value;
            && Serial(d, y) && |y.current| <= 1 && (forall id | id in y.current :: id in NodeIds(d))
            && forall id | id in NodeIds(d) :: LoopCount(y.loops, id) <= MaxIterations(NodeAt(d, id))
  {
    hide Executable, Has, Deterministic, Iterate, Run, NodesById, WellFed, JoinsWaited, EndsAtOutput, MaxIterations, LoopCount;
    IterateIsRun(d, Fresh(d, input), n);
    var y := Iterate(d, Fresh(d, input), n).value;
    RunIsSerial(d, input, Silence(n), y);
    RunInvariant(d, input, Silence(n), y);
    LoopsAllowed(d, input, Silence(n), y);
  }

  /** Along the run loop counts and completed nodes only grow, and the state stays. */
  ghost predicate Older(d: Definition, x: Core, y: Core) {
    && y.state == x.state && Elements(x.completed) <= Elements(y.completed)
    && (forall id :: LoopCount(x.loops, id) <= LoopCount(y.loops, id))
    && forall id | id !in NodeIds(d) :: LoopCount(x.loops, id) == LoopCount(y.loops, id)
  }

  lemma StepOlder(d: Definition, x: Core, y: Core)
    requires Deterministic(d) && Step(d, x, Nothing) == Some(y)
    ensures Older(d, x, y)
  {
    hide Step, Deterministic, LoopCount;
    DeterministicStep(d, x, Nothing);
    forall id ensures LoopCount(x.loops, id) <= LoopCount(y.loops, id)
              ensures id !in NodeIds(d) ==> LoopCount(x.loops, id) == LoopCount(y.loops, id)
    {
      StepCountsLoop(d, x, Nothing, y, id);
    }
    StepCompletes(d, x, y);
  }

  lemma StepCompletes(d: Definition, x: Core, y: Core)
    requires Step(d, x, Nothing) == Some(y)
    ensures Elements(x.completed) <= Elements(y.completed)
  {
    hide NextNodes, StateAfter;
    assert Ready(d, x)[0] in Ready(d, x);
  }

  lemma OlderCompose(d: Definition, x: Core, y: Core, z: Core)
    requires Older(d, x, y) && Older(d, y, z)
    ensures Older(d, x, z)
  {
    hide LoopCount;
  }

  lemma {:induction false} RunOlder(d: Definition, x: Core, i: nat, j: nat)
    requires Deterministic(d) && i <= j && Iterate(d, x, j).Some?
    ensures Iterate(d, x, i).Some? && Older(d, Iterate(d, x, i).value, Iterate(d, x, j).value)
    decreases j - i
  {
    hide Step, Deterministic, Older;
    EarlierToo(d, x, i, j);
    if i == j {
      OlderSelf(d, Iterate(d, x, i).value);
    } else {
      RunOlder(d, x, i, j - 1);
      StepOlder(d, Iterate(d, x, j - 1).value, Iterate(d, x, j).value);
      OlderCompose(d, Iterate(d, x, i).value, Iterate(d, x, j - 1).value, Iterate(d, x, j).value);
    }
  }

  lemma OlderSelf(d: Definition, x: Core)
    ensures Older(d, x, x)
  {
  }

  // ---------------------------------------------------------------- a repetition goes on forever

  /** How many continues the run has taken when `x` is its record. */
  ghost function Continued(d: Definition, x: Core): nat {
    Total(NodeIds(d), x.loops)
  }

  /** A node is active at two moments of the run with no `continue` taken in between. */
  ghost predicate Repeats(d: Definition, x: Core, i: nat, j: nat) {
    && i < j && Iterate(d, x, i).Some? && Iterate(d, x, j).Some?
    && Iterate(d, x, i).value.current == Iterate(d, x, j).value.current != []
    && Continued(d, Iterate(d, x, i).value) == Continued(d, Iterate(d, x, j).value)
  }

  lemma {:induction false} TotalGrows(ids: set<Id>, a: map<Id, nat>, b: map<Id, nat>)
    requires forall id | id in ids :: LoopCount(a, id) <= LoopCount(b, id)
    ensures Total(ids, a) <= Total(ids, b)
    ensures Total(ids, a) == Total(ids, b) ==> forall id | id in ids :: LoopCount(a, id) == LoopCount(b, id)
    decreases ids
  {
    hide LoopCount;
    if ids != {} {
      var id :| id in ids;
      RunLength.TotalWithout(ids, a, id);
      RunLength.TotalWithout(ids, b, id);
      TotalGrows(ids - {id}, a, b);
      if Total(ids, a) == Total(ids, b) {
        forall other | other in ids ensures LoopCount(a, other) == LoopCount(b, other) {
          assert other == id || other in ids - {id};
        }
      }
    }
  }

  lemma RepeatIsAlike(d: Definition, x: Core, i: nat, j: nat)
    requires Deterministic(d) && Repeats(d, x, i, j)
    ensures Alike(Iterate(d, x, i).value, Iterate(d, x, j).value)
  {
    hide LoopCount, Iterate, Deterministic;
    RunOlder(d, x, i, j);
    TotalGrows(NodeIds(d), Iterate(d, x, i).value.loops, Iterate(d, x, j).value.loops);
  }

  lemma {:induction false} RepeatGoesOn(d: Definition, input: State, i: nat, j: nat, m: nat)
    requires Plain(d) && Repeats(d, Fresh(d, input), i, j)
    ensures var x := Fresh(d, input);
            && Iterate(d, x, i + m).Some? && Iterate(d, x, j + m).Some?
            && Alike(Iterate(d, x, i + m).value, Iterate(d, x, j + m).value)
    decreases m
  {
    hide Step, Plain, Alike, Repeats, Serial;
    var x := Fresh(d, input);
    if m == 0 {
      RepeatStart(d, x, i, j);
    } else {
      RepeatGoesOn(d, input, i, j, m - 1);
      RepeatOrder(d, x, i, j);
      EarlierToo(d, x, i + m, j + m - 1);
      RecordFacts(d, input, i + m - 1);
      StepAlike(d, Iterate(d, x, i + m - 1).value, Iterate(d, x, j + m - 1).value);
    }
  }

  lemma RepeatOrder(d: Definition, x: Core, i: nat, j: nat)
    requires Repeats(d, x, i, j)
    ensures i < j
  {
    hide Iterate;
  }

  lemma RepeatStart(d: Definition, x: Core, i: nat, j: nat)
    requires Plain(d) && Repeats(d, x, i, j)
    ensures Iterate(d, x, i).Some? && Iterate(d, x, j).Some? && Alike(Iterate(d, x, i).value, Iterate(d, x, j).value)
  {
    hide Executable, Has, Iterate, Alike, Deterministic;
    RepeatIsAlike(d, x, i, j);
  }

  // ---------------------------------------------------------------- counting

  lemma {:induction false} DistinctFit<T(!new)>(p: seq<T>, s: set<T>)
    requires (forall k | 0 <= k < |p| :: p[k] in s) && forall i, j | 0 <= i < j < |p| :: p[i] != p[j]
    ensures |p| <= |s|
    decreases |p|
  {
    if p != [] {
      var n := |p| - 1;
      forall k | 0 <= k < n ensures p[..n][k] in s - {p[n]} {
        assert p[k] != p[n];
      }
      DistinctFit(p[..n], s - {p[n]});
      assert |s - {p[n]}| == |s| - 1;
    }
  }

  lemma TooManyRepeat<T(!new)>(p: seq<T>, s: set<T>)
    requires (forall k | 0 <= k < |p| :: p[k] in s) && |p| > |s|
    ensures exists i, j | 0 <= i < j < |p| :: p[i] == p[j]
  {
    if forall i, j | 0 <= i < j < |p| :: p[i] != p[j] {
      DistinctFit(p, s);
    }
  }

  function Layer(ids: set<Id>, k: nat): set<(Id, nat)> {
    set id | id in ids :: (id, k)
  }

  /** The pairs of a node and a number below `m`. */
  function Pairs(ids: set<Id>, m: nat): (s: set<(Id, nat)>)
    ensures forall id, k: nat :: (id, k) in s <==> id in ids && k < m
  {
    if m == 0 then {} else Pairs(ids, m - 1) + Layer(ids, m - 1)
  }

  lemma {:induction false} LayerSize(ids: set<Id>, k: nat)
    ensures |Layer(ids, k)| == |ids|
    decreases ids
  {
    if ids != {} {
      var id :| id in ids;
      LayerSize(ids - {id}, k);
      assert Layer(ids, k) == Layer(ids - {id}, k) + {(id, k)};
    }
  }

  lemma {:induction false} PairsSize(ids: set<Id>, m: nat)
    ensures |Pairs(ids, m)| == m * |ids|
    decreases m
  {
    hide Layer;
    if m > 0 {
      PairsSize(ids, m - 1);
      LayerSize(ids, m - 1);
      LayerIsNew(ids, m - 1);
      Distribute(m - 1, |ids|);
    }
  }

  lemma LayerIsNew(ids: set<Id>, k: nat)
    ensures Pairs(ids, k) !! Layer(ids, k)
  {
  }

  /** The active node and the continues taken, at moment `k` of the run. */
  ghost function Moment(d: Definition, input: State, k: nat): (Id, nat)
    requires Iterate(d, Fresh(d, input), k).Some? && Iterate(d, Fresh(d, input), k).value.current != []
  {
    var y := Iterate(d, Fresh(d, input), k).value;
    (y.current[0], Continued(d, y))
  }

  lemma ActiveBefore(d: Definition, x: Core, k: nat, n: nat)
    requires k <= n && Iterate(d, x, n).Some? && Iterate(d, x, n).value.current != []
    ensures Iterate(d, x, k).Some? && Iterate(d, x, k).value.current != []
  {
    hide Step;
    EarlierToo(d, x, k, n);
    if k < n {
      EarlierToo(d, x, k + 1, n);
      StepNeedsReady(d, Iterate(d, x, k).value, Nothing);
    }
  }

  lemma MomentIsPair(d: Definition, input: State, k: nat)
    requires Plain(d) && Iterate(d, Fresh(d, input), k).Some? && Iterate(d, Fresh(d, input), k).value.current != []
    ensures Moment(d, input, k) in Pairs(NodeIds(d), Allowed(d, NodeIds(d)) + 1)
  {
    hide Iterate, Plain, Serial, MaxIterations, LoopCount, NodesById, Pairs;
    RecordFacts(d, input, k);
    var y := Iterate(d, Fresh(d, input), k).value;
    assert y.current[0] in y.current;
    TotalIsAllowed(d, NodeIds(d), y.loops);
  }

  lemma SameMoment(d: Definition, input: State, i: nat, j: nat)
    requires Plain(d) && i < j
    requires Iterate(d, Fresh(d, input), i).Some? && Iterate(d, Fresh(d, input), i).value.current != []
    requires Iterate(d, Fresh(d, input), j).Some? && Iterate(d, Fresh(d, input), j).value.current != []
    requires Moment(d, input, i) == Moment(d, input, j)
    ensures Repeats(d, Fresh(d, input), i, j)
  {
    hide Iterate, Plain, Serial, MaxIterations, LoopCount, NodesById, Total;
    RecordFacts(d, input, i);
    RecordFacts(d, input, j);
    var x, y := Iterate(d, Fresh(d, input), i).value, Iterate(d, Fresh(d, input), j).value;
    assert x.current == [x.current[0]] && y.current == [y.current[0]];
  }

  /** A run that is still active after the longest bounded run has repeated itself. */
  lemma LongRunRepeats(d: Definition, input: State)
    requires Plain(d) && Iterate(d, Fresh(d, input), Longest(d)).Some?
    requires Iterate(d, Fresh(d, input), Longest(d)).value.current != []
    ensures exists i: nat, j: nat :: Repeats(d, Fresh(d, input), i, j)
  {
    hide Iterate, Plain, Repeats, Moment, Pairs, NodesById, Fresh, Allowed;
    var n, x := Longest(d), Fresh(d, input);
    forall k: nat | k <= n ensures Iterate(d, x, k).Some? && Iterate(d, x, k).value.current != [] {
      ActiveBefore(d, x, k, n);
    }
    var p := seq(n + 1, k requires 0 <= k <= n => Moment(d, input, k));
    var s := Pairs(NodeIds(d), Allowed(d, NodeIds(d)) + 1);
    forall k | 0 <= k < |p| ensures p[k] in s {
      MomentIsPair(d, input, k);
    }
    PairsSize(NodeIds(d), Allowed(d, NodeIds(d)) + 1);
    TooManyRepeat(p, s);
    var i, j :| 0 <= i < j < |p| && p[i] == p[j];
    SameMoment(d, input, i, j);
  }

  // ---------------------------------------------------------------- the theorem

  lemma RepeatNeverEnds(d: Definition, input: State, i: nat, j: nat)
    requires Plain(d) && Repeats(d, Fresh(d, input), i, j)
    ensures GoesOn(d, Fresh(d, input))
  {
    hide Iterate, Plain, Repeats, Alike;
    forall n: nat ensures Iterate(d, Fresh(d, input), n).Some? {
      RepeatGoesOn(d, input, i, j, n);
      EarlierToo(d, Fresh(d, input), n, j + n);
    }
  }

  /**
   * A deterministic, parallel-free executable definition runs forever on an input exactly when
   * some node becomes active twice with no `continue` taken in between, which is the case
   * exactly when it is still active after `Longest(d)` steps. So a run that ends has ended by
   * then.
   */
  lemma RunEndsExactly(d: Definition, input: State)
    requires Plain(d)
    ensures var x := Fresh(d, input);
            && (GoesOn(d, x) <==> exists i: nat, j: nat :: Repeats(d, x, i, j))
            && (GoesOn(d, x) <==> Iterate(d, x, Longest(d)).Some? && Iterate(d, x, Longest(d)).value.current != [])
            && (Ends(d, x) <==> exists n: nat :: n <= Longest(d) && EndsAt(d, x, n))
  {
    hide Step, Plain, Repeats, Longest, Fresh;
    var x, n := Fresh(d, input), Longest(d);
    EndsOrGoesOn(d, x);
    if GoesOn(d, x) {
      assert Iterate(d, x, n).Some? && Iterate(d, x, n + 1).Some?;
      StepNeedsReady(d, Iterate(d, x, n).value, Nothing);
      LongRunRepeats(d, input);
    }
    if i: nat, j: nat :| Repeats(d, x, i, j) {
      RepeatNeverEnds(d, input, i, j);
    }
    if Iterate(d, x, n).Some? && Iterate(d, x, n).value.current != [] {
      LongRunRepeats(d, input);
      var i: nat, j: nat :| Repeats(d, x, i, j);
      RepeatNeverEnds(d, input, i, j);
    }
    if Ends(d, x) {
      EndsInTime(d, x, n);
    }
  }

  lemma EndsInTime(d: Definition, x: Core, n: nat)
    requires Iterate(d, x, n).None? || Iterate(d, x, n).value.current == []
    ensures exists m: nat :: m <= n && EndsAt(d, x, m)
  {
    hide Step;
    if Iterate(d, x, n).None? {
      StopsBefore(d, x, n);
      var m: nat :| m < n && EndsAt(d, x, m);
      assert m <= n && EndsAt(d, x, m);
    } else {
      EmptyStops(d, Iterate(d, x, n).value);
      assert EndsAt(d, x, n);
    }
  }
}
