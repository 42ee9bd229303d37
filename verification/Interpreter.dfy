/** The sequential workflow interpreter: one ready node per step. */
module Interpreter {
  import opened Ids
  import opened Json
  import opened Graphs
  import opened Definitions

  /** The part of an execution record that a checkpoint copies. */
  datatype Core = Core(
    current: seq<Id>, completed: seq<Id>, path: seq<Id>, loops: map<Id, nat>, steps: nat, state: State)

  datatype Resolution = Granted | Refused | Elapsed | Received | Expired | Cancelled

  /** What a node takes from outside the definition when it runs. */
  datatype Outside =
    | Nothing
    | Response(resolution: Resolution, payload: Option<State>)
    | Result(value: State)

  function Fresh(d: Definition, input: State): Core {
    Core([d.entry], [], [], map[], 0, input)
  }

  function Graph(d: Definition): Arcs {
    ArcsWithin(d.edges, NodeIds(d))
  }

  /** A join waits until every parent has completed at least once. */
  predicate NodeReady(d: Definition, id: Id, completed: set<Id>)
    requires id in NodeIds(d)
  {
    NodeAt(d, id).kind == Join ==> forall e | e in d.edges && e.target == id :: e.source in completed
  }

  function FilterReady(d: Definition, ids: seq<Id>, completed: set<Id>): (r: seq<Id>)
    ensures forall id | id in r :: id in ids && id in NodeIds(d) && NodeReady(d, id, completed)
    ensures |ids| == 1 && r != [] ==> r == ids
  {
    if ids == [] then []
    else
      var rest := FilterReady(d, ids[1..], completed);
      if ids[0] in NodeIds(d) && NodeReady(d, ids[0], completed) then [ids[0]] + rest else rest
  }

  /** The ready nodes in ascending order; the engine runs the first. */
  function Ready(d: Definition, x: Core): (r: seq<Id>)
    ensures forall id | id in r :: id in x.current && id in NodeIds(d) && NodeReady(d, id, Elements(x.completed))
  {
    FilterReady(d, SortIds(Elements(x.current)), Elements(x.completed))
  }

  /** The target of the first edge on a branch. */
  function FirstTarget(edges: seq<Edge>, b: Branch): Option<Id> {
    if edges == [] then None
    else if edges[0].branch == b then Some(edges[0].target)
    else FirstTarget(edges[1..], b)
  }

  function LoopCount(loops: map<Id, nat>, id: Id): nat {
    if id in loops then loops[id] else 0
  }

  function MaxIterations(n: Node): nat {
    if PositiveInt(n.config, "max_iterations") then n.config["max_iterations"].i else 0
  }

  /** The branch a condition takes; None where evaluating it would raise. */
  function ConditionBranch(n: Node, state: State): Option<Branch> {
    if "field" in n.config && n.config["field"].Str? && "operator" in n.config && n.config["operator"].Str?
       && "value" in n.config
    then
      var left := Lookup(Obj(state), SplitDots(n.config["field"].s));
      var operator := ParseOperator(n.config["operator"].s);
      if operator.None? then None
      else Some(if Compare(left, operator.value, n.config["value"]) then WhenTrue else WhenFalse)
    else None
  }

  /** The branch a node follows when its type selects one by name. */
  function ChosenBranch(n: Node, state: State, loops: map<Id, nat>, outside: Outside): Option<Branch> {
    match n.kind
    case Condition => ConditionBranch(n, state)
    case BoundedLoop => Some(if LoopCount(loops, n.id) < MaxIterations(n) then Continue else Exit)
    case Approval =>
      if outside.Response? && outside.resolution == Granted then Some(Approved)
      else if outside.Response? && outside.resolution == Refused then Some(Denied)
      else None
    case _ => None
  }

  function Targets(edges: seq<Edge>): set<Id> {
    set e | e in edges :: e.target
  }

  /** The successors of a node; None where the source raises instead of returning. */
  function NextNodes(d: Definition, n: Node, state: State, loops: map<Id, nat>, outside: Outside): Option<seq<Id>> {
    var out := Outgoing(d.edges, n.id);
    match n.kind
    case Output => Some([])
    case Parallel => Some(SortIds(Targets(out)))
    case Condition | BoundedLoop | Approval =>
      var b := ChosenBranch(n, state, loops, outside);
      if b.None? then None
      else
        var t := FirstTarget(out, b.value);
        if t.None? then None else Some([t.value])
    case _ => if out == [] then None else Some([out[0].target])
  }

  function LoopsAfter(n: Node, loops: map<Id, nat>): map<Id, nat> {
    if n.kind == BoundedLoop && LoopCount(loops, n.id) < MaxIterations(n)
    then loops[n.id := LoopCount(loops, n.id) + 1]
    else loops
  }

  function Stored(n: Node, key: string, state: State, value: State): Option<State> {
    if key in n.config && n.config[key].Str? then Some(state[n.config[key].s := Obj(value)]) else None
  }

  /** The run state after a node; None where the node has no acceptable outside input. */
  function StateAfter(n: Node, state: State, outside: Outside): Option<State> {
    match n.kind
    case Timer => if outside.Response? && outside.resolution == Elapsed then Some(state) else None
    case Approval =>
      if outside.Response? && outside.resolution in {Granted, Refused} then Some(state) else None
    case Event | RequestInformation =>
      if outside.Response? && outside.resolution == Received && outside.payload.Some?
      then Stored(n, "state_key", state, outside.payload.value) else None
    case Subworkflow | Agent | Tool =>
      if outside.Result? then Stored(n, "result_state_key", state, outside.value) else None
    case _ => Some(state)
  }

  /** Runs node `id`: the new record, or None where the source would raise. */
  function RunNode(d: Definition, x: Core, id: Id, outside: Outside): Option<Core>
    requires id in NodeIds(d)
  {
    var n := NodeAt(d, id);
    var state := StateAfter(n, x.state, outside);
    if state.None? then None
    else
      var next := NextNodes(d, n, state.value, x.loops, outside);
      if next.None? then None
      else Some(Core(
                  SortIds((Elements(x.current) - {id}) + Elements(next.value)),
                  if id in x.completed then x.completed else x.completed + [id],
                  x.path + [id], LoopsAfter(n, x.loops), x.steps + 1, state.value))
  }

  /** One step of the interpreter; None when no node is ready or the node cannot run. */
  function Step(d: Definition, x: Core, outside: Outside): Option<Core> {
    var ready := Ready(d, x);
    if ready == [] then None else RunNode(d, x, ready[0], outside)
  }

  /** Whether a node type can run with this outside input. */
  predicate Suits(kind: NodeType, outside: Outside) {
    match kind
    case Timer => outside.Response? && outside.resolution == Elapsed
    case Approval => outside.Response? && outside.resolution in {Granted, Refused}
    case Event | RequestInformation => outside.Response? && outside.resolution == Received && outside.payload.Some?
    case Subworkflow | Agent | Tool => outside.Result?
    case _ => true
  }

  /** The node types whose outcome the definition and the state alone decide. */
  const DETERMINISTIC: set<NodeType> := {Input, Output, Condition, Parallel, Join, BoundedLoop}

  ghost predicate Deterministic(d: Definition) {
    forall n | n in d.nodes :: n.kind in DETERMINISTIC
  }

  /** The record after a whole run; None where some step is impossible. */
  function Run(d: Definition, x: Core, outs: seq<Outside>): Option<Core>
    decreases |outs|
  {
    if outs == [] then Some(x)
    else
      var n := |outs| - 1;
      var y := Run(d, x, outs[..n]);
      if y.None? then None else Step(d, y.value, outs[n])
  }

  /** The record after `n` steps on deterministic nodes. */
  function Iterate(d: Definition, x: Core, n: nat): Option<Core>
    decreases n
  {
    if n == 0 then Some(x)
    else
      var y := Iterate(d, x, n - 1);
      if y.None? then None else Step(d, y.value, Nothing)
  }
}
