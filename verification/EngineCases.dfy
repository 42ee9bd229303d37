/** What every transaction keeps about one execution and its rows. */
module EngineCases {
  import opened Ids
  import opened Definitions
  import opened Interpreter
  import opened InterpreterProofs
  import opened RunBounds
  import opened Engine

  /** The one event that will move a live execution on. */
  function Live(c: Case): Key {
    var at := Here(c);
    if at in c.waits then (if c.waits[at].status == WaitPending then WaitWake(at) else WaitResume(at))
    else if at in c.calls then (if c.calls[at].status == CallPending then CallTimeout(at) else CallResume(at))
    else ReadyEvent(c.version)
  }

  // ---------------------------------------------------------------- the refinement relation

  /** What the rows of the execution say a step took from outside. */
  function OutsideOf(c: Case, x: Core): Outside {
    var ready := Ready(c.d, x);
    if ready == [] then Nothing
    else
      var at := At(ready[0], x.steps);
      if at in c.waits && c.waits[at].status == WaitResolved && c.waits[at].resolution.Some?
      then Response(c.waits[at].resolution.value, c.waits[at].payload)
      else if at in c.calls && c.calls[at].status == CallCompleted && c.calls[at].result.Some?
      then Result(c.calls[at].result.value)
      else Nothing
  }

  /** `y` is the interpreter's step from `x` with the outside input on record. */
  ghost predicate Explained(c: Case, x: Core, y: Core) {
    Step(c.d, x, OutsideOf(c, x)) == Some(y)
  }

  /** The checkpoints are a run of the sequential interpreter that ends at the current record. */
  ghost predicate Refines(c: Case) {
    && c.checkpoints != [] && c.checkpoints[|c.checkpoints| - 1] == c.core
    && forall k {:trigger Explained(c, c.checkpoints[k], c.checkpoints[k + 1])} | 0 <= k < |c.checkpoints| - 1 ::
         Explained(c, c.checkpoints[k], c.checkpoints[k + 1])
  }

  lemma ExplainedAt(c: Case, k: nat)
    requires Refines(c) && k < |c.checkpoints| - 1
    ensures Explained(c, c.checkpoints[k], c.checkpoints[k + 1])
  {
    hide Explained;
    assert Explained(c, c.checkpoints[k], c.checkpoints[k + 1]);
  }

  // ---------------------------------------------------------------- the invariant

  /** A record the interpreter can reach. */
  ghost predicate Good(d: Definition, x: Core) {
    Invariant(d, x) && (!Has(d, {Parallel}) ==> Serial(d, x))
  }

  /** A resolved wait holds an answer that its node can run on. */
  predicate Answered(w: Wait) {
    w.status == WaitResolved ==> w.resolution.Some? && Suits(w.content.kind, Response(w.resolution.value, w.payload))
  }

  predicate AllAnswered(waits: map<At, Wait>) {
    forall at | at in waits :: Answered(waits[at])
  }

  /** Facts that hold of live and ended executions alike. */
  ghost predicate Sound(c: Case) {
    && Served(c.d) && Good(c.d, c.core) && c.checkpoints != [] && Good(c.d, c.checkpoints[0])
    && (forall at | at in c.waits :: at.step <= c.core.steps)
    && (forall at | at in c.calls :: at.step <= c.core.steps)
    && (forall at | at in c.waits && at in c.calls :: false)
    && c.core.steps <= c.d.maxSteps && AllAnswered(c.waits)
    && (c.status == Completed ==> c.core.current == [])
  }

  ghost predicate KeyFits(c: Case, k: Key) {
    match k
    case ReadyEvent(version) => version <= c.version
    case WaitWake(at) => at in c.waits
    case WaitResume(at) => at in c.waits && c.waits[at].status != WaitPending
    case CallTimeout(at) => at in c.calls
    case CallResume(at) => at in c.calls && c.calls[at].status != CallPending
    case ParentStopped => c.parent.Some?
    case Finalize => c.status == Stopped
  }

  ghost predicate Events(c: Case, now: nat) {
    forall k | k in c.events :: KeyFits(c, k) && (c.events[k].dispatched ==> c.events[k].availableAt <= now)
  }

  /** A live execution stands exactly at this row. */
  predicate OnTop(c: Case, at: At) {
    !Terminal(c) && c.core.current == [at.node] && at.step == c.core.steps
  }

  predicate KindAt(d: Definition, id: Id, kinds: set<NodeType>) {
    id in NodeIds(d) && NodeAt(d, id).kind in kinds
  }

  ghost predicate WaitFits(c: Case, at: At)
    requires at in c.waits
  {
    var w := c.waits[at];
    && (w.status == WaitPending ==> OnTop(c, at) && w.payload.None?)
    && (at.step == c.core.steps && !Terminal(c) ==>
          && OnTop(c, at) && KindAt(c.d, at.node, {w.content.kind}) && w.content.kind in WAIT_KINDS
          && (w.status == WaitPending || (w.status == WaitResolved && w.resolution.Some?)))
  }

  ghost predicate CallFits(c: Case, at: At)
    requires at in c.calls
  {
    var call := c.calls[at];
    && (call.status == CallPending ==> OnTop(c, at))
    && (call.status == CallCompleted ==> call.result.Some?)
    && (at.step == c.core.steps && !Terminal(c) ==>
          OnTop(c, at) && KindAt(c.d, at.node, {Subworkflow}) && call.status != CallTimedOut)
  }

  ghost predicate Rows(c: Case) {
    && (forall at | at in c.waits :: WaitFits(c, at))
    && (forall at | at in c.calls :: CallFits(c, at))
  }

  /** When the live event becomes available. */
  ghost predicate OnTime(c: Case, k: Key, availableAt: nat, now: nat) {
    match k
    case WaitWake(at) => at in c.waits && availableAt == c.waits[at].content.expires
    case CallTimeout(at) => at in c.calls && availableAt == c.calls[at].expires
    case _ => availableAt <= now
  }

  /** A live execution has its wake-up: present, unprocessed, on time, and unclaimed unless running. */
  ghost predicate Awake(c: Case, now: nat) {
    var k := Live(c);
    && k in c.events && !c.events[k].processed && OnTime(c, k, c.events[k].availableAt, now)
    && (c.status != Running ==> !c.events[k].dispatched)
  }

  /** Nothing but the wake-up and a parent's stop is left to process. */
  ghost predicate OnlyLive(c: Case) {
    forall k | k in c.events && !c.events[k].processed :: k == Live(c) || k == ParentStopped
  }

  ghost predicate Phase(c: Case) {
    && (c.status == Running <==> c.token.Some?) && (c.status == Running <==> c.lease.Some?)
    && (c.status == Queued ==> Live(c).ReadyEvent?)
    && (c.status == Waiting ==> !Live(c).ReadyEvent?)
    && (!Terminal(c) ==> c.core.current != [])
  }

  ghost predicate CaseInv(c: Case, now: nat) {
    && Sound(c) && Refines(c) && Events(c, now) && Rows(c) && Phase(c)
    && (!Terminal(c) ==> Awake(c, now) && OnlyLive(c))
  }

  // ---------------------------------------------------------------- the refinement survives row changes

  /** Settled rows never change. */
  ghost predicate SettledKept(c: Case, c': Case) {
    && (forall at | at in c.waits && c.waits[at].status != WaitPending :: at in c'.waits && c'.waits[at] == c.waits[at])
    && (forall at | at in c.calls && c.calls[at].status != CallPending :: at in c'.calls && c'.calls[at] == c.calls[at])
  }

  /** Only pending rows, or rows of the current step on, are ever replaced or added. */
  ghost predicate PastKept(c: Case, c': Case) {
    && c'.d == c.d
    && (forall at: At | at.step < c.core.steps :: (at in c.waits <==> at in c'.waits) && (at in c.calls <==> at in c'.calls))
    && (forall at | at in c.waits && at.step < c.core.steps :: c'.waits[at] == c.waits[at])
    && (forall at | at in c.calls && at.step < c.core.steps :: c'.calls[at] == c.calls[at])
  }

  lemma OutsideKept(c: Case, c': Case, x: Core)
    requires PastKept(c, c') && x.steps < c.core.steps
    ensures OutsideOf(c', x) == OutsideOf(c, x)
  {
  }

  /** Along the checkpoints the step counts rise to the current one. */
  lemma {:induction false} StepsRise(c: Case, k: nat)
    requires Refines(c) && k < |c.checkpoints|
    ensures c.checkpoints[k].steps + (|c.checkpoints| - 1 - k) == c.core.steps
    decreases |c.checkpoints| - k
  {
    hide Step;
    if k < |c.checkpoints| - 1 {
      StepsRise(c, k + 1);
      assert Explained(c, c.checkpoints[k], c.checkpoints[k + 1]);
      StepAddsOne(c.d, c.checkpoints[k], OutsideOf(c, c.checkpoints[k]), c.checkpoints[k + 1]);
    }
  }

  lemma StepAddsOne(d: Definition, x: Core, outside: Outside, y: Core)
    requires Step(d, x, outside) == Some(y)
    ensures y.steps == x.steps + 1
  {
  }

  lemma RefinesKept(c: Case, c': Case)
    requires Refines(c) && PastKept(c, c') && c'.core == c.core && c'.checkpoints == c.checkpoints
    ensures Refines(c')
  {
    hide Step, OutsideOf;
    forall k | 0 <= k < |c'.checkpoints| - 1 ensures Explained(c', c'.checkpoints[k], c'.checkpoints[k + 1]) {
      StepsRise(c, k);
      OutsideKept(c, c', c.checkpoints[k]);
      assert Explained(c, c.checkpoints[k], c.checkpoints[k + 1]);
    }
  }

  lemma RefinesGrows(c: Case, c': Case, y: Core)
    requires Refines(c) && PastKept(c, c') && c'.core == y && c'.checkpoints == c.checkpoints + [y]
    requires Step(c.d, c.core, OutsideOf(c', c.core)) == Some(y)
    ensures Refines(c')
  {
    hide Step, OutsideOf;
    var n := |c.checkpoints|;
    forall k | 0 <= k < |c'.checkpoints| - 1 ensures Explained(c', c'.checkpoints[k], c'.checkpoints[k + 1]) {
      assert c'.checkpoints[k] == c.checkpoints[k];
      if k < n - 1 {
        assert c'.checkpoints[k + 1] == c.checkpoints[k + 1];
        StepsRise(c, k);
        OutsideKept(c, c', c.checkpoints[k]);
        assert Explained(c, c.checkpoints[k], c.checkpoints[k + 1]);
      }
    }
  }
}
