/** Each transaction on one execution keeps the invariant of EngineCases. */
module EngineMoves {
  import opened Ids
  import opened Json
  import opened Definitions
  import opened Interpreter
  import opened InterpreterProofs
  import opened RunBounds
  import opened Engine
  import opened EngineCases

  lemma NewCaseInv(d: Definition, core: Core, parent: Option<Link>, origin: Option<Origin>, now: nat)
    requires Served(d) && Good(d, core)
    requires core.current != [] && core.steps <= d.maxSteps
    ensures CaseInv(NewCase(d, core, parent, origin, now), now)
  {
    hide Served, Good;
  }

  lemma ClockKeeps(c: Case, now: nat, later: nat)
    requires CaseInv(c, now) && now <= later
    ensures CaseInv(c, later)
  {
    hide Sound, Refines, Rows, Phase;
  }

  /** Rows, record and checkpoints unchanged. */
  ghost predicate SameRows(c: Case, c': Case) {
    && c'.d == c.d && c'.core == c.core && c'.checkpoints == c.checkpoints && c'.parent == c.parent
    && c'.waits == c.waits && c'.calls == c.calls
  }

  lemma SameRowsRefines(c: Case, c': Case)
    requires Refines(c) && SameRows(c, c')
    ensures Refines(c')
  {
    hide Explained, Refines;
    RefinesKept(c, c');
  }

  lemma SameRowsFit(c: Case, c': Case)
    requires SameRows(c, c') && Rows(c) && !Terminal(c) && !Terminal(c')
    ensures Rows(c') && (c'.version == c.version ==> Live(c') == Live(c))
  {
    hide KindAt;
    forall at | at in c'.waits ensures WaitFits(c', at) {
      assert WaitFits(c, at);
    }
    forall at | at in c'.calls ensures CallFits(c', at) {
      assert CallFits(c, at);
    }
  }

  lemma ClaimKeeps(c: Case, k: Key, now: nat, token: nat, lease: nat)
    requires CaseInv(c, now) && Claimable(c, k, now)
    ensures CaseInv(ClaimCase(c, k, now, token, lease), now)
  {
    hide Sound, Refines, Rows, Live;
    var c' := ClaimCase(c, k, now, token, lease);
    LiveStays(c, c');
    SameRowsFit(c, c');
    forall i | i in c'.events ensures KeyFits(c', i) {
      assert KeyFits(c, i);
    }
  }

  lemma LiveStays(c: Case, c': Case)
    requires SameRows(c, c') && Sound(c) && Refines(c) && !Terminal(c) && !Terminal(c')
    ensures Sound(c') && Refines(c')
  {
    hide Served, Good;
    assert Refines(c') by {
      hide Refines;
      SameRowsRefines(c, c');
    }
  }

  // ---------------------------------------------------------------- ending

  /** Enough of the invariant to end the execution from here. */
  ghost predicate Closable(c: Case, now: nat) {
    && Sound(c) && Refines(c) && Events(c, now) && !Terminal(c)
    && (forall at | at in c.waits && c.waits[at].status == WaitPending :: at.step == c.core.steps)
    && (forall at | at in c.calls && c.calls[at].status == CallPending :: at.step == c.core.steps)
    && (forall at | at in c.calls && c.calls[at].status == CallCompleted :: c.calls[at].result.Some?)
  }

  lemma LiveIsClosable(c: Case, now: nat)
    requires CaseInv(c, now) && !Terminal(c)
    ensures Closable(c, now)
  {
    hide Served, Good, Refines, KindAt;
  }

  /** The invariant of an ended execution. */
  lemma EndedInv(c: Case, now: nat)
    requires Terminal(c) && Sound(c) && Refines(c) && Events(c, now) && c.token.None? && c.lease.None?
    requires forall at | at in c.waits :: c.waits[at].status != WaitPending
    requires forall at | at in c.calls :: c.calls[at].status != CallPending
    requires forall at | at in c.calls && c.calls[at].status == CallCompleted :: c.calls[at].result.Some?
    ensures CaseInv(c, now)
  {
    hide Sound, Refines, Events, KindAt, Live;
  }

  /** Closing keeps the record and settles every pending row. */
  lemma CloseRows(c: Case, status: Status, error: Failure, now: nat)
    requires Closable(c, now) && status in {Failed, Stopped}
    ensures var c' := Close(c, status, error);
            && Sound(c') && Refines(c') && Events(c', now)
            && (forall at | at in c'.waits :: c'.waits[at].status != WaitPending)
            && (forall at | at in c'.calls :: c'.calls[at].status != CallPending)
            && (forall at | at in c'.calls && c'.calls[at].status == CallCompleted :: c'.calls[at].result.Some?)
  {
    hide Served, Good;
    var c' := Close(c, status, error);
    assert Refines(c') by {
      hide Refines, Events;
      RefinesKept(c, c');
    }
    assert Sound(c') by {
      hide Refines, Events;
    }
    assert Events(c', now) by {
      hide Refines, Sound;
      forall k | k in c'.events ensures KeyFits(c', k) {
        assert KeyFits(c, k);
      }
    }
  }

  lemma EventChangeKeeps(c: Case, c': Case, now: nat)
    requires SameRows(c, c') && Sound(c) && Refines(c) && c'.status == c.status
    ensures Sound(c') && Refines(c')
  {
    hide Served, Good;
    assert Refines(c') by {
      hide Refines;
      SameRowsRefines(c, c');
    }
  }

  lemma CloseKeeps(c: Case, k: Key, status: Status, error: Failure, now: nat)
    requires Closable(c, now) && status in {Failed, Stopped}
    ensures CaseInv(Done(Close(c, status, error), k), now)
  {
    hide Sound, Refines, CaseInv;
    var c1 := Close(c, status, error);
    var c' := Done(c1, k);
    CloseRows(c, status, error, now);
    EventChangeKeeps(c1, c', now);
    assert Events(c', now) by {
      forall j | j in c'.events ensures KeyFits(c', j) {
        assert KeyFits(c1, j);
      }
    }
    EndedInv(c', now);
  }

  lemma CancelKeeps(c: Case, now: nat)
    requires CaseInv(c, now) && c.status in {Queued, Waiting}
    ensures CaseInv(CancelCase(c, now), now)
  {
    hide Sound, Refines, CaseInv, Closable;
    LiveIsClosable(c, now);
    var c1 := Close(c, Stopped, CancelledByCaller);
    var c' := CancelCase(c, now);
    CloseRows(c, Stopped, CancelledByCaller, now);
    EventChangeKeeps(c1, c', now);
    assert Events(c', now) by {
      forall j | j in c'.events ensures KeyFits(c', j) {
        if j != Finalize {
          assert KeyFits(c1, j);
        }
      }
    }
    EndedInv(c', now);
  }

  // ---------------------------------------------------------------- suspending

  lemma KindHere(d: Definition, id: Id, kinds: set<NodeType>)
    requires id in NodeIds(d) && NodeAt(d, id).kind in kinds
    ensures Has(d, kinds)
  {
    assert NodeAt(d, id) in d.nodes;
  }

  /** At a wait or subworkflow node the execution has that one active node. */
  lemma BlockingIsAlone(c: Case, id: Id)
    requires Sound(c) && Ready(c.d, c.core) != [] && id in Ready(c.d, c.core) && id in NodeIds(c.d)
    requires NodeAt(c.d, id).kind in WAIT_KINDS + {Subworkflow}
    ensures c.core.current == [id] && Here(c) == At(id, c.core.steps) && Ready(c.d, c.core)[0] == id
  {
    hide Invariant, NodeReady, Executable, Has;
    assert !Has(c.d, {Parallel}) by {
      hide Serial;
      Mixed(c.d, id);
    }
    SerialReady(c.d, c.core);
    assert c.core.current[0] == id;
  }

  lemma Mixed(d: Definition, id: Id)
    requires Served(d) && id in NodeIds(d) && NodeAt(d, id).kind in WAIT_KINDS + {Subworkflow}
    ensures !Has(d, {Parallel})
  {
    hide ConfigRule, EdgeRule, Has;
    KindHere(d, id, WAIT_KINDS + {Subworkflow, Tool, Agent});
  }

  /** No row of a live execution is pending when its wake-up is a plain ready event. */
  lemma NothingPending(c: Case, now: nat)
    requires CaseInv(c, now) && !Terminal(c) && Here(c) !in c.waits && Here(c) !in c.calls
    ensures forall at | at in c.waits :: c.waits[at].status != WaitPending && at.step < c.core.steps
    ensures forall at | at in c.calls :: c.calls[at].status != CallPending && at.step < c.core.steps
  {
    hide Served, Good, Refines, KindAt, Events;
    forall at | at in c.waits ensures c.waits[at].status != WaitPending && at.step < c.core.steps {
      assert WaitFits(c, at);
    }
    forall at | at in c.calls ensures c.calls[at].status != CallPending && at.step < c.core.steps {
      assert CallFits(c, at);
    }
  }

  // ---------------------------------------------------------------- consuming one event and queueing another

  /** Rows only grow, and settled rows stay settled. */
  ghost predicate RowsGrow(c: Case, c': Case) {
    && (forall at | at in c.waits :: at in c'.waits)
    && (forall at | at in c.waits && c.waits[at].status != WaitPending :: c'.waits[at].status != WaitPending)
    && (forall at | at in c.calls :: at in c'.calls)
    && (forall at | at in c.calls && c.calls[at].status != CallPending :: c'.calls[at].status != CallPending)
  }

  lemma EventsGrow(c: Case, c': Case, k: Key, j: Key, availableAt: nat, now: nat)
    requires Events(c, now) && RowsGrow(c, c') && c'.parent == c.parent && c'.version >= c.version
    requires c.status != Stopped && c'.status != Stopped && KeyFits(c', j)
    requires c'.events == Done(c, k).events[j := Outbox(availableAt, false, false)]
    ensures Events(c', now)
  {
    forall i | i in c'.events ensures KeyFits(c', i) {
      if i != j {
        assert KeyFits(c, i);
      }
    }
  }

  /** The only events left are the one consumed and a stop from the parent. */
  ghost predicate Last(c: Case, k: Key) {
    forall i | i in c.events && !c.events[i].processed :: i == k || i == ParentStopped
  }

  lemma QueuedNext(c: Case, c': Case, k: Key, j: Key, availableAt: nat, now: nat)
    requires Last(c, k) && c'.events == Done(c, k).events[j := Outbox(availableAt, false, false)]
    requires j == Live(c') && OnTime(c', j, availableAt, now)
    ensures Awake(c', now) && OnlyLive(c')
  {
    hide Live, OnTime;
  }

  lemma LiveInv(c: Case, now: nat)
    requires Sound(c) && Refines(c) && Events(c, now) && Rows(c) && Phase(c) && Awake(c, now) && OnlyLive(c)
    ensures CaseInv(c, now)
  {
    hide Sound, Refines, Events, Rows, Phase, Awake, OnlyLive;
  }

  // ---------------------------------------------------------------- opening a wait or a call

  lemma SoundAnswers(c: Case)
    requires Sound(c)
    ensures AllAnswered(c.waits)
  {
    hide Served, Good, AllAnswered;
  }

  lemma AnsweredGrows(waits: map<At, Wait>, at: At, w: Wait)
    requires AllAnswered(waits) && Answered(w)
    ensures AllAnswered(waits[at := w])
  {
    hide Answered;
  }

  lemma SuspendSound(c: Case, c': Case)
    requires Sound(c) && Refines(c) && c'.status == Waiting
    requires c'.d == c.d && c'.core == c.core && c'.checkpoints == c.checkpoints
    requires PastKept(c, c') && AllAnswered(c'.waits)
    requires forall at | at in c'.waits :: at in c.waits || (at == Here(c) && at !in c'.calls)
    requires forall at | at in c'.calls :: at in c.calls || (at == Here(c) && at !in c'.waits)
    ensures Sound(c') && Refines(c')
  {
    hide Served, Good, AllAnswered;
    assert Refines(c') by {
      hide Refines;
      RefinesKept(c, c');
    }
  }

  /** Every row belongs to an earlier step and is settled. */
  ghost predicate AllPast(c: Case) {
    && Settled(c)
    && (forall at | at in c.waits :: at.step < c.core.steps)
    && (forall at | at in c.calls :: at.step < c.core.steps)
  }

  lemma PlainIsPast(c: Case, now: nat)
    requires CaseInv(c, now) && !Terminal(c) && Here(c) !in c.waits && Here(c) !in c.calls
    ensures AllPast(c)
  {
    hide Sound, Refines, Events, KindAt;
    NothingPending(c, now);
    forall at | at in c.calls && c.calls[at].status == CallCompleted ensures c.calls[at].result.Some? {
      assert CallFits(c, at);
    }
  }

  lemma OpenWaitRows(c: Case, c': Case, at: At, w: Wait)
    requires AllPast(c) && at == Here(c) && c.core.current == [at.node] && c'.core == c.core && c'.d == c.d
    requires c'.waits == c.waits[at := w] && c'.calls == c.calls && !Terminal(c')
    requires w.status == WaitPending && w.payload.None?
    requires w.content.kind in WAIT_KINDS && KindAt(c.d, at.node, {w.content.kind})
    ensures Rows(c') && Live(c') == WaitWake(at) && PastKept(c, c') && RowsGrow(c, c')
  {
    hide KindAt;
  }

  lemma OpenCallRows(c: Case, c': Case, at: At, call: Call)
    requires AllPast(c) && at == Here(c) && c.core.current == [at.node] && c'.core == c.core && c'.d == c.d
    requires c'.calls == c.calls[at := call] && c'.waits == c.waits && !Terminal(c')
    requires call.status == CallPending && KindAt(c.d, at.node, {Subworkflow})
    ensures Rows(c') && Live(c') == CallTimeout(at) && PastKept(c, c') && RowsGrow(c, c')
  {
    hide KindAt;
  }

  /** What parking with one new row and one new event leaves. */
  ghost predicate Suspended(c: Case, c': Case, k: Key, j: Key, availableAt: nat) {
    && c'.d == c.d && c'.core == c.core && c'.checkpoints == c.checkpoints && c'.parent == c.parent
    && c'.status == Waiting && c'.token.None? && c'.lease.None? && c'.version == c.version + 1
    && c'.events == Done(c, k).events[j := Outbox(availableAt, false, false)]
  }

  lemma SuspendKeeps(c: Case, c': Case, k: Key, j: Key, availableAt: nat, now: nat)
    requires Sound(c) && Refines(c) && Events(c, now) && c.status == Running && Last(c, k) && c.core.current != []
    requires Suspended(c, c', k, j, availableAt) && Rows(c') && PastKept(c, c') && RowsGrow(c, c') && AllAnswered(c'.waits)
    requires forall at | at in c'.waits :: at in c.waits || (at == Here(c) && at !in c'.calls)
    requires forall at | at in c'.calls :: at in c.calls || (at == Here(c) && at !in c'.waits)
    requires j == Live(c') && !j.ReadyEvent? && KeyFits(c', j) && OnTime(c', j, availableAt, now)
    ensures CaseInv(c', now)
  {
    hide Sound, Refines, Events, Rows, PastKept, RowsGrow, Last, KeyFits, OnTime, Live, AllAnswered;
    SuspendSound(c, c');
    EventsGrow(c, c', k, j, availableAt, now);
    QueuedNext(c, c', k, j, availableAt, now);
  }

  lemma OnlyLiveIsLast(c: Case, now: nat)
    requires CaseInv(c, now) && !Terminal(c)
    ensures Last(c, Live(c)) && Sound(c) && Refines(c) && Events(c, now) && c.core.current != []
  {
    hide Sound, Refines, Events, Rows, Live, Awake;
  }

  lemma OpenWaitFields(c: Case, k: Key, n: Node, now: nat)
    requires c.core.current == [n.id]
    ensures var at, w, c' := Here(c), NewWait(c, n, now), OpenWait(c, k, n, now);
            && Suspended(c, c', k, WaitWake(at), w.content.expires)
            && c'.waits == c.waits[at := w] && c'.calls == c.calls
            && w.status == WaitPending && w.content.kind == n.kind && w.payload.None?
            && KeyFits(c', WaitWake(at)) && OnTime(c', WaitWake(at), w.content.expires, now)
  {
  }

  lemma OpenCallFields(c: Case, k: Key, n: Node, child: EId, now: nat)
    requires c.core.current == [n.id]
    ensures var at, call, c' := Here(c), Call(child, CallPending, None, Min(now + n.timeout, c.deadline)), OpenCall(c, k, n, child, now);
            && Suspended(c, c', k, CallTimeout(at), call.expires)
            && c'.calls == c.calls[at := call] && c'.waits == c.waits
            && KeyFits(c', CallTimeout(at)) && OnTime(c', CallTimeout(at), call.expires, now)
  {
  }

  lemma OpenWaitKeeps(c: Case, k: Key, n: Node, now: nat)
    requires CaseInv(c, now) && c.status == Running && k == Live(c)
    requires n.kind in WAIT_KINDS && KindAt(c.d, n.id, {n.kind})
    requires c.core.current == [n.id] && Here(c) !in c.waits && Here(c) !in c.calls
    ensures CaseInv(OpenWait(c, k, n, now), now)
  {
    hide CaseInv, Sound, Refines, Events, KindAt, Last, Live, AllPast, PastKept, RowsGrow, Rows, Suspended, KeyFits, OnTime, AllAnswered;
    PlainIsPast(c, now);
    OnlyLiveIsLast(c, now);
    SoundAnswers(c);
    AnsweredGrows(c.waits, Here(c), NewWait(c, n, now));
    var at, w := Here(c), NewWait(c, n, now);
    var c' := OpenWait(c, k, n, now);
    OpenWaitFields(c, k, n, now);
    hide OpenWait, NewWait;
    OpenWaitRows(c, c', at, w);
    SuspendKeeps(c, c', k, WaitWake(at), w.content.expires, now);
  }

  lemma OpenCallKeeps(c: Case, k: Key, n: Node, child: EId, now: nat)
    requires CaseInv(c, now) && c.status == Running && k == Live(c) && KindAt(c.d, n.id, {Subworkflow})
    requires c.core.current == [n.id] && Here(c) !in c.waits && Here(c) !in c.calls
    ensures CaseInv(OpenCall(c, k, n, child, now), now)
  {
    hide CaseInv, Sound, Refines, Events, KindAt, Last, Live, AllPast, PastKept, RowsGrow, Rows, Suspended, KeyFits, OnTime, AllAnswered;
    PlainIsPast(c, now);
    OnlyLiveIsLast(c, now);
    SoundAnswers(c);
    var at, call := Here(c), Call(child, CallPending, None, Min(now + n.timeout, c.deadline));
    var c' := OpenCall(c, k, n, child, now);
    OpenCallFields(c, k, n, child, now);
    hide OpenCall;
    OpenCallRows(c, c', at, call);
    SuspendKeeps(c, c', k, CallTimeout(at), call.expires, now);
  }

  // ---------------------------------------------------------------- stepping

  /** A live execution about to run `id`: every row settled, `k` its only event but for a stop. */
  ghost predicate Ripe(c: Case, k: Key, id: Id, outside: Outside, now: nat) {
    && Sound(c) && Refines(c) && Events(c, now) && c.status == Running && Last(c, k)
    && Ready(c.d, c.core) != [] && id == Ready(c.d, c.core)[0] && id in NodeIds(c.d)
    && c.core.steps < c.d.maxSteps && OutsideOf(c, c.core) == outside && Settled(c)
  }

  ghost predicate Settled(c: Case) {
    && (forall at | at in c.waits :: c.waits[at].status != WaitPending)
    && (forall at | at in c.calls :: c.calls[at].status != CallPending)
    && (forall at | at in c.calls && c.calls[at].status == CallCompleted :: c.calls[at].result.Some?)
  }

  lemma FinishCore(d: Definition, x: Core, id: Id, outside: Outside, y: Core)
    requires Served(d) && Good(d, x)
    requires Ready(d, x) != [] && id == Ready(d, x)[0] && id in NodeIds(d) && RunNode(d, x, id, outside) == Some(y)
    ensures Step(d, x, outside) == Some(y) && y.steps == x.steps + 1
    ensures Good(d, y)
  {
    hide Invariant, Serial, Executable, Has, Ready, NextNodes, StateAfter;
    StepKeepsInvariant(d, x, outside, y);
    if !Has(d, {Parallel}) {
      StepKeepsSerial(d, x, outside, y);
    }
  }

  lemma FinishRefines(c: Case, c': Case, y: Core)
    requires Refines(c) && c'.d == c.d && c'.waits == c.waits && c'.calls == c.calls
    requires c'.core == y && c'.checkpoints == c.checkpoints + [y]
    requires Step(c.d, c.core, OutsideOf(c, c.core)) == Some(y)
    ensures Refines(c')
  {
    hide Step, Refines;
    assert OutsideOf(c', c.core) == OutsideOf(c, c.core) by {
      hide Ready;
    }
    hide OutsideOf;
    RefinesGrows(c, c', y);
  }

  lemma FinishSound(c: Case, c': Case, y: Core)
    requires Sound(c) && c.core.steps < c.d.maxSteps
    requires Good(c.d, y) && y.steps == c.core.steps + 1
    requires c'.d == c.d && c'.waits == c.waits && c'.calls == c.calls && c'.core == y
    requires c'.checkpoints == c.checkpoints + [y]
    requires c'.status == Completed ==> y.current == []
    ensures Sound(c')
  {
    hide Served, Good;
  }

  function WithReady(c: Case, k: Key, now: nat): map<Key, Outbox> {
    Done(c, k).events[ReadyEvent(c.version + 1) := Outbox(now, false, false)]
  }

  lemma RecordFields(c: Case, k: Key, y: Core, now: nat)
    ensures var c' := Record(c, k, y, now);
            && c'.d == c.d && c'.core == y && c'.waits == c.waits && c'.calls == c.calls && c'.parent == c.parent
            && c'.checkpoints == c.checkpoints + [y]
            && c'.token.None? && c'.lease.None? && c'.version == c.version + 1
            && (y.current == [] ==> c'.status == Completed && c'.events == Done(c, k).events)
            && (y.current != [] ==> c'.status == Queued && c'.events == WithReady(c, k, now))
  {
  }

  /** After a step no row stands at the new position. */
  lemma FreshPosition(c: Case, c': Case)
    requires Sound(c) && Settled(c) && c'.waits == c.waits && c'.calls == c.calls && c'.core.steps == c.core.steps + 1
    ensures Here(c') !in c'.waits && Here(c') !in c'.calls && Live(c') == ReadyEvent(c'.version) && Rows(c')
  {
    hide Served, Good, KindAt;
  }

  lemma DoneEvents(c: Case, c': Case, k: Key, now: nat)
    requires Events(c, now) && c'.waits == c.waits && c'.calls == c.calls && c'.parent == c.parent
    requires c'.version >= c.version && c.status != Stopped && c'.status != Stopped && c'.events == Done(c, k).events
    ensures Events(c', now)
  {
    forall i | i in c'.events ensures KeyFits(c', i) {
      assert KeyFits(c, i);
    }
  }

  lemma FinishKeeps(c: Case, k: Key, id: Id, outside: Outside, now: nat)
    requires Ripe(c, k, id, outside, now) && RunNode(c.d, c.core, id, outside).Some?
    ensures CaseInv(Finish(c, k, id, outside, now), now)
  {
    hide RunNode, Record, Refines, OutsideOf, Ready, Step, Events, Good, Served, Settled, Last, Rows;
    var y := RunNode(c.d, c.core, id, outside).value;
    var c' := Finish(c, k, id, outside, now);
    RecordFields(c, k, y, now);
    FinishCore(c.d, c.core, id, outside, y);
    FinishRefines(c, c', y);
    FinishSound(c, c', y);
    FreshPosition(c, c');
    hide Sound;
    if y.current == [] {
      DoneEvents(c, c', k, now);
    } else {
      EventsGrow(c, c', k, ReadyEvent(c.version + 1), now, now);
      QueuedNext(c, c', k, ReadyEvent(c.version + 1), now, now);
    }
  }

  // ---------------------------------------------------------------- wait and subworkflow nodes

  /** A live execution that holds the claim of its wake-up at the blocking node `id`. */
  ghost predicate Blocked(c: Case, k: Key, id: Id, now: nat) {
    && CaseInv(c, now) && c.status == Running && k == Live(c) && Handed(c, k) && c.core.steps < c.d.maxSteps
    && Ready(c.d, c.core) != [] && id == Ready(c.d, c.core)[0] && id in NodeIds(c.d)
    && c.core.current == [id] && Here(c) == At(id, c.core.steps)
  }

  /** Only rows of the current step change, and pending ones at that. */
  lemma TopRowSound(c: Case, c1: Case, now: nat)
    requires Sound(c) && Refines(c) && Events(c, now) && PastKept(c, c1) && RowsGrow(c, c1)
    requires c1.core == c.core && c1.checkpoints == c.checkpoints && c1.status == c.status && c1.parent == c.parent
    requires c1.version == c.version && c1.events == c.events
    requires c1.waits.Keys == c.waits.Keys && c1.calls.Keys == c.calls.Keys && AllAnswered(c1.waits)
    ensures Sound(c1) && Refines(c1) && Events(c1, now)
  {
    hide Served, Good, AllAnswered;
    assert Refines(c1) by {
      hide Refines, Sound, Events, RowsGrow;
      RefinesKept(c, c1);
    }
    assert Events(c1, now) by {
      hide Refines, Sound, PastKept;
      forall i | i in c1.events ensures KeyFits(c1, i) {
        assert KeyFits(c, i);
      }
    }
    assert Sound(c1) by {
      hide Refines, Events, RowsGrow, PastKept;
    }
  }

  /** Every row but the one on top of a live execution is settled. */
  lemma OthersSettled(c: Case, now: nat)
    requires CaseInv(c, now) && !Terminal(c)
    ensures forall at | at in c.waits && at != Here(c) :: c.waits[at].status != WaitPending
    ensures forall at | at in c.calls && at != Here(c) :: c.calls[at].status != CallPending
    ensures forall at | at in c.calls && c.calls[at].status == CallCompleted :: c.calls[at].result.Some?
    ensures forall at | at in c.waits && at in c.calls :: false
  {
    hide Served, Good, KindAt, Refines, Events, Live;
    forall at | at in c.waits && at != Here(c) ensures c.waits[at].status != WaitPending {
      assert WaitFits(c, at);
    }
    forall at | at in c.calls
      ensures at != Here(c) ==> c.calls[at].status != CallPending
      ensures c.calls[at].status == CallCompleted ==> c.calls[at].result.Some?
    {
      assert CallFits(c, at);
    }
  }

  lemma SettledIsClosable(c: Case, now: nat)
    requires Sound(c) && Refines(c) && Events(c, now) && Settled(c) && !Terminal(c)
    ensures Closable(c, now)
  {
    hide Sound, Refines, Events;
  }

  lemma LastSame(c: Case, c1: Case, k: Key)
    requires Last(c, k) && c1.events == c.events
    ensures Last(c1, k)
  {
  }

  /** Changing the row of the current step leaves the past alone, and rows only grow. */
  lemma WaitRowKept(c: Case, w: Wait)
    requires Here(c) in c.waits && w.status != WaitPending
    ensures var c1 := c.(waits := c.waits[Here(c) := w]);
            PastKept(c, c1) && RowsGrow(c, c1) && c1.waits.Keys == c.waits.Keys && c1.calls.Keys == c.calls.Keys
  {
  }

  lemma CallRowKept(c: Case, call: Call)
    requires Here(c) in c.calls && call.status != CallPending
    ensures var c1 := c.(calls := c.calls[Here(c) := call]);
            PastKept(c, c1) && RowsGrow(c, c1) && c1.waits.Keys == c.waits.Keys && c1.calls.Keys == c.calls.Keys
  {
  }

  lemma WaitLeavesSettled(c: Case, w: Wait, now: nat)
    requires CaseInv(c, now) && c.status == Running && Here(c) in c.waits && w.status != WaitPending
    ensures Settled(c.(waits := c.waits[Here(c) := w]))
  {
    hide CaseInv, Here;
    OthersSettled(c, now);
  }

  lemma CallLeavesSettled(c: Case, call: Call, now: nat)
    requires CaseInv(c, now) && c.status == Running && Here(c) in c.calls
    requires call.status !in {CallPending, CallCompleted} || (call == c.calls[Here(c)] && call.status != CallPending)
    ensures Settled(c.(calls := c.calls[Here(c) := call]))
  {
    hide CaseInv, Here;
    OthersSettled(c, now);
  }

  /** Settling the row of the current step leaves nothing pending. */
  lemma WaitRowSettled(c: Case, w: Wait, now: nat)
    requires CaseInv(c, now) && c.status == Running && Here(c) in c.waits && w.status != WaitPending && Answered(w)
    ensures var c1 := c.(waits := c.waits[Here(c) := w]);
            Sound(c1) && Refines(c1) && Events(c1, now) && Settled(c1) && Last(c1, Live(c)) && Closable(c1, now)
  {
    hide CaseInv, Sound, Refines, Events, Live, Closable, PastKept, RowsGrow, Settled, Last, Here;
    var c1 := c.(waits := c.waits[Here(c) := w]);
    OnlyLiveIsLast(c, now);
    WaitRowKept(c, w);
    SoundAnswers(c);
    AnsweredGrows(c.waits, Here(c), w);
    WaitLeavesSettled(c, w, now);
    LastSame(c, c1, Live(c));
    TopRowSound(c, c1, now);
    SettledIsClosable(c1, now);
  }

  lemma CallRowSettled(c: Case, call: Call, now: nat)
    requires CaseInv(c, now) && c.status == Running && Here(c) in c.calls
    requires call.status !in {CallPending, CallCompleted} || (call == c.calls[Here(c)] && call.status != CallPending)
    ensures var c1 := c.(calls := c.calls[Here(c) := call]);
            Sound(c1) && Refines(c1) && Events(c1, now) && Settled(c1) && Last(c1, Live(c)) && Closable(c1, now)
  {
    hide CaseInv, Sound, Refines, Events, Live, Closable, PastKept, RowsGrow, Settled, Last, Here;
    var c1 := c.(calls := c.calls[Here(c) := call]);
    OnlyLiveIsLast(c, now);
    CallRowKept(c, call);
    SoundAnswers(c);
    CallLeavesSettled(c, call, now);
    LastSame(c, c1, Live(c));
    TopRowSound(c, c1, now);
    SettledIsClosable(c1, now);
  }

  /** The row of the current step is of the node's own kind. */
  lemma RowKind(c: Case, id: Id, now: nat)
    requires CaseInv(c, now) && c.status == Running && c.core.current == [id] && id in NodeIds(c.d)
    ensures Here(c) in c.waits ==>
              && c.waits[Here(c)].content.kind == NodeAt(c.d, id).kind && NodeAt(c.d, id).kind in WAIT_KINDS
              && (c.waits[Here(c)].status == WaitPending ==> c.waits[Here(c)].payload.None?)
              && (c.waits[Here(c)].status != WaitPending ==>
                    && c.waits[Here(c)].status == WaitResolved && c.waits[Here(c)].resolution.Some?
                    && Suits(NodeAt(c.d, id).kind, Response(c.waits[Here(c)].resolution.value, c.waits[Here(c)].payload)))
    ensures Here(c) in c.calls ==> NodeAt(c.d, id).kind == Subworkflow
  {
    hide Sound, Refines, Events, AllAnswered;
    AnsweredOf(c, now);
    if Here(c) in c.waits {
      assert WaitFits(c, Here(c));
      AnsweredAt(c.waits, Here(c));
    }
    if Here(c) in c.calls {
      assert CallFits(c, Here(c));
    }
  }

  lemma AnsweredAt(waits: map<At, Wait>, at: At)
    requires AllAnswered(waits) && at in waits
    ensures Answered(waits[at])
  {
  }

  /** A claimed wake-up has come due. */
  lemma ClaimedIsDue(c: Case, k: Key, now: nat)
    requires CaseInv(c, now) && c.status == Running && k == Live(c) && Handed(c, k)
    ensures k.WaitWake? ==> k.at in c.waits && c.waits[k.at].content.expires <= now
    ensures k.CallTimeout? ==> k.at in c.calls && c.calls[k.at].expires <= now
  {
    hide Sound, Refines, Rows, Live;
  }

  lemma FinishWaitKeeps(c: Case, k: Key, id: Id, w: Wait, now: nat)
    requires Blocked(c, k, id, now) && Here(c) in c.waits && NodeAt(c.d, id).kind in WAIT_KINDS
    requires w.status == WaitResolved && w.resolution.Some? && Answered(w)
    requires RunNode(c.d, c.core, id, Response(w.resolution.value, w.payload)).Some?
    ensures CaseInv(Finish(c.(waits := c.waits[Here(c) := w]), k, id, Response(w.resolution.value, w.payload), now), now)
  {
    hide CaseInv, RunNode, Finish, Ready, Live, Sound, Refines, Events, Last, Settled, Closable;
    var c1 := c.(waits := c.waits[Here(c) := w]);
    WaitRowSettled(c, w, now);
    assert OutsideOf(c1, c1.core) == Response(w.resolution.value, w.payload);
    FinishKeeps(c1, k, id, Response(w.resolution.value, w.payload), now);
  }

  lemma AtWaitKeeps(c: Case, k: Key, id: Id, now: nat)
    requires Blocked(c, k, id, now) && NodeAt(c.d, id).kind in WAIT_KINDS
    ensures CaseInv(AtWait(c, k, NodeAt(c.d, id), now), now)
  {
    hide CaseInv, RunNode, Finish, Ready, Sound, Refines, Events, Last, Settled, Closable, OpenWait, Close, Done, Served;
    var n, at := NodeAt(c.d, id), Here(c);
    RowKind(c, id, now);
    ClaimedIsDue(c, k, now);
    LiveIsClosable(c, now);
    if at !in c.waits {
      if n.kind == Timer && now + DelayOf(n) >= c.deadline {
        CloseKeeps(c, k, Failed, WaitExceedsDeadline, now);
      } else {
        OpenWaitKeeps(c, k, n, now);
      }
    } else {
      var w := c.waits[at];
      if w.status == WaitPending {
        if n.kind == Timer && w.content.due.Some? && w.content.due.value <= now {
          assert Served(c.d) by {
            hide Served;
            OnlyLiveIsLast(c, now);
            SoundIsServed(c);
          }
          ServedRuns(c.d, c.core, id, Response(Elapsed, None));
          FinishWaitKeeps(c, k, id, w.(status := WaitResolved, resolution := Some(Elapsed)), now);
        } else {
          var expired := w.(status := WaitExpired, resolution := Some(Expired));
          WaitRowSettled(c, expired, now);
          CloseKeeps(c.(waits := c.waits[at := expired]), k, Failed, WaitTimedOut, now);
        }
      } else {
        assert Served(c.d) by {
          hide Served;
          OnlyLiveIsLast(c, now);
          SoundIsServed(c);
        }
        ServedRuns(c.d, c.core, id, Response(w.resolution.value, w.payload));
        assert c.(waits := c.waits[at := w]) == c;
        FinishWaitKeeps(c, k, id, w, now);
      }
    }
  }

  lemma SoundIsServed(c: Case)
    requires Sound(c)
    ensures Served(c.d)
  {
    hide Served, Good;
  }

  lemma ServedRuns(d: Definition, x: Core, id: Id, outside: Outside)
    requires Served(d) && id in NodeIds(d) && Suits(NodeAt(d, id).kind, outside)
    ensures RunNode(d, x, id, outside).Some?
  {
    hide RunNode, Executable;
    RunNodeTotal(d, x, id, outside);
  }

  lemma AtCallKeeps(c: Case, k: Key, id: Id, now: nat, env: Env)
    requires Blocked(c, k, id, now) && NodeAt(c.d, id).kind == Subworkflow
    ensures CaseInv(AtCall(c, k, NodeAt(c.d, id), now, env), now)
  {
    hide CaseInv, RunNode, Ready, Sound, Refines, Events, Last, Settled, Closable, OpenCall, Close, Done, Record;
    var n, at := NodeAt(c.d, id), Here(c);
    RowKind(c, id, now);
    ClaimedIsDue(c, k, now);
    LiveIsClosable(c, now);
    if at !in c.calls {
      if env.child.None? {
        CloseKeeps(c, k, Failed, SubworkflowUnavailable, now);
      } else {
        OpenCallKeeps(c, k, n, env.child.value, now);
      }
    } else {
      var call := c.calls[at];
      if call.status == CallPending {
        var expired := call.(status := CallTimedOut);
        CallRowSettled(c, expired, now);
        CloseKeeps(c.(calls := c.calls[at := expired]), k, Failed, SubworkflowTimedOut, now);
      } else if call.status != CallCompleted {
        CloseKeeps(c, k, Failed, SubworkflowEnded, now);
      } else if call.child !in env.finals || call.result != Some(env.finals[call.child]) {
        CloseKeeps(c, k, Failed, SubworkflowResultInvalid, now);
      } else {
        FinishCallKeeps(c, k, id, call, now);
      }
    }
  }

  lemma FinishCallKeeps(c: Case, k: Key, id: Id, call: Call, now: nat)
    requires Blocked(c, k, id, now) && NodeAt(c.d, id).kind == Subworkflow
    requires Here(c) in c.calls && call == c.calls[Here(c)] && call.status == CallCompleted && call.result.Some?
    ensures CaseInv(Finish(c, k, id, Result(call.result.value), now), now)
  {
    hide CaseInv, RunNode, Record, Ready, Live, Sound, Refines, Events, Last, Settled, Closable, Served;
    var c1 := c.(calls := c.calls[Here(c) := call]);
    assert c1 == c;
    CallRowSettled(c, call, now);
    RowKind(c, id, now);
    assert OutsideOf(c, c.core) == Result(call.result.value);
    SoundIsServed(c);
    ServedRuns(c.d, c.core, id, Result(call.result.value));
    FinishKeeps(c, k, id, Result(call.result.value), now);
  }

  // ---------------------------------------------------------------- the whole advance

  lemma SingleReady(c: Case, id: Id)
    requires c.core.current == [id] && Ready(c.d, c.core) != []
    ensures Ready(c.d, c.core)[0] == id && id in Ready(c.d, c.core)
  {
    hide NodeReady;
    var r := Ready(c.d, c.core)[0];
    assert r in Ready(c.d, c.core);
    assert r in c.core.current;
  }

  /** The wake-up always fits the record, so an advance never fails with a wake mismatch. */
  lemma ChosenIsFirst(c: Case, k: Key, now: nat)
    requires CaseInv(c, now) && !Terminal(c) && k == Live(c) && Ready(c.d, c.core) != []
    ensures Chosen(c, k) == Some(Ready(c.d, c.core)[0])
  {
    hide Sound, Refines, Events, Ready, KindAt;
    var at := Here(c);
    if at in c.waits {
      assert WaitFits(c, at);
      SingleReady(c, at.node);
    } else if at in c.calls {
      assert CallFits(c, at);
      SingleReady(c, at.node);
    }
  }

  lemma PlainNode(c: Case, id: Id, now: nat)
    requires CaseInv(c, now) && c.status == Running && Ready(c.d, c.core) != [] && id == Ready(c.d, c.core)[0]
    requires id in NodeIds(c.d) && NodeAt(c.d, id).kind !in WAIT_KINDS + {Subworkflow}
    ensures AllPast(c) && OutsideOf(c, c.core) == Nothing
  {
    hide Sound, Refines, Events, Ready;
    var at := Here(c);
    if at in c.waits {
      assert WaitFits(c, at);
      SingleReady(c, at.node);
    }
    if at in c.calls {
      assert CallFits(c, at);
      SingleReady(c, at.node);
    }
    PlainIsPast(c, now);
  }

  lemma ServedKind(d: Definition, id: Id)
    requires Served(d) && id in NodeIds(d) && NodeAt(d, id).kind !in WAIT_KINDS + {Subworkflow}
    ensures Suits(NodeAt(d, id).kind, Nothing)
  {
    hide WellFormed;
    assert NodeAt(d, id) in d.nodes;
  }

  lemma AtPlainKeeps(c: Case, k: Key, id: Id, now: nat)
    requires CaseInv(c, now) && c.status == Running && k == Live(c) && c.core.steps < c.d.maxSteps
    requires Ready(c.d, c.core) != [] && id == Ready(c.d, c.core)[0] && id in NodeIds(c.d)
    requires NodeAt(c.d, id).kind !in WAIT_KINDS + {Subworkflow}
    ensures CaseInv(Finish(c, k, id, Nothing, now), now)
  {
    hide CaseInv, RunNode, Finish, Ready, Live, Sound, Refines, Events, Last, Settled, Served, OutsideOf;
    PlainNode(c, id, now);
    OnlyLiveIsLast(c, now);
    SoundIsServed(c);
    ServedKind(c.d, id);
    ServedRuns(c.d, c.core, id, Nothing);
    FinishKeeps(c, k, id, Nothing, now);
  }

  lemma AtNodeKeeps(c: Case, k: Key, id: Id, now: nat, env: Env)
    requires CaseInv(c, now) && c.status == Running && k == Live(c) && Handed(c, k) && c.core.steps < c.d.maxSteps
    requires Ready(c.d, c.core) != [] && id == Ready(c.d, c.core)[0] && id in NodeIds(c.d)
    ensures CaseInv(AtNode(c, k, id, now, env), now)
  {
    hide CaseInv, RunNode, Finish, Ready, Live, Sound, AtWait, AtCall;
    var n := NodeAt(c.d, id);
    if n.kind in WAIT_KINDS + {Subworkflow} {
      OnlyLiveIsLast(c, now);
      assert id in Ready(c.d, c.core);
      BlockingIsAlone(c, id);
      if n.kind == Subworkflow {
        AtCallKeeps(c, k, id, now, env);
      } else {
        AtWaitKeeps(c, k, id, now);
      }
    } else {
      AtPlainKeeps(c, k, id, now);
    }
  }

  /** A held claim's event is the wake-up, unless it is the parent's stop. */
  lemma ClaimIsLive(c: Case, k: Key, token: nat, now: nat)
    requires CaseInv(c, now) && HoldsClaim(c, k, token) && k != ParentStopped
    ensures k == Live(c)
  {
    hide Sound, Refines, Events, Rows, Live;
  }

  lemma ReadyInGraph(c: Case)
    requires Ready(c.d, c.core) != []
    ensures Ready(c.d, c.core)[0] in NodeIds(c.d)
  {
    hide NodeReady;
    assert Ready(c.d, c.core)[0] in Ready(c.d, c.core);
  }

  /** Advancing with any claim, current or stale, keeps the invariant. */
  lemma AdvanceKeeps(c: Case, k: Key, token: nat, now: nat, stopped: bool, env: Env)
    requires CaseInv(c, now) && Handed(c, k) && (k == ParentStopped ==> stopped)
    ensures CaseInv(AdvanceCase(c, k, token, now, stopped, env), now)
  {
    hide CaseInv, Ready, Live, AtNode, Closable, Close, Done;
    if HoldsClaim(c, k, token) {
      LiveIsClosable(c, now);
      if stopped {
        CloseKeeps(c, k, Stopped, ParentGone, now);
      } else if c.deadline <= now {
        CloseKeeps(c, k, Failed, DeadlineExceeded, now);
      } else if c.core.steps >= c.d.maxSteps {
        CloseKeeps(c, k, Failed, StepLimitExceeded, now);
      } else if Ready(c.d, c.core) == [] {
        CloseKeeps(c, k, Failed, NoReadyNode, now);
      } else {
        ClaimIsLive(c, k, token, now);
        ChosenIsFirst(c, k, now);
        ReadyInGraph(c);
        if env.refused {
          CloseKeeps(c, k, Failed, PolicyRefused, now);
        } else {
          AtNodeKeeps(c, k, Ready(c.d, c.core)[0], now, env);
        }
      }
    }
  }

  // ---------------------------------------------------------------- responses, children, stops

  /** Settling the top row of an idle or running execution and queueing its resume event. */
  lemma ResumeKeeps(c: Case, c': Case, k: Key, j: Key, now: nat)
    requires CaseInv(c, now) && !Terminal(c) && k == Live(c) && c'.status == c.status
    requires c'.d == c.d && c'.core == c.core && c'.checkpoints == c.checkpoints && c'.parent == c.parent
    requires c'.token == c.token && c'.lease == c.lease && c'.version == c.version
    requires c'.waits.Keys == c.waits.Keys && c'.calls.Keys == c.calls.Keys && PastKept(c, c') && RowsGrow(c, c')
    requires Rows(c') && j == Live(c') && KeyFits(c', j) && !k.ReadyEvent? && (j.WaitResume? || j.CallResume?)
    requires AllAnswered(c'.waits)
    requires c'.events == Done(c, k).events[j := Outbox(now, false, false)]
    ensures CaseInv(c', now)
  {
    hide CaseInv, Sound, Refines, Events, Rows, PastKept, RowsGrow, KeyFits, Live, Last, AllAnswered;
    OnlyLiveIsLast(c, now);
    var c1 := c'.(events := c.events);
    TopRowsKept(c, c1, c', now);
    TopRowSound(c, c1, now);
    LiveStays(c1, c');
    EventsGrow(c, c', k, j, now, now);
    QueuedNext(c, c', k, j, now, now);
    PhaseOf(c, now);
    assert CaseInv(c', now) by {
      hide Awake, OnlyLive;
      PhaseSame(c, c', now);
      LiveInv(c', now);
    }
  }

  lemma TopRowsKept(c: Case, c1: Case, c': Case, now: nat)
    requires c1 == c'.(events := c.events) && PastKept(c, c') && RowsGrow(c, c')
    ensures PastKept(c, c1) && RowsGrow(c, c1)
  {
  }

  lemma PhaseOf(c: Case, now: nat)
    requires CaseInv(c, now)
    ensures Phase(c)
  {
    hide Sound, Refines, Events, Rows, Live;
  }

  lemma PhaseSame(c: Case, c': Case, now: nat)
    requires Phase(c) && c'.status == c.status && c'.token == c.token && c'.lease == c.lease && c'.core == c.core
    requires !Live(c).ReadyEvent? && !Live(c').ReadyEvent?
    ensures Phase(c')
  {
    hide Live;
  }

  lemma RespondKeeps(c: Case, at: At, reply: Reply, now: nat)
    requires CaseInv(c, now)
    ensures CaseInv(RespondCase(c, at, reply, now), now)
  {
    hide CaseInv, Sound, Refines, Events, Rows, PastKept, RowsGrow, KeyFits, Live;
    if ReplyAccepted(c, at, reply, now) {
      var w := c.waits[at].(status := WaitResolved, resolution := Some(reply.resolution), payload := reply.payload);
      var c' := RespondCase(c, at, reply, now);
      assert c'.waits == c.waits[at := w] && c'.calls == c.calls;
      assert c'.events == Done(c, WaitWake(at)).events[WaitResume(at) := Outbox(now, false, false)];
      RespondRows(c, c', at, w, now);
      StillAnswered(c, at, w, now);
      ResumeKeeps(c, c', WaitWake(at), WaitResume(at), now);
    }
  }

  lemma StillAnswered(c: Case, at: At, w: Wait, now: nat)
    requires CaseInv(c, now) && Answered(w)
    ensures AllAnswered(c.waits) && AllAnswered(c.waits[at := w])
  {
    hide Refines, Events, Rows, Phase, Awake, OnlyLive, Served, Good, AllAnswered, Answered;
    AnsweredGrows(c.waits, at, w);
  }

  lemma RespondRows(c: Case, c': Case, at: At, w: Wait, now: nat)
    requires CaseInv(c, now) && !Terminal(c) && at in c.waits && c.waits[at].status == WaitPending
    requires c'.d == c.d && c'.core == c.core && c'.status == c.status
    requires c'.waits == c.waits[at := w] && c'.calls == c.calls
    requires w.content == c.waits[at].content && w.status == WaitResolved && w.resolution.Some?
    ensures Rows(c') && Live(c) == WaitWake(at) && Live(c') == WaitResume(at) && KeyFits(c', WaitResume(at))
    ensures PastKept(c, c') && RowsGrow(c, c')
  {
    hide Sound, Refines, Events, KindAt;
    assert WaitFits(c, at);
    forall a | a in c'.waits ensures WaitFits(c', a) {
      assert WaitFits(c, a);
    }
    forall a | a in c'.calls ensures CallFits(c', a) {
      assert CallFits(c, a);
    }
  }

  lemma ChildSettledKeeps(c: Case, at: At, status: Status, state: State, now: nat)
    requires CaseInv(c, now) && at in c.calls
    ensures CaseInv(ChildSettled(c, at, status, state, now), now)
  {
    hide CaseInv, Sound, Refines, Events, Rows, PastKept, RowsGrow, KeyFits, Live;
    if c.calls[at].status == CallPending {
      var c' := ChildSettled(c, at, status, state, now);
      var call := c'.calls[at];
      assert c'.calls == c.calls[at := call] && c'.waits == c.waits;
      assert c'.events == Done(c, CallTimeout(at)).events[CallResume(at) := Outbox(now, false, false)];
      assert call.status in {CallCompleted, CallCancelled, CallFailed} && (call.status == CallCompleted ==> call.result.Some?);
      SettledRows(c, c', at, call, now);
      AnsweredOf(c, now);
      ResumeKeeps(c, c', CallTimeout(at), CallResume(at), now);
    }
  }

  lemma AnsweredOf(c: Case, now: nat)
    requires CaseInv(c, now)
    ensures AllAnswered(c.waits)
  {
    hide Refines, Events, Rows, Phase, Awake, OnlyLive, Served, Good, AllAnswered;
  }

  lemma SettledRows(c: Case, c': Case, at: At, call: Call, now: nat)
    requires CaseInv(c, now) && at in c.calls && c.calls[at].status == CallPending
    requires c'.d == c.d && c'.core == c.core && c'.status == c.status
    requires c'.calls == c.calls[at := call] && c'.waits == c.waits
    requires call.status in {CallCompleted, CallCancelled, CallFailed} && (call.status == CallCompleted ==> call.result.Some?)
    ensures !Terminal(c) && Rows(c') && Live(c) == CallTimeout(at) && Live(c') == CallResume(at) && KeyFits(c', CallResume(at))
    ensures PastKept(c, c') && RowsGrow(c, c')
  {
    hide Refines, Events, KindAt, Served, Good;
    assert CallFits(c, at);
    forall a | a in c'.waits ensures WaitFits(c', a) {
      assert WaitFits(c, a);
    }
    forall a | a in c'.calls ensures CallFits(c', a) {
      assert CallFits(c, a);
    }
  }

  /** An event outside the execution's own progress: a parent's stop, or a processed finalize. */
  lemma SideEventKeeps(c: Case, c': Case, j: Key, now: nat)
    requires CaseInv(c, now) && SameRows(c, c') && c'.status == c.status && c'.version == c.version
    requires c'.token == c.token && c'.lease == c.lease
    requires (j == ParentStopped && c.parent.Some? && c' == Put(c, ParentStopped, now)) ||
             (j == Finalize && c' == Done(c, Finalize))
    ensures CaseInv(c', now)
  {
    hide Sound, Refines, KindAt;
    EventChangeKeeps(c, c', now);
    forall i | i in c'.events ensures KeyFits(c', i) {
      if i in c.events {
        assert KeyFits(c, i);
      }
    }
    forall a | a in c'.waits ensures WaitFits(c', a) {
      assert WaitFits(c, a);
    }
    forall a | a in c'.calls ensures CallFits(c', a) {
      assert CallFits(c, a);
    }
    assert Live(c') == Live(c);
  }
}
