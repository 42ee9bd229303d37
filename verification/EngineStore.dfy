/**
 * The workflow engine worker and the wait, subworkflow and cancellation services as they
 * change an execution's rows in place. Each method is one transaction, or a part of one, and
 * is proved to have the effect that `Engine` gives it.
 */
module EngineStore {
  import opened Ids
  import opened Json
  import opened Definitions
  import opened Interpreter
  import opened Engine

  // ---------------------------------------------------------------- running one node

  /** `[edge for edge in definition.edges if edge.source == node.id]`. */
  method EdgesFrom(d: Definition, id: Id) returns (out: seq<Edge>)
    ensures out == Outgoing(d.edges, id)
  {
    out := [];
    for i := 0 to |d.edges|
      invariant out == Outgoing(d.edges[..i], id)
    {
      assert d.edges[..i + 1] == d.edges[..i] + [d.edges[i]];
      FilterSnoc(d.edges[..i], d.edges[i], id);
      if d.edges[i].source == id {
        out := out + [d.edges[i]];
      }
    }
    assert d.edges[..|d.edges|] == d.edges;
  }

  /** The target of the first edge on a branch; None where Python's `next` would raise. */
  method TargetOn(out: seq<Edge>, branch: Branch) returns (target: Option<Id>)
    ensures target == FirstTarget(out, branch)
  {
    var i := 0;
    while i < |out|
      invariant 0 <= i <= |out|
      invariant FirstTarget(out, branch) == FirstTarget(out[i..], branch)
    {
      if out[i].branch == branch {
        return Some(out[i].target);
      }
      i := i + 1;
    }
    return None;
  }

  /** `_next_nodes`: the successors, and the loop counts after the node. */
  method Successors(d: Definition, n: Node, state: State, loops: map<Id, nat>, outside: Outside)
    returns (next: Option<seq<Id>>, counts: map<Id, nat>)
    ensures next == NextNodes(d, n, state, loops, outside) && counts == LoopsAfter(n, loops)
  {
    hide Outgoing, FirstTarget, SortIds, ConditionBranch;
    counts := loops;
    var out := EdgesFrom(d, n.id);
    var branch: Option<Branch> := None;
    match n.kind {
      case Output => return Some([]), counts;
      case Parallel => return Some(SortIds(Targets(out))), counts;
      case Condition => branch := ConditionBranch(n, state);
      case BoundedLoop =>
        var count := LoopCount(counts, n.id);
        if count < MaxIterations(n) {
          counts := counts[n.id := count + 1];
          branch := Some(Continue);
        } else {
          branch := Some(Exit);
        }
      case Approval =>
        if outside.Response? && outside.resolution == Granted {
          branch := Some(Approved);
        } else if outside.Response? && outside.resolution == Refused {
          branch := Some(Denied);
        }
      case _ =>
        next := if out == [] then None else Some([out[0].target]);
        return next, counts;
    }
    if branch.None? {
      return None, counts;
    }
    var target := TargetOn(out, branch.value);
    next := if target.None? then None else Some([target.value]);
  }

  /** The record after node `id`; None where the engine raises. */
  method RunStep(d: Definition, x: Core, id: Id, outside: Outside) returns (y: Option<Core>)
    requires id in NodeIds(d)
    ensures y == RunNode(d, x, id, outside)
  {
    hide NextNodes, LoopsAfter, StateAfter, SortIds, NodesById, Elements;
    var n := NodeAt(d, id);
    var state := StateAfter(n, x.state, outside);
    if state.None? {
      return None;
    }
    var next, counts := Successors(d, n, state.value, x.loops, outside);
    if next.None? {
      return None;
    }
    var current := Elements(x.current) - {id};
    var completed := x.completed;
    if id !in completed {
      completed := completed + [id];
    }
    y := Some(Core(SortIds(current + Elements(next.value)), completed, x.path + [id], counts, x.steps + 1, state.value));
  }

  // ---------------------------------------------------------------- the execution's rows

  function PendingChildren(calls: map<At, Call>): set<EId> {
    set a | a in calls && calls[a].status == CallPending :: calls[a].child
  }

  /** The children whose calls were given up between two states of the call rows. */
  function GivenUp(before: map<At, Call>, after: map<At, Call>): set<EId> {
    set a | a in before && a in after && before[a].status == CallPending && Engine.GaveUp(after[a].status) :: before[a].child
  }

  lemma GivenUpIsDropped(c: Case, c': Case)
    ensures GivenUp(c.calls, c'.calls) == Dropped(c, c')
  {
  }

  lemma NoneGivenUp(before: map<At, Call>, after: map<At, Call>)
    requires forall a | a in before && a in after :: after[a] == before[a]
    ensures GivenUp(before, after) == {}
  {
  }

  lemma AllGivenUp(before: map<At, Call>)
    ensures GivenUp(before, CancelCalls(before)) == PendingChildren(before)
  {
  }

  lemma TimedOutGivenUp(before: map<At, Call>, at: At)
    requires at in before && before[at].status == CallPending
    ensures var marked := before[at := before[at].(status := CallTimedOut)];
            GivenUp(before, CancelCalls(marked)) == GivenUp(marked, CancelCalls(marked)) + {before[at].child}
  {
    var marked := before[at := before[at].(status := CallTimedOut)];
    var after := CancelCalls(marked);
    assert after[at].status == CallTimedOut;
    forall a | a in before && a != at ensures marked[a] == before[a] {
    }
    assert before[at].child in GivenUp(before, after);
  }

  class ExecutionRows {
    const d: Definition
    const deadline: nat
    const parent: Option<Link>
    const origin: Option<Origin>
    var core: Core
    var status: Status
    var version: nat
    var token: Option<nat>
    var lease: Option<nat>
    var error: Option<Failure>
    var waits: map<At, Wait>
    var calls: map<At, Call>
    var events: map<Key, Outbox>
    var checkpoints: seq<Core>

    function Snapshot(): Case
      reads this
    {
      Case(d, core, status, version, token, lease, deadline, error, parent, origin, waits, calls, events, checkpoints)
    }

    /** A new execution, or one restarted from a checkpoint of `origin`. */
    constructor (d: Definition, core: Core, parent: Option<Link>, origin: Option<Origin>, now: nat)
      ensures Snapshot() == NewCase(d, core, parent, origin, now)
    {
      this.d, this.core, this.parent, this.origin, deadline := d, core, parent, origin, now + d.maxDuration;
      status, version, token, lease, error := Queued, 1, None, None, None;
      waits, calls, checkpoints := map[], map[], [core];
      events := map[ReadyEvent(1) := Outbox(now, false, false)];
    }

    method Process(k: Key)
      modifies this`events
      ensures events == Done(old(Snapshot()), k).events
    {
      if k in events {
        events := events[k := events[k].(processed := true)];
      }
    }

    /** Takes an event if the worker's query finds it. */
    method Claim(k: Key, now: nat, issued: nat, seconds: nat) returns (claimed: Option<nat>)
      modifies this
      ensures Snapshot() == ClaimCase(old(Snapshot()), k, now, issued, seconds)
      ensures claimed == if Claimable(old(Snapshot()), k, now) then Some(issued) else None
    {
      if k.Finalize? || k !in events || events[k].processed || events[k].availableAt > now {
        return None;
      }
      var recoverable := status == Running && lease.Some? && lease.value < now;
      if (status !in {Queued, Waiting} && !recoverable) || (events[k].dispatched && !recoverable) {
        return None;
      }
      status := Running;
      token := Some(issued);
      lease := Some(now + seconds);
      events := events[k := events[k].(dispatched := true)];
      return token;
    }

    // -------------------------------------------------------------- ending

    method CancelPendingWaits()
      modifies this`waits
      ensures waits == CancelWaits(old(waits))
    {
      var pending := set a | a in waits && waits[a].status == WaitPending;
      while pending != {}
        invariant pending <= old(waits).Keys && waits.Keys == old(waits).Keys
        invariant forall a | a in pending :: waits[a] == old(waits)[a] && waits[a].status == WaitPending
        invariant forall a | a in waits && a !in pending :: waits[a] == CancelWaits(old(waits))[a]
        decreases pending
      {
        var a :| a in pending;
        waits := waits[a := waits[a].(status := WaitCancelled, resolution := Some(Cancelled))];
        pending := pending - {a};
      }
    }

    /** Gives up every pending subworkflow call; the children are to be told. */
    method CancelPendingCalls() returns (dropped: set<EId>)
      modifies this`calls
      ensures calls == CancelCalls(old(calls)) && dropped == PendingChildren(old(calls))
    {
      var pending := set a | a in calls && calls[a].status == CallPending;
      dropped := set a | a in pending :: calls[a].child;
      while pending != {}
        invariant pending <= old(calls).Keys && calls.Keys == old(calls).Keys
        invariant forall a | a in pending :: calls[a] == old(calls)[a] && calls[a].status == CallPending
        invariant forall a | a in calls && a !in pending :: calls[a] == CancelCalls(old(calls))[a]
        decreases pending
      {
        var a :| a in pending;
        calls := calls[a := calls[a].(status := CallCancelled)];
        pending := pending - {a};
      }
    }

    /** The common part of a failure and of both cancellations. */
    method EndEarly(outcome: Status, reason: Failure) returns (dropped: set<EId>)
      modifies this
      ensures Snapshot() == Close(old(Snapshot()), outcome, reason)
      ensures dropped == GivenUp(old(calls), calls) && calls == CancelCalls(old(calls))
    {
      hide CancelWaits, CancelCalls, PendingChildren, GivenUp;
      AllGivenUp(calls);
      CancelPendingWaits();
      dropped := CancelPendingCalls();
      status := outcome;
      error := Some(reason);
      token, lease := None, None;
      version := version + 1;
    }

    method EndClaimed(k: Key, outcome: Status, reason: Failure) returns (dropped: set<EId>)
      modifies this
      ensures Snapshot() == Done(Close(old(Snapshot()), outcome, reason), k)
      ensures dropped == GivenUp(old(calls), calls) && calls == CancelCalls(old(calls))
    {
      hide Close, GivenUp, CancelCalls;
      dropped := EndEarly(outcome, reason);
      Process(k);
    }

    // -------------------------------------------------------------- advancing

    /** Runs the node and writes the step. */
    method RecordStep(k: Key, id: Id, outside: Outside, now: nat)
      requires id in NodeIds(d)
      modifies this
      ensures Snapshot() == Finish(old(Snapshot()), k, id, outside, now) && calls == old(calls)
    {
      hide RunNode, Record;
      var y := RunStep(d, core, id, outside);
      if y.Some? {
        WriteStep(k, y.value, now);
      }
    }

    /** The new record, its checkpoint, and the next ready event unless the execution is complete. */
    method WriteStep(k: Key, y: Core, now: nat)
      modifies this
      ensures Snapshot() == Record(old(Snapshot()), k, y, now) && calls == old(calls)
    {
      Process(k);
      core := y;
      version := version + 1;
      token, lease := None, None;
      checkpoints := checkpoints + [y];
      if y.current == [] {
        status := Completed;
      } else {
        status := Queued;
        events := events[ReadyEvent(version) := Outbox(now, false, false)];
      }
    }

    method Suspend(k: Key)
      modifies this
      ensures Snapshot() == Park(old(Snapshot()), k) && calls == old(calls)
    {
      status := Waiting;
      token, lease := None, None;
      Process(k);
    }

    /** `create_workflow_wait`: the wait row, and one wake event for its expiry. */
    method CreateWait(k: Key, n: Node, now: nat)
      modifies this
      ensures Snapshot() == OpenWait(old(Snapshot()), k, n, now) && calls == old(calls)
    {
      hide Park, NewWait;
      var at := At(n.id, core.steps);
      var wait := BuildWait(n, now);
      var rows, number := waits[at := wait], version + 1;
      Suspend(k);
      version, waits := number, rows;
      events := events[WaitWake(at) := Outbox(wait.content.expires, false, false)];
    }

    method BuildWait(n: Node, now: nat) returns (wait: Wait)
      ensures wait == NewWait(Snapshot(), n, now)
    {
      var due := if n.kind == Timer then Some(now + DelayOf(n)) else None;
      var expires := if due.Some? then due.value else Min(now + n.timeout, deadline);
      var key := if n.kind == Event && "event_key" in n.config then Some(n.config["event_key"]) else None;
      wait := Wait(WaitContent(At(n.id, core.steps), n.kind, core.state, due, expires), key, WaitPending, None, None);
    }

    /** `create_subworkflow_call`: the call row, and one wake event for its timeout. */
    method CreateCall(k: Key, n: Node, child: EId, now: nat)
      modifies this
      ensures Snapshot() == OpenCall(old(Snapshot()), k, n, child, now)
      ensures forall a | a in old(calls) && a != At(n.id, old(core).steps) :: a in calls && calls[a] == old(calls)[a]
    {
      hide Park;
      var at := At(n.id, core.steps);
      var expires := Min(now + n.timeout, deadline);
      var rows, number := calls[at := Call(child, CallPending, None, expires)], version + 1;
      Suspend(k);
      version, calls := number, rows;
      events := events[CallTimeout(at) := Outbox(expires, false, false)];
    }

    /** A claimed event at a wait node. */
    method AdvanceWait(k: Key, n: Node, now: nat) returns (dropped: set<EId>)
      requires n.id in NodeIds(d)
      modifies this
      ensures Snapshot() == AtWait(old(Snapshot()), k, n, now)
      ensures dropped == GivenUp(old(calls), calls)
    {
      hide OpenWait, Finish, Close, Done, Park, GivenUp, CancelCalls;
      dropped := {};
      NoneGivenUp(calls, calls);
      var at := At(n.id, core.steps);
      if at !in waits {
        if n.kind == Timer && now + DelayOf(n) >= deadline {
          dropped := EndClaimed(k, Failed, WaitExceedsDeadline);
        } else {
          CreateWait(k, n, now);
        }
        return;
      }
      var w := waits[at];
      if w.content.kind != n.kind {
        dropped := EndClaimed(k, Failed, WakeMismatch);
      } else if w.status == WaitPending {
        dropped := AdvancePendingWait(k, n, now);
      } else if w.status != WaitResolved || w.resolution.None? || !Acceptable(n.kind, w.resolution.value) {
        dropped := EndClaimed(k, Failed, WaitResolutionInvalid);
      } else {
        RecordStep(k, n.id, Response(w.resolution.value, w.payload), now);
      }
    }

    method AdvancePendingWait(k: Key, n: Node, now: nat) returns (dropped: set<EId>)
      requires n.id in NodeIds(d) && At(n.id, core.steps) in waits
      requires waits[At(n.id, core.steps)].status == WaitPending && waits[At(n.id, core.steps)].content.kind == n.kind
      modifies this
      ensures Snapshot() == AtWait(old(Snapshot()), k, n, now)
      ensures dropped == GivenUp(old(calls), calls)
    {
      hide OpenWait, Finish, Close, Done, Park, GivenUp, CancelCalls;
      dropped := {};
      NoneGivenUp(calls, calls);
      var at := At(n.id, core.steps);
      var w := waits[at];
      if n.kind == Timer && w.content.due.Some? && w.content.due.value <= now {
        waits := waits[at := w.(status := WaitResolved, resolution := Some(Elapsed))];
        RecordStep(k, n.id, Response(Elapsed, None), now);
      } else if w.content.expires <= now {
        waits := waits[at := w.(status := WaitExpired, resolution := Some(Expired))];
        dropped := EndClaimed(k, Failed, WaitTimedOut);
      } else {
        Suspend(k);
      }
    }

    /** A claimed event at a subworkflow node. */
    method AdvanceCall(k: Key, n: Node, now: nat, env: Env) returns (dropped: set<EId>)
      requires n.id in NodeIds(d)
      modifies this
      ensures Snapshot() == AtCall(old(Snapshot()), k, n, now, env)
      ensures dropped == GivenUp(old(calls), calls)
    {
      hide OpenCall, Finish, Close, Done, Park, GivenUp, CancelCalls;
      dropped := {};
      NoneGivenUp(calls, calls);
      var at := At(n.id, core.steps);
      if at !in calls {
        if env.child.None? {
          dropped := EndClaimed(k, Failed, SubworkflowUnavailable);
        } else {
          ghost var before := calls;
          CreateCall(k, n, env.child.value, now);
          NoneGivenUp(before, calls);
        }
        return;
      }
      var call := calls[at];
      if call.status == CallPending {
        if call.expires <= now {
          TimedOutGivenUp(calls, at);
          calls := calls[at := call.(status := CallTimedOut)];
          dropped := EndClaimed(k, Failed, SubworkflowTimedOut);
          dropped := dropped + {call.child};
        } else {
          Suspend(k);
        }
      } else if call.status != CallCompleted {
        dropped := EndClaimed(k, Failed, SubworkflowEnded);
      } else if call.child !in env.finals || call.result != Some(env.finals[call.child]) {
        dropped := EndClaimed(k, Failed, SubworkflowResultInvalid);
      } else {
        RecordStep(k, n.id, Result(env.finals[call.child]), now);
      }
    }

    /** The whole of `advance` for a claim on event `k`; `dropped` are the children to stop. */
    method Advance(k: Key, claim: nat, now: nat, stopped: bool, env: Env) returns (dropped: set<EId>)
      modifies this
      ensures Snapshot() == AdvanceCase(old(Snapshot()), k, claim, now, stopped, env)
      ensures dropped == Dropped(old(Snapshot()), Snapshot())
    {
      hide AdvanceCase, GivenUp, Dropped;
      dropped := AdvanceRows(k, claim, now, stopped, env);
      GivenUpIsDropped(old(Snapshot()), Snapshot());
    }

    method AdvanceRows(k: Key, claim: nat, now: nat, stopped: bool, env: Env) returns (dropped: set<EId>)
      modifies this
      ensures Snapshot() == AdvanceCase(old(Snapshot()), k, claim, now, stopped, env)
      ensures dropped == GivenUp(old(calls), calls)
    {
      hide Finish, Close, Done, AtWait, AtCall, Ready, Chosen, GivenUp, CancelCalls;
      dropped := {};
      NoneGivenUp(calls, calls);
      if k.Finalize? || k !in events || events[k].processed || status != Running || token != Some(claim) {
        return;
      }
      if stopped {
        dropped := EndClaimed(k, Stopped, ParentGone);
        return;
      }
      if deadline <= now {
        dropped := EndClaimed(k, Failed, DeadlineExceeded);
        return;
      }
      if core.steps >= d.maxSteps {
        dropped := EndClaimed(k, Failed, StepLimitExceeded);
        return;
      }
      if Ready(d, core) == [] {
        dropped := EndClaimed(k, Failed, NoReadyNode);
        return;
      }
      var id := Chosen(Snapshot(), k);
      if id.None? {
        dropped := EndClaimed(k, Failed, WakeMismatch);
        return;
      }
      if env.refused {
        dropped := EndClaimed(k, Failed, PolicyRefused);
        return;
      }
      var n := NodeAt(d, id.value);
      if n.kind == Subworkflow {
        dropped := AdvanceCall(k, n, now, env);
      } else if n.kind in WAIT_KINDS {
        dropped := AdvanceWait(k, n, now);
      } else {
        RecordStep(k, id.value, Nothing, now);
      }
    }

    // -------------------------------------------------------------- responses, children, cancellation

    method Respond(at: At, reply: Reply, now: nat) returns (accepted: bool)
      modifies this
      ensures accepted <==> ReplyAccepted(old(Snapshot()), at, reply, now)
      ensures Snapshot() == RespondCase(old(Snapshot()), at, reply, now)
    {
      if !Offered(reply) {
        return false;
      }
      if at !in waits || waits[at].content.kind != reply.kind || waits[at].status != WaitPending {
        return false;
      }
      if waits[at].content.expires <= now || reply.submitted != waits[at].content {
        return false;
      }
      if reply.kind == Event && (reply.eventKey.None? || reply.eventKey != waits[at].eventKey) {
        return false;
      }
      if status != Waiting || at.node !in core.current || at.step != core.steps {
        return false;
      }
      waits := waits[at := waits[at].(status := WaitResolved, resolution := Some(reply.resolution), payload := reply.payload)];
      Process(WaitWake(at));
      events := events[WaitResume(at) := Outbox(now, false, false)];
      return true;
    }

    method CancelByCaller(now: nat) returns (dropped: set<EId>)
      modifies this
      ensures Snapshot() == CancelCase(old(Snapshot()), now)
      ensures dropped == Dropped(old(Snapshot()), Snapshot())
    {
      hide Close, GivenUp, CancelCalls, Dropped;
      dropped := {};
      NoneGivenUp(calls, calls);
      if status in {Queued, Waiting} {
        dropped := EndEarly(Stopped, CancelledByCaller);
        events := events[Finalize := Outbox(now, false, false)];
      }
      GivenUpIsDropped(old(Snapshot()), Snapshot());
    }

    /** The child of the call ended: the call settles, once, and its resume event is queued. */
    method ChildEnded(at: At, outcome: Status, result: State, now: nat)
      requires at in calls
      modifies this
      ensures Snapshot() == ChildSettled(old(Snapshot()), at, outcome, result, now)
    {
      if calls[at].status != CallPending {
        return;
      }
      var settled := if outcome == Completed then CallCompleted else if outcome == Stopped then CallCancelled else CallFailed;
      calls := calls[at := calls[at].(status := settled, result := if outcome == Completed then Some(result) else None)];
      Process(CallTimeout(at));
      events := events[CallResume(at) := Outbox(now, false, false)];
    }
  }
}
