/** Every transaction of the engine keeps the system invariant. */
module EngineSteps {
  import opened Ids
  import opened Json
  import opened Definitions
  import opened Interpreter
  import opened Engine
  import opened EngineCases
  import opened EngineMoves
  import opened EngineLinks

  // ---------------------------------------------------------------- moves

  lemma CloseMove(c: Case, k: Key, status: Status, error: Failure)
    requires !Terminal(c) && status in {Failed, Stopped}
    ensures Move(c, Done(Close(c, status, error), k), None)
  {
  }

  lemma RecordMove(c: Case, k: Key, y: Core, now: nat)
    requires !Terminal(c) && k != ParentStopped
    ensures Move(c, Record(c, k, y, now), None)
  {
  }

  lemma OpenWaitMove(c: Case, k: Key, n: Node, now: nat)
    requires !Terminal(c) && k != ParentStopped && At(n.id, c.core.steps) !in c.waits
    ensures Move(c, OpenWait(c, k, n, now), None) && OpenWait(c, k, n, now).calls == c.calls
  {
  }

  lemma OpenCallMove(c: Case, k: Key, n: Node, child: EId, now: nat)
    requires !Terminal(c) && k != ParentStopped && Here(c) == At(n.id, c.core.steps) && Here(c) !in c.calls
    ensures Move(c, OpenCall(c, k, n, child, now), Some(child))
  {
  }

  lemma WaitRowMove(c: Case, w: Wait)
    requires !Terminal(c) && Here(c) in c.waits && c.waits[Here(c)].status == WaitPending
    ensures Move(c, c.(waits := c.waits[Here(c) := w]), None)
  {
  }

  lemma CallRowMove(c: Case)
    requires !Terminal(c) && Here(c) in c.calls && c.calls[Here(c)].status == CallPending
    ensures Move(c, c.(calls := c.calls[Here(c) := c.calls[Here(c)].(status := CallTimedOut)]), None)
  {
  }

  lemma MoveCompose(c: Case, c1: Case, c2: Case)
    requires !Terminal(c) && !Terminal(c1) && Move(c, c1, None) && Move(c1, c2, None) && c1.events == c.events
    requires c1.checkpoints == c.checkpoints
    ensures Move(c, c2, None)
  {
  }

  lemma MoveSelf(c: Case)
    ensures Move(c, c, None)
  {
  }

  /** A step leaves no error behind; an early end records its own reason. */
  lemma RecordReasons(c: Case, k: Key, y: Core, now: nat)
    requires Reasons(c) && c.error.None?
    ensures Reasons(Record(c, k, y, now)) && Record(c, k, y, now).token.None?
  {
    hide Ready, Blocks;
  }

  lemma CloseReasons(c: Case, k: Key, status: Status, error: Failure)
    requires error !in {WakeMismatch, SubworkflowResultInvalid, WaitResolutionInvalid, StepLimitExceeded, NoReadyNode}
    requires (error in BLOCKING ==> Blocks(c.d)) && (error == ParentGone ==> c.parent.Some?)
    requires status in {Failed, Stopped} && c.core.current != []
    ensures Reasons(Done(Close(c, status, error), k)) && Done(Close(c, status, error), k).token.None?
  {
    hide Ready, Blocks;
  }

  /** What an advance leaves besides the case invariant. */
  ghost predicate Advances(c: Case, c': Case, child: Option<EId>) {
    && Move(c, c', child) && Reasons(c') && (c' == c || c'.token.None?) && (Terminal(c) ==> c' == c)
    && (c'.calls.Keys != c.calls.Keys ==>
          child.Some? && Here(c) in c'.calls && Here(c) !in c.calls && !Terminal(c'))
  }

  lemma MoveNone(c: Case, c': Case, child: Option<EId>)
    requires Move(c, c', None) && Reasons(c') && (c' == c || c'.token.None?) && (Terminal(c) ==> c' == c)
    ensures Advances(c, c', child)
  {
    hide Reasons, SettledKept;
    assert c'.calls.Keys == c.calls.Keys;
  }

  lemma FinishAdvances(c: Case, c1: Case, k: Key, id: Id, outside: Outside, now: nat, child: Option<EId>)
    requires !Terminal(c) && !Terminal(c1) && k != ParentStopped && id in NodeIds(c1.d) && Reasons(c1) && c1.error.None?
    requires Move(c, c1, None) && c1.events == c.events && c1.checkpoints == c.checkpoints
    requires c1 == c || RunNode(c1.d, c1.core, id, outside).Some?
    ensures Advances(c, Finish(c1, k, id, outside, now), child)
  {
    hide Reasons, Move, RunNode, Advances, Record;
    var y := RunNode(c1.d, c1.core, id, outside);
    if y.Some? {
      RecordMove(c1, k, y.value, now);
      RecordReasons(c1, k, y.value, now);
      MoveCompose(c, c1, Record(c1, k, y.value, now));
      MoveNone(c, Record(c1, k, y.value, now), child);
    } else {
      MoveNone(c, c1, child);
    }
  }

  lemma CloseAdvances(c: Case, c1: Case, k: Key, status: Status, error: Failure, child: Option<EId>)
    requires !Terminal(c) && !Terminal(c1) && status in {Failed, Stopped} && c1.core.current != []
    requires Move(c, c1, None) && c1.events == c.events && c1.checkpoints == c.checkpoints
    requires error !in {WakeMismatch, SubworkflowResultInvalid, WaitResolutionInvalid, StepLimitExceeded, NoReadyNode}
    requires (error in BLOCKING ==> Blocks(c1.d)) && (error == ParentGone ==> c1.parent.Some?)
    ensures Advances(c, Done(Close(c1, status, error), k), child)
  {
    hide Reasons, Move, Advances;
    CloseMove(c1, k, status, error);
    CloseReasons(c1, k, status, error);
    MoveCompose(c, c1, Done(Close(c1, status, error), k));
    MoveNone(c, Done(Close(c1, status, error), k), child);
  }

  /** A live execution has no recorded error. */
  ghost predicate Clean(c: Case) {
    Reasons(c) && c.error.None?
  }

  lemma LiveIsClean(c: Case)
    requires Reasons(c) && !Terminal(c)
    ensures Clean(c)
  {
    hide Ready, Blocks;
  }

  lemma WaitChangeReasons(c: Case, c1: Case)
    requires Clean(c) && c1.core == c.core && c1.d == c.d && c1.parent == c.parent && c1.error == c.error && c1.status == c.status
    ensures Clean(c1)
  {
    hide Ready, Blocks;
  }

  lemma AtWaitAdvances(c: Case, k: Key, id: Id, now: nat, child: Option<EId>)
    requires Blocked(c, k, id, now) && NodeAt(c.d, id).kind in WAIT_KINDS && Clean(c) && k != ParentStopped
    ensures Advances(c, AtWait(c, k, NodeAt(c.d, id), now), child)
  {
    hide Blocks, CaseInv, RunNode, Finish, Ready, Reasons, Move, Advances, OpenWait, Close, Done, Live, Served, Sound, Refines,
      Events, Last;
    var n, at := NodeAt(c.d, id), Here(c);
    RowKind(c, id, now);
    BlocksHere(c.d, id);
    ClaimedIsDue(c, k, now);
    LiveWait(c, now);
    MoveSelf(c);
    if at !in c.waits {
      if n.kind == Timer && now + DelayOf(n) >= c.deadline {
        CloseAdvances(c, c, k, Failed, WaitExceedsDeadline, child);
      } else {
        OpenWaitMove(c, k, n, now);
        OpenWaitReasons(c, k, n, now);
        MoveNone(c, OpenWait(c, k, n, now), child);
      }
    } else {
      var w := c.waits[at];
      if w.status == WaitPending {
        if n.kind == Timer && w.content.due.Some? && w.content.due.value <= now {
          var elapsed := w.(status := WaitResolved, resolution := Some(Elapsed));
          var c1 := c.(waits := c.waits[at := elapsed]);
          WaitRowMove(c, elapsed);
          WaitChangeReasons(c, c1);
          OnlyLiveIsLast(c, now);
          SoundIsServed(c);
          ServedRuns(c.d, c.core, id, Response(Elapsed, None));
          FinishAdvances(c, c1, k, id, Response(Elapsed, None), now, child);
        } else {
          var expired := w.(status := WaitExpired, resolution := Some(Expired));
          WaitRowMove(c, expired);
          CloseAdvances(c, c.(waits := c.waits[at := expired]), k, Failed, WaitTimedOut, child);
        }
      } else {
        FinishAdvances(c, c, k, id, Response(w.resolution.value, w.payload), now, child);
      }
    }
  }

  lemma BlocksHere(d: Definition, id: Id)
    requires id in NodeIds(d) && NodeAt(d, id).kind in WAIT_KINDS + {Subworkflow}
    ensures Blocks(d)
  {
    KindHere(d, id, WAIT_KINDS + {Subworkflow});
  }

  lemma LiveWait(c: Case, now: nat)
    requires CaseInv(c, now) && !Terminal(c)
    ensures Here(c) in c.waits && c.waits[Here(c)].status == WaitPending ==> Live(c) == WaitWake(Here(c))
    ensures Here(c) !in c.waits && Here(c) in c.calls && c.calls[Here(c)].status == CallPending ==> Live(c) == CallTimeout(Here(c))
    ensures Here(c) in c.calls ==> Here(c) !in c.waits
  {
    hide Refines, Events, Rows, Served, Good;
  }

  lemma OpenWaitReasons(c: Case, k: Key, n: Node, now: nat)
    requires Clean(c)
    ensures Reasons(OpenWait(c, k, n, now)) && OpenWait(c, k, n, now).token.None?
  {
    hide Ready, NewWait, Blocks;
  }

  lemma OpenCallReasons(c: Case, k: Key, n: Node, child: EId, now: nat)
    requires Clean(c) && Here(c) == At(n.id, c.core.steps)
    ensures var c' := OpenCall(c, k, n, child, now);
            Reasons(c') && c'.token.None? && Here(c) in c'.calls && !Terminal(c')
  {
    hide Ready, Blocks;
  }

  /** The call on record and the child's final state agree. */
  ghost predicate FinalsAgree(c: Case, finals: map<EId, State>) {
    forall at | at in c.calls && c.calls[at].status == CallCompleted ::
      c.calls[at].child in finals && c.calls[at].result == Some(finals[c.calls[at].child])
  }

  lemma AtCallAdvances(c: Case, k: Key, id: Id, now: nat, env: Env)
    requires Blocked(c, k, id, now) && NodeAt(c.d, id).kind == Subworkflow && Clean(c) && k != ParentStopped
    requires FinalsAgree(c, env.finals)
    ensures Advances(c, AtCall(c, k, NodeAt(c.d, id), now, env), env.child)
  {
    hide Blocks, CaseInv, RunNode, Finish, Ready, Reasons, Move, OpenCall, Close, Done, Live;
    var n, at := NodeAt(c.d, id), Here(c);
    RowKind(c, id, now);
    BlocksHere(c.d, id);
    ClaimedIsDue(c, k, now);
    LiveWait(c, now);
    MoveSelf(c);
    if at !in c.calls {
      if env.child.None? {
        CloseAdvances(c, c, k, Failed, SubworkflowUnavailable, env.child);
      } else {
        OpenCallMove(c, k, n, env.child.value, now);
        OpenCallReasons(c, k, n, env.child.value, now);
      }
    } else {
      var call := c.calls[at];
      if call.status == CallPending {
        CallRowMove(c);
        CloseAdvances(c, c.(calls := c.calls[at := call.(status := CallTimedOut)]), k, Failed, SubworkflowTimedOut, env.child);
      } else if call.status != CallCompleted {
        CloseAdvances(c, c, k, Failed, SubworkflowEnded, env.child);
      } else {
        FinishAdvances(c, c, k, id, Result(env.finals[call.child]), now, env.child);
      }
    }
  }

  lemma LimitAdvances(c: Case, k: Key, error: Failure, child: Option<EId>, now: nat)
    requires CaseInv(c, now) && !Terminal(c)
    requires (error == StepLimitExceeded && c.core.steps >= c.d.maxSteps) || (error == NoReadyNode && Ready(c.d, c.core) == [])
    ensures Advances(c, Fail(c, k, error), child)
  {
    hide Blocks, CaseInv, Ready, Move, Advances, Live, Sound, Refines, Events, Last;
    OnlyLiveIsLast(c, now);
    CloseMove(c, k, Failed, error);
    MoveNone(c, Fail(c, k, error), child);
  }

  lemma AdvanceAdvances(c: Case, k: Key, token: nat, now: nat, stopped: bool, env: Env)
    requires CaseInv(c, now) && Handed(c, k) && (k == ParentStopped ==> stopped) && Reasons(c) && (stopped ==> c.parent.Some?)
    requires FinalsAgree(c, env.finals)
    ensures Advances(c, AdvanceCase(c, k, token, now, stopped, env), env.child)
  {
    hide CaseInv, Ready, Live, AtNode, Close, Done, Reasons, Move, Advances, FinalsAgree, Chosen, Sound, Refines, Events, Last, Blocks;
    MoveSelf(c);
    if HoldsClaim(c, k, token) {
      OnlyLiveIsLast(c, now);
      LiveIsClean(c);
      if stopped {
        CloseAdvances(c, c, k, Stopped, ParentGone, env.child);
      } else if c.deadline <= now {
        CloseAdvances(c, c, k, Failed, DeadlineExceeded, env.child);
      } else if c.core.steps >= c.d.maxSteps {
        LimitAdvances(c, k, StepLimitExceeded, env.child, now);
      } else if Ready(c.d, c.core) == [] {
        LimitAdvances(c, k, NoReadyNode, env.child, now);
      } else {
        ClaimIsLive(c, k, token, now);
        ChosenIsFirst(c, k, now);
        ReadyInGraph(c);
        if env.refused {
          CloseAdvances(c, c, k, Failed, PolicyRefused, env.child);
        } else {
          AtNodeAdvances(c, k, Ready(c.d, c.core)[0], now, env);
        }
      }
    } else {
      MoveNone(c, c, env.child);
    }
  }

  lemma AtNodeAdvances(c: Case, k: Key, id: Id, now: nat, env: Env)
    requires CaseInv(c, now) && c.status == Running && k == Live(c) && Handed(c, k) && c.core.steps < c.d.maxSteps
    requires Ready(c.d, c.core) != [] && id == Ready(c.d, c.core)[0] && id in NodeIds(c.d)
    requires Clean(c) && k != ParentStopped && FinalsAgree(c, env.finals)
    ensures Advances(c, AtNode(c, k, id, now, env), env.child)
  {
    hide CaseInv, RunNode, Finish, Ready, Live, Sound, AtWait, AtCall, Reasons, Move, Advances, FinalsAgree;
    var n := NodeAt(c.d, id);
    if n.kind in WAIT_KINDS + {Subworkflow} {
      OnlyLiveIsLast(c, now);
      assert id in Ready(c.d, c.core);
      BlockingIsAlone(c, id);
      if n.kind == Subworkflow {
        AtCallAdvances(c, k, id, now, env);
      } else {
        AtWaitAdvances(c, k, id, now, env.child);
      }
    } else {
      MoveSelf(c);
      FinishAdvances(c, c, k, id, Nothing, now, env.child);
    }
  }
}
