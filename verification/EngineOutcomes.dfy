/** What each transaction of the engine does, stated on the rows before and after it. */
module EngineOutcomes {
  import opened Ids
  import opened Definitions
  import opened Interpreter
  import opened Engine
  import opened EngineCases
  import opened EngineMoves
  import opened EngineLinks
  import opened EngineSteps
  import opened EngineTheorems
  import opened EngineResults

  // ---------------------------------------------------------------- what a commit leaves

  lemma CommitSelf(s: Sys, e: EId, c': Case, child: Option<Case>, settle: bool)
    requires SysInv(s) && e in s.cases && c'.parent == s.cases[e].parent
    ensures var s' := Commit(s, e, c', child, settle);
            s'.now == s.now && s'.nextToken == s.nextToken && e in s'.cases && s'.cases[e] == c'
  {
    hide SysInv, CaseInv, Reasons, CallLinked, OriginLinked, After, Commit, Dropped;
    LinkedOf(s, e);
    FreshId(s);
    DroppedAreChildren(s, e, c');
    CommitWrites(s, e, c', child, settle);
    AfterSelf(s, e, c', child, settle);
  }

  /** The fields of an execution that no transaction on another execution touches. */
  ghost predicate Untouched(c: Case, c': Case) {
    && c'.d == c.d && c'.core == c.core && c'.status == c.status && c'.version == c.version && c'.token == c.token
    && c'.lease == c.lease && c'.deadline == c.deadline && c'.error == c.error && c'.waits == c.waits
    && c'.checkpoints == c.checkpoints && c'.parent == c.parent && c'.origin == c.origin
  }

  lemma CommitOthers(s: Sys, f: EId, c': Case, child: Option<Case>, settle: bool, e: EId)
    requires f in s.cases && e in s.cases && e != f && s.nextId !in s.cases
    ensures e in Commit(s, f, c', child, settle).cases && Untouched(s.cases[e], Commit(s, f, c', child, settle).cases[e])
  {
    hide Dropped;
  }

  // ---------------------------------------------------------------- claims

  /** The event is waiting for a worker: nobody has it, or the lease of whoever has it ran out. */
  predicate Free(c: Case, k: Key, now: nat) {
    && !k.Finalize? && k in c.events && !c.events[k].processed && c.events[k].availableAt <= now
    && (if c.status == Running then c.lease.Some? && c.lease.value < now
        else c.status in {Queued, Waiting} && !c.events[k].dispatched)
  }

  /** The execution is in the hands of the worker with this token until the lease ends. */
  predicate Held(s: Sys, e: EId, token: nat, until: nat) {
    e in s.cases && s.cases[e].status == Running && s.cases[e].token == Some(token) && s.cases[e].lease == Some(until)
  }

  /** A claim takes a free event, for exactly the length of the lease, and otherwise changes nothing. */
  lemma ClaimOutcome(s: Sys, e: EId, k: Key, lease: nat)
    requires SysInv(s) && e in s.cases
    ensures var c, s' := s.cases[e], Next(s, Claim(e, k, lease));
            if Free(c, k, s.now) then
              && Held(s', e, s.nextToken, s.now + lease) && s'.nextToken == s.nextToken + 1
              && s'.cases[e].events == c.events[k := c.events[k].(dispatched := true)]
              && s'.cases[e].core == c.core && s'.cases[e].waits == c.waits && s'.cases[e].calls == c.calls
              && s'.cases[e].deadline == c.deadline && s'.now == s.now
            else s' == s
  {
    hide SysInv, Commit;
    var c := s.cases[e];
    if Claimable(c, k, s.now) {
      CommitSelf(s, e, ClaimCase(c, k, s.now, s.nextToken, lease), None, false);
    }
  }

  /** While a lease lasts nobody else gets the execution, in any reachable state. */
  lemma LeaseProtects(ts: seq<Transaction>, e: EId, k: Key, lease: nat)
    requires e in History(ts).cases && History(ts).cases[e].status == Running
    requires History(ts).cases[e].lease.Some? && History(ts).now <= History(ts).cases[e].lease.value
    ensures Next(History(ts), Claim(e, k, lease)) == History(ts)
  {
    hide History, SysInv, Next;
    HistoryInvariant(ts);
    ClaimOutcome(History(ts), e, k, lease);
  }

  lemma HeldStays(s: Sys, t: Transaction, e: EId, token: nat, until: nat)
    requires SysInv(s) && Held(s, e, token, until) && s.now <= until
    requires !(t.Advance? && t.e == e && t.token == token)
    ensures Held(Next(s, t), e, token, until)
  {
    hide SysInv, Commit, AdvanceCase, ClaimCase, RespondCase, CancelCase, Finals, IsStopped, Served, Advanced, ChildOf, NewCase;
    FreshId(s);
    match t
    case Claim(f, k, lease) =>
      if f == e {
        ClaimOutcome(s, e, k, lease);
      } else if f in s.cases {
        CommitOthers(s, f, ClaimCase(s.cases[f], k, s.now, s.nextToken, lease), None, false, e);
      }
    case Advance(f, k, _, _, d) =>
      if f == e {
        StaleAdvance(s, t);
      } else if f in s.cases {
        var c' := Advanced(s, t);
        CommitOthers(s, f, c', ChildOf(s, f, c', d), Terminal(c') && !Terminal(s.cases[f]), e);
      }
    case Respond(f, at, reply) =>
      if f == e {
        NotWaiting(s.cases[e], at, reply, s.now);
        CommitNothing(s, e);
      } else if f in s.cases {
        CommitOthers(s, f, RespondCase(s.cases[f], at, reply, s.now), None, false, e);
      }
    case Cancel(f) =>
      if f == e {
        NotIdle(s.cases[e], s.now);
        CommitNothing(s, e);
      } else if f in s.cases {
        CommitOthers(s, f, CancelCase(s.cases[f], s.now), None, false, e);
      }
    case FinalizeCancelled(f) =>
      if f == e {
        CommitSelf(s, e, Done(s.cases[e], Finalize), None, s.cases[e].status == Stopped);
      } else if f in s.cases {
        CommitOthers(s, f, Done(s.cases[f], Finalize), None, s.cases[f].status == Stopped, e);
      }
    case _ =>
  }

  lemma NotWaiting(c: Case, at: At, reply: Reply, now: nat)
    requires c.status != Waiting
    ensures RespondCase(c, at, reply, now) == c
  {
  }

  lemma NotIdle(c: Case, now: nat)
    requires c.status !in {Queued, Waiting}
    ensures CancelCase(c, now) == c
  {
  }

  predicate Uses(t: Transaction, e: EId, token: nat) {
    t.Advance? && t.e == e && t.token == token
  }

  lemma {:induction false} HeldOn(ts: seq<Transaction>, more: seq<Transaction>, e: EId, token: nat, until: nat)
    requires Held(History(ts), e, token, until) && History(ts + more).now <= until
    requires forall t | t in more :: !Uses(t, e, token)
    ensures Held(History(ts + more), e, token, until)
    decreases |more|
  {
    hide History, Next, SysInv;
    if more == [] {
      assert ts + more == ts;
    } else {
      var n := |more| - 1;
      var before := ts + more[..n];
      var all := ts + more;
      assert all[..|all| - 1] == before && all[|all| - 1] == more[n];
      HistorySnoc(all);
      HistoryInvariant(before);
      NextKeeps(History(before), more[n]);
      HeldOn(ts, more[..n], e, token, until);
      assert more[n] in more;
      HeldStays(History(before), more[n], e, token, until);
    }
  }

  /**
   * A claim is exclusive: whatever other workers and callers do, until the lease runs out or the
   * holder advances, the execution stays with the holder and its claim stays good.
   */
  lemma LeaseIsExclusive(ts: seq<Transaction>, e: EId, k: Key, lease: nat, more: seq<Transaction>)
    requires e in History(ts).cases && Free(History(ts).cases[e], k, History(ts).now)
    requires History(ts + [Claim(e, k, lease)] + more).now <= History(ts).now + lease
    requires forall t | t in more :: !Uses(t, e, History(ts).nextToken)
    ensures Held(History(ts + [Claim(e, k, lease)] + more), e, History(ts).nextToken, History(ts).now + lease)
  {
    hide History, Next, SysInv, Free;
    var s, all := History(ts), ts + [Claim(e, k, lease)];
    assert all[..|all| - 1] == ts && all[|all| - 1] == Claim(e, k, lease);
    HistorySnoc(all);
    HistoryInvariant(ts);
    ClaimOutcome(s, e, k, lease);
    HeldOn(all, more, e, s.nextToken, s.now + lease);
  }

  // ---------------------------------------------------------------- advancing one execution

  /** The event is processed and the events in `more` are queued; nothing else happened to the outbox. */
  predicate Consumed(c: Case, c': Case, k: Key, more: map<Key, Outbox>) {
    k in c.events && c'.events == c.events[k := c.events[k].(processed := true)] + more
  }

  /** The record moved on by the interpreter's step on this input, and unless it is complete a new ready event is queued. */
  ghost predicate Stepped(c: Case, c': Case, k: Key, outside: Outside, now: nat) {
    && c'.version == c.version + 1
    && Consumed(c, c', k, if c'.core.current == [] then map[] else map[ReadyEvent(c.version + 1) := Outbox(now, false, false)])
    && Step(c.d, c.core, outside) == Some(c'.core) && c'.checkpoints == c.checkpoints + [c'.core]
    && c'.status == (if c'.core.current == [] then Completed else Queued)
    && c'.error == c.error && c'.token.None? && c'.lease.None? && c'.deadline == c.deadline
  }

  /** The execution ended on the record it had, and its pending rows were cancelled, `except` apart. */
  ghost predicate EndedEarly(c: Case, c': Case, status: Status, error: Failure, except: set<At>) {
    && c'.status == status && c'.error == Some(error) && c'.core == c.core && c'.checkpoints == c.checkpoints
    && c'.token.None? && c'.lease.None? && c'.deadline == c.deadline && c'.version == c.version + 1
    && c'.waits.Keys == c.waits.Keys && c'.calls.Keys == c.calls.Keys
    && (forall at | at in c.waits && at !in except ::
          c'.waits[at] == if c.waits[at].status == WaitPending
                          then c.waits[at].(status := WaitCancelled, resolution := Some(Cancelled)) else c.waits[at])
    && (forall at | at in c.calls && at !in except ::
          c'.calls[at] == if c.calls[at].status == CallPending then c.calls[at].(status := CallCancelled) else c.calls[at])
  }

  /** The holder of event `k` ended the execution early. */
  ghost predicate EndedBy(c: Case, c': Case, k: Key, status: Status, error: Failure, except: set<At>) {
    EndedEarly(c, c', status, error, except) && Consumed(c, c', k, map[])
  }

  /** The execution waits on the record it had, for the event `wake` at `time`. */
  ghost predicate Suspends(c: Case, c': Case, k: Key, wake: Key, time: nat) {
    && c'.status == Waiting && c'.error == c.error && c'.core == c.core && c'.checkpoints == c.checkpoints
    && c'.token.None? && c'.lease.None? && c'.deadline == c.deadline && c'.version == c.version + 1
    && Consumed(c, c', k, map[wake := Outbox(time, false, false)])
  }

  lemma CloseOutcome(c: Case, k: Key, status: Status, error: Failure)
    requires k in c.events
    ensures EndedBy(c, Done(Close(c, status, error), k), k, status, error, {})
  {
  }

  lemma CloseButOneWait(c: Case, at: At, w: Wait, k: Key, error: Failure)
    requires at in c.waits && w.status != WaitPending && k in c.events
    ensures var c' := Fail(c.(waits := c.waits[at := w]), k, error);
            EndedBy(c, c', k, Failed, error, {at}) && c'.waits[at] == w
  {
  }

  lemma CloseButOneCall(c: Case, at: At, call: Call, k: Key, error: Failure)
    requires at in c.calls && call.status != CallPending && at !in c.waits && k in c.events
    ensures var c' := Fail(c.(calls := c.calls[at := call]), k, error);
            EndedBy(c, c', k, Failed, error, {at}) && c'.calls[at] == call
  {
  }

  lemma RecordOutcome(c: Case, k: Key, y: Core, now: nat)
    requires k in c.events
    ensures var c' := Record(c, k, y, now);
            && c'.core == y && c'.checkpoints == c.checkpoints + [y] && c'.version == c.version + 1
            && c'.status == (if y.current == [] then Completed else Queued)
            && c'.error == c.error && c'.token.None? && c'.lease.None? && c'.deadline == c.deadline
            && c'.waits == c.waits && c'.calls == c.calls
            && Consumed(c, c', k, if y.current == [] then map[] else map[ReadyEvent(c.version + 1) := Outbox(now, false, false)])
  {
  }

  lemma FinishOutcome(c: Case, c1: Case, k: Key, id: Id, outside: Outside, now: nat)
    requires Ready(c.d, c.core) != [] && id == Ready(c.d, c.core)[0] && id in NodeIds(c.d)
    requires c1.d == c.d && c1.core == c.core && c1.checkpoints == c.checkpoints && c1.error == c.error && c1.deadline == c.deadline
    requires RunNode(c.d, c.core, id, outside).Some? && k in c.events && c1.events == c.events && c1.version == c.version
    ensures var c' := Finish(c1, k, id, outside, now); Stepped(c, c', k, outside, now) && c'.waits == c1.waits && c'.calls == c1.calls
  {
    hide RunNode, Ready, Record;
    RecordOutcome(c1, k, RunNode(c.d, c.core, id, outside).value, now);
  }

  /** The row that a wait node leaves when it is first reached. */
  function FirstWait(c: Case, n: Node, now: nat): Wait {
    var due := if n.kind == Timer then Some(now + DelayOf(n)) else None;
    var expires := if n.kind == Timer then now + DelayOf(n) else if now + n.timeout < c.deadline then now + n.timeout else c.deadline;
    Wait(WaitContent(At(n.id, c.core.steps), n.kind, c.core.state, due, expires),
         if n.kind == Event && "event_key" in n.config then Some(n.config["event_key"]) else None, WaitPending, None, None)
  }

  lemma OpenWaitOutcome(c: Case, k: Key, n: Node, now: nat)
    requires k in c.events
    ensures var c', at, w := OpenWait(c, k, n, now), At(n.id, c.core.steps), FirstWait(c, n, now);
            && Suspends(c, c', k, WaitWake(at), w.content.expires) && c'.calls == c.calls && c'.waits == c.waits[at := w]
  {
  }

  /** What an advance does at a wait node. */
  ghost predicate WaitOutcome(c: Case, c': Case, k: Key, n: Node, now: nat) {
    var at := At(n.id, c.core.steps);
    if at !in c.waits then
      if n.kind == Timer && now + DelayOf(n) >= c.deadline then EndedBy(c, c', k, Failed, WaitExceedsDeadline, {})
      else
        && Suspends(c, c', k, WaitWake(at), FirstWait(c, n, now).content.expires)
        && c'.calls == c.calls && c'.waits == c.waits[at := FirstWait(c, n, now)]
    else if c.waits[at].status == WaitPending then
      if n.kind == Timer then
        && Stepped(c, c', k, Response(Elapsed, None), now) && c'.calls == c.calls
        && c'.waits == c.waits[at := c.waits[at].(status := WaitResolved, resolution := Some(Elapsed))]
      else
        && EndedBy(c, c', k, Failed, WaitTimedOut, {at})
        && c'.waits[at] == c.waits[at].(status := WaitExpired, resolution := Some(Expired))
    else
      && c.waits[at].resolution.Some? && c'.waits == c.waits && c'.calls == c.calls
      && Stepped(c, c', k, Response(c.waits[at].resolution.value, c.waits[at].payload), now)
  }

  /** A claimed wake-up of a timer is for a timer that came due. */
  lemma TimerIsDue(c: Case, id: Id, k: Key, now: nat)
    requires Blocked(c, k, id, now) && NodeAt(c.d, id).kind in WAIT_KINDS && Here(c) in c.waits && c.waits[Here(c)].status == WaitPending
    requires TimersFit(c)
    ensures c.waits[Here(c)].content.expires <= now
    ensures NodeAt(c.d, id).kind == Timer ==> c.waits[Here(c)].content.due == Some(c.waits[Here(c)].content.expires)
    ensures c.waits[Here(c)].content.kind == NodeAt(c.d, id).kind
  {
    hide CaseInv, Sound, Refines, Events, Rows, Live, Ready;
    RowKind(c, id, now);
    LiveWait(c, now);
    ClaimedIsDue(c, k, now);
  }

  /** A timer's expiry is its due time. */
  predicate TimersFit(c: Case) {
    forall at | at in c.waits && c.waits[at].content.kind == Timer :: c.waits[at].content.due == Some(c.waits[at].content.expires)
  }

  lemma AtWaitOutcome(c: Case, k: Key, id: Id, now: nat)
    requires Blocked(c, k, id, now) && NodeAt(c.d, id).kind in WAIT_KINDS && TimersFit(c)
    ensures WaitOutcome(c, AtWait(c, k, NodeAt(c.d, id), now), k, NodeAt(c.d, id), now)
  {
    hide CaseInv, RunNode, Finish, Ready, Sound, Refines, Events, Rows, Last, OpenWait, Close, Done, Served, Live, DelayOf, Step,
      EndedBy, Stepped, Suspends, FirstWait, TimersFit;
    var n, at := NodeAt(c.d, id), Here(c);
    RowKind(c, id, now);
    OnlyLiveIsLast(c, now);
    SoundIsServed(c);
    if at !in c.waits {
      if n.kind == Timer && now + DelayOf(n) >= c.deadline {
        CloseOutcome(c, k, Failed, WaitExceedsDeadline);
      } else {
        OpenWaitOutcome(c, k, n, now);
      }
    } else {
      var w := c.waits[at];
      if w.status == WaitPending {
        TimerIsDue(c, id, k, now);
        if n.kind == Timer {
          var elapsed := w.(status := WaitResolved, resolution := Some(Elapsed));
          ServedRuns(c.d, c.core, id, Response(Elapsed, None));
          FinishOutcome(c, c.(waits := c.waits[at := elapsed]), k, id, Response(Elapsed, None), now);
        } else {
          CloseButOneWait(c, at, w.(status := WaitExpired, resolution := Some(Expired)), k, WaitTimedOut);
        }
      } else {
        ServedRuns(c.d, c.core, id, Response(w.resolution.value, w.payload));
        FinishOutcome(c, c, k, id, Response(w.resolution.value, w.payload), now);
      }
    }
  }

  function Sooner(a: nat, b: nat): nat {
    if a < b then a else b
  }

  lemma OpenCallOutcome(c: Case, k: Key, n: Node, child: EId, now: nat)
    requires k in c.events
    ensures var c', at, expires := OpenCall(c, k, n, child, now), At(n.id, c.core.steps), Sooner(now + n.timeout, c.deadline);
            && Suspends(c, c', k, CallTimeout(at), expires) && c'.waits == c.waits
            && c'.calls == c.calls[at := Call(child, CallPending, None, expires)]
  {
  }

  /** What an advance does at a subworkflow node. */
  ghost predicate CallOutcome(c: Case, c': Case, k: Key, n: Node, now: nat, child: Option<EId>) {
    var at := At(n.id, c.core.steps);
    if at !in c.calls then
      if child.None? then EndedBy(c, c', k, Failed, SubworkflowUnavailable, {})
      else
        && Suspends(c, c', k, CallTimeout(at), Sooner(now + n.timeout, c.deadline)) && c'.waits == c.waits
        && c'.calls == c.calls[at := Call(child.value, CallPending, None, Sooner(now + n.timeout, c.deadline))]
    else if c.calls[at].status == CallPending then
      EndedBy(c, c', k, Failed, SubworkflowTimedOut, {at}) && c'.calls[at] == c.calls[at].(status := CallTimedOut)
    else if c.calls[at].status == CallCompleted then
      && c.calls[at].result.Some? && c'.waits == c.waits && c'.calls == c.calls
      && Stepped(c, c', k, Result(c.calls[at].result.value), now)
    else EndedBy(c, c', k, Failed, SubworkflowEnded, {})
  }

  lemma AtCallOutcome(c: Case, k: Key, id: Id, now: nat, env: Env)
    requires Blocked(c, k, id, now) && NodeAt(c.d, id).kind == Subworkflow && FinalsAgree(c, env.finals)
    ensures CallOutcome(c, AtCall(c, k, NodeAt(c.d, id), now, env), k, NodeAt(c.d, id), now, env.child)
  {
    hide CaseInv, RunNode, Finish, Ready, Sound, Refines, Events, Rows, Last, OpenCall, Close, Done, Served, Live, Step,
      EndedBy, Stepped, Suspends, Sooner;
    var n, at := NodeAt(c.d, id), Here(c);
    RowKind(c, id, now);
    OnlyLiveIsLast(c, now);
    SoundIsServed(c);
    LiveWait(c, now);
    ClaimedIsDue(c, k, now);
    if at !in c.calls {
      if env.child.None? {
        CloseOutcome(c, k, Failed, SubworkflowUnavailable);
      } else {
        OpenCallOutcome(c, k, n, env.child.value, now);
      }
    } else {
      var call := c.calls[at];
      if call.status == CallPending {
        CloseButOneCall(c, at, call.(status := CallTimedOut), k, SubworkflowTimedOut);
      } else if call.status != CallCompleted {
        CloseOutcome(c, k, Failed, SubworkflowEnded);
      } else {
        ServedRuns(c.d, c.core, id, Result(env.finals[call.child]));
        FinishOutcome(c, c, k, id, Result(env.finals[call.child]), now);
      }
    }
  }

  /** What an advance does once the checks before the node are passed. */
  ghost predicate NodeOutcome(c: Case, c': Case, k: Key, id: Id, now: nat, child: Option<EId>)
    requires id in NodeIds(c.d)
  {
    var n := NodeAt(c.d, id);
    if n.kind == Subworkflow then CallOutcome(c, c', k, n, now, child)
    else if n.kind in {Timer, Event, Approval, RequestInformation} then WaitOutcome(c, c', k, n, now)
    else Stepped(c, c', k, Nothing, now) && c'.waits == c.waits && c'.calls == c.calls
  }

  lemma AtNodeOutcome(c: Case, k: Key, id: Id, now: nat, env: Env)
    requires CaseInv(c, now) && c.status == Running && k == Live(c) && Handed(c, k) && c.core.steps < c.d.maxSteps
    requires Ready(c.d, c.core) != [] && id == Ready(c.d, c.core)[0] && id in NodeIds(c.d)
    requires FinalsAgree(c, env.finals) && TimersFit(c)
    ensures NodeOutcome(c, AtNode(c, k, id, now, env), k, id, now, env.child)
  {
    hide CaseInv, RunNode, Finish, Ready, Live, Sound, AtWait, AtCall, FinalsAgree, WaitOutcome, CallOutcome, Stepped, Served, TimersFit;
    var n := NodeAt(c.d, id);
    OnlyLiveIsLast(c, now);
    if n.kind in WAIT_KINDS + {Subworkflow} {
      assert id in Ready(c.d, c.core);
      BlockingIsAlone(c, id);
      if n.kind == Subworkflow {
        AtCallOutcome(c, k, id, now, env);
      } else {
        AtWaitOutcome(c, k, id, now);
      }
    } else {
      SoundIsServed(c);
      ServedKind(c.d, id);
      ServedRuns(c.d, c.core, id, Nothing);
      FinishOutcome(c, c, k, id, Nothing, now);
    }
  }

  /** The checks of an advance, in their order, and then the node. */
  ghost predicate Outcome(c: Case, c': Case, k: Key, now: nat, stopped: bool, refused: bool, child: Option<EId>) {
    if stopped then EndedBy(c, c', k, Stopped, ParentGone, {})
    else if c.deadline <= now then EndedBy(c, c', k, Failed, DeadlineExceeded, {})
    else if c.core.steps >= c.d.maxSteps then EndedBy(c, c', k, Failed, StepLimitExceeded, {})
    else if Ready(c.d, c.core) == [] then EndedBy(c, c', k, Failed, NoReadyNode, {})
    else if refused then EndedBy(c, c', k, Failed, PolicyRefused, {})
    else Ready(c.d, c.core)[0] in NodeIds(c.d) && NodeOutcome(c, c', k, Ready(c.d, c.core)[0], now, child)
  }

  lemma CaseOutcome(c: Case, k: Key, token: nat, now: nat, stopped: bool, env: Env)
    requires CaseInv(c, now) && HoldsClaim(c, k, token) && Handed(c, k) && (k == ParentStopped ==> stopped)
    requires FinalsAgree(c, env.finals) && TimersFit(c)
    ensures Outcome(c, AdvanceCase(c, k, token, now, stopped, env), k, now, stopped, env.refused, env.child)
  {
    hide CaseInv, Ready, Live, AtNode, Close, Done, FinalsAgree, Chosen, EndedBy, NodeOutcome, TimersFit;
    forall status, error ensures EndedBy(c, Done(Close(c, status, error), k), k, status, error, {}) {
      CloseOutcome(c, k, status, error);
    }
    if !stopped && c.deadline > now && c.core.steps < c.d.maxSteps && Ready(c.d, c.core) != [] {
      ClaimIsLive(c, k, token, now);
      ChosenIsFirst(c, k, now);
      ReadyInGraph(c);
      if !env.refused {
        AtNodeOutcome(c, k, Ready(c.d, c.core)[0], now, env);
      }
    }
  }
}
