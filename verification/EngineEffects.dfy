/** What the transactions of the engine do in every reachable state, and what they do to a run state. */
module EngineEffects {
  import opened Ids
  import opened Definitions
  import opened Interpreter
  import opened InterpreterProofs
  import opened StepEffects
  import opened Engine
  import opened EngineCases
  import opened EngineLinks
  import opened EngineSteps
  import opened EngineTheorems
  import opened EngineResults
  import opened EngineDeadlines
  import opened EngineOutcomes

  // ---------------------------------------------------------------- advance

  /** The parent's call that made this execution was cancelled or timed out. */
  predicate ParentGaveUp(s: Sys, e: EId)
    requires e in s.cases
  {
    var link := s.cases[e].parent;
    && link.Some? && link.value.parent in s.cases && link.value.at in s.cases[link.value.parent].calls
    && s.cases[link.value.parent].calls[link.value.at].status in {CallCancelled, CallTimedOut}
  }

  /** The worker has the current claim, and its event is not processed. */
  predicate HasClaim(c: Case, k: Key, token: nat) {
    && k in c.events && c.events[k].dispatched && !c.events[k].processed && k != Finalize
    && c.status == Running && c.token == Some(token)
  }

  lemma TimersOf(c: Case, now: nat)
    requires InTime(c, now)
    ensures TimersFit(c)
  {
  }

  lemma AdvanceDoes(s: Sys, t: Transaction)
    requires SysInv(s) && AllInTime(s) && t.Advance? && t.e in s.cases && HasClaim(s.cases[t.e], t.k, t.token)
    ensures var s' := Next(s, t);
            var child := if t.childDefinition.Some? && Served(t.childDefinition.value) then Some(s.nextId) else None;
            && t.e in s'.cases
            && Outcome(s.cases[t.e], s'.cases[t.e], t.k, s.now, ParentGaveUp(s, t.e), t.refused, child)
  {
    hide SysInv, CaseInv, Linked, Reasons, Commit, AdvanceCase, Served, Finals, Advances, FinalsAgree, Outcome, InTime, TimersFit;
    var c := s.cases[t.e];
    var child := if t.childDefinition.Some? && Served(t.childDefinition.value) then Some(s.nextId) else None;
    var env := Env(t.refused, child, Finals(s));
    LinkedOf(s, t.e);
    TokenBound(s, t.e);
    if t.k == ParentStopped {
      StopIsKnown(s, t.e);
    }
    FinalsOf(s, t.e);
    TimersOf(c, s.now);
    AdvanceAdvances(c, t.k, t.token, s.now, IsStopped(s, t.e), env);
    AdvanceWrites(s, t, Advanced(s, t), child);
    CaseOutcome(c, t.k, t.token, s.now, IsStopped(s, t.e), env);
  }

  /**
   * What an advance does in every reachable state: with the current claim, the checks in their
   * order and then the node decide; without it nothing happens.
   */
  lemma AdvanceOutcome(ts: seq<Transaction>, t: Transaction)
    requires t.Advance? && t.e in History(ts).cases
    ensures var s, s' := History(ts), Next(History(ts), t);
            var child := if t.childDefinition.Some? && Served(t.childDefinition.value) then Some(s.nextId) else None;
            if HasClaim(s.cases[t.e], t.k, t.token)
            then t.e in s'.cases && Outcome(s.cases[t.e], s'.cases[t.e], t.k, s.now, ParentGaveUp(s, t.e), t.refused, child)
            else s' == s
  {
    hide History, SysInv, AllInTime, Next, Outcome, Served;
    HistoryInvariant(ts);
    HistoryInTime(ts);
    if HasClaim(History(ts).cases[t.e], t.k, t.token) {
      AdvanceDoes(History(ts), t);
    } else {
      NoClaimNothing(History(ts), t);
    }
  }

  lemma NoClaimNothing(s: Sys, t: Transaction)
    requires t.Advance? && t.e in s.cases && !HasClaim(s.cases[t.e], t.k, t.token)
    ensures Next(s, t) == s
  {
    hide Commit, Finals, IsStopped, Served;
    CommitNothing(s, t.e);
  }

  /** A call that an advance opened has a child of the given definition, started on the parent's state. */
  lemma CallHasChild(s: Sys, t: Transaction, d: Definition)
    requires SysInv(s) && AllInTime(s) && t.Advance? && t.e in s.cases && t.childDefinition == Some(d)
    requires t.e in Next(s, t).cases && Next(s, t).cases[t.e].calls.Keys != s.cases[t.e].calls.Keys
    ensures var s', c := Next(s, t), s.cases[t.e];
            && s.nextId !in s.cases && s.nextId in s'.cases && s'.cases[s.nextId].d == d
            && s'.cases[s.nextId].core == Fresh(d, c.core.state) && s'.cases[s.nextId].status == Queued
            && s'.cases[s.nextId].parent == Some(Link(t.e, Here(c))) && s'.cases[s.nextId].deadline == s.now + d.maxDuration
  {
    hide SysInv, CaseInv, Linked, Reasons, Commit, AdvanceCase, Served, Finals, Advances, FinalsAgree, InTime, IsStopped, Fresh, Here;
    var c := s.cases[t.e];
    if !HasClaim(c, t.k, t.token) {
      NoClaimNothing(s, t);
    } else {
      var child := if Served(d) then Some(s.nextId) else None;
      var env := Env(t.refused, child, Finals(s));
      LinkedOf(s, t.e);
      TokenBound(s, t.e);
      if t.k == ParentStopped {
        StopIsKnown(s, t.e);
      }
      if IsStopped(s, t.e) {
        StoppedHasParent(s, t.e);
      }
      FinalsOf(s, t.e);
      AdvanceAdvances(c, t.k, t.token, s.now, IsStopped(s, t.e), env);
      var c' := Advanced(s, t);
      AdvanceWrites(s, t, c', child);
      FreshId(s);
      NewChildRow(s, t.e, c', d, Terminal(c') && !Terminal(c));
    }
  }

  lemma NewChildRow(s: Sys, e: EId, c': Case, d: Definition, settle: bool)
    requires e in s.cases && c'.calls.Keys != s.cases[e].calls.Keys && s.nextId !in s.cases
    ensures var born := ChildOf(s, e, c', Some(d));
            var s' := Commit(s, e, c', born, settle);
            && s.nextId in s'.cases
            && var x := s'.cases[s.nextId];
               && x.d == d && x.core == Fresh(d, s.cases[e].core.state) && x.status == Queued
               && x.parent == Some(Link(e, Here(s.cases[e]))) && x.deadline == s.now + d.maxDuration
  {
    hide Dropped, Fresh, Here;
  }

  /** A timer waits for the number of seconds in its configuration. */
  lemma DelayIsConfigured(d: Definition, id: Id)
    requires Executable(d) && id in NodeIds(d) && NodeAt(d, id).kind == Timer
    ensures var n := NodeAt(d, id);
            "delay_seconds" in n.config && n.config["delay_seconds"].Int? && DelayOf(n) == n.config["delay_seconds"].i > 0
  {
    hide Executable, WellFormed, EdgeRule, NodesById;
    WellFormedOf(d);
    RuleOf(d, id);
  }

  // ---------------------------------------------------------------- after the deadline

  lemma OutcomeFrozen(c: Case, c': Case, k: Key, now: nat, stopped: bool, refused: bool, child: Option<EId>)
    requires Outcome(c, c', k, now, stopped, refused, child) && c.deadline <= now
    ensures c'.core == c.core && c'.deadline == c.deadline && Terminal(c')
  {
  }

  lemma FrozenStep(s: Sys, t: Transaction, e: EId)
    requires SysInv(s) && AllInTime(s) && e in s.cases && s.cases[e].deadline <= s.now
    ensures var s' := Next(s, t); e in s'.cases && s'.cases[e].core == s.cases[e].core && s'.cases[e].deadline == s.cases[e].deadline
  {
    hide SysInv, AllInTime, Commit, AdvanceCase, ClaimCase, RespondCase, CancelCase, Finals, IsStopped, Served, Advanced, ChildOf, NewCase,
      Outcome, Done, HasClaim, Claimable;
    FreshId(s);
    match t
    case Claim(f, k, lease) =>
      if f == e {
        ClaimFields(s.cases[e], k, s.now, s.nextToken, lease);
        CommitSelf(s, e, ClaimCase(s.cases[e], k, s.now, s.nextToken, lease), None, false);
      } else if f in s.cases {
        CommitOthers(s, f, ClaimCase(s.cases[f], k, s.now, s.nextToken, lease), None, false, e);
      }
    case Advance(f, k, token, _, d) =>
      if f == e {
        if HasClaim(s.cases[e], k, token) {
          AdvanceDoes(s, t);
          var child := if d.Some? && Served(d.value) then Some(s.nextId) else None;
          OutcomeFrozen(s.cases[e], Next(s, t).cases[e], k, s.now, ParentGaveUp(s, e), t.refused, child);
        } else {
          NoClaimNothing(s, t);
        }
      } else if f in s.cases {
        var c' := Advanced(s, t);
        CommitOthers(s, f, c', ChildOf(s, f, c', d), Terminal(c') && !Terminal(s.cases[f]), e);
      }
    case Respond(f, at, reply) =>
      if f == e {
        RespondFields(s.cases[e], at, reply, s.now);
        CommitSelf(s, e, RespondCase(s.cases[e], at, reply, s.now), None, false);
      } else if f in s.cases {
        CommitOthers(s, f, RespondCase(s.cases[f], at, reply, s.now), None, false, e);
      }
    case Cancel(f) =>
      if f == e {
        CancelFields(s.cases[e], s.now);
        CommitSelf(s, e, CancelCase(s.cases[e], s.now), None, false);
      } else if f in s.cases {
        CommitOthers(s, f, CancelCase(s.cases[f], s.now), None, false, e);
      }
    case FinalizeCancelled(f) =>
      if f == e {
        DoneFields(s.cases[e], Finalize);
        CommitSelf(s, e, Done(s.cases[e], Finalize), None, s.cases[e].status == Stopped);
      } else if f in s.cases {
        CommitOthers(s, f, Done(s.cases[f], Finalize), None, s.cases[f].status == Stopped, e);
      }
    case _ =>
  }

  lemma ClaimFields(c: Case, k: Key, now: nat, token: nat, lease: nat)
    ensures var c' := ClaimCase(c, k, now, token, lease); c'.core == c.core && c'.deadline == c.deadline && c'.parent == c.parent
  {
  }

  lemma RespondFields(c: Case, at: At, reply: Reply, now: nat)
    ensures var c' := RespondCase(c, at, reply, now); c'.core == c.core && c'.deadline == c.deadline && c'.parent == c.parent
  {
    hide ReplyAccepted;
  }

  lemma CancelFields(c: Case, now: nat)
    ensures var c' := CancelCase(c, now); c'.core == c.core && c'.deadline == c.deadline && c'.parent == c.parent
  {
    hide CancelWaits, CancelCalls;
  }

  lemma DoneFields(c: Case, k: Key)
    ensures var c' := Done(c, k); c'.core == c.core && c'.deadline == c.deadline && c'.parent == c.parent
  {
  }

  /** Once the deadline has passed, nothing that happens moves the execution's record any more. */
  lemma {:induction false} DeadlineFreezes(ts: seq<Transaction>, more: seq<Transaction>, e: EId)
    requires e in History(ts).cases && History(ts).cases[e].deadline <= History(ts).now
    ensures var h := History(ts + more);
            e in h.cases && h.cases[e].core == History(ts).cases[e].core && h.cases[e].deadline == History(ts).cases[e].deadline
    decreases |more|
  {
    hide History, Next, SysInv, AllInTime, Lasting;
    if more == [] {
      assert ts + more == ts;
    } else {
      var n := |more| - 1;
      var before, all := ts + more[..n], ts + more;
      assert all[..|all| - 1] == before && all[|all| - 1] == more[n];
      HistorySnoc(all);
      DeadlineFreezes(ts, more[..n], e);
      HistoryInvariant(before);
      HistoryInTime(before);
      HistoryProgress(ts, more[..n]);
      FrozenStep(History(before), more[n], e);
    }
  }

  lemma ClaimableIsFree(c: Case, k: Key, now: nat)
    requires Claimable(c, k, now)
    ensures Free(c, k, now)
  {
  }

  lemma DispatchedClaim(s: Sys, e: EId, k: Key, lease: nat)
    requires SysInv(s) && e in s.cases && Free(s.cases[e], k, s.now)
    ensures var s' := Next(s, Claim(e, k, lease));
            && s'.now == s.now && e in s'.cases && HasClaim(s'.cases[e], k, s.nextToken)
            && s'.cases[e].core == s.cases[e].core && s'.cases[e].deadline == s.cases[e].deadline
  {
    hide SysInv, Commit;
    ClaimOutcome(s, e, k, lease);
  }

  /**
   * No execution is beyond reach: in every reachable state, once enough time has passed for the
   * deadline and any lease, one claim of its wake event and one advance end it where it stands.
   */
  lemma DeadlineEnds(ts: seq<Transaction>, e: EId, wait: nat, lease: nat, refused: bool, d: Option<Definition>)
    requires e in History(ts).cases && !Terminal(History(ts).cases[e])
    requires var s, c := History(ts), History(ts).cases[e];
             c.deadline <= s.now + wait && (c.lease.Some? ==> c.lease.value < s.now + wait)
    ensures var s, c := History(ts), History(ts).cases[e];
            var h := History(ts + [Tick(wait), Claim(e, Live(c), lease), Advance(e, Live(c), s.nextToken, refused, d)]);
            e in h.cases && Terminal(h.cases[e]) && h.cases[e].core == c.core
  {
    hide History, SysInv, Commit, Claimable, Free, Live, HasClaim, Outcome, Served, ParentGaveUp;
    var s, c, k := History(ts), History(ts).cases[e], Live(History(ts).cases[e]);
    var ticked := ts + [Tick(wait)];
    var claimed := ticked + [Claim(e, k, lease)];
    var t := Advance(e, k, s.nextToken, refused, d);
    var ended := claimed + [t];
    assert ended == ts + [Tick(wait), Claim(e, k, lease), t];
    HistorySnoc(ticked);
    HistorySnoc(claimed);
    HistorySnoc(ended);
    WakesByDeadline(ts, e, s.now + wait);
    ClaimableIsFree(c, k, s.now + wait);
    HistoryInvariant(ticked);
    DispatchedClaim(History(ticked), e, k, lease);
    AdvanceOutcome(claimed, t);
    var child := if d.Some? && Served(d.value) then Some(History(claimed).nextId) else None;
    OutcomeFrozen(History(claimed).cases[e], History(ended).cases[e], k, s.now + wait,
                  ParentGaveUp(History(claimed), e), refused, child);
  }

  // ---------------------------------------------------------------- cancellation and responses

  /** A caller's cancellation ends an idle execution and queues its settlement; others it leaves alone. */
  lemma CancelOutcome(ts: seq<Transaction>, e: EId)
    requires e in History(ts).cases
    ensures var s, s' := History(ts), Next(History(ts), Cancel(e));
            if s.cases[e].status in {Queued, Waiting} then
              && e in s'.cases && EndedEarly(s.cases[e], s'.cases[e], Stopped, CancelledByCaller, {})
              && Finalize in s'.cases[e].events && s'.cases[e].events[Finalize] == Outbox(s.now, false, false)
            else s' == s
  {
    hide History, SysInv, Commit, EndedEarly;
    HistoryInvariant(ts);
    var s := History(ts);
    var c := s.cases[e];
    if c.status in {Queued, Waiting} {
      CancelRows(c, s.now);
      CancelFields(c, s.now);
      CommitSelf(s, e, CancelCase(c, s.now), None, false);
    } else {
      CommitNothing(s, e);
    }
  }

  lemma CancelRows(c: Case, now: nat)
    requires c.status in {Queued, Waiting}
    ensures var c' := CancelCase(c, now);
            && EndedEarly(c, c', Stopped, CancelledByCaller, {})
            && Finalize in c'.events && c'.events[Finalize] == Outbox(now, false, false)
  {
  }

  /** The response fits the wait: its kind, its exact content, in time, and the execution waits for it. */
  predicate Fits(c: Case, at: At, reply: Reply, now: nat) {
    && at in c.waits && c.waits[at].status == WaitPending && c.status == Waiting
    && reply.kind == c.waits[at].content.kind && reply.submitted == c.waits[at].content && now < c.waits[at].content.expires
    && (reply.kind == Approval ==> reply.resolution in {Granted, Refused} && reply.payload.None?)
    && (reply.kind == Event ==> reply.eventKey.Some? && reply.eventKey == c.waits[at].eventKey)
    && (reply.kind in {Event, RequestInformation} ==> reply.resolution == Received && reply.payload.Some?)
    && reply.kind != Timer
  }

  lemma FitsIsAccepted(c: Case, at: At, reply: Reply, now: nat)
    requires CaseInv(c, now)
    ensures Fits(c, at, reply, now) <==> ReplyAccepted(c, at, reply, now)
  {
    hide Sound, Refines, Events, Phase, Awake, OnlyLive;
    if at in c.waits {
      assert WaitFits(c, at);
    }
  }

  /** A response that fits settles its wait, retires the wake event and queues a resume event; any other changes nothing. */
  lemma RespondOutcome(ts: seq<Transaction>, e: EId, at: At, reply: Reply)
    requires e in History(ts).cases
    ensures var s, s' := History(ts), Next(History(ts), Respond(e, at, reply));
            var c := s.cases[e];
            if Fits(c, at, reply, s.now) then
              && e in s'.cases && s'.cases[e].status == Waiting && s'.cases[e].core == c.core
              && s'.cases[e].waits
                 == c.waits[at := c.waits[at].(status := WaitResolved, resolution := Some(reply.resolution), payload := reply.payload)]
              && WaitWake(at) in s'.cases[e].events && s'.cases[e].events[WaitWake(at)].processed
              && WaitResume(at) in s'.cases[e].events && s'.cases[e].events[WaitResume(at)] == Outbox(s.now, false, false)
            else s' == s
  {
    hide History, SysInv, Commit, CaseInv, Fits;
    HistoryInvariant(ts);
    var s := History(ts);
    var c := s.cases[e];
    LinkedOf(s, e);
    FitsIsAccepted(c, at, reply, s.now);
    if Fits(c, at, reply, s.now) {
      WaitHasWake(c, at, s.now);
      RespondFields(c, at, reply, s.now);
      CommitSelf(s, e, RespondCase(c, at, reply, s.now), None, false);
    } else {
      CommitNothing(s, e);
    }
  }

  lemma WaitHasWake(c: Case, at: At, now: nat)
    requires CaseInv(c, now) && at in c.waits && c.waits[at].status == WaitPending
    ensures WaitWake(at) in c.events
  {
    hide Sound, Refines, Events, Phase, OnlyLive;
    assert WaitFits(c, at);
  }

  // ---------------------------------------------------------------- the end of a child

  /** The call as the end of its child leaves it. */
  function SettledCall(call: Call, child: Case): Call {
    match child.status
    case Completed => call.(status := CallCompleted, result := Some(child.core.state))
    case Stopped => call.(status := CallCancelled, result := None)
    case _ => call.(status := CallFailed, result := None)
  }

  lemma SettleReaches(s: Sys, e: EId, c': Case, child: Option<Case>, link: Link)
    requires SysInv(s) && e in s.cases && c'.parent == s.cases[e].parent == Some(link) && Terminal(c')
    requires HasCall(s, link) && s.cases[link.parent].calls[link.at].status == CallPending
    ensures var s' := Commit(s, e, c', child, true);
            && HasCall(s', link)
            && s'.cases[link.parent].calls[link.at] == SettledCall(s.cases[link.parent].calls[link.at], c')
            && CallResume(link.at) in s'.cases[link.parent].events
            && s'.cases[link.parent].events[CallResume(link.at)] == Outbox(s.now, false, false)
  {
    hide SysInv, CaseInv, Reasons, CallLinked, OriginLinked, Commit, Dropped;
    LinkedOf(s, e);
    FreshId(s);
    DroppedAreChildren(s, e, c');
    CommitWrites(s, e, c', child, true);
    assert Commit(s, e, c', child, true).cases[link.parent] == After(s, e, c', child, true, link.parent);
  }

  /**
   * The transaction that ends a child settles the call of its parent, if it is still pending, with
   * the child's own outcome and final state, and queues one resume event; so does the
   * finalization of a child that its caller cancelled.
   */
  lemma ChildEndReachesParent(ts: seq<Transaction>, t: Transaction, e: EId, link: Link)
    requires e in History(ts).cases && History(ts).cases[e].parent == Some(link)
    requires HasCall(History(ts), link) && History(ts).cases[link.parent].calls[link.at].status == CallPending
    requires || (&& t.Advance? && t.e == e && !Terminal(History(ts).cases[e])
                 && e in Next(History(ts), t).cases && Terminal(Next(History(ts), t).cases[e]))
             || (t == FinalizeCancelled(e) && FinalizeDue(History(ts).cases[e], History(ts).now))
    ensures var s, s' := History(ts), Next(History(ts), t);
            && e in s'.cases && HasCall(s', link)
            && s'.cases[link.parent].calls[link.at] == SettledCall(s.cases[link.parent].calls[link.at], s'.cases[e])
            && CallResume(link.at) in s'.cases[link.parent].events
            && s'.cases[link.parent].events[CallResume(link.at)] == Outbox(s.now, false, false)
  {
    hide History, SysInv, CaseInv, Linked, Commit, AdvanceCase, Served, Finals, IsStopped, Advances, FinalsAgree;
    hide Reasons, Done, ChildOf, HasCall;
    var s := History(ts);
    HistoryInvariant(ts);
    LinkedOf(s, e);
    var c := s.cases[e];
    if t.Advance? {
      if !HasClaim(c, t.k, t.token) {
        NoClaimNothing(s, t);
      } else {
        var child := if t.childDefinition.Some? && Served(t.childDefinition.value) then Some(s.nextId) else None;
        TokenBound(s, e);
        if t.k == ParentStopped {
          StopIsKnown(s, e);
        }
        FinalsOf(s, e);
        AdvanceAdvances(c, t.k, t.token, s.now, IsStopped(s, e), Env(t.refused, child, Finals(s)));
        var c' := Advanced(s, t);
        AdvanceWrites(s, t, c', child);
        AdvancesParent(c, c', child);
        SettleReaches(s, e, c', ChildOf(s, e, c', t.childDefinition), link);
      }
    } else {
      FinalizeIsStopped(c, s.now);
      DoneEnd(c, Finalize);
      CommitSelf(s, e, Done(c, Finalize), None, true);
      SettleReaches(s, e, Done(c, Finalize), None, link);
    }
  }

  lemma AdvancesParent(c: Case, c': Case, child: Option<EId>)
    requires Advances(c, c', child)
    ensures c'.parent == c.parent
  {
    hide Reasons, SettledKept;
  }

  lemma DoneEnd(c: Case, k: Key)
    ensures Done(c, k).parent == c.parent && Done(c, k).status == c.status
  {
  }

  // ---------------------------------------------------------------- the run state

  /** What the rows say happened to the run state between two checkpoints, the second ending with `id`. */
  ghost predicate StateExplained(c: Case, x: Core, y: Core, id: Id)
    requires id in NodeIds(c.d)
  {
    var n, at := NodeAt(c.d, id), At(id, x.steps);
    match n.kind
    case Event | RequestInformation =>
      && at in c.waits && c.waits[at].resolution == Some(Received) && c.waits[at].payload.Some?
      && exists key :: StoresUnder(n, "state_key", key) && WritesKey(x.state, y.state, key, c.waits[at].payload.value)
    case Subworkflow =>
      && at in c.calls && c.calls[at].status == CallCompleted && c.calls[at].result.Some?
      && exists key :: StoresUnder(n, "result_state_key", key) && WritesKey(x.state, y.state, key, c.calls[at].result.value)
    case Approval => y.state == x.state && at in c.waits && c.waits[at].resolution in {Some(Granted), Some(Refused)}
    case Timer => y.state == x.state && at in c.waits && c.waits[at].resolution == Some(Elapsed)
    case _ => y.state == x.state
  }

  lemma ExplainedState(c: Case, x: Core, y: Core)
    requires Explained(c, x, y) && Served(c.d)
    ensures y.path != [] && y.path[|y.path| - 1] in NodeIds(c.d)
    ensures StateExplained(c, x, y, y.path[|y.path| - 1])
  {
    hide Step, RunNode, Executable, NodesById, WritesKey, MayRun, Ready;
    var outside := OutsideOf(c, x);
    RunsTheFirst(c.d, x, outside, y);
    var id := y.path[|y.path| - 1];
    FirstIsReady(c.d, x, outside, y, id);
    NotAgent(c.d, id);
    match NodeAt(c.d, id).kind
    case Event => ResponseIsWritten(c.d, x, id, outside, y);
    case RequestInformation => ResponseIsWritten(c.d, x, id, outside, y);
    case Subworkflow => ResultIsWritten(c.d, x, id, outside, y);
    case _ => OthersKeepState(c.d, x, id, outside, y);
  }

  lemma FirstIsReady(d: Definition, x: Core, outside: Outside, y: Core, id: Id)
    requires Step(d, x, outside) == Some(y) && y.path != [] && id == y.path[|y.path| - 1]
    ensures Ready(d, x) != [] && Ready(d, x)[0] == id
  {
    hide NextNodes, StateAfter, Ready, NodesById;
    ReadyInside(d, x);
    StepIsExact(d, x, Ready(d, x)[0], outside, y);
  }

  lemma ReadyInside(d: Definition, x: Core)
    ensures Ready(d, x) != [] ==> Ready(d, x)[0] in NodeIds(d)
  {
    hide NodeReady;
    if Ready(d, x) != [] {
      assert Ready(d, x)[0] in Ready(d, x);
    }
  }

  lemma NotAgent(d: Definition, id: Id)
    requires Served(d) && id in NodeIds(d)
    ensures NodeAt(d, id).kind !in {Agent, Tool}
  {
    hide Executable;
    assert NodeAt(d, id) in d.nodes;
  }

  /**
   * In every reachable state the run state of every execution changed only as its rows say: a
   * response or a child's final state was written under the configured key, every other key kept
   * its value, and no other node touched the state.
   */
  lemma StateIsExplained(ts: seq<Transaction>, e: EId, k: nat)
    requires e in History(ts).cases && k + 1 < |History(ts).cases[e].checkpoints|
    ensures var c := History(ts).cases[e];
            var x, y := c.checkpoints[k], c.checkpoints[k + 1];
            && y.path != [] && y.path[|y.path| - 1] in NodeIds(c.d)
            && StateExplained(c, x, y, y.path[|y.path| - 1])
  {
    hide History, SysInv, Linked, CaseInv, Refines, Explained, Served, StateExplained, Good;
    var s := History(ts);
    var c := s.cases[e];
    HistoryInvariant(ts);
    LinkedOf(s, e);
    RefinesOf(c, s.now);
    ExplainedAt(c, k);
    CheckpointSound(c, k, s.now);
    ExplainedState(c, c.checkpoints[k], c.checkpoints[k + 1]);
  }
}
