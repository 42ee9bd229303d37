/** No execution sleeps past its deadline. */
module EngineDeadlines {
  import opened Ids
  import opened Json
  import opened Definitions
  import opened Interpreter
  import opened Engine
  import opened EngineCases
  import opened EngineLinks
  import opened EngineTheorems
  import opened EngineResults

  /**
   * A wait expires by the deadline; a timer's expiry is its due time, before which it is not
   * resolved, and no other wait is expired before its own.
   */
  predicate WaitInTime(w: Wait, at: At, deadline: nat, now: nat) {
    && w.content.at == at && w.content.expires <= deadline
    && w.content.due == (if w.content.kind == Timer then Some(w.content.expires) else None)
    && (w.status == WaitResolved && w.content.kind == Timer ==> w.content.expires <= now)
    && (w.status == WaitExpired ==> w.content.kind != Timer && w.content.expires <= now)
  }

  /** A call expires by the deadline and does not time out before it expires. */
  predicate CallInTime(call: Call, deadline: nat, now: nat) {
    call.expires <= deadline && (call.status == CallTimedOut ==> call.expires <= now)
  }

  predicate InTime(c: Case, now: nat) {
    && (forall at | at in c.waits :: WaitInTime(c.waits[at], at, c.deadline, now))
    && (forall at | at in c.calls :: CallInTime(c.calls[at], c.deadline, now))
  }

  ghost predicate AllInTime(s: Sys) {
    forall e | e in s.cases :: InTime(s.cases[e], s.now)
  }

  lemma LaterInTime(c: Case, now: nat, later: nat)
    requires InTime(c, now) && now <= later
    ensures InTime(c, later)
  {
  }

  // ---------------------------------------------------------------- one execution

  lemma CloseInTime(c: Case, k: Key, status: Status, error: Failure, now: nat)
    requires InTime(c, now)
    ensures InTime(Close(c, status, error), now) && InTime(Done(Close(c, status, error), k), now)
  {
  }

  lemma FinishInTime(c: Case, k: Key, id: Id, outside: Outside, now: nat)
    requires InTime(c, now) && id in NodeIds(c.d)
    ensures InTime(Finish(c, k, id, outside, now), now)
  {
    hide RunNode;
  }

  lemma OpenWaitInTime(c: Case, k: Key, n: Node, now: nat)
    requires InTime(c, now) && (n.kind == Timer ==> now + DelayOf(n) < c.deadline)
    ensures InTime(OpenWait(c, k, n, now), now)
  {
  }

  lemma AtWaitInTime(c: Case, k: Key, n: Node, now: nat)
    requires InTime(c, now) && n.id in NodeIds(c.d)
    ensures InTime(AtWait(c, k, n, now), now)
  {
    hide Finish, Close, Done, OpenWait, DelayOf;
    var at := At(n.id, c.core.steps);
    if at !in c.waits {
      if n.kind == Timer && now + DelayOf(n) >= c.deadline {
        CloseInTime(c, k, Failed, WaitExceedsDeadline, now);
      } else {
        OpenWaitInTime(c, k, n, now);
      }
    } else {
      AtOldWaitInTime(c, k, n, now);
    }
  }

  lemma ParkInTime(c: Case, k: Key, now: nat)
    requires InTime(c, now)
    ensures InTime(Park(c, k), now)
  {
  }

  lemma WaitRowInTime(c: Case, at: At, w: Wait, now: nat)
    requires InTime(c, now) && WaitInTime(w, at, c.deadline, now)
    ensures InTime(c.(waits := c.waits[at := w]), now)
  {
  }

  lemma WaitInTimeAt(c: Case, at: At, now: nat)
    requires InTime(c, now) && at in c.waits
    ensures WaitInTime(c.waits[at], at, c.deadline, now)
  {
    hide WaitInTime;
  }

  lemma AtOldWaitInTime(c: Case, k: Key, n: Node, now: nat)
    requires InTime(c, now) && n.id in NodeIds(c.d) && At(n.id, c.core.steps) in c.waits
    ensures InTime(AtWait(c, k, n, now), now)
  {
    hide Finish, Close, Done, Park, OpenWait, DelayOf, InTime;
    var at := At(n.id, c.core.steps);
    var w := c.waits[at];
    var elapsed, expired := w.(status := WaitResolved, resolution := Some(Elapsed)), w.(status := WaitExpired, resolution := Some(Expired));
    WaitInTimeAt(c, at, now);
    if n.kind == w.content.kind && w.status == WaitPending {
      if n.kind == Timer && w.content.due.Some? && w.content.due.value <= now {
        WaitRowInTime(c, at, elapsed, now);
        FinishInTime(c.(waits := c.waits[at := elapsed]), k, n.id, Response(Elapsed, None), now);
      } else if w.content.expires <= now {
        WaitRowInTime(c, at, expired, now);
        CloseInTime(c.(waits := c.waits[at := expired]), k, Failed, WaitTimedOut, now);
      }
    }
    CloseInTime(c, k, Failed, WakeMismatch, now);
    CloseInTime(c, k, Failed, WaitResolutionInvalid, now);
    ParkInTime(c, k, now);
    if w.resolution.Some? {
      FinishInTime(c, k, n.id, Response(w.resolution.value, w.payload), now);
    }
  }

  lemma OpenCallInTime(c: Case, k: Key, n: Node, child: EId, now: nat)
    requires InTime(c, now)
    ensures InTime(OpenCall(c, k, n, child, now), now)
  {
  }

  lemma CallRowInTime(c: Case, at: At, call: Call, now: nat)
    requires InTime(c, now) && CallInTime(call, c.deadline, now)
    ensures InTime(c.(calls := c.calls[at := call]), now)
  {
  }

  lemma CallInTimeAt(c: Case, at: At, now: nat)
    requires InTime(c, now) && at in c.calls
    ensures CallInTime(c.calls[at], c.deadline, now)
  {
    hide CallInTime;
  }

  lemma AtCallInTime(c: Case, k: Key, n: Node, now: nat, env: Env)
    requires InTime(c, now) && n.id in NodeIds(c.d)
    ensures InTime(AtCall(c, k, n, now, env), now)
  {
    hide Finish, Close, Done, Park, OpenCall, InTime;
    var at := At(n.id, c.core.steps);
    CloseInTime(c, k, Failed, SubworkflowUnavailable, now);
    CloseInTime(c, k, Failed, SubworkflowEnded, now);
    CloseInTime(c, k, Failed, SubworkflowResultInvalid, now);
    ParkInTime(c, k, now);
    if env.child.Some? {
      OpenCallInTime(c, k, n, env.child.value, now);
    }
    if at in c.calls {
      var call := c.calls[at];
      CallInTimeAt(c, at, now);
      if call.expires <= now {
        CallRowInTime(c, at, call.(status := CallTimedOut), now);
        CloseInTime(c.(calls := c.calls[at := call.(status := CallTimedOut)]), k, Failed, SubworkflowTimedOut, now);
      }
      if call.child in env.finals {
        FinishInTime(c, k, n.id, Result(env.finals[call.child]), now);
      }
    }
  }

  lemma AdvanceInTime(c: Case, k: Key, token: nat, now: nat, stopped: bool, env: Env)
    requires InTime(c, now)
    ensures InTime(AdvanceCase(c, k, token, now, stopped, env), now)
  {
    hide Finish, Close, Done, AtWait, AtCall, Ready, Chosen, InTime;
    forall status, error ensures InTime(Done(Close(c, status, error), k), now) {
      CloseInTime(c, k, status, error, now);
    }
    if Ready(c.d, c.core) != [] && Chosen(c, k).Some? {
      var id := Chosen(c, k).value;
      var n := NodeAt(c.d, id);
      AtWaitInTime(c, k, n, now);
      AtCallInTime(c, k, n, now, env);
      FinishInTime(c, k, id, Nothing, now);
    }
  }

  lemma RespondInTime(c: Case, at: At, reply: Reply, now: nat)
    requires InTime(c, now)
    ensures InTime(RespondCase(c, at, reply, now), now)
  {
  }

  lemma ChildSettledInTime(c: Case, at: At, status: Status, state: State, now: nat)
    requires InTime(c, now) && at in c.calls
    ensures InTime(ChildSettled(c, at, status, state, now), now)
  {
  }

  // ---------------------------------------------------------------- the system

  lemma CommitInTime(s: Sys, e: EId, c': Case, child: Option<Case>, settle: bool)
    requires AllInTime(s) && e in s.cases && InTime(c', s.now) && (child.Some? ==> InTime(child.value, s.now))
    ensures AllInTime(Commit(s, e, c', child, settle))
  {
    hide InTime, Dropped, ChildSettled, Put;
    var s1 := s.(cases := s.cases[e := c']);
    var s2 := if child.None? then s1
              else s1.(cases := s1.cases[s1.nextId := child.value], nextId := s1.nextId + 1);
    var s3 := Tell(s2, Dropped(s.cases[e], c'));
    forall f | f in s3.cases ensures InTime(s3.cases[f], s.now) {
      PutInTime(s2.cases[f], ParentStopped, s.now);
    }
    assert e in s3.cases;
    var link := s3.cases[e].parent;
    if settle && link.Some? && HasCall(s3, link.value) {
      ChildSettledInTime(s3.cases[link.value.parent], link.value.at, s3.cases[e].status, s3.cases[e].core.state, s3.now);
    }
  }

  lemma PutInTime(c: Case, k: Key, now: nat)
    requires InTime(c, now)
    ensures InTime(Put(c, k, now), now)
  {
  }

  lemma NewInTime(d: Definition, core: Core, parent: Option<Link>, origin: Option<Origin>, now: nat)
    ensures InTime(NewCase(d, core, parent, origin, now), now)
  {
  }

  lemma NextInTime(s: Sys, t: Transaction)
    requires AllInTime(s)
    ensures AllInTime(Next(s, t))
  {
    hide InTime, Commit, Served, AdvanceCase, ClaimCase, RespondCase, CancelCase, NewCase, Done, Finals, IsStopped;
    match t
    case Tick(seconds) =>
      forall e | e in s.cases ensures InTime(s.cases[e], s.now + seconds) {
        LaterInTime(s.cases[e], s.now, s.now + seconds);
      }
    case Start(d, input) => NewInTime(d, Fresh(d, input), None, None, s.now);
    case Fork(source, k) =>
      if source in s.cases && k < |s.cases[source].checkpoints| {
        NewInTime(s.cases[source].d, s.cases[source].checkpoints[k], None, Some(Origin(source, k)), s.now);
      }
    case Claim(e, k, lease) =>
      if e in s.cases {
        ClaimInTime(s.cases[e], k, s.now, s.nextToken, lease);
        CommitInTime(s, e, ClaimCase(s.cases[e], k, s.now, s.nextToken, lease), None, false);
      }
    case Advance(e, k, _, _, d) =>
      if e in s.cases {
        AdvancedInTime(s, t);
      }
    case Respond(e, at, reply) =>
      if e in s.cases {
        RespondInTime(s.cases[e], at, reply, s.now);
        CommitInTime(s, e, RespondCase(s.cases[e], at, reply, s.now), None, false);
      }
    case Cancel(e) =>
      if e in s.cases {
        CancelInTime(s.cases[e], s.now);
        CommitInTime(s, e, CancelCase(s.cases[e], s.now), None, false);
      }
    case FinalizeCancelled(e) =>
      if e in s.cases {
        DoneInTime(s.cases[e], Finalize, s.now);
        CommitInTime(s, e, Done(s.cases[e], Finalize), None, s.cases[e].status == Stopped);
      }
  }

  lemma ClaimInTime(c: Case, k: Key, now: nat, token: nat, lease: nat)
    requires InTime(c, now)
    ensures InTime(ClaimCase(c, k, now, token, lease), now)
  {
  }

  lemma CancelInTime(c: Case, now: nat)
    requires InTime(c, now)
    ensures InTime(CancelCase(c, now), now)
  {
    CloseInTime(c, Finalize, Stopped, CancelledByCaller, now);
  }

  lemma DoneInTime(c: Case, k: Key, now: nat)
    requires InTime(c, now)
    ensures InTime(Done(c, k), now)
  {
  }

  lemma AdvancedInTime(s: Sys, t: Transaction)
    requires AllInTime(s) && t.Advance? && t.e in s.cases
    ensures var c' := Advanced(s, t);
            AllInTime(Commit(s, t.e, c', ChildOf(s, t.e, c', t.childDefinition), Terminal(c') && !Terminal(s.cases[t.e])))
  {
    hide InTime, Commit, Served, AdvanceCase, NewCase, Finals, IsStopped;
    var c := s.cases[t.e];
    var child := if t.childDefinition.Some? && Served(t.childDefinition.value) then Some(s.nextId) else None;
    AdvanceInTime(c, t.k, t.token, s.now, IsStopped(s, t.e), Env(t.refused, child, Finals(s)));
    var c' := Advanced(s, t);
    if t.childDefinition.Some? {
      var d := t.childDefinition.value;
      NewInTime(d, Fresh(d, c.core.state), Some(Link(t.e, Here(c))), None, s.now);
    }
    CommitInTime(s, t.e, c', ChildOf(s, t.e, c', t.childDefinition), Terminal(c') && !Terminal(c));
  }

  lemma {:induction false} HistoryInTime(ts: seq<Transaction>)
    ensures AllInTime(History(ts))
  {
    hide Next, InTime;
    if ts != [] {
      HistoryInTime(ts[..|ts| - 1]);
      NextInTime(History(ts[..|ts| - 1]), ts[|ts| - 1]);
    }
  }

  function Latest(a: nat, b: nat): nat {
    if a < b then b else a
  }

  /**
   * In every reachable state, an execution that has not ended can be claimed at the latest once
   * its deadline has passed and any lease on it has run out: it never waits on something that
   * might not come.
   */
  lemma WakesByDeadline(ts: seq<Transaction>, e: EId, t: nat)
    requires e in History(ts).cases && !Terminal(History(ts).cases[e])
    requires var c := History(ts).cases[e];
             && t >= Latest(c.deadline, History(ts).now)
             && (c.lease.Some? ==> t > c.lease.value)
    ensures Live(History(ts).cases[e]) in History(ts).cases[e].events
    ensures Claimable(History(ts).cases[e], Live(History(ts).cases[e]), t)
  {
    hide History, SysInv, Linked, CaseInv, InTime, Claimable, Live;
    var s := History(ts);
    HistoryInvariant(ts);
    HistoryInTime(ts);
    LinkedOf(s, e);
    WakesUp(s.cases[e], s.now);
    WakeIsTimely(s.cases[e], s.now);
  }

  lemma WakeIsTimely(c: Case, now: nat)
    requires CaseInv(c, now) && !Terminal(c) && InTime(c, now) && Live(c) in c.events
    ensures c.events[Live(c)].availableAt <= Latest(c.deadline, now)
  {
    hide Sound, Refines, Events, Rows, Phase, OnlyLive;
  }

  /**
   * In every reachable state a timer that elapsed had come due, a wait that expired and a call
   * that timed out had expired, and all of them were set to expire by the deadline.
   */
  lemma NothingEarly(ts: seq<Transaction>, e: EId, at: At)
    requires e in History(ts).cases
    ensures var c, now := History(ts).cases[e], History(ts).now;
            && (at in c.waits ==>
                  var w := c.waits[at];
                  && w.content.at == at && w.content.expires <= c.deadline
                  && (w.content.kind == Timer ==> w.content.due == Some(w.content.expires))
                  && (w.content.kind == Timer && w.status == WaitResolved ==> w.content.expires <= now)
                  && (w.status == WaitExpired ==> w.content.expires <= now))
            && (at in c.calls ==>
                  c.calls[at].expires <= c.deadline && (c.calls[at].status == CallTimedOut ==> c.calls[at].expires <= now))
  {
    hide History;
    HistoryInTime(ts);
    assert InTime(History(ts).cases[e], History(ts).now);
  }
}
