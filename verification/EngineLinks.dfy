/** Parents, children and tokens: what holds between executions in every reachable state. */
module EngineLinks {
  import opened Ids
  import opened Definitions
  import opened Interpreter
  import opened Engine
  import opened EngineCases

  /** A child that was cancelled by its caller and has not yet settled its parent's call. */
  predicate AwaitsFinalize(c: Case) {
    c.status == Stopped && Finalize in c.events && !c.events[Finalize].processed
  }

  /** A subworkflow call and the child it made. */
  ghost predicate CallLinked(s: Sys, e: EId, at: At)
    requires e in s.cases && at in s.cases[e].calls
  {
    var call := s.cases[e].calls[at];
    && e < call.child && call.child in s.cases && s.cases[call.child].parent == Some(Link(e, at))
    && (call.status == CallPending ==> !Terminal(s.cases[call.child]) || AwaitsFinalize(s.cases[call.child]))
    && (call.status == CallCompleted ==>
          s.cases[call.child].status == Completed && call.result == Some(s.cases[call.child].core.state))
  }

  ghost predicate ParentLinked(s: Sys, e: EId)
    requires e in s.cases
  {
    var c := s.cases[e];
    && (c.parent.Some? ==>
          && c.parent.value.parent < e && HasCall(s, c.parent.value)
          && s.cases[c.parent.value.parent].calls[c.parent.value.at].child == e)
    && (ParentStopped in c.events ==> IsStopped(s, e))
    && (IsStopped(s, e) && !Terminal(c) ==> ParentStopped in c.events && !c.events[ParentStopped].processed)
  }

  /** A forked or replayed execution starts from a checkpoint of its source. */
  ghost predicate OriginLinked(s: Sys, e: EId)
    requires e in s.cases
  {
    var c := s.cases[e];
    && c.checkpoints != []
    && (c.origin.None? ==> c.checkpoints[0] == Fresh(c.d, c.checkpoints[0].state))
    && (c.origin.Some? ==>
          var o := c.origin.value;
          && c.parent.None? && o.source < e && o.source in s.cases && s.cases[o.source].d == c.d
          && o.checkpoint < |s.cases[o.source].checkpoints|
          && c.checkpoints[0] == s.cases[o.source].checkpoints[o.checkpoint])
  }

  /** The reasons that only wait and subworkflow nodes give. */
  const BLOCKING: set<Failure> :=
    {SubworkflowUnavailable, SubworkflowTimedOut, SubworkflowEnded, WaitExceedsDeadline, WaitTimedOut}

  predicate Blocks(d: Definition) {
    Has(d, WAIT_KINDS + {Subworkflow})
  }

  /** An early end was for the reason on record, and three reasons never occur. */
  ghost predicate Reasons(c: Case) {
    && c.error !in {Some(WakeMismatch), Some(SubworkflowResultInvalid), Some(WaitResolutionInvalid)}
    && (c.error == Some(StepLimitExceeded) ==> c.core.steps >= c.d.maxSteps)
    && (c.error == Some(NoReadyNode) ==> Ready(c.d, c.core) == [])
    && (c.error.Some? && c.error.value in BLOCKING ==> Blocks(c.d))
    && (c.error == Some(ParentGone) ==> c.parent.Some?)
    && (c.status in {Failed, Stopped} ==> c.error.Some?) && (c.error.Some? ==> Terminal(c) && c.core.current != [])
  }

  ghost predicate Linked(s: Sys, e: EId)
    requires e in s.cases
  {
    && Reasons(s.cases[e]) && OriginLinked(s, e)
    && e < s.nextId && (s.cases[e].token.Some? ==> s.cases[e].token.value < s.nextToken)
    && ParentLinked(s, e)
    && forall at | at in s.cases[e].calls :: CallLinked(s, e, at)
  }

  ghost predicate SysInv(s: Sys) {
    forall e | e in s.cases :: CaseInv(s.cases[e], s.now) && Linked(s, e)
  }

  // ---------------------------------------------------------------- one execution's move

  /** How a transaction may change the rows of the execution it works on. */
  ghost predicate Move(c: Case, c': Case, child: Option<EId>) {
    && c'.parent == c.parent && c'.d == c.d && c'.origin == c.origin && c.checkpoints <= c'.checkpoints
    && (forall at | at in c.calls ::
          at in c'.calls && c'.calls[at].child == c.calls[at].child &&
          (c'.calls[at] == c.calls[at] || (c.calls[at].status == CallPending && GaveUp(c'.calls[at].status))))
    && (forall at | at in c'.calls && at !in c.calls ::
          child.Some? && at == Here(c) && c'.calls[at].child == child.value && c'.calls[at].status == CallPending)
    && (ParentStopped in c'.events <==> ParentStopped in c.events)
    && (ParentStopped in c.events && !Terminal(c') ==> c'.events[ParentStopped].processed == c.events[ParentStopped].processed)
    && (Terminal(c) ==> c'.status == c.status && c'.core == c.core)
    && SettledKept(c, c')
  }

  /** An ended execution either settles its parent's call now or is about to. */
  ghost predicate Announced(c: Case, c': Case, settle: bool) {
    settle || !Terminal(c') || AwaitsFinalize(c') || (Terminal(c) && !AwaitsFinalize(c))
  }

  // ---------------------------------------------------------------- what a commit writes

  /** The row set of `f` after a commit. */
  function After(s: Sys, e: EId, c': Case, child: Option<Case>, settle: bool, f: EId): Case
    requires e in s.cases && (f in s.cases || (child.Some? && f == s.nextId))
  {
    var c := s.cases[e];
    if f == e then c'
    else if f !in s.cases then child.value
    else if settle && c'.parent.Some? && f == c'.parent.value.parent && c'.parent.value.at in s.cases[f].calls
    then ChildSettled(s.cases[f], c'.parent.value.at, c'.status, c'.core.state, s.now)
    else if f in Dropped(c, c') then Put(s.cases[f], ParentStopped, s.now)
    else s.cases[f]
  }

  lemma DroppedAreChildren(s: Sys, e: EId, c': Case)
    requires e in s.cases && Linked(s, e)
    ensures forall f | f in Dropped(s.cases[e], c') ::
              e < f && f in s.cases && s.cases[f].parent.Some? && s.cases[f].parent.value.parent == e
  {
    hide ParentLinked, OriginLinked, Reasons;
    forall f | f in Dropped(s.cases[e], c')
      ensures e < f && f in s.cases && s.cases[f].parent.Some? && s.cases[f].parent.value.parent == e
    {
      var a :| a in s.cases[e].calls && s.cases[e].calls[a].child == f;
      assert CallLinked(s, e, a);
    }
  }

  lemma FreshId(s: Sys)
    requires SysInv(s)
    ensures s.nextId !in s.cases
  {
    hide CaseInv, ParentLinked, CallLinked, OriginLinked, Reasons;
    forall e | e in s.cases ensures e != s.nextId {
      assert Linked(s, e);
    }
  }

  lemma CommitWrites(s: Sys, e: EId, c': Case, child: Option<Case>, settle: bool)
    requires e in s.cases && s.nextId !in s.cases
    requires forall f | f in Dropped(s.cases[e], c') :: e < f && f in s.cases
    requires c'.parent.Some? ==> c'.parent.value.parent < e && HasCall(s, c'.parent.value)
    ensures var s' := Commit(s, e, c', child, settle);
            && s'.now == s.now && s'.nextToken == s.nextToken
            && s'.nextId == (if child.Some? then s.nextId + 1 else s.nextId)
            && s'.cases.Keys == s.cases.Keys + (if child.Some? then {s.nextId} else {})
            && forall f | f in s'.cases :: s'.cases[f] == After(s, e, c', child, settle, f)
  {
    hide ChildSettled, Put, Dropped;
  }

  // ---------------------------------------------------------------- a commit keeps every link

  /** The commits that transactions make. */
  ghost predicate Committable(s: Sys, e: EId, c': Case, child: Option<Case>, settle: bool) {
    && SysInv(s) && e in s.cases
    && Move(s.cases[e], c', if child.Some? then Some(s.nextId) else None)
    && Announced(s.cases[e], c', settle) && (settle ==> Terminal(c'))
    && (c'.token.Some? ==> c'.token.value < s.nextToken) && Reasons(c')
    && (child.Some? ==>
          && Here(s.cases[e]) in c'.calls && Here(s.cases[e]) !in s.cases[e].calls
          && child.value.parent == Some(Link(e, Here(s.cases[e]))) && child.value.status == Queued
          && ParentStopped !in child.value.events && child.value.calls == map[] && child.value.token.None?
          && child.value.error.None? && child.value.origin.None?
          && child.value.checkpoints == [Fresh(child.value.d, s.cases[e].core.state)])
  }

  lemma LinkedOf(s: Sys, e: EId)
    requires SysInv(s) && e in s.cases
    ensures Linked(s, e) && CaseInv(s.cases[e], s.now)
  {
    hide Linked, CaseInv;
  }

  lemma CommitFacts(s: Sys, e: EId, c': Case, child: Option<Case>, settle: bool)
    requires Committable(s, e, c', child, settle)
    ensures s.nextId !in s.cases
    ensures forall f | f in Dropped(s.cases[e], c') ::
              e < f && f in s.cases && s.cases[f].parent.Some? && s.cases[f].parent.value.parent == e
    ensures c'.parent.Some? ==> c'.parent.value.parent < e && HasCall(s, c'.parent.value)
    ensures c'.parent.Some? ==> s.cases[c'.parent.value.parent].calls[c'.parent.value.at].child == e
    ensures c'.parent == s.cases[e].parent
  {
    hide SysInv, CaseInv, Dropped, Announced, OriginLinked, Reasons;
    FreshId(s);
    LinkedOf(s, e);
    DroppedAreChildren(s, e, c');
  }

  /** Other executions keep their place, status and record. */
  lemma SameLife(s: Sys, e: EId, c': Case, child: Option<Case>, settle: bool, g: EId)
    requires Committable(s, e, c', child, settle) && g in s.cases && g != e
    ensures var x := After(s, e, c', child, settle, g);
            && x.parent == s.cases[g].parent && x.status == s.cases[g].status && x.core == s.cases[g].core
            && x.d == s.cases[g].d && x.checkpoints == s.cases[g].checkpoints && x.origin == s.cases[g].origin
            && x.error == s.cases[g].error && x.token == s.cases[g].token && AwaitsFinalize(x) == AwaitsFinalize(s.cases[g])
            && (g !in Dropped(s.cases[e], c') ==>
                  (ParentStopped in x.events <==> ParentStopped in s.cases[g].events) &&
                  (ParentStopped in x.events ==> x.events[ParentStopped] == s.cases[g].events[ParentStopped]))
            && (g in Dropped(s.cases[e], c') ==> ParentStopped in x.events && !x.events[ParentStopped].processed)
  {
    hide SysInv, Dropped, Move, Reasons;
    CommitFacts(s, e, c', child, settle);
  }

  /** What a commit can do to a subworkflow call that was already there. */
  lemma CallAfter(s: Sys, e: EId, c': Case, child: Option<Case>, settle: bool, q: EId, a: At)
    requires Committable(s, e, c', child, settle) && q in s.cases && a in s.cases[q].calls
    ensures var was, x := s.cases[q].calls[a], After(s, e, c', child, settle, q);
            && a in x.calls && x.calls[a].child == was.child
            && (x.calls[a] == was ||
                (was.status == CallPending && q == e && GaveUp(x.calls[a].status)) ||
                (was.status == CallPending && settle && c'.parent == Some(Link(q, a)) && x.calls[a].status != CallPending
                 && (x.calls[a].status == CallCompleted ==> c'.status == Completed && x.calls[a].result == Some(c'.core.state))))
            && (settle && c'.parent == Some(Link(q, a)) ==> x.calls[a].status != CallPending)
  {
    hide SysInv, Dropped, Announced, Reasons;
    CommitFacts(s, e, c', child, settle);
  }

  /** No call other than the executing one's is ever added. */
  lemma NewCallAfter(s: Sys, e: EId, c': Case, child: Option<Case>, settle: bool, q: EId, a: At)
    requires Committable(s, e, c', child, settle) && q in s.cases
    requires a in After(s, e, c', child, settle, q).calls && a !in s.cases[q].calls
    ensures q == e && child.Some? && a == Here(s.cases[e]) && c'.calls[a].child == s.nextId && c'.calls[a].status == CallPending
  {
    hide SysInv, Dropped, Announced, Reasons;
    CommitFacts(s, e, c', child, settle);
  }

  /** The state a commit leaves, by its row sets. */
  ghost predicate Writes(s: Sys, s': Sys, e: EId, c': Case, child: Option<Case>, settle: bool) {
    && e in s.cases && s.nextId !in s.cases
    && s'.nextToken == s.nextToken && s'.nextId == (if child.Some? then s.nextId + 1 else s.nextId)
    && s'.cases.Keys == s.cases.Keys + (if child.Some? then {s.nextId} else {})
    && forall f | f in s'.cases :: s'.cases[f] == After(s, e, c', child, settle, f)
  }

  lemma ParentLinkedAfter(s: Sys, s': Sys, e: EId, c': Case, child: Option<Case>, settle: bool, f: EId)
    requires Committable(s, e, c', child, settle) && Writes(s, s', e, c', child, settle) && f in s.cases
    ensures ParentLinked(s', f)
  {
    hide SysInv, CaseInv, After, Dropped, Announced, CallLinked, OriginLinked, Reasons;
    LinkedOf(s, f);
    CommitFacts(s, e, c', child, settle);
    var link := s.cases[f].parent;
    assert s'.cases[e] == c' by {
      AfterSelf(s, e, c', child, settle);
    }
    if f != e {
      SameLife(s, e, c', child, settle, f);
    }
    if link.Some? {
      CallAfter(s, e, c', child, settle, link.value.parent, link.value.at);
      assert f in Dropped(s.cases[e], c') <==> link.value.parent == e && DroppedAt(s.cases[e], c', link.value.at) by {
        DroppedMeans(s, e, c', child, settle, f);
      }
    }
  }

  lemma AfterSelf(s: Sys, e: EId, c': Case, child: Option<Case>, settle: bool)
    requires e in s.cases
    ensures After(s, e, c', child, settle, e) == c'
  {
  }

  predicate DroppedAt(c: Case, c': Case, a: At) {
    a in c.calls && a in c'.calls && c.calls[a].status == CallPending && GaveUp(c'.calls[a].status)
  }

  lemma DroppedMeans(s: Sys, e: EId, c': Case, child: Option<Case>, settle: bool, f: EId)
    requires Committable(s, e, c', child, settle) && f in s.cases && s.cases[f].parent.Some?
    ensures f in Dropped(s.cases[e], c') <==>
            s.cases[f].parent.value.parent == e && DroppedAt(s.cases[e], c', s.cases[f].parent.value.at)
  {
    hide SysInv, CaseInv, Move, Announced, OriginLinked, Reasons;
    LinkedOf(s, e);
    LinkedOf(s, f);
    var c := s.cases[e];
    if f in Dropped(c, c') {
      var a :| a in c.calls && a in c'.calls && c.calls[a].status == CallPending && GaveUp(c'.calls[a].status) && c.calls[a].child == f;
      assert CallLinked(s, e, a);
    }
  }

  lemma CallLinkedAfter(s: Sys, s': Sys, e: EId, c': Case, child: Option<Case>, settle: bool, f: EId, at: At)
    requires Committable(s, e, c', child, settle) && Writes(s, s', e, c', child, settle) && f in s.cases
    requires at in s'.cases[f].calls
    ensures CallLinked(s', f, at)
  {
    hide SysInv, CaseInv, After, Dropped, ParentLinked, Move, OriginLinked, Reasons;
    LinkedOf(s, f);
    AfterSelf(s, e, c', child, settle);
    if at in s.cases[f].calls {
      assert CallLinked(s, f, at);
      var g := s.cases[f].calls[at].child;
      CallAfter(s, e, c', child, settle, f, at);
      CommitFacts(s, e, c', child, settle);
      if g == e {
        MoveEnds(s, e, c', child, settle);
      } else {
        SameLife(s, e, c', child, settle, g);
      }
    } else {
      NewCallAfter(s, e, c', child, settle, f, at);
      assert s'.cases[s.nextId] == child.value by {
        AfterChild(s, e, c', child, settle);
      }
      LinkedOf(s, e);
    }
  }

  lemma AfterChild(s: Sys, e: EId, c': Case, child: Option<Case>, settle: bool)
    requires e in s.cases && child.Some? && s.nextId !in s.cases
    ensures After(s, e, c', child, settle, s.nextId) == child.value
  {
  }

  lemma MoveEnds(s: Sys, e: EId, c': Case, child: Option<Case>, settle: bool)
    requires Committable(s, e, c', child, settle)
    ensures c'.parent == s.cases[e].parent
    ensures Terminal(s.cases[e]) ==> c'.status == s.cases[e].status && c'.core == s.cases[e].core
  {
    hide SysInv;
  }

  lemma OriginLinkedAfter(s: Sys, s': Sys, e: EId, c': Case, child: Option<Case>, settle: bool, f: EId)
    requires Committable(s, e, c', child, settle) && Writes(s, s', e, c', child, settle) && f in s.cases
    ensures OriginLinked(s', f)
  {
    hide SysInv, CaseInv, After, ParentLinked, CallLinked, Reasons;
    LinkedOf(s, f);
    LinkedOf(s, e);
    AfterSelf(s, e, c', child, settle);
    if f != e {
      SameLife(s, e, c', child, settle, f);
    }
    if s.cases[f].origin.Some? && s.cases[f].origin.value.source != e {
      SameLife(s, e, c', child, settle, s.cases[f].origin.value.source);
    }
  }

  lemma LinkedAfter(s: Sys, s': Sys, e: EId, c': Case, child: Option<Case>, settle: bool, f: EId)
    requires Committable(s, e, c', child, settle) && Writes(s, s', e, c', child, settle) && f in s.cases
    ensures Linked(s', f)
  {
    hide SysInv, CaseInv, After, ParentLinked, CallLinked, OriginLinked, Move, Ready, Blocks;
    LinkedOf(s, f);
    ParentLinkedAfter(s, s', e, c', child, settle, f);
    OriginLinkedAfter(s, s', e, c', child, settle, f);
    AfterSelf(s, e, c', child, settle);
    if f != e {
      SameLife(s, e, c', child, settle, f);
    }
    forall at | at in s'.cases[f].calls ensures CallLinked(s', f, at) {
      CallLinkedAfter(s, s', e, c', child, settle, f, at);
    }
  }

  lemma ChildLinkedAfter(s: Sys, s': Sys, e: EId, c': Case, child: Option<Case>, settle: bool)
    requires Committable(s, e, c', child, settle) && Writes(s, s', e, c', child, settle) && child.Some?
    ensures s.nextId in s'.cases && Linked(s', s.nextId)
  {
    hide SysInv, CaseInv, After, Ready, Blocks;
    LinkedOf(s, e);
    AfterSelf(s, e, c', child, settle);
    AfterChild(s, e, c', child, settle);
  }

  // ---------------------------------------------------------------- what never goes back

  /** Nothing that was settled, recorded, ended or spent ever changes again. */
  ghost predicate Lasting(s: Sys, s': Sys, e: EId, floor: nat)
    requires e in s.cases && e in s'.cases
  {
    var c, c' := s.cases[e], s'.cases[e];
    && SettledKept(c, c') && c'.d == c.d && c'.origin == c.origin && c'.parent == c.parent && c.checkpoints <= c'.checkpoints
    && (Terminal(c) ==> c'.status == c.status && c'.core == c.core)
    && (c'.token.Some? ==> c'.token == c.token || floor <= c'.token.value)
  }

  /** Tokens handed out meanwhile are at least `floor`. */
  ghost predicate Progress(s: Sys, s': Sys, floor: nat) {
    && s.now <= s'.now && s.nextToken <= s'.nextToken && s.nextId <= s'.nextId
    && forall e | e in s.cases :: e in s'.cases && Lasting(s, s', e, floor)
  }

  lemma AfterLasting(s: Sys, s': Sys, e: EId, c': Case, child: Option<Case>, settle: bool, f: EId, floor: nat)
    requires Committable(s, e, c', child, settle) && Writes(s, s', e, c', child, settle) && f in s.cases
    requires c'.token.Some? ==> c'.token == s.cases[e].token || floor <= c'.token.value
    ensures f in s'.cases && Lasting(s, s', f, floor)
  {
    hide SysInv, Dropped, Announced, Reasons, CaseInv;
    CommitFacts(s, e, c', child, settle);
    if f != e {
      SameLife(s, e, c', child, settle, f);
    }
  }

  lemma CommitProgress(s: Sys, s': Sys, e: EId, c': Case, child: Option<Case>, settle: bool, floor: nat)
    requires Committable(s, e, c', child, settle) && Writes(s, s', e, c', child, settle) && s'.now == s.now
    requires c'.token.Some? ==> c'.token == s.cases[e].token || floor <= c'.token.value
    ensures Progress(s, s', floor)
  {
    hide SysInv, Committable, After, Lasting;
    forall f | f in s.cases ensures f in s'.cases && Lasting(s, s', f, floor) {
      AfterLasting(s, s', e, c', child, settle, f, floor);
    }
  }
}
