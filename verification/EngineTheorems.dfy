/** The theorems about every history of the durable engine. */
module EngineTheorems {
  import opened Ids
  import opened Json
  import opened Definitions
  import opened Interpreter
  import opened InterpreterProofs
  import opened RunBounds
  import opened Engine
  import opened EngineCases
  import opened EngineMoves
  import opened EngineLinks
  import opened EngineSteps

  // ---------------------------------------------------------------- commits keep the invariant

  lemma AfterKeepsCase(s: Sys, e: EId, c': Case, child: Option<Case>, settle: bool, f: EId)
    requires Committable(s, e, c', child, settle) && CaseInv(c', s.now) && f in s.cases
    ensures CaseInv(After(s, e, c', child, settle, f), s.now)
  {
    hide SysInv, CaseInv, Dropped, Move, ChildSettled, Put;
    LinkedOf(s, f);
    CommitFacts(s, e, c', child, settle);
    if f == e {
    } else if settle && c'.parent.Some? && f == c'.parent.value.parent && c'.parent.value.at in s.cases[f].calls {
      ChildSettledKeeps(s.cases[f], c'.parent.value.at, c'.status, c'.core.state, s.now);
    } else if f in Dropped(s.cases[e], c') {
      StopKeeps(s.cases[f], s.now);
    }
  }

  lemma StopKeeps(c: Case, now: nat)
    requires CaseInv(c, now) && c.parent.Some?
    ensures CaseInv(Put(c, ParentStopped, now), now)
  {
    hide CaseInv;
    SideEventKeeps(c, Put(c, ParentStopped, now), ParentStopped, now);
  }

  lemma CommitKeeps(s: Sys, e: EId, c': Case, child: Option<Case>, settle: bool, floor: nat)
    requires Committable(s, e, c', child, settle) && CaseInv(c', s.now)
    requires child.Some? ==> CaseInv(child.value, s.now)
    requires c'.token.Some? ==> c'.token == s.cases[e].token || floor <= c'.token.value
    ensures SysInv(Commit(s, e, c', child, settle)) && Progress(s, Commit(s, e, c', child, settle), floor)
  {
    hide CaseInv, Linked, After, Commit, Dropped, Move, Announced, Reasons;
    var s' := Commit(s, e, c', child, settle);
    CommitFacts(s, e, c', child, settle);
    CommitWrites(s, e, c', child, settle);
    assert Writes(s, s', e, c', child, settle);
    hide SysInv, Progress;
    CommitProgress(s, s', e, c', child, settle, floor);
    forall f | f in s'.cases ensures CaseInv(s'.cases[f], s'.now) && Linked(s', f) {
      if f in s.cases {
        AfterKeepsCase(s, e, c', child, settle, f);
        LinkedAfter(s, s', e, c', child, settle, f);
      } else {
        AfterChild(s, e, c', child, settle);
        ChildLinkedAfter(s, s', e, c', child, settle);
      }
    }
    SysInvIntro(s');
  }

  lemma SysInvIntro(s: Sys)
    requires forall f | f in s.cases :: CaseInv(s.cases[f], s.now) && Linked(s, f)
    ensures SysInv(s)
  {
    hide CaseInv, Linked;
  }

  // ---------------------------------------------------------------- each transaction keeps the invariant

  lemma TickKeeps(s: Sys, seconds: nat)
    requires SysInv(s)
    ensures SysInv(s.(now := s.now + seconds)) && Progress(s, s.(now := s.now + seconds), s.nextToken)
  {
    hide SysInv, CaseInv, Reasons;
    var s' := s.(now := s.now + seconds);
    forall f | f in s'.cases ensures CaseInv(s'.cases[f], s'.now) && Linked(s', f) {
      LinkedOf(s, f);
      ClockKeeps(s.cases[f], s.now, s'.now);
    }
    SysInvIntro(s');
  }

  lemma TokenKeeps(s: Sys)
    requires SysInv(s)
    ensures SysInv(s.(nextToken := s.nextToken + 1))
  {
    hide SysInv, CaseInv, Reasons;
    var s' := s.(nextToken := s.nextToken + 1);
    forall f | f in s'.cases ensures CaseInv(s'.cases[f], s'.now) && Linked(s', f) {
      LinkedOf(s, f);
    }
    SysInvIntro(s');
  }

  /** A fresh row set that no other execution refers to. */
  ghost predicate Standalone(s: Sys, c: Case) {
    && CaseInv(c, s.now) && c.parent.None? && c.calls == map[] && c.token.None? && ParentStopped !in c.events
    && c.error.None? && c.status == Queued && c.checkpoints == [c.core]
    && (c.origin.None? ==> c.core == Fresh(c.d, c.core.state))
    && (c.origin.Some? ==>
          var o := c.origin.value;
          && o.source in s.cases && s.cases[o.source].d == c.d && o.checkpoint < |s.cases[o.source].checkpoints|
          && c.core == s.cases[o.source].checkpoints[o.checkpoint])
  }

  lemma LaunchKeeps(s: Sys, c: Case)
    requires SysInv(s) && Standalone(s, c)
    ensures SysInv(Launch(s, c)) && Progress(s, Launch(s, c), s.nextToken)
  {
    hide SysInv, CaseInv, Linked;
    FreshId(s);
    var s' := Launch(s, c);
    forall f | f in s'.cases ensures CaseInv(s'.cases[f], s'.now) && Linked(s', f) {
      if f in s.cases {
        LinkedOf(s, f);
        OldLinked(s, s', c, f);
      } else {
        NewLinked(s, s', c);
      }
    }
    SysInvIntro(s');
  }

  lemma NewLinked(s: Sys, s': Sys, c: Case)
    requires SysInv(s) && Standalone(s, c) && s' == Launch(s, c) && s.nextId !in s.cases
    ensures Linked(s', s.nextId)
  {
    hide SysInv, CaseInv, Ready, Blocks;
    if c.origin.Some? {
      LinkedOf(s, c.origin.value.source);
    }
  }

  lemma OldLinked(s: Sys, s': Sys, c: Case, f: EId)
    requires s' == Launch(s, c) && s.nextId !in s.cases && f in s.cases && Linked(s, f)
    ensures Linked(s', f)
  {
    hide Reasons;
    forall at | at in s'.cases[f].calls ensures CallLinked(s', f, at) {
      assert CallLinked(s, f, at);
    }
  }

  lemma StartKeeps(s: Sys, d: Definition, input: State)
    requires SysInv(s) && Served(d)
    ensures var s' := Launch(s, NewCase(d, Fresh(d, input), None, None, s.now)); SysInv(s') && Progress(s, s', s.nextToken)
  {
    hide SysInv, CaseInv, Launch;
    assert Good(d, Fresh(d, input)) by {
      hide Executable;
      FreshInvariant(d, input);
    }
    hide Good, Served;
    NewCaseInv(d, Fresh(d, input), None, None, s.now);
    LaunchKeeps(s, NewCase(d, Fresh(d, input), None, None, s.now));
  }

  lemma StepKeepsGood(d: Definition, x: Core, outside: Outside, y: Core)
    requires Served(d) && Good(d, x) && Step(d, x, outside) == Some(y)
    ensures Good(d, y)
  {
    hide Invariant, Serial, Executable, Has, Step;
    StepKeepsInvariant(d, x, outside, y);
    if !Has(d, {Parallel}) {
      StepKeepsSerial(d, x, outside, y);
    }
  }

  lemma SoundStart(c: Case, now: nat)
    requires CaseInv(c, now)
    ensures Refines(c) && Served(c.d) && c.checkpoints != [] && Good(c.d, c.checkpoints[0]) && c.core.steps <= c.d.maxSteps
  {
    hide Refines, Served, Good, Events, Rows, Phase, Awake, OnlyLive;
  }

  /** Every checkpoint is a record the interpreter can reach. */
  lemma {:induction false} CheckpointSound(c: Case, k: nat, now: nat)
    requires CaseInv(c, now) && k < |c.checkpoints|
    ensures Served(c.d) && Good(c.d, c.checkpoints[k]) && c.checkpoints[k].steps <= c.d.maxSteps
    decreases k
  {
    hide CaseInv, Refines, Served, Good, Step, OutsideOf;
    SoundStart(c, now);
    StepsRise(c, k);
    if k > 0 {
      CheckpointSound(c, k - 1, now);
      ExplainedAt(c, k - 1);
      StepKeepsGood(c.d, c.checkpoints[k - 1], OutsideOf(c, c.checkpoints[k - 1]), c.checkpoints[k]);
    }
  }

  lemma ForkKeeps(s: Sys, source: EId, k: nat)
    requires SysInv(s) && source in s.cases && k < |s.cases[source].checkpoints|
    requires s.cases[source].checkpoints[k].current != []
    ensures var p := s.cases[source];
            var s' := Launch(s, NewCase(p.d, p.checkpoints[k], None, Some(Origin(source, k)), s.now));
            SysInv(s') && Progress(s, s', s.nextToken)
  {
    hide SysInv, CaseInv, Good, Launch, Served, Linked, Reasons;
    var p := s.cases[source];
    LinkedOf(s, source);
    CheckpointSound(p, k, s.now);
    NewCaseInv(p.d, p.checkpoints[k], None, Some(Origin(source, k)), s.now);
    LaunchKeeps(s, NewCase(p.d, p.checkpoints[k], None, Some(Origin(source, k)), s.now));
  }

  lemma ClaimCommit(s: Sys, e: EId, k: Key, lease: nat)
    requires SysInv(s) && e in s.cases && Claimable(s.cases[e], k, s.now)
    ensures SysInv(Next(s, Claim(e, k, lease))) && Progress(s, Next(s, Claim(e, k, lease)), s.nextToken)
  {
    hide CaseInv, SysInv, Linked, Move, Announced, Reasons;
    var s0 := s.(nextToken := s.nextToken + 1);
    var c := s.cases[e];
    var c' := ClaimCase(c, k, s.now, s.nextToken, lease);
    TokenKeeps(s);
    LinkedOf(s, e);
    ClaimKeeps(c, k, s.now, s.nextToken, lease);
    ClaimMove(s, e, k, lease);
    hide ClaimCase;
    CommitKeeps(s0, e, c', None, false, s.nextToken);
    TokenCommutes(s, e, c');
  }

  lemma TokenCommutes(s: Sys, e: EId, c': Case)
    requires e in s.cases
    ensures var s0 := s.(nextToken := s.nextToken + 1);
            Commit(s0, e, c', None, false) == Commit(s, e, c', None, false).(nextToken := s.nextToken + 1)
  {
    hide Dropped, Put;
  }

  lemma ClaimMove(s: Sys, e: EId, k: Key, lease: nat)
    requires e in s.cases && Claimable(s.cases[e], k, s.now) && Linked(s, e)
    ensures var c' := ClaimCase(s.cases[e], k, s.now, s.nextToken, lease);
            Move(s.cases[e], c', None) && Announced(s.cases[e], c', false) && Reasons(c') && c'.token == Some(s.nextToken)
  {
    hide ParentLinked, CallLinked, OriginLinked, Ready, Blocks;
  }

  lemma RespondCommit(s: Sys, e: EId, at: At, reply: Reply)
    requires SysInv(s) && e in s.cases
    ensures SysInv(Next(s, Respond(e, at, reply))) && Progress(s, Next(s, Respond(e, at, reply)), s.nextToken)
  {
    hide CaseInv, SysInv, Linked, Move, Announced, Reasons, Progress, RespondCase;
    LinkedOf(s, e);
    TokenBound(s, e);
    RespondKeeps(s.cases[e], at, reply, s.now);
    RespondMove(s.cases[e], at, reply, s.now);
    CommitKeeps(s, e, RespondCase(s.cases[e], at, reply, s.now), None, false, s.nextToken);
  }

  lemma TokenBound(s: Sys, e: EId)
    requires e in s.cases && Linked(s, e)
    ensures s.cases[e].token.Some? ==> s.cases[e].token.value < s.nextToken
    ensures Reasons(s.cases[e])
  {
    hide ParentLinked, CallLinked, OriginLinked, Reasons;
  }

  lemma RespondMove(c: Case, at: At, reply: Reply, now: nat)
    requires Reasons(c)
    ensures var c' := RespondCase(c, at, reply, now);
            Move(c, c', None) && Announced(c, c', false) && Reasons(c') && c'.token == c.token
  {
    hide Ready, Blocks;
  }

  lemma CancelCommit(s: Sys, e: EId)
    requires SysInv(s) && e in s.cases
    ensures SysInv(Next(s, Cancel(e))) && Progress(s, Next(s, Cancel(e)), s.nextToken)
  {
    hide CaseInv, SysInv, Linked, Move, Announced, Reasons, Progress, Live, Sound, Refines, Events, Last;
    LinkedOf(s, e);
    TokenBound(s, e);
    if s.cases[e].status in {Queued, Waiting} {
      CancelKeeps(s.cases[e], s.now);
      OnlyLiveIsLast(s.cases[e], s.now);
    }
    CancelMove(s.cases[e], s.now);
    CommitKeeps(s, e, CancelCase(s.cases[e], s.now), None, false, s.nextToken);
  }

  lemma CancelMove(c: Case, now: nat)
    requires Reasons(c) && (c.status in {Queued, Waiting} ==> c.core.current != [])
    ensures var c' := CancelCase(c, now);
            Move(c, c', None) && Announced(c, c', false) && Reasons(c') && (c'.token.None? || c'.token == c.token)
  {
    hide Ready, Blocks;
  }

  lemma FinalizeCommit(s: Sys, e: EId)
    requires SysInv(s) && e in s.cases && FinalizeDue(s.cases[e], s.now)
    ensures SysInv(Next(s, FinalizeCancelled(e))) && Progress(s, Next(s, FinalizeCancelled(e)), s.nextToken)
  {
    hide CaseInv, SysInv, Linked, Move, Announced, Reasons, Progress;
    var c := s.cases[e];
    LinkedOf(s, e);
    SideEventKeeps(c, Done(c, Finalize), Finalize, s.now);
    TokenBound(s, e);
    FinalizeIsStopped(c, s.now);
    FinalizeMove(c);
    CommitKeeps(s, e, Done(c, Finalize), None, true, s.nextToken);
  }

  lemma FinalizeIsStopped(c: Case, now: nat)
    requires CaseInv(c, now) && Finalize in c.events
    ensures c.status == Stopped
  {
    hide Sound, Refines, Rows, Live;
    assert KeyFits(c, Finalize);
  }

  lemma FinalizeMove(c: Case)
    requires Reasons(c)
    ensures Move(c, Done(c, Finalize), None) && Reasons(Done(c, Finalize)) && Done(c, Finalize).token == c.token
    ensures Announced(c, Done(c, Finalize), true)
  {
    hide Ready, Blocks;
  }

  lemma FinalsOf(s: Sys, e: EId)
    requires SysInv(s) && e in s.cases
    ensures FinalsAgree(s.cases[e], Finals(s))
  {
    hide SysInv, CaseInv, ParentLinked, OriginLinked, Reasons;
    LinkedOf(s, e);
    forall at | at in s.cases[e].calls && s.cases[e].calls[at].status == CallCompleted
      ensures s.cases[e].calls[at].child in Finals(s)
      ensures s.cases[e].calls[at].result == Some(Finals(s)[s.cases[e].calls[at].child])
    {
      assert CallLinked(s, e, at);
    }
  }

  lemma StopIsKnown(s: Sys, e: EId)
    requires e in s.cases && Linked(s, e) && ParentStopped in s.cases[e].events
    ensures IsStopped(s, e)
  {
    hide CallLinked, OriginLinked, Reasons;
  }

  lemma StoppedHasParent(s: Sys, e: EId)
    requires e in s.cases && IsStopped(s, e)
    ensures s.cases[e].parent.Some?
  {
  }

  lemma AdvanceCommit(s: Sys, t: Transaction)
    requires SysInv(s) && t.Advance? && t.e in s.cases && Handed(s.cases[t.e], t.k)
    ensures SysInv(Next(s, t)) && Progress(s, Next(s, t), s.nextToken)
  {
    hide CaseInv, SysInv, AdvanceCase, Advances, FinalsAgree, Linked, Reasons, IsStopped, Finals;
    var c := s.cases[t.e];
    var child := if t.childDefinition.Some? && Served(t.childDefinition.value) then Some(s.nextId) else None;
    var env := Env(t.refused, child, Finals(s));
    var c' := Advanced(s, t);
    LinkedOf(s, t.e);
    TokenBound(s, t.e);
    if t.k == ParentStopped {
      StopIsKnown(s, t.e);
    }
    if IsStopped(s, t.e) {
      StoppedHasParent(s, t.e);
    }
    FinalsOf(s, t.e);
    AdvanceKeeps(c, t.k, t.token, s.now, IsStopped(s, t.e), env);
    AdvanceAdvances(c, t.k, t.token, s.now, IsStopped(s, t.e), env);
    AdvanceCommits(s, t.e, c', child, t.childDefinition);
  }

  lemma AdvanceCommits(s: Sys, e: EId, c': Case, child: Option<EId>, d: Option<Definition>)
    requires SysInv(s) && e in s.cases && CaseInv(c', s.now) && Advances(s.cases[e], c', child)
    requires child == if d.Some? && Served(d.value) then Some(s.nextId) else None
    ensures var s' := Commit(s, e, c', ChildOf(s, e, c', d), Terminal(c') && !Terminal(s.cases[e]));
            SysInv(s') && Progress(s, s', s.nextToken)
  {
    hide CaseInv, SysInv, Reasons, Served, Fresh;
    var c := s.cases[e];
    var settle := Terminal(c') && !Terminal(c);
    LinkedOf(s, e);
    hide Linked;
    TokenBound(s, e);
    EndedSame(c, c', child);
    var born := ChildOf(s, e, c', d);
    if c'.calls.Keys != c.calls.Keys {
      FreshChild(d.value, c.core.state, Link(e, Here(c)), s.now);
    } else {
      NoNewCalls(c, c', child);
    }
    assert Committable(s, e, c', born, settle);
    CommitKeeps(s, e, c', born, settle, s.nextToken);
  }

  lemma NoNewCalls(c: Case, c': Case, child: Option<EId>)
    requires Move(c, c', child) && c'.calls.Keys == c.calls.Keys
    ensures Move(c, c', None)
  {
    hide SettledKept;
  }

  lemma EndedSame(c: Case, c': Case, child: Option<EId>)
    requires Advances(c, c', child)
    ensures Announced(c, c', Terminal(c') && !Terminal(c))
  {
    hide Reasons, SettledKept;
  }

  lemma FreshChild(d: Definition, input: State, link: Link, now: nat)
    requires Served(d)
    ensures var child := NewCase(d, Fresh(d, input), Some(link), None, now);
            CaseInv(child, now) && child.parent == Some(link) && child.status == Queued && ParentStopped !in child.events
            && child.calls == map[] && child.token.None? && child.error.None? && child.origin.None?
            && child.checkpoints == [Fresh(child.d, input)]
  {
    hide CaseInv;
    assert Good(d, Fresh(d, input)) by {
      hide Executable;
      FreshInvariant(d, input);
    }
    hide Good, Served;
    NewCaseInv(d, Fresh(d, input), Some(link), None, now);
  }

  /** Every transaction keeps the system invariant. */
  lemma NextKeeps(s: Sys, t: Transaction)
    requires SysInv(s)
    ensures SysInv(Next(s, t)) && Progress(s, Next(s, t), s.nextToken)
  {
    hide SysInv, Commit, Launch, Served, Advanced, ChildOf;
    match t
    case Tick(seconds) => TickKeeps(s, seconds);
    case Start(d, input) => if Served(d) { StartKeeps(s, d, input); }
    case Fork(source, k) =>
      if source in s.cases && k < |s.cases[source].checkpoints| && s.cases[source].checkpoints[k].current != [] {
        ForkKeeps(s, source, k);
      }
    case Claim(e, k, lease) => if e in s.cases && Claimable(s.cases[e], k, s.now) { ClaimCommit(s, e, k, lease); }
    case Advance(e, k, _, _, _) => if e in s.cases && Handed(s.cases[e], k) { AdvanceCommit(s, t); }
    case Respond(e, at, reply) => if e in s.cases { RespondCommit(s, e, at, reply); }
    case Cancel(e) => if e in s.cases { CancelCommit(s, e); }
    case FinalizeCancelled(e) => if e in s.cases && FinalizeDue(s.cases[e], s.now) { FinalizeCommit(s, e); }
  }

  lemma {:induction false} HistoryInvariant(ts: seq<Transaction>)
    ensures SysInv(History(ts))
  {
    hide SysInv, Next;
    if ts == [] {
      SysInvIntro(Empty);
    } else {
      HistoryInvariant(ts[..|ts| - 1]);
      NextKeeps(History(ts[..|ts| - 1]), ts[|ts| - 1]);
    }
  }
}
