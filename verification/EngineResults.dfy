/** What the engine promises in every history of transactions. */
module EngineResults {
  import opened Ids
  import opened Json
  import opened Definitions
  import opened Interpreter
  import opened Determinism
  import opened Engine
  import opened EngineCases
  import opened EngineLinks
  import opened EngineSteps
  import opened EngineTheorems

  // ---------------------------------------------------------------- no lost wake-up

  /** The key names the wait or the call at the execution's position. */
  predicate Names(k: Key, at: At) {
    k in {WaitWake(at), WaitResume(at), CallTimeout(at), CallResume(at)}
  }

  /** From this time on a worker's claim query finds the event. */
  function WakeTime(c: Case, k: Key): nat
    requires k in c.events
  {
    var available := c.events[k].availableAt;
    if c.status == Running && c.lease.Some? && c.lease.value + 1 > available then c.lease.value + 1 else available
  }

  /**
   * In every reachable state every execution that has not ended has exactly one unprocessed
   * event of its own; from its wake time on it can be claimed, and while the execution waits
   * it names the wait or subworkflow call the execution stands at.
   */
  lemma NoLostWakeup(ts: seq<Transaction>, e: EId)
    requires e in History(ts).cases && !Terminal(History(ts).cases[e])
    ensures var c := History(ts).cases[e];
            && Live(c) in c.events
            && (forall t: nat | t >= WakeTime(c, Live(c)) :: Claimable(c, Live(c), t))
            && (c.status == Waiting ==> Names(Live(c), Here(c)))
            && (c.status == Queued ==> WakeTime(c, Live(c)) <= History(ts).now)
            && (forall k | k in c.events && !c.events[k].processed :: k == Live(c) || k == ParentStopped)
  {
    hide History, SysInv, Linked;
    HistoryInvariant(ts);
    LinkedOf(History(ts), e);
    WakesUp(History(ts).cases[e], History(ts).now);
  }

  lemma WakesUp(c: Case, now: nat)
    requires CaseInv(c, now) && !Terminal(c)
    ensures Live(c) in c.events
    ensures forall t: nat | t >= WakeTime(c, Live(c)) :: Claimable(c, Live(c), t)
    ensures c.status == Waiting ==> Names(Live(c), Here(c))
    ensures c.status == Queued ==> WakeTime(c, Live(c)) <= now
    ensures forall k | k in c.events && !c.events[k].processed :: k == Live(c) || k == ParentStopped
  {
    hide Sound, Refines, Rows, Events;
  }

  /** A child whose parent gave up always has an unprocessed stop event until it ends. */
  lemma NoOrphan(ts: seq<Transaction>, e: EId)
    requires e in History(ts).cases && IsStopped(History(ts), e) && !Terminal(History(ts).cases[e])
    ensures var c := History(ts).cases[e]; ParentStopped in c.events && !c.events[ParentStopped].processed
  {
    hide History, SysInv, CaseInv, CallLinked, OriginLinked, Reasons;
    HistoryInvariant(ts);
    LinkedOf(History(ts), e);
  }

  /**
   * A pending call has a child that is still running, or was cancelled and waits to be
   * finalized; a completed call holds the final state of a completed child.
   */
  lemma CallsAgreeWithChildren(ts: seq<Transaction>, e: EId, at: At)
    requires e in History(ts).cases && at in History(ts).cases[e].calls
    ensures CallLinked(History(ts), e, at)
  {
    hide History, SysInv, CaseInv, CallLinked, ParentLinked, OriginLinked, Reasons;
    HistoryInvariant(ts);
    LinkedOf(History(ts), e);
  }

  /** No execution ever fails on a mismatched wake-up, an invalid child result or an invalid answer. */
  lemma GuardsAreUnreachable(ts: seq<Transaction>, e: EId)
    requires e in History(ts).cases
    ensures History(ts).cases[e].error != Some(WakeMismatch)
    ensures History(ts).cases[e].error != Some(SubworkflowResultInvalid)
    ensures History(ts).cases[e].error != Some(WaitResolutionInvalid)
    ensures History(ts).cases[e].core.steps <= History(ts).cases[e].d.maxSteps
  {
    hide History, SysInv, CallLinked, ParentLinked, OriginLinked, Ready, Refines, Events, Rows, Phase, Awake, OnlyLive, Good, Served;
    HistoryInvariant(ts);
    LinkedOf(History(ts), e);
  }

  // ---------------------------------------------------------------- settled once

  lemma {:induction false} HistoryProgress(ts: seq<Transaction>, more: seq<Transaction>)
    ensures Progress(History(ts), History(ts + more), History(ts).nextToken)
    decreases |more|
  {
    hide History, Next, SysInv, Lasting;
    if more == [] {
      assert ts + more == ts;
      ProgressSelf(History(ts));
    } else {
      var n := |more| - 1;
      var all, before := ts + more, ts + more[..n];
      assert all[..|all| - 1] == before && all[|all| - 1] == more[n];
      HistoryProgress(ts, more[..n]);
      HistoryInvariant(before);
      NextKeeps(History(before), more[n]);
      HistorySnoc(all);
      ProgressCompose(History(ts), History(before), History(all), History(ts).nextToken);
    }
  }

  lemma HistorySnoc(ts: seq<Transaction>)
    requires ts != []
    ensures History(ts) == Next(History(ts[..|ts| - 1]), ts[|ts| - 1])
  {
    hide Next;
  }

  lemma ProgressSelf(s: Sys)
    ensures Progress(s, s, s.nextToken)
  {
  }

  lemma ProgressCompose(s: Sys, m: Sys, t: Sys, floor: nat)
    requires Progress(s, m, floor) && Progress(m, t, m.nextToken) && floor <= m.nextToken
    ensures Progress(s, t, floor)
  {
    hide Lasting;
    forall e | e in s.cases ensures e in t.cases && Lasting(s, t, e, floor) {
      assert Lasting(s, m, e, floor);
      assert Lasting(m, t, e, m.nextToken);
      LastingCompose(s, m, t, e, floor);
    }
  }

  lemma LastingCompose(s: Sys, m: Sys, t: Sys, e: EId, floor: nat)
    requires e in s.cases && e in m.cases && e in t.cases && floor <= m.nextToken
    requires Lasting(s, m, e, floor) && Lasting(m, t, e, m.nextToken)
    ensures Lasting(s, t, e, floor)
  {
  }

  /** A wait or a call settles once: whatever happens later, its row stays as it was settled. */
  lemma SettledOnce(ts: seq<Transaction>, more: seq<Transaction>, e: EId)
    requires e in History(ts).cases
    ensures e in History(ts + more).cases && SettledKept(History(ts).cases[e], History(ts + more).cases[e])
  {
    hide History, SettledKept;
    HistoryProgress(ts, more);
    assert Lasting(History(ts), History(ts + more), e, History(ts).nextToken);
  }

  // ---------------------------------------------------------------- stale claims

  lemma CommitNothing(s: Sys, e: EId)
    requires e in s.cases
    ensures Commit(s, e, s.cases[e], None, false) == s
  {
    assert Dropped(s.cases[e], s.cases[e]) == {};
    assert s.cases[e := s.cases[e]] == s.cases;
    assert Tell(s, {}).cases == s.cases;
  }

  /** An advance with a token that is not the current one changes nothing at all. */
  lemma StaleAdvance(s: Sys, t: Transaction)
    requires t.Advance? && t.e in s.cases && s.cases[t.e].token != Some(t.token)
    ensures Next(s, t) == s
  {
    hide Commit, Finals, IsStopped, Served;
    CommitNothing(s, t.e);
  }

  /** An advance that changes anything held the current claim, and gives it up. */
  lemma AdvanceSpends(s: Sys, t: Transaction)
    requires SysInv(s) && t.Advance? && t.e in s.cases && Next(s, t) != s
    ensures s.cases[t.e].token == Some(t.token) && t.token < s.nextToken
    ensures t.e in Next(s, t).cases && Next(s, t).cases[t.e].token.None?
  {
    hide SysInv, CaseInv, Linked, Reasons, Commit, AdvanceCase, Served, Finals, IsStopped, Advances, FinalsAgree;
    LinkedOf(s, t.e);
    TokenBound(s, t.e);
    if s.cases[t.e].token != Some(t.token) {
      StaleAdvance(s, t);
    }
    var c' := Advanced(s, t);
    var child := if t.childDefinition.Some? && Served(t.childDefinition.value) then Some(s.nextId) else None;
    if t.k == ParentStopped {
      StopIsKnown(s, t.e);
    }
    if IsStopped(s, t.e) {
      StoppedHasParent(s, t.e);
    }
    FinalsOf(s, t.e);
    AdvanceAdvances(s.cases[t.e], t.k, t.token, s.now, IsStopped(s, t.e), Env(t.refused, child, Finals(s)));
    AdvanceWrites(s, t, c', child);
  }

  lemma AdvanceWrites(s: Sys, t: Transaction, c': Case, child: Option<EId>)
    requires SysInv(s) && t.Advance? && t.e in s.cases && Advances(s.cases[t.e], c', child)
    ensures var s' := Commit(s, t.e, c', ChildOf(s, t.e, c', t.childDefinition), Terminal(c') && !Terminal(s.cases[t.e]));
            t.e in s'.cases && s'.cases[t.e] == c' && (c' == s.cases[t.e] ==> s' == s)
    ensures c' == s.cases[t.e] || c'.token.None?
  {
    hide SysInv, CaseInv, Commit, Reasons, CallLinked, OriginLinked, SettledKept, After;
    var c := s.cases[t.e];
    var born := ChildOf(s, t.e, c', t.childDefinition);
    var settle := Terminal(c') && !Terminal(c);
    LinkedOf(s, t.e);
    FreshId(s);
    DroppedAreChildren(s, t.e, c');
    CommitWrites(s, t.e, c', born, settle);
    AfterSelf(s, t.e, c', born, settle);
    if c' == c {
      CommitNothing(s, t.e);
    }
  }

  /**
   * A claim moves an execution at most once: after an advance that changed anything, every
   * later advance with the same token, in whatever order workers act, changes nothing.
   */
  lemma ClaimAdvancesOnce(ts: seq<Transaction>, t: Transaction, more: seq<Transaction>, again: Transaction)
    requires t.Advance? && again.Advance? && again.e == t.e && again.token == t.token
    requires t.e in History(ts).cases && Next(History(ts), t) != History(ts)
    ensures Next(History(ts + [t] + more), again) == History(ts + [t] + more)
  {
    hide History, SysInv, Next;
    var s, taken := History(ts), ts + [t];
    HistoryInvariant(ts);
    AdvanceSpends(s, t);
    assert taken[..|taken| - 1] == ts && taken[|taken| - 1] == t;
    HistorySnoc(taken);
    NextKeeps(s, t);
    HistoryProgress(taken, more);
    assert Lasting(History(taken), History(taken + more), t.e, History(taken).nextToken);
    StaleAdvance(History(taken + more), again);
  }

  // ---------------------------------------------------------------- refinement of the sequential interpreter

  /** The checkpoints of a deterministic execution are the interpreter's successive records. */
  lemma {:induction false} CheckpointsIterate(c: Case, k: nat)
    requires Refines(c) && Deterministic(c.d) && k < |c.checkpoints|
    ensures Iterate(c.d, c.checkpoints[0], k) == Some(c.checkpoints[k])
    ensures c.checkpoints[k].state == c.checkpoints[0].state && c.checkpoints[k].steps == c.checkpoints[0].steps + k
    decreases k
  {
    hide Step, Deterministic, OutsideOf, Refines;
    if k > 0 {
      CheckpointsIterate(c, k - 1);
      ExplainedAt(c, k - 1);
      DeterministicStep(c.d, c.checkpoints[k - 1], OutsideOf(c, c.checkpoints[k - 1]));
    } else {
      assert c.checkpoints[k] == c.checkpoints[0];
    }
  }

  lemma RefinesOf(c: Case, now: nat)
    requires CaseInv(c, now)
    ensures Refines(c)
  {
    hide Sound, Refines, Events, Rows, Phase, Awake, OnlyLive;
  }

  /** Every checkpoint of a deterministic execution is the sequential interpreter's record after that many steps. */
  lemma {:induction false} CheckpointIsInterpreted(s: Sys, e: EId, k: nat)
    requires SysInv(s) && e in s.cases && Deterministic(s.cases[e].d) && k < |s.cases[e].checkpoints|
    ensures var c := s.cases[e];
            Iterate(c.d, Fresh(c.d, c.checkpoints[k].state), c.checkpoints[k].steps) == Some(c.checkpoints[k])
    decreases e
  {
    hide SysInv, CaseInv, ParentLinked, CallLinked, Reasons, Deterministic, Refines, Step;
    var c := s.cases[e];
    LinkedOf(s, e);
    RefinesOf(c, s.now);
    CheckpointsIterate(c, k);
    CheckpointsIterate(c, 0);
    if c.origin.Some? {
      CheckpointIsInterpreted(s, c.origin.value.source, c.origin.value.checkpoint);
      IterateCompose(c.d, Fresh(c.d, c.checkpoints[k].state), c.checkpoints[0].steps, k);
    }
  }

  /** The record of any deterministic execution, forked and child executions included, is one the interpreter reaches. */
  lemma RecordIsInterpreted(ts: seq<Transaction>, e: EId)
    requires e in History(ts).cases && Deterministic(History(ts).cases[e].d)
    ensures var c := History(ts).cases[e];
            Iterate(c.d, Fresh(c.d, c.core.state), c.core.steps) == Some(c.core)
  {
    hide History, SysInv, Linked, CaseInv, Deterministic, Refines, Step, Iterate;
    HistoryInvariant(ts);
    var s := History(ts);
    LinkedOf(s, e);
    RefinesOf(s.cases[e], s.now);
    LastIsCore(s.cases[e]);
    CheckpointIsInterpreted(s, e, |s.cases[e].checkpoints| - 1);
  }

  /** A start creates the execution it was asked for, from its input. */
  lemma StartCreates(ts: seq<Transaction>, d: Definition, input: State)
    requires Served(d)
    ensures var s, e := History(ts + [Start(d, input)]), History(ts).nextId;
            && e in s.cases && s.cases[e].d == d && s.cases[e].checkpoints == [Fresh(d, input)]
            && s.cases[e].parent.None? && s.cases[e].origin.None?
            && s.cases[e].status == Queued && s.cases[e].core == Fresh(d, input) && s.cases[e].deadline == s.now + d.maxDuration
            && s.cases[e].events == map[ReadyEvent(1) := Outbox(s.now, false, false)]
  {
    hide Served;
    var all := ts + [Start(d, input)];
    assert all[..|all| - 1] == ts && all[|all| - 1] == Start(d, input);
    HistorySnoc(all);
  }

  /** Whatever happens later, an execution keeps its definition, its origin and its first record. */
  lemma FirstRecordLasts(ts: seq<Transaction>, more: seq<Transaction>, e: EId)
    requires e in History(ts).cases && History(ts).cases[e].checkpoints != []
    ensures var c, h := History(ts).cases[e], History(ts + more);
            && e in h.cases && h.cases[e].d == c.d && h.cases[e].parent == c.parent && h.cases[e].origin == c.origin
            && h.cases[e].checkpoints != [] && h.cases[e].checkpoints[0] == c.checkpoints[0]
  {
    hide History, SettledKept;
    HistoryProgress(ts, more);
    assert Lasting(History(ts), History(ts + more), e, History(ts).nextToken);
  }

  /**
   * Refinement: once started on an input, a deterministic execution has at every later moment
   * the sequential interpreter's record of that input after `steps` steps, whatever workers,
   * crashes, lease expiries and stale claims did.
   */
  lemma ExecutionRefinesInterpreter(ts: seq<Transaction>, d: Definition, input: State, more: seq<Transaction>)
    requires Served(d) && Deterministic(d)
    ensures var s, e := History(ts + [Start(d, input)] + more), History(ts).nextId;
            && e in s.cases && s.cases[e].d == d && s.cases[e].core.state == input
            && Iterate(d, Fresh(d, input), s.cases[e].core.steps) == Some(s.cases[e].core)
  {
    hide History, SysInv, Linked, CaseInv, Served, Deterministic, Refines, Step, Iterate;
    var started, e := ts + [Start(d, input)], History(ts).nextId;
    StartCreates(ts, d, input);
    FirstRecordLasts(started, more, e);
    HistoryInvariant(started + more);
    var s := History(started + more);
    LinkedOf(s, e);
    RefinesOf(s.cases[e], s.now);
    LastIsCore(s.cases[e]);
    CheckpointsIterate(s.cases[e], |s.cases[e].checkpoints| - 1);
  }

  /** With outside inputs too, each checkpoint is the interpreter's step from the one before on the recorded input. */
  lemma ExecutionIsExplained(ts: seq<Transaction>, e: EId)
    requires e in History(ts).cases
    ensures Refines(History(ts).cases[e])
  {
    hide History, SysInv, Linked, CaseInv, Refines;
    HistoryInvariant(ts);
    LinkedOf(History(ts), e);
    RefinesOf(History(ts).cases[e], History(ts).now);
  }

  // ---------------------------------------------------------------- replay

  datatype Verdict = StillRunning | Matched | Diverged | ReplayCancelled | ReplayFailed

  /** `settle_workflow_replay`, with the digest of a value standing for the value. */
  function ReplayVerdict(source: Core, replay: Case): Verdict {
    if replay.status == Completed then
      if replay.core.state == source.state && replay.core.path == source.path then Matched else Diverged
    else if replay.status == Stopped then ReplayCancelled
    else if replay.status == Failed then ReplayFailed
    else StillRunning
  }

  /** A replay matched exactly when it completed with the state and the path of its source. */
  lemma VerdictMeans(source: Core, replay: Case)
    ensures ReplayVerdict(source, replay) == Matched <==>
            replay.status == Completed && replay.core.state == source.state && replay.core.path == source.path
    ensures ReplayVerdict(source, replay) == Diverged <==>
            replay.status == Completed && (replay.core.state != source.state || replay.core.path != source.path)
    ensures ReplayVerdict(source, replay) == ReplayCancelled <==> replay.status == Stopped
    ensures ReplayVerdict(source, replay) == ReplayFailed <==> replay.status == Failed
  {
  }

  /** The replay's record after `j` steps is the source's checkpoint `j` places on, as long as there is one. */
  lemma ReplayFollows(s: Sys, e: EId, j: nat)
    requires SysInv(s) && e in s.cases && s.cases[e].origin.Some? && Deterministic(s.cases[e].d) && j < |s.cases[e].checkpoints|
    requires s.cases[e].origin.value.source in s.cases && s.cases[s.cases[e].origin.value.source].status == Completed
    ensures var c, o := s.cases[e], s.cases[e].origin.value;
            var p := s.cases[o.source];
            && p.d == c.d && o.checkpoint + j < |p.checkpoints| && c.checkpoints[j] == p.checkpoints[o.checkpoint + j]
  {
    hide SysInv, CaseInv, ParentLinked, CallLinked, Reasons, Deterministic, Refines, Step;
    var c, o := s.cases[e], s.cases[e].origin.value;
    var p := s.cases[o.source];
    LinkedOf(s, e);
    LinkedOf(s, o.source);
    RefinesOf(c, s.now);
    RefinesOf(p, s.now);
    CompletedIsEmpty(p, s.now);
    LastIsCore(p);
    CheckpointsIterate(c, j);
    var last := |p.checkpoints| - 1;
    CheckpointsIterate(p, o.checkpoint);
    CheckpointsIterate(p, last);
    IterateCompose(p.d, p.checkpoints[0], o.checkpoint, last - o.checkpoint);
    EmptyStops(p.d, p.core);
    if o.checkpoint + j > last {
      SameEnd(p.d, c.checkpoints[0], last - o.checkpoint, j, p.core, c.checkpoints[j]);
    } else {
      CheckpointsIterate(p, o.checkpoint + j);
      IterateCompose(p.d, p.checkpoints[0], o.checkpoint, j);
    }
  }

  lemma CompletedIsEmpty(c: Case, now: nat)
    requires CaseInv(c, now) && c.status == Completed
    ensures c.core.current == []
  {
    hide Refines, Events, Rows, Phase, Awake, OnlyLive, Good, Served;
  }

  lemma LastIsCore(c: Case)
    requires Refines(c)
    ensures c.checkpoints != [] && c.checkpoints[|c.checkpoints| - 1] == c.core
  {
    hide Explained;
  }

  /** The reasons for which an execution ends early that do not come from its definition and state. */
  const EXTERNAL: set<Failure> := {DeadlineExceeded, PolicyRefused, CancelledByCaller}

  /**
   * Replay determinism: a replay of a completed deterministic execution, from any of its
   * checkpoints and under any interleaving, is still running or settles as matched, unless its
   * deadline passed, a policy refused a node or its caller cancelled it.
   */
  lemma ReplayMatches(ts: seq<Transaction>, e: EId)
    requires e in History(ts).cases && History(ts).cases[e].origin.Some? && Deterministic(History(ts).cases[e].d)
    requires var o := History(ts).cases[e].origin.value;
             o.source in History(ts).cases && History(ts).cases[o.source].status == Completed
    ensures var c := History(ts).cases[e];
            var source := History(ts).cases[c.origin.value.source];
            if c.error.Some? then c.error.value in EXTERNAL && ReplayVerdict(source.core, c) in {ReplayFailed, ReplayCancelled}
            else if Terminal(c) then ReplayVerdict(source.core, c) == Matched && c.core == source.core
            else ReplayVerdict(source.core, c) == StillRunning
  {
    hide History, SysInv, CaseInv, Deterministic, Refines, Step, Reasons, ParentLinked, CallLinked;
    var s := History(ts);
    HistoryInvariant(ts);
    var c, o := s.cases[e], s.cases[e].origin.value;
    var p := s.cases[o.source];
    LinkedOf(s, e);
    LinkedOf(s, o.source);
    RefinesOf(c, s.now);
    RefinesOf(p, s.now);
    LastIsCore(c);
    LastIsCore(p);
    var j := |c.checkpoints| - 1;
    ReplayFollows(s, e, j);
    CompletedIsEmpty(p, s.now);
    if c.status == Completed {
      CompletedIsEmpty(c, s.now);
    }
    if o.checkpoint + j < |p.checkpoints| - 1 {
      ReplayedPartly(s, e, o.source, o.checkpoint + j);
    }
    ReasonsLeft(c);
    NoBlocks(c.d);
  }

  /** A root execution of a definition without blocking nodes ends early for few reasons. */
  lemma ReasonsLeft(c: Case)
    requires Reasons(c)
    ensures c.error.Some? && c.parent.None? && !Blocks(c.d) ==>
              c.error.value in EXTERNAL + {StepLimitExceeded, NoReadyNode}
    ensures c.error.Some? ==> c.status in {Failed, Stopped, Completed} && c.core.current != []
    ensures c.status in {Failed, Stopped} ==> c.error.Some?
  {
    hide Ready, Blocks;
    if c.error.Some? {
      EveryReason(c.error.value);
    }
  }

  lemma EveryReason(f: Failure)
    ensures f in BLOCKING + EXTERNAL + {StepLimitExceeded, NoReadyNode, WakeMismatch, SubworkflowResultInvalid,
                                        WaitResolutionInvalid, ParentGone}
  {
    match f
    case _ =>
  }

  lemma NoBlocks(d: Definition)
    requires Deterministic(d)
    ensures !Blocks(d)
  {
  }

  /** Before the source's last record the replay has a ready node and a step to spare. */
  lemma ReplayedPartly(s: Sys, e: EId, source: EId, k: nat)
    requires SysInv(s) && e in s.cases && source in s.cases
    requires var c, p := s.cases[e], s.cases[source];
             c.d == p.d && k < |p.checkpoints| - 1 && c.core == p.checkpoints[k]
    ensures s.cases[e].status != Completed
    ensures s.cases[e].error != Some(StepLimitExceeded) && s.cases[e].error != Some(NoReadyNode)
  {
    hide SysInv, CaseInv, Linked, Reasons, Refines, Step, Served, Good;
    var c, p := s.cases[e], s.cases[source];
    LinkedOf(s, e);
    LinkedOf(s, source);
    TokenBound(s, e);
    RefinesOf(p, s.now);
    ExplainedAt(p, k);
    StepsRise(p, k);
    LastIsCore(p);
    CheckpointSound(p, |p.checkpoints| - 1, s.now);
    StepNeedsReady(p.d, c.core, OutsideOf(p, c.core));
    if c.status == Completed {
      CompletedIsEmpty(c, s.now);
    }
    ReasonsOf(c);
  }

  lemma ReasonsOf(c: Case)
    requires Reasons(c)
    ensures c.error == Some(StepLimitExceeded) ==> c.core.steps >= c.d.maxSteps
    ensures c.error == Some(NoReadyNode) ==> Ready(c.d, c.core) == []
  {
    hide Ready, Blocks;
  }
}
