/** Every execution is a run of the interpreter, so what holds of every run holds of every execution. */
module EngineRuns {
  import opened Ids
  import opened Json
  import opened Graphs
  import opened Definitions
  import opened Interpreter
  import opened RunBounds
  import opened RunLength
  import opened Engine
  import opened EngineCases
  import opened EngineLinks
  import opened EngineTheorems
  import opened EngineResults

  /** The run of `outs` from a fresh start ends at `y`. */
  ghost predicate RunsTo(d: Definition, input: State, outs: seq<Outside>, y: Core) {
    Run(d, Fresh(d, input), outs) == Some(y) && |outs| == y.steps
  }

  ghost predicate IsRun(d: Definition, y: Core) {
    exists input: State, outs: seq<Outside> :: RunsTo(d, input, outs, y)
  }

  lemma RunGrows(d: Definition, x: Core, outside: Outside, y: Core)
    requires IsRun(d, x) && Step(d, x, outside) == Some(y)
    ensures IsRun(d, y)
  {
    hide Step;
    var input: State, outs: seq<Outside> :| RunsTo(d, input, outs, x);
    var more := outs + [outside];
    assert more[..|more| - 1] == outs && more[|more| - 1] == outside;
    StepAddsOne(d, x, outside, y);
    assert RunsTo(d, input, more, y);
  }

  lemma FreshIsRun(d: Definition, input: State)
    ensures IsRun(d, Fresh(d, input))
  {
    assert RunsTo(d, input, [], Fresh(d, input));
  }

  lemma {:induction false} CheckpointIsRun(s: Sys, e: EId, k: nat)
    requires SysInv(s) && e in s.cases && k < |s.cases[e].checkpoints|
    ensures IsRun(s.cases[e].d, s.cases[e].checkpoints[k])
    decreases e, k
  {
    hide SysInv, CaseInv, ParentLinked, CallLinked, Reasons, Refines, Step, IsRun, Fresh, OutsideOf;
    var c := s.cases[e];
    LinkedOf(s, e);
    RefinesOf(c, s.now);
    if k > 0 {
      CheckpointIsRun(s, e, k - 1);
      ExplainedAt(c, k - 1);
      RunGrows(c.d, c.checkpoints[k - 1], OutsideOf(c, c.checkpoints[k - 1]), c.checkpoints[k]);
    } else if c.origin.Some? {
      CheckpointIsRun(s, c.origin.value.source, c.origin.value.checkpoint);
    } else {
      FreshIsRun(c.d, c.checkpoints[0].state);
    }
  }

  lemma ReachedByRun(ts: seq<Transaction>, e: EId)
    requires e in History(ts).cases
    ensures IsRun(History(ts).cases[e].d, History(ts).cases[e].core)
  {
    hide History, SysInv, Linked, CaseInv, Refines, IsRun;
    var s := History(ts);
    HistoryInvariant(ts);
    LinkedOf(s, e);
    RefinesOf(s.cases[e], s.now);
    LastIsCore(s.cases[e]);
    CheckpointIsRun(s, e, |s.cases[e].checkpoints| - 1);
  }

  // ---------------------------------------------------------------- the run on the recorded inputs

  /** The outside inputs on record, one for each step since the first checkpoint. */
  function Recorded(c: Case): (outs: seq<Outside>)
    requires c.checkpoints != []
    ensures |outs| == |c.checkpoints| - 1
    ensures forall k | 0 <= k < |outs| :: outs[k] == OutsideOf(c, c.checkpoints[k])
  {
    seq(|c.checkpoints| - 1, k requires 0 <= k < |c.checkpoints| - 1 => OutsideOf(c, c.checkpoints[k]))
  }

  lemma {:induction false} RecordedRun(c: Case, k: nat)
    requires Refines(c) && c.checkpoints != [] && k < |c.checkpoints|
    ensures Run(c.d, c.checkpoints[0], Recorded(c)[..k]) == Some(c.checkpoints[k])
    ensures c.checkpoints[k].steps == c.checkpoints[0].steps + k
    decreases k
  {
    hide Step, OutsideOf, Refines;
    if k > 0 {
      RecordedRun(c, k - 1);
      ExplainedAt(c, k - 1);
      StepAddsOne(c.d, c.checkpoints[k - 1], OutsideOf(c, c.checkpoints[k - 1]), c.checkpoints[k]);
      assert Recorded(c)[..k][..k - 1] == Recorded(c)[..k - 1];
    }
  }

  /** The execution is the interpreter's run from its first record on the inputs on record. */
  ghost predicate RunsAsRecorded(c: Case) {
    && c.checkpoints != [] && Run(c.d, c.checkpoints[0], Recorded(c)) == Some(c.core)
    && c.core.steps == c.checkpoints[0].steps + |Recorded(c)|
  }

  /**
   * Refinement with waits, subworkflows, forks and replays: in every reachable state every
   * execution is the interpreter's run from its first record on exactly the responses and child
   * results on record, one per step.
   */
  lemma ExecutionIsRun(ts: seq<Transaction>, e: EId)
    requires e in History(ts).cases
    ensures RunsAsRecorded(History(ts).cases[e])
  {
    hide History, SysInv, Linked, CaseInv, Refines, Run, Recorded;
    var s := History(ts);
    var c := s.cases[e];
    HistoryInvariant(ts);
    LinkedOf(s, e);
    RefinesOf(c, s.now);
    LastIsCore(c);
    RecordedRun(c, |c.checkpoints| - 1);
    assert Recorded(c)[..|Recorded(c)|] == Recorded(c);
  }

  /** A started execution is the interpreter's run of the input it was started on. */
  lemma StartedExecutionIsRun(ts: seq<Transaction>, d: Definition, input: State, more: seq<Transaction>)
    requires Served(d)
    ensures var s, e := History(ts + [Start(d, input)] + more), History(ts).nextId;
            && e in s.cases && s.cases[e].d == d && s.cases[e].checkpoints != []
            && Run(d, Fresh(d, input), Recorded(s.cases[e])) == Some(s.cases[e].core)
            && s.cases[e].core.steps == |Recorded(s.cases[e])|
  {
    hide History, Served, Run, Recorded;
    var started, e := ts + [Start(d, input)], History(ts).nextId;
    StartCreates(ts, d, input);
    FirstRecordLasts(started, more, e);
    ExecutionIsRun(started + more, e);
  }

  lemma ForkCreates(ts: seq<Transaction>, source: EId, k: nat)
    requires source in History(ts).cases && k < |History(ts).cases[source].checkpoints|
    requires History(ts).cases[source].checkpoints[k].current != []
    ensures var s, e, p := History(ts + [Fork(source, k)]), History(ts).nextId, History(ts).cases[source];
            && e in s.cases && s.cases[e].d == p.d && s.cases[e].checkpoints == [p.checkpoints[k]]
            && s.cases[e].status == Queued && s.cases[e].core == p.checkpoints[k] && s.cases[e].origin == Some(Origin(source, k))
            && s.cases[e].deadline == s.now + p.d.maxDuration
  {
    hide Served;
    var all := ts + [Fork(source, k)];
    assert all[..|all| - 1] == ts && all[|all| - 1] == Fork(source, k);
    HistorySnoc(all);
  }

  /** A forked execution is the interpreter's run from the checkpoint it was forked at. */
  lemma ForkedExecutionIsRun(ts: seq<Transaction>, source: EId, k: nat, more: seq<Transaction>)
    requires source in History(ts).cases && k < |History(ts).cases[source].checkpoints|
    requires History(ts).cases[source].checkpoints[k].current != []
    ensures var s, e, p := History(ts + [Fork(source, k)] + more), History(ts).nextId, History(ts).cases[source];
            && e in s.cases && s.cases[e].d == p.d && s.cases[e].checkpoints != []
            && Run(p.d, p.checkpoints[k], Recorded(s.cases[e])) == Some(s.cases[e].core)
  {
    hide History, Run, Recorded;
    var forked, e := ts + [Fork(source, k)], History(ts).nextId;
    ForkCreates(ts, source, k);
    FirstRecordLasts(forked, more, e);
    ExecutionIsRun(forked + more, e);
  }

  /** An accepted response stays on record, exactly as it was given. */
  lemma ResponseIsRecorded(ts: seq<Transaction>, e: EId, at: At, reply: Reply, more: seq<Transaction>)
    requires e in History(ts).cases && ReplyAccepted(History(ts).cases[e], at, reply, History(ts).now)
    ensures var s := History(ts + [Respond(e, at, reply)] + more);
            && e in s.cases && at in s.cases[e].waits && s.cases[e].waits[at].status == WaitResolved
            && s.cases[e].waits[at].resolution == Some(reply.resolution) && s.cases[e].waits[at].payload == reply.payload
  {
    hide History, SysInv, SettledKept, ReplyAccepted, Commit, RespondCase;
    var all := ts + [Respond(e, at, reply)];
    assert all[..|all| - 1] == ts && all[|all| - 1] == Respond(e, at, reply);
    HistorySnoc(all);
    HistoryInvariant(ts);
    var s := History(ts);
    RespondWrites(s, e, at, reply);
    SettledOnce(all, more, e);
    KeptWait(History(all).cases[e], History(all + more).cases[e], at);
  }

  lemma KeptWait(c: Case, c': Case, at: At)
    requires SettledKept(c, c') && at in c.waits && c.waits[at].status != WaitPending
    ensures at in c'.waits && c'.waits[at] == c.waits[at]
  {
  }

  lemma RespondWrites(s: Sys, e: EId, at: At, reply: Reply)
    requires SysInv(s) && e in s.cases && ReplyAccepted(s.cases[e], at, reply, s.now)
    ensures var s' := Commit(s, e, RespondCase(s.cases[e], at, reply, s.now), None, false);
            && e in s'.cases && at in s'.cases[e].waits && s'.cases[e].waits[at].status == WaitResolved
            && s'.cases[e].waits[at].resolution == Some(reply.resolution) && s'.cases[e].waits[at].payload == reply.payload
  {
    hide SysInv, CaseInv, Commit, Reasons, CallLinked, OriginLinked, After;
    var c' := RespondCase(s.cases[e], at, reply, s.now);
    LinkedOf(s, e);
    FreshId(s);
    DroppedAreChildren(s, e, c');
    CommitWrites(s, e, c', None, false);
    AfterSelf(s, e, c', None, false);
  }

  // ---------------------------------------------------------------- the input of a child

  /** The child started on the state that its parent's checkpoint `j`, the one of the call, holds. */
  ghost predicate StartedAt(p: Case, at: At, c: Case, j: nat) {
    && j < |p.checkpoints| && p.checkpoints[j].steps == at.step
    && c.checkpoints != [] && c.checkpoints[0] == Fresh(c.d, p.checkpoints[j].state)
  }

  ghost predicate ChildFits(s: Sys, e: EId)
    requires e in s.cases
  {
    var link := s.cases[e].parent;
    link.Some? ==> link.value.parent in s.cases && exists j: nat :: StartedAt(s.cases[link.value.parent], link.value.at, s.cases[e], j)
  }

  /** Only an advance adds an execution with a parent, on the state of that parent. */
  lemma NewChild(s: Sys, t: Transaction, e: EId)
    requires SysInv(s) && e !in s.cases && e in Next(s, t).cases && Next(s, t).cases[e].parent.Some?
    ensures var c := Next(s, t).cases[e];
            var link := c.parent.value;
            && link.parent in s.cases && link.at == Here(s.cases[link.parent])
            && c.checkpoints == [Fresh(c.d, s.cases[link.parent].core.state)]
  {
    hide SysInv, Commit, Served, AdvanceCase, ClaimCase, RespondCase, CancelCase, Done, Finals, IsStopped, ChildOf, Advanced, Here, Fresh;
    match t
    case Advance(p, k, _, _, d) =>
      var c' := Advanced(s, t);
      NewInCommit(s, p, c', ChildOf(s, p, c', d), Terminal(c') && !Terminal(s.cases[p]), e);
      ChildOfFields(s, p, c', d);
    case Claim(p, k, lease) => NewInCommit(s, p, ClaimCase(s.cases[p], k, s.now, s.nextToken, lease), None, false, e);
    case Respond(p, at, reply) => NewInCommit(s, p, RespondCase(s.cases[p], at, reply, s.now), None, false, e);
    case Cancel(p) => NewInCommit(s, p, CancelCase(s.cases[p], s.now), None, false, e);
    case FinalizeCancelled(p) => NewInCommit(s, p, Done(s.cases[p], Finalize), None, s.cases[p].status == Stopped, e);
    case _ =>
  }

  lemma NewInCommit(s: Sys, p: EId, c': Case, child: Option<Case>, settle: bool, e: EId)
    requires p in s.cases && e !in s.cases && e in Commit(s, p, c', child, settle).cases
    ensures child.Some? && e == s.nextId
    ensures var c := Commit(s, p, c', child, settle).cases[e];
            c.parent == child.value.parent && c.d == child.value.d && c.checkpoints == child.value.checkpoints
  {
    hide Dropped;
  }

  lemma ChildOfFields(s: Sys, e: EId, c': Case, d: Option<Definition>)
    requires e in s.cases && ChildOf(s, e, c', d).Some?
    ensures var child := ChildOf(s, e, c', d).value;
            && child.parent == Some(Link(e, Here(s.cases[e])))
            && child.checkpoints == [Fresh(child.d, s.cases[e].core.state)]
  {
    hide Here, Fresh;
  }

  lemma ChildLasts(s: Sys, s': Sys, e: EId)
    requires e in s.cases && ChildFits(s, e) && Progress(s, s', s.nextToken)
    ensures e in s'.cases && ChildFits(s', e)
  {
    hide SettledKept, Fresh;
    assert Lasting(s, s', e, s.nextToken);
    var link := s.cases[e].parent;
    if link.Some? {
      assert Lasting(s, s', link.value.parent, s.nextToken);
      var j: nat :| StartedAt(s.cases[link.value.parent], link.value.at, s.cases[e], j);
      assert StartedAt(s'.cases[link.value.parent], link.value.at, s'.cases[e], j);
    }
  }

  lemma ChildBegins(s: Sys, t: Transaction, e: EId)
    requires SysInv(s) && Progress(s, Next(s, t), s.nextToken) && e !in s.cases && e in Next(s, t).cases
    ensures ChildFits(Next(s, t), e)
  {
    hide SysInv, CaseInv, Linked, Next, SettledKept, Fresh, Refines;
    var s' := Next(s, t);
    if s'.cases[e].parent.Some? {
      NewChild(s, t, e);
      var link := s'.cases[e].parent.value;
      var p := s.cases[link.parent];
      LinkedOf(s, link.parent);
      RefinesOf(p, s.now);
      LastIsCore(p);
      assert Lasting(s, s', link.parent, s.nextToken);
      assert StartedAt(s'.cases[link.parent], link.at, s'.cases[e], |p.checkpoints| - 1);
    }
  }

  /** In every reachable state every child execution started on the state its parent had at the call. */
  lemma {:induction false} ChildStartsFromParent(ts: seq<Transaction>, e: EId)
    requires e in History(ts).cases
    ensures ChildFits(History(ts), e)
    decreases |ts|
  {
    hide Next, SysInv, Progress, ChildFits;
    if ts != [] {
      var before, t := ts[..|ts| - 1], ts[|ts| - 1];
      var s := History(before);
      HistoryInvariant(before);
      NextKeeps(s, t);
      if e in s.cases {
        ChildStartsFromParent(before, e);
        ChildLasts(s, Next(s, t), e);
      } else {
        ChildBegins(s, t, e);
      }
    }
  }

  // ---------------------------------------------------------------- bounded executions

  /** Every cycle of the definition uses a `continue` edge of a loop. */
  ghost predicate LoopsClose(d: Definition) {
    !Has(d, {Parallel}) && !HasCycle(ForwardArcs(d))
  }

  lemma ServedIsExecutable(c: Case, now: nat)
    requires CaseInv(c, now)
    ensures Executable(c.d)
  {
    hide Executable, Refines, Events, Rows, Phase, Awake, OnlyLive, Good, Has;
  }

  /**
   * An execution of such a definition takes no more steps than its loops allow, and if the step
   * limit allows as many, the limit never ends it.
   */
  lemma LoopsBoundExecution(ts: seq<Transaction>, e: EId)
    requires e in History(ts).cases && LoopsClose(History(ts).cases[e].d)
    ensures var c := History(ts).cases[e];
            && c.core.steps + |c.core.current| <= Longest(c.d)
            && (Longest(c.d) <= c.d.maxSteps ==> c.error != Some(StepLimitExceeded))
  {
    hide History, SysInv, Linked, CaseInv, Longest, Reasons, Run, Executable, Has, ForwardArcs;
    var s := History(ts);
    var c := s.cases[e];
    HistoryInvariant(ts);
    LinkedOf(s, e);
    ServedIsExecutable(c, s.now);
    ReachedByRun(ts, e);
    var input: State, outs: seq<Outside> :| RunsTo(c.d, input, outs, c.core);
    RunIsBounded(c.d, input, outs, c.core);
    PathIsSteps(c, s.now);
    TokenBound(s, e);
    LimitReason(c);
  }

  lemma PathIsSteps(c: Case, now: nat)
    requires CaseInv(c, now)
    ensures c.core.steps == |c.core.path|
  {
    hide Served, Refines, Events, Rows, Phase, Awake, OnlyLive, Serial;
  }

  lemma LimitReason(c: Case)
    requires Reasons(c)
    ensures c.error == Some(StepLimitExceeded) ==> c.core.steps >= c.d.maxSteps && c.core.current != []
  {
    hide Ready, Blocks;
  }
}
