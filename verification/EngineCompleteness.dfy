/**
 * The converse of refinement: whatever the sequential interpreter can do with a deterministic
 * definition, the engine does when a worker serves the execution, one claim and one advance
 * per step.
 */
module EngineCompleteness {
  import opened Ids
  import opened Json
  import opened Definitions
  import opened Interpreter
  import opened Determinism
  import opened Engine
  import opened EngineCases
  import opened EngineMoves
  import opened EngineLinks
  import opened EngineTheorems
  import opened EngineResults

  /** A worker claims the execution's wake-up and advances it. */
  function Round(s: Sys, e: EId, lease: nat): seq<Transaction>
    requires e in s.cases
  {
    var k := Live(s.cases[e]);
    [Claim(e, k, lease), Advance(e, k, s.nextToken, false, None)]
  }

  ghost function AfterRound(s: Sys, e: EId, lease: nat): Sys
    requires e in s.cases
  {
    Next(Next(s, Round(s, e, lease)[0]), Round(s, e, lease)[1])
  }

  /** A deterministic root execution that a worker can serve now. */
  ghost predicate Servable(s: Sys, e: EId) {
    && e in s.cases && !Terminal(s.cases[e]) && s.cases[e].parent.None? && Deterministic(s.cases[e].d)
    && Claimable(s.cases[e], Live(s.cases[e]), s.now) && s.now < s.cases[e].deadline
  }

  lemma ClaimedCase(s: Sys, e: EId, lease: nat)
    requires SysInv(s) && Servable(s, e)
    ensures var c := s.cases[e];
            var s1 := Next(s, Claim(e, Live(c), lease));
            && SysInv(s1) && s1.now == s.now && e in s1.cases
            && s1.cases[e] == ClaimCase(c, Live(c), s.now, s.nextToken, lease)
  {
    hide SysInv, CaseInv, Linked, Commit, Deterministic, Live, After, Dropped;
    var c := s.cases[e];
    var c' := ClaimCase(c, Live(c), s.now, s.nextToken, lease);
    NextKeeps(s, Claim(e, Live(c), lease));
    WriteOne(s, e, c', false);
  }

  /** A commit without a child writes the execution's own new rows. */
  lemma WriteOne(s: Sys, e: EId, c': Case, settle: bool)
    requires SysInv(s) && e in s.cases && c'.parent.None? && s.cases[e].parent.None?
    ensures var s' := Commit(s, e, c', None, settle);
            s'.now == s.now && s'.nextToken == s.nextToken && e in s'.cases && s'.cases[e] == c'
  {
    hide SysInv, CaseInv, Linked, Commit;
    LinkedOf(s, e);
    FreshId(s);
    DroppedAreChildren(s, e, c');
    CommitWrites(s, e, c', None, settle);
    AfterSelf(s, e, c', None, settle);
  }

  /** What an advance with the claim does at a deterministic node. */
  lemma AdvanceSteps(c: Case, k: Key, token: nat, now: nat, env: Env)
    requires CaseInv(c, now) && HoldsClaim(c, k, token) && k == Live(c) && Deterministic(c.d) && !env.refused
    requires now < c.deadline && c.core.steps < c.d.maxSteps && Ready(c.d, c.core) != []
    ensures var c' := AdvanceCase(c, k, token, now, false, env);
            && Step(c.d, c.core, Nothing) == Some(c'.core) && c'.parent == c.parent && c'.d == c.d && c'.deadline == c.deadline
            && c'.calls == c.calls && c'.status == (if c'.core.current == [] then Completed else Queued)
  {
    hide CaseInv, Ready, Live, Finish, RunNode, Sound, Refines, Events, Last, Served, Chosen, Deterministic, AtWait, AtCall;
    var id := Ready(c.d, c.core)[0];
    ChosenIsFirst(c, k, now);
    ReadyInGraph(c);
    DeterministicKind(c.d, NodeAt(c.d, id));
    OnlyLiveIsLast(c, now);
    SoundIsServed(c);
    ServedKind(c.d, id);
    ServedRuns(c.d, c.core, id, Nothing);
    assert Step(c.d, c.core, Nothing) == RunNode(c.d, c.core, id, Nothing);
    FinishFields(c, k, id, now);
  }

  lemma FinishFields(c: Case, k: Key, id: Id, now: nat)
    requires id in NodeIds(c.d) && RunNode(c.d, c.core, id, Nothing).Some?
    ensures var c', y := Finish(c, k, id, Nothing, now), RunNode(c.d, c.core, id, Nothing).value;
            && c'.core == y && c'.parent == c.parent && c'.d == c.d && c'.deadline == c.deadline && c'.calls == c.calls
            && c'.status == (if y.current == [] then Completed else Queued)
  {
    hide RunNode;
  }

  lemma ClaimedHolds(c: Case, now: nat, token: nat, lease: nat)
    requires CaseInv(c, now) && Claimable(c, Live(c), now)
    ensures var c1 := ClaimCase(c, Live(c), now, token, lease);
            && HoldsClaim(c1, Live(c), token) && Handed(c1, Live(c)) && Live(c1) == Live(c)
            && c1.core == c.core && c1.d == c.d && c1.deadline == c.deadline && c1.parent == c.parent && c1.calls == c.calls
  {
    hide Sound, Refines, Events, Phase, Awake, OnlyLive;
    SameRowsFit(c, ClaimCase(c, Live(c), now, token, lease));
  }

  /** One round performs exactly the interpreter's next step. */
  lemma RoundSteps(s: Sys, e: EId, lease: nat)
    requires SysInv(s) && Servable(s, e)
    requires s.cases[e].core.steps < s.cases[e].d.maxSteps && Ready(s.cases[e].d, s.cases[e].core) != []
    ensures var c, s' := s.cases[e], AfterRound(s, e, lease);
            && SysInv(s') && s'.now == s.now && e in s'.cases && s'.cases[e].d == c.d
            && Step(c.d, c.core, Nothing) == Some(s'.cases[e].core)
            && (if s'.cases[e].core.current == [] then s'.cases[e].status == Completed else Servable(s', e))
  {
    hide SysInv, CaseInv, Linked, Commit, Deterministic, Live, AdvanceCase, Served, Step, Ready, Claimable;
    var c := s.cases[e];
    var k, token := Live(c), s.nextToken;
    var s1 := Next(s, Claim(e, k, lease));
    LinkedOf(s, e);
    ClaimedCase(s, e, lease);
    ClaimedHolds(c, s.now, token, lease);
    hide ClaimCase;
    LinkedOf(s1, e);
    var c1 := s1.cases[e];
    var t := Advance(e, k, token, false, None);
    var env := Env(false, None, Finals(s1));
    AdvanceSteps(c1, k, token, s1.now, env);
    hide Finals;
    var c2 := Advanced(s1, t);
    assert c2 == AdvanceCase(c1, k, token, s1.now, false, env);
    WriteOne(s1, e, c2, Terminal(c2) && !Terminal(c1));
    NextKeeps(s1, t);
    var s2 := Next(s1, t);
    assert s2.cases[e] == c2;
    if c2.core.current != [] {
      LinkedOf(s2, e);
      QueuedIsClaimable(c2, s2.now);
    }
  }

  lemma QueuedIsClaimable(c: Case, now: nat)
    requires CaseInv(c, now) && c.status == Queued
    ensures Claimable(c, Live(c), now)
  {
    hide CaseInv, Live, Claimable, WakeTime;
    WakesUp(c, now);
  }

  /** The transactions of `n` rounds. */
  ghost function Schedule(s: Sys, e: EId, lease: nat, n: nat): seq<Transaction>
    decreases n
  {
    if n == 0 || e !in s.cases then []
    else Round(s, e, lease) + Schedule(AfterRound(s, e, lease), e, lease, n - 1)
  }

  lemma RoundHistory(ts: seq<Transaction>, e: EId, lease: nat)
    requires e in History(ts).cases
    ensures History(ts + Round(History(ts), e, lease)) == AfterRound(History(ts), e, lease)
  {
    hide Next, Live;
    var r := Round(History(ts), e, lease);
    var first, both := ts + [r[0]], ts + r;
    assert both[..|both| - 1] == first && both[|both| - 1] == r[1];
    assert first[..|first| - 1] == ts && first[|first| - 1] == r[0];
    HistorySnoc(first);
    HistorySnoc(both);
  }

  lemma {:induction false} IterateFirst(d: Definition, x: Core, n: nat)
    requires n > 0 && Iterate(d, x, n).Some?
    ensures Step(d, x, Nothing).Some? && Iterate(d, x, n) == Iterate(d, Step(d, x, Nothing).value, n - 1)
    decreases n
  {
    hide Step;
    if n == 1 {
      assert Iterate(d, x, 0) == Some(x);
    } else {
      IterateFirst(d, x, n - 1);
    }
  }

  /** Served for `n` rounds, the execution reaches the interpreter's record after `n` steps. */
  lemma {:induction false} RoundsIterate(ts: seq<Transaction>, e: EId, lease: nat, n: nat)
    requires Servable(History(ts), e)
    requires var c := History(ts).cases[e]; Iterate(c.d, c.core, n).Some? && c.core.steps + n <= c.d.maxSteps
    ensures var c, h := History(ts).cases[e], History(ts + Schedule(History(ts), e, lease, n));
            && e in h.cases && Some(h.cases[e].core) == Iterate(c.d, c.core, n)
            && (n > 0 && h.cases[e].core.current == [] ==> h.cases[e].status == Completed)
    decreases n
  {
    hide History, SysInv, Step, Iterate, Next, Live, Deterministic, Claimable, Ready;
    var s := History(ts);
    var c := s.cases[e];
    if n == 0 {
      assert ts + [] == ts;
      IterateZero(c.d, c.core);
    } else {
      HistoryInvariant(ts);
      IterateFirst(c.d, c.core, n);
      StepNeedsReady(c.d, c.core, Nothing);
      RoundSteps(s, e, lease);
      RoundHistory(ts, e, lease);
      var more := ts + Round(s, e, lease);
      var s' := History(more);
      StepAddsOne(c.d, c.core, Nothing, s'.cases[e].core);
      var rest := Schedule(s', e, lease, n - 1);
      assert ts + Schedule(s, e, lease, n) == more + rest;
      if n > 1 {
        IterateFirst(c.d, s'.cases[e].core, n - 1);
        StepNeedsReady(c.d, s'.cases[e].core, Nothing);
        RoundsIterate(more, e, lease, n - 1);
      } else {
        assert rest == [] && more + rest == more;
        IterateZero(c.d, s'.cases[e].core);
      }
    }
  }

  lemma IterateZero(d: Definition, x: Core)
    ensures Iterate(d, x, 0) == Some(x)
  {
  }

  lemma StartIsServable(ts: seq<Transaction>, d: Definition, input: State)
    requires Served(d) && Deterministic(d) && d.maxDuration > 0
    ensures var s, e := History(ts + [Start(d, input)]), History(ts).nextId;
            Servable(s, e) && s.cases[e].d == d && s.cases[e].core == Fresh(d, input)
  {
    hide SysInv, Served, Deterministic;
    var all := ts + [Start(d, input)];
    assert all[..|all| - 1] == ts && all[|all| - 1] == Start(d, input);
    HistorySnoc(all);
  }

  /**
   * Every run that the sequential interpreter completes within the step limit, the engine
   * completes with the same record, after any earlier history.
   */
  lemma EngineCompletesRuns(ts: seq<Transaction>, d: Definition, input: State, n: nat, lease: nat)
    requires Served(d) && Deterministic(d) && d.maxDuration > 0 && n <= d.maxSteps
    requires Iterate(d, Fresh(d, input), n).Some? && Iterate(d, Fresh(d, input), n).value.current == []
    ensures exists more ::
              var h := History(ts + [Start(d, input)] + more);
              && History(ts).nextId in h.cases && h.cases[History(ts).nextId].status == Completed
              && Some(h.cases[History(ts).nextId].core) == Iterate(d, Fresh(d, input), n)
  {
    hide History, Served, Deterministic, Iterate, Servable;
    IterateZero(d, Fresh(d, input));
    assert n > 0;
    StartIsServable(ts, d, input);
    var started, e := ts + [Start(d, input)], History(ts).nextId;
    RoundsIterate(started, e, lease, n);
    var more := Schedule(History(started), e, lease, n);
    var h := History(started + more);
    assert e in h.cases && h.cases[e].status == Completed;
  }

  lemma ForkIsServable(ts: seq<Transaction>, source: EId, k: nat)
    requires source in History(ts).cases && k < |History(ts).cases[source].checkpoints|
    requires var p := History(ts).cases[source];
             p.checkpoints[k].current != [] && Deterministic(p.d) && p.d.maxDuration > 0
    ensures var s, e, p := History(ts + [Fork(source, k)]), History(ts).nextId, History(ts).cases[source];
            && Servable(s, e) && s.cases[e].d == p.d && s.cases[e].core == p.checkpoints[k]
  {
    hide SysInv, Deterministic, Served;
    var all := ts + [Fork(source, k)];
    assert all[..|all| - 1] == ts && all[|all| - 1] == Fork(source, k);
    HistorySnoc(all);
  }

  /** From any checkpoint of a completed deterministic execution the interpreter reaches its end. */
  lemma CheckpointReachesEnd(c: Case, now: nat, k: nat)
    requires CaseInv(c, now) && c.status == Completed && Deterministic(c.d) && k < |c.checkpoints| && c.checkpoints[k].current != []
    ensures var n := |c.checkpoints| - 1 - k;
            && n > 0 && Iterate(c.d, c.checkpoints[k], n) == Some(c.core) && c.core.current == []
            && c.checkpoints[k].steps + n <= c.d.maxSteps
  {
    hide CaseInv, Refines, Deterministic, Step, Served, Good;
    RefinesOf(c, now);
    CompletedIsEmpty(c, now);
    LastIsCore(c);
    var last := |c.checkpoints| - 1;
    CheckpointsIterate(c, k);
    CheckpointsIterate(c, last);
    IterateCompose(c.d, c.checkpoints[0], k, last - k);
    CheckpointSound(c, last, now);
    StepsRise(c, k);
  }

  /**
   * A replay of a completed deterministic execution, from any checkpoint with an active node,
   * completes when it is served, and then settles as matched.
   */
  lemma ReplayCompletes(ts: seq<Transaction>, source: EId, k: nat, lease: nat)
    requires source in History(ts).cases && k < |History(ts).cases[source].checkpoints|
    requires var p := History(ts).cases[source];
             p.status == Completed && p.checkpoints[k].current != [] && Deterministic(p.d) && p.d.maxDuration > 0
    ensures exists more ::
              var h := History(ts + [Fork(source, k)] + more);
              && History(ts).nextId in h.cases
              && ReplayVerdict(History(ts).cases[source].core, h.cases[History(ts).nextId]) == Matched
  {
    hide History, CaseInv, Deterministic, Iterate, Servable, Linked, SysInv;
    var s, p := History(ts), History(ts).cases[source];
    HistoryInvariant(ts);
    LinkedOf(s, source);
    CheckpointReachesEnd(p, s.now, k);
    ForkIsServable(ts, source, k);
    var forked, e, n := ts + [Fork(source, k)], s.nextId, |p.checkpoints| - 1 - k;
    RoundsIterate(forked, e, lease, n);
    var more := Schedule(History(forked), e, lease, n);
    var h := History(forked + more);
    assert e in h.cases && ReplayVerdict(p.core, h.cases[e]) == Matched;
  }
}
