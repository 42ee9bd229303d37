/** An approval request that ran out undecided: it can only be cancelled. */
module GovernanceApprovals {
  import opened Ids
  import opened Budgets
  import opened Actions
  import opened ModelCalls
  import opened Governance
  import opened GovernanceResults

  /** The request ran out, and it was not granted before. */
  predicate Lapsed(g: Gov, i: nat) {
    && i in g.actions && g.actions[i].approval.Some? && !IsGranted(g.actions[i])
    && g.actions[i].approval.value.expires <= g.now
  }

  lemma LapsedRow(a: Action, rules: Rules, now: nat, nextToken: nat)
    requires ActionInv(a, rules, now, nextToken) && a.approval.Some? && !IsGranted(a)
    ensures a.state in {Proposed, Rejected} && a.executes == 0 && a.readies == [] && a.token.None?
  {
  }

  lemma StaysLapsed(g: Gov, t: Transaction, rules: Rules, i: nat)
    requires rules.maxAttempts >= 1 && GovInv(g, rules) && Lapsed(g, i)
    ensures Lapsed(Next(g, t, rules), i)
  {
    hide GovInv, Next, CallOnward, HoldsForward, ActionInv;
    NextKeeps(g, t, rules);
    var h := Next(g, t, rules);
    assert Onward(g.actions[i], h.actions[i], g.nextToken);
    if IsGranted(h.actions[i]) {
      GrantedBy(g, t, rules, i);
    }
  }

  lemma {:induction false} LapsedForever(budgets: Ledger, ts: seq<Transaction>, more: seq<Transaction>, rules: Rules, i: nat)
    requires Setting(budgets, rules) && Lapsed(History(budgets, ts, rules), i)
    ensures Lapsed(History(budgets, ts + more, rules), i)
    decreases |more|
  {
    hide History, Next, GovInv, Lapsed;
    if more == [] {
      assert ts + more == ts;
    } else {
      var n := |more| - 1;
      var before := ts + more[..n];
      assert ts + more == before + [more[n]];
      LapsedForever(budgets, ts, more[..n], rules, i);
      HistoryInvariant(budgets, before, rules);
      HistorySnoc(budgets, before, more[n], rules);
      StaysLapsed(History(budgets, before, rules), more[n], rules, i);
    }
  }

  lemma CancelWorks(g: Gov, rules: Rules, i: nat)
    requires GovInv(g, rules) && i in g.actions && g.actions[i].state == Proposed
    ensures var h := Next(g, CancelRun(i), rules); i in h.actions && h.actions[i].state == Rejected
  {
    hide GovInv, CommitAction, EffectFits, Onward, Forward;
    var a := g.actions[i];
    ActionRow(g, i, rules);
    CancelSucceeds(a, g.now, rules, g.nextToken);
    CancelKeeps(a, g.now, rules, g.nextToken);
    CancelOnward(a, g.now, rules, g.nextToken);
    CancelEffect(a, g.now);
    ActionMoveKeeps(g, i, Cancel(a, g.now).value, rules);
  }

  /**
   * A proposed action whose approval request has run out is never granted and never executed,
   * whatever happens later: it is still proposed or was rejected, no decision about it changes
   * anything, and cancelling its run succeeds exactly while it is still proposed.
   */
  lemma ExpiredNeverGranted(budgets: Ledger, ts: seq<Transaction>, more: seq<Transaction>, rules: Rules, i: nat)
    requires Setting(budgets, rules) && i in History(budgets, ts, rules).actions
    requires var g := History(budgets, ts, rules);
             g.actions[i].state == Proposed && g.actions[i].approval.Some? && g.actions[i].approval.value.expires <= g.now
    ensures var h := History(budgets, ts + more, rules);
            && i in h.actions && h.actions[i].state in {Proposed, Rejected}
            && !IsGranted(h.actions[i]) && h.actions[i].executes == 0
            && (forall submitted, approve :: Next(h, DecideApproval(i, submitted, approve), rules) == h)
            && (Cancel(h.actions[i], h.now).Ok? <==> h.actions[i].state == Proposed)
            && (h.actions[i].state == Proposed ==>
                  var after := Next(h, CancelRun(i), rules); i in after.actions && after.actions[i].state == Rejected)
  {
    hide History, GovInv, CommitAction;
    var g, h := History(budgets, ts, rules), History(budgets, ts + more, rules);
    HistoryInvariant(budgets, ts, rules);
    HistoryInvariant(budgets, ts + more, rules);
    ActionRow(g, i, rules);
    LapsedForever(budgets, ts, more, rules, i);
    ActionRow(h, i, rules);
    LapsedRow(h.actions[i], rules, h.now, h.nextToken);
    CancelSucceeds(h.actions[i], h.now, rules, h.nextToken);
    forall submitted, approve ensures Next(h, DecideApproval(i, submitted, approve), rules) == h {
      DecideSucceeds(h.actions[i], submitted, approve, h.now, rules, h.nextToken);
    }
    if h.actions[i].state == Proposed {
      CancelWorks(h, rules, i);
    }
  }

  // ---------------------------------------------------------------- an instance

  /** A budget of one unit for the whole organization. */
  function Unit(r: Resource): Budget {
    Budget(0, Organization, r, 1, true, 0, 0, map[])
  }

  const UNITS: Ledger := map[0 := Unit(Currency), 1 := Unit(Requests), 2 := Unit(ConcurrentRuns), 3 := Unit(ToolActions)]

  const ANYONE: Context := Context(0, 0, 0, 0, 0, true, None)

  lemma UnitApplies(r: Resource)
    requires r in ACTION_ESTIMATES
    ensures Applies(Unit(r), ANYONE, ACTION_ESTIMATES) && Room(Unit(r), ANYONE, ACTION_ESTIMATES) && Unit(r).resource == r
  {
  }

  lemma UnitsCovered()
    ensures Covered(UNITS, ANYONE, ACTION_ESTIMATES)
  {
    hide Applies, Unit;
    UnitApplies(Currency);
    UnitApplies(Requests);
    UnitApplies(ConcurrentRuns);
    UnitApplies(ToolActions);
    assert UNITS[0] == Unit(Currency) && UNITS[1] == Unit(Requests);
    assert UNITS[2] == Unit(ConcurrentRuns) && UNITS[3] == Unit(ToolActions);
  }

  lemma UnitsHaveRoom()
    ensures forall b | b in UNITS :: Room(UNITS[b], ANYONE, ACTION_ESTIMATES)
  {
    hide Room, Unit;
    UnitApplies(Currency);
    UnitApplies(Requests);
    UnitApplies(ConcurrentRuns);
    UnitApplies(ToolActions);
  }

  lemma UnitsCover()
    ensures Refusal(UNITS, ANYONE, ACTION_ESTIMATES).None? && Untouched(UNITS)
  {
    hide Covered, Room;
    assert Currency in ACTION_ESTIMATES;
    UnitsCovered();
    UnitsHaveRoom();
  }

  /** The request is made and nobody decides it in time. */
  function Undecided(digest: nat, rules: Rules): seq<Transaction> {
    [CreateAction(ANYONE, digest, 0, true), Tick(rules.approvalTtl)]
  }

  /** A history that leaves a proposed action with an expired request. */
  lemma ExpiryHappens(digest: nat, rules: Rules)
    requires rules.maxAttempts >= 1
    ensures Setting(UNITS, rules)
    ensures var g := History(UNITS, Undecided(digest, rules), rules);
            && 0 in g.actions && g.actions[0].state == Proposed && g.actions[0].approval.Some?
            && g.actions[0].approval.value.status == Pending && g.actions[0].approval.value.expires <= g.now
  {
    hide Next, Refusal, Untouched;
    UnitsCover();
    var create, tick := CreateAction(ANYONE, digest, 0, true), Tick(rules.approvalTtl);
    assert Undecided(digest, rules) == [] + [create] + [tick];
    HistorySnoc(UNITS, [], create, rules);
    HistorySnoc(UNITS, [] + [create], tick, rules);
    var g := History(UNITS, [], rules);
    CreatedFirst(g, create, rules);
    TickOnly(Next(g, create, rules), tick, rules);
  }

  lemma CreatedFirst(g: Gov, t: Transaction, rules: Rules)
    requires t.CreateAction? && t.needsApproval && g.now == 0 && g.nextId == 0
    requires Refusal(g.ledger, t.context, ACTION_ESTIMATES).None?
    ensures var h := Next(g, t, rules);
            h.now == 0 && 0 in h.actions && h.actions[0] == Propose(t.digest, t.arguments, true, 0, rules)
  {
    hide Refusal, Propose;
  }

  lemma TickOnly(g: Gov, t: Transaction, rules: Rules)
    requires t.Tick?
    ensures Next(g, t, rules).actions == g.actions && Next(g, t, rules).now == g.now + t.seconds
  {
  }
}
