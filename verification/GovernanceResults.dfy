/** What the governance protocols promise in every history of transactions. */
module GovernanceResults {
  import opened Budgets
  import opened Actions
  import opened ModelCalls
  import opened Governance

  /** The protocols run with at least one reconciliation attempt, on budgets that start untouched. */
  predicate Setting(budgets: Ledger, rules: Rules) {
    rules.maxAttempts >= 1 && Untouched(budgets)
  }

  // ---------------------------------------------------------------- the ledger

  /**
   * Conservation: in every reachable state each budget's `reserved` is the sum of the estimates
   * of its active reservations and its `spent` the sum of the actuals of its committed ones;
   * together they exceed the limit by no more than committed model calls went over estimate.
   */
  lemma LedgerIsSound(budgets: Ledger, ts: seq<Transaction>, rules: Rules, b: nat)
    requires Setting(budgets, rules) && b in History(budgets, ts, rules).ledger
    ensures var row := History(budgets, ts, rules).ledger[b];
            && row.reserved == Sum(PendingOf(row.holds)) && row.spent == Sum(PaidOf(row.holds))
            && row.spent + row.reserved <= row.limit + Sum(ExcessOf(row.holds))
  {
    hide History;
    HistoryInvariant(budgets, ts, rules);
    assert Sound(History(budgets, ts, rules).ledger[b]);
  }

  /** A budget that no model call reserves against never goes over its limit. */
  lemma ActionBudgetsHold(budgets: Ledger, ts: seq<Transaction>, rules: Rules, b: nat)
    requires Setting(budgets, rules) && b in History(budgets, ts, rules).ledger
    requires forall o | o in History(budgets, ts, rules).ledger[b].holds :: o.ForAction?
    ensures var row := History(budgets, ts, rules).ledger[b]; row.spent + row.reserved <= row.limit
  {
    hide History;
    HistoryInvariant(budgets, ts, rules);
    ActionsStayWithinLimit(History(budgets, ts, rules).ledger[b]);
  }

  /** In every reachable state every settlement of every owner passes the reservation guards. */
  lemma GuardsNeverFire(budgets: Ledger, ts: seq<Transaction>, rules: Rules, owner: Owner, committed: bool, usage: map<Resource, int>)
    requires Setting(budgets, rules) && forall r | r in usage :: usage[r] >= 0
    ensures Settleable(History(budgets, ts, rules).ledger, owner, committed, usage)
  {
    hide History, Settleable;
    HistoryInvariant(budgets, ts, rules);
    AlwaysSettleable(History(budgets, ts, rules).ledger, owner, committed, usage);
  }

  // ---------------------------------------------------------------- agreement

  /**
   * Action, run, approval, dead letter and reservations agree in every reachable state: the
   * approval is pending exactly while the action is proposed, the dead letter is open exactly
   * while it is dead-lettered, and a reservation is active exactly while it has not ended.
   */
  lemma ActionRowsAgree(budgets: Ledger, ts: seq<Transaction>, rules: Rules, i: nat)
    requires Setting(budgets, rules) && i in History(budgets, ts, rules).actions
    ensures var g := History(budgets, ts, rules);
            var a := g.actions[i];
            && RunFits(a)
            && (a.approval.Some? && a.approval.value.status == Pending <==> a.state == Proposed)
            && (a.letter.Some? && a.letter.value.status == Open <==> a.state == DeadLettered)
            && (a.state == DeadLettered ==> a.lease.None?)
            && forall b | b in g.ledger && ForAction(i) in g.ledger[b].holds ::
                 && g.ledger[b].holds[ForAction(i)].status == Active <==> !Final(a.state)
  {
    hide History, GovInv;
    var g := History(budgets, ts, rules);
    HistoryInvariant(budgets, ts, rules);
    ActionRow(g, i, rules);
    forall b | b in g.ledger && ForAction(i) in g.ledger[b].holds
      ensures g.ledger[b].holds[ForAction(i)].status == Active <==> !Final(g.actions[i].state)
    {
      ActionHoldAt(g, rules, i, b);
    }
  }

  lemma ActionHoldAt(g: Gov, rules: Rules, i: nat, b: nat)
    requires GovInv(g, rules) && i in g.actions && b in g.ledger && ForAction(i) in g.ledger[b].holds
    ensures g.ledger[b].resource in ACTION_ESTIMATES
    ensures g.ledger[b].holds[ForAction(i)] == HoldOf(g.actions[i], ACTION_ESTIMATES[g.ledger[b].resource], g.ledger[b].resource)
  {
    hide ActionInv, CallInv, Sound, HoldOf;
    assert HoldFits(g, g.ledger[b], ForAction(i));
  }

  lemma CallHoldAt(g: Gov, rules: Rules, i: nat, b: nat)
    requires GovInv(g, rules) && i in g.calls && b in g.ledger && ForModelCall(i) in g.ledger[b].holds
    ensures g.calls[i].tokens > 0 && g.ledger[b].resource in CallEstimates(g.calls[i].tokens)
    ensures g.ledger[b].holds[ForModelCall(i)] ==
            CallHoldOf(g.calls[i], CallEstimates(g.calls[i].tokens)[g.ledger[b].resource], g.ledger[b].resource)
  {
    hide ActionInv, CallInv, Sound, CallHoldOf;
    assert HoldFits(g, g.ledger[b], ForModelCall(i));
  }

  // ---------------------------------------------------------------- over time

  lemma HistorySnoc(budgets: Ledger, ts: seq<Transaction>, t: Transaction, rules: Rules)
    ensures History(budgets, ts + [t], rules) == Next(History(budgets, ts, rules), t, rules)
  {
    hide Next;
    assert (ts + [t])[..|ts|] == ts;
  }

  lemma {:induction false} HistoryForward(budgets: Ledger, ts: seq<Transaction>, more: seq<Transaction>, rules: Rules)
    requires Setting(budgets, rules)
    ensures var g := History(budgets, ts, rules); Forward(g, History(budgets, ts + more, rules), g.nextToken)
    decreases |more|
  {
    hide History, Next, GovInv, Forward;
    var g := History(budgets, ts, rules);
    if more == [] {
      assert ts + more == ts;
      HistoryInvariant(budgets, ts, rules);
      Stays(g, rules);
    } else {
      var n := |more| - 1;
      var before := ts + more[..n];
      assert ts + more == before + [more[n]];
      HistoryForward(budgets, ts, more[..n], rules);
      HistoryInvariant(budgets, before, rules);
      NextKeeps(History(budgets, before, rules), more[n], rules);
      HistorySnoc(budgets, before, more[n], rules);
      ForwardCompose(g, History(budgets, before, rules), History(budgets, ts + more, rules), g.nextToken);
    }
  }

  lemma ForwardCompose(g: Gov, m: Gov, h: Gov, floor: nat)
    requires Forward(g, m, floor) && Forward(m, h, m.nextToken) && floor == g.nextToken
    ensures Forward(g, h, floor)
  {
    hide Onward, CallOnward;
    forall i | i in g.actions ensures i in h.actions && Onward(g.actions[i], h.actions[i], floor) {
      OnwardCompose(g.actions[i], m.actions[i], h.actions[i], floor, m.nextToken);
    }
    forall i | i in g.calls ensures i in h.calls && CallOnward(g.calls[i], h.calls[i], floor) {
      CallOnwardCompose(g.calls[i], m.calls[i], h.calls[i], floor, m.nextToken);
    }
  }

  /** A reservation leaves the active state at most once: after that it never changes. */
  lemma ReservationSettlesOnce(budgets: Ledger, ts: seq<Transaction>, more: seq<Transaction>, rules: Rules, b: nat, o: Owner)
    requires Setting(budgets, rules) && b in History(budgets, ts, rules).ledger
    requires o in History(budgets, ts, rules).ledger[b].holds && History(budgets, ts, rules).ledger[b].holds[o].status != Active
    ensures var h := History(budgets, ts + more, rules);
            b in h.ledger && o in h.ledger[b].holds && h.ledger[b].holds[o] == History(budgets, ts, rules).ledger[b].holds[o]
  {
    hide History, Onward, CallOnward;
    HistoryForward(budgets, ts, more, rules);
    assert HoldsForward(History(budgets, ts, rules).ledger[b], History(budgets, ts + more, rules).ledger[b]);
  }

  // ---------------------------------------------------------------- coverage

  /** The owner holds a reservation of every resource it estimated. */
  predicate Funded(l: Ledger, o: Owner, estimates: map<Resource, int>) {
    forall r | r in estimates :: exists b | b in l :: o in l[b].holds && l[b].resource == r
  }

  lemma ReserveFunds(l: Ledger, o: Owner, x: Context, estimates: map<Resource, int>)
    requires Reserve(l, o, x, estimates).Ok?
    ensures Funded(Reserve(l, o, x, estimates).value, o, estimates)
  {
    hide Room;
    var k := Reserve(l, o, x, estimates).value;
    forall r | r in estimates ensures exists b | b in k :: o in k[b].holds && k[b].resource == r {
      var b :| b in l && Applies(l[b], x, estimates) && l[b].resource == r;
      assert b in k && o in k[b].holds && k[b].resource == r;
    }
  }

  lemma FundedForward(g: Gov, h: Gov, floor: nat, o: Owner, estimates: map<Resource, int>)
    requires Forward(g, h, floor) && Funded(g.ledger, o, estimates)
    ensures Funded(h.ledger, o, estimates)
  {
    hide Onward, CallOnward;
    forall r | r in estimates ensures exists b | b in h.ledger :: o in h.ledger[b].holds && h.ledger[b].resource == r {
      var b :| b in g.ledger && o in g.ledger[b].holds && g.ledger[b].resource == r;
      assert HoldsForward(g.ledger[b], h.ledger[b]);
    }
  }

  /** Only a creation that reserved adds an action. */
  lemma NewAction(g: Gov, t: Transaction, rules: Rules, i: nat)
    requires i !in g.actions && i in Next(g, t, rules).actions
    ensures Funded(Next(g, t, rules).ledger, ForAction(i), ACTION_ESTIMATES)
  {
    hide Reserve, Settleable, Settled, Decide, Cancel, ClaimReady, ClaimReconciliation, Settle, Redrive, SettleCall, ExpireCall,
      ClaimCall, ReconcileCall, Enqueue, Unfunded, Funded;
    if t.CreateAction? {
      ReserveFunds(g.ledger, ForAction(g.nextId), t.context, ACTION_ESTIMATES);
    }
  }

  /** No action exists without its reservations: all resources, in every reachable state. */
  lemma {:induction false} ActionsAreFunded(budgets: Ledger, ts: seq<Transaction>, rules: Rules, i: nat)
    requires Setting(budgets, rules) && i in History(budgets, ts, rules).actions
    ensures Funded(History(budgets, ts, rules).ledger, ForAction(i), ACTION_ESTIMATES)
    decreases |ts|
  {
    hide Next, GovInv, Funded, Forward;
    var before := ts[..|ts| - 1];
    var g := History(budgets, before, rules);
    if i in g.actions {
      ActionsAreFunded(budgets, before, rules, i);
      HistoryInvariant(budgets, before, rules);
      NextKeeps(g, ts[|ts| - 1], rules);
      FundedForward(g, Next(g, ts[|ts| - 1], rules), g.nextToken, ForAction(i), ACTION_ESTIMATES);
    } else {
      NewAction(g, ts[|ts| - 1], rules, i);
    }
  }

  // ---------------------------------------------------------------- one settlement per claim

  lemma StaleSettle(g: Gov, i: nat, mode: Mode, token: nat, provider: Provider, rules: Rules)
    requires i in g.actions && !Fenced(g.actions[i], mode, token)
    ensures Next(g, SettleAction(i, mode, token, provider), rules) == g
  {
    hide Fenced;
    assert g.actions[i := g.actions[i]] == g.actions;
  }

  /** A fenced settle always moves the action out of the claimed state it was in. */
  lemma SettleSpends(g: Gov, i: nat, mode: Mode, token: nat, provider: Provider, rules: Rules)
    requires GovInv(g, rules) && i in g.actions && Fenced(g.actions[i], mode, token)
    ensures var h := Next(g, SettleAction(i, mode, token, provider), rules);
            && i in h.actions && !Claimed(h.actions[i].state) && h.nextToken == g.nextToken
            && token < g.nextToken
  {
    hide GovInv, CommitAction, EffectFits, Onward, Forward;
    ActionRow(g, i, rules);
    SettleKeeps(g.actions[i], mode, token, provider, g.now, rules, g.nextToken);
    SettleOnward(g.actions[i], mode, token, provider, g.now, rules, g.nextToken);
    SettleEffect(g.actions[i], mode, token, provider, g.now, rules);
    ActionMoveKeeps(g, i, Settle(g.actions[i], mode, token, provider, g.now, rules), rules);
    CommitKeepsTokens(g, i, Settle(g.actions[i], mode, token, provider, g.now, rules));
  }

  lemma CommitKeepsTokens(g: Gov, i: nat, m: Move)
    ensures CommitAction(g, i, m).nextToken == g.nextToken
  {
    hide Settleable, Settled;
  }

  /**
   * However many workers report on one claim, and whatever happens in between, only the first
   * report has an effect.
   */
  lemma ClaimSettlesOnce(
    budgets: Ledger, ts: seq<Transaction>, t: Transaction, more: seq<Transaction>, again: Transaction, rules: Rules)
    requires Setting(budgets, rules) && t.SettleAction? && again.SettleAction?
    requires again.action == t.action && again.token == t.token
    requires t.action in History(budgets, ts, rules).actions && Fenced(History(budgets, ts, rules).actions[t.action], t.mode, t.token)
    ensures var h := History(budgets, ts + [t] + more, rules); Next(h, again, rules) == h
  {
    hide History, Next, GovInv;
    var g := History(budgets, ts, rules);
    HistoryInvariant(budgets, ts, rules);
    SettleSpends(g, t.action, t.mode, t.token, t.provider, rules);
    HistorySnoc(budgets, ts, t, rules);
    HistoryForward(budgets, ts + [t], more, rules);
    var h := History(budgets, ts + [t] + more, rules);
    StaleSettle(h, t.action, again.mode, again.token, again.provider, rules);
  }

  // ---------------------------------------------------------------- execution and approval

  /** At most one execution claim; every further claim is for reconciliation and is bounded. */
  lemma ExecutesOnce(budgets: Ledger, ts: seq<Transaction>, rules: Rules, i: nat)
    requires Setting(budgets, rules) && i in History(budgets, ts, rules).actions
    ensures var a := History(budgets, ts, rules).actions[i];
            && a.executes <= 1
            && a.reconciles == rules.maxAttempts * Redrives(a) + a.cycle
            && a.reconciles <= rules.maxAttempts * (rules.maxRedrives + 1)
  {
    hide History, GovInv;
    HistoryInvariant(budgets, ts, rules);
    ActionRow(History(budgets, ts, rules), i, rules);
    AttemptsBounded(History(budgets, ts, rules).actions[i], rules, History(budgets, ts, rules).now, History(budgets, ts, rules).nextToken);
  }

  /** The transaction approves the action with its exact content, in time and for the first time. */
  predicate Approves(g: Gov, t: Transaction, i: nat, digest: nat) {
    && t == DecideApproval(i, digest, true) && i in g.actions && g.actions[i].digest == digest
    && g.actions[i].approval.Some? && g.actions[i].approval.value.status == Pending
    && g.now < g.actions[i].approval.value.expires
  }

  /** Only such a transaction turns a pending approval into a granted one. */
  lemma GrantedBy(g: Gov, t: Transaction, rules: Rules, i: nat)
    requires rules.maxAttempts >= 1 && GovInv(g, rules)
    requires i in Next(g, t, rules).actions && IsGranted(Next(g, t, rules).actions[i])
    ensures i in g.actions && Next(g, t, rules).actions[i].digest == g.actions[i].digest
    ensures IsGranted(g.actions[i]) || Approves(g, t, i, g.actions[i].digest)
  {
    hide GovInv, CommitAction, Reserve, Settle, ClaimReady, ClaimReconciliation, Redrive, CommitCall, Onward;
    if i in g.actions {
      ActionRow(g, i, rules);
      NextKeeps(g, t, rules);
      OnwardFacts(g.actions[i], Next(g, t, rules).actions[i], g.nextToken);
      if g.actions[i].state == Proposed {
        ProposedMoves(g, t, rules, i);
      }
    } else {
      NewIsNotGranted(g, t, rules, i);
    }
  }

  predicate IsGranted(a: Action) {
    a.approval.Some? && a.approval.value.status == Granted
  }

  lemma OnwardFacts(a: Action, b: Action, floor: nat)
    requires Onward(a, b, floor)
    ensures b.digest == a.digest && (a.state != Proposed ==> b.approval == a.approval)
  {
  }

  /** A proposed action has nothing to deliver, reconcile, settle or redrive. */
  lemma ProposedRow(a: Action, rules: Rules, now: nat, nextToken: nat)
    requires ActionInv(a, rules, now, nextToken) && a.state == Proposed
    ensures a.readies == [] && a.letter.None? && !Reconcilable(a, now)
    ensures forall mode, token :: !Fenced(a, mode, token)
    ensures a.approval.Some? && a.approval.value.status == Pending
  {
  }

  lemma CommitWrites(g: Gov, i: nat, m: Move)
    ensures CommitAction(g, i, m).actions in {g.actions, g.actions[i := m.action]}
  {
    hide Settleable, Settled;
  }

  lemma CommitCallWrites(g: Gov, i: nat, m: CallMove)
    ensures CommitCall(g, i, m).actions == g.actions
  {
    hide Settleable, Settled;
  }

  lemma DecideGrants(a: Action, submitted: nat, approve: bool, now: nat)
    requires Decide(a, submitted, approve, now).Ok? && IsGranted(Decide(a, submitted, approve, now).value.action)
    ensures approve && a.approval.Some? && submitted == a.digest && now < a.approval.value.expires
  {
  }

  lemma CancelDenies(a: Action, now: nat)
    requires Cancel(a, now).Ok?
    ensures !IsGranted(Cancel(a, now).value.action)
  {
  }

  lemma ProposedMoves(g: Gov, t: Transaction, rules: Rules, i: nat)
    requires rules.maxAttempts >= 1 && GovInv(g, rules) && i in g.actions && g.actions[i].state == Proposed
    requires i in Next(g, t, rules).actions && IsGranted(Next(g, t, rules).actions[i])
    ensures Approves(g, t, i, g.actions[i].digest)
  {
    hide GovInv, ActionInv, CommitAction, CommitCall, Reserve, Decide, Cancel, ClaimReady, ClaimReconciliation, Settle, Redrive,
      SettleCall, ExpireCall, ClaimCall, ReconcileCall, CallDeliverable, CallReconcilable, TimeoutDue, Enqueue, Unfunded, Propose;
    var a := g.actions[i];
    ActionRow(g, i, rules);
    ProposedRow(a, rules, g.now, g.nextToken);
    UnusedOwner(g, rules);
    match t
    case DecideApproval(j, submitted, approve) =>
      if j in g.actions && Decide(g.actions[j], submitted, approve, g.now).Ok? {
        CommitWrites(g, j, Decide(g.actions[j], submitted, approve, g.now).value);
        if j == i && IsGranted(Decide(a, submitted, approve, g.now).value.action) {
          DecideGrants(a, submitted, approve, g.now);
        }
      }
    case CancelRun(j) =>
      if j in g.actions && Cancel(g.actions[j], g.now).Ok? {
        CommitWrites(g, j, Cancel(g.actions[j], g.now).value);
        CancelDenies(g.actions[j], g.now);
      }
    case SettleAction(j, mode, token, provider) =>
      if j == i {
        StaleSettle(g, i, mode, token, provider, rules);
      } else if j in g.actions {
        CommitWrites(g, j, Settle(g.actions[j], mode, token, provider, g.now, rules));
      }
    case RedriveLetter(j, expected) =>
      NoLetter(a, expected, g.now);
      if j in g.actions && Redrive(g.actions[j], expected, g.now).Ok? {
        CommitWrites(g, j, Move(Redrive(g.actions[j], expected, g.now).value, KeepHolds));
      }
    case SettleModelCall(j, mode, token, answer) =>
      if j in g.calls {
        CommitCallWrites(g, j, SettleCall(g.calls[j], mode, token, answer, g.now, rules));
      }
    case TimeOutCall(j) =>
      if j in g.calls {
        CommitCallWrites(g, j, ExpireCall(g.calls[j], g.now));
      }
    case _ =>
  }

  lemma NoLetter(a: Action, expected: nat, now: nat)
    requires a.letter.None?
    ensures Redrive(a, expected, now).Err?
  {
  }

  lemma NewIsNotGranted(g: Gov, t: Transaction, rules: Rules, i: nat)
    requires i !in g.actions && i in Next(g, t, rules).actions
    ensures !IsGranted(Next(g, t, rules).actions[i])
  {
    hide Reserve, Settleable, Settled, Decide, Cancel, ClaimReady, ClaimReconciliation, Settle, Redrive, SettleCall, ExpireCall,
      ClaimCall, ReconcileCall, Enqueue, Unfunded;
  }

  /**
   * An approval that was granted was granted by one transaction: an approve decision that
   * showed the exact stored content while the request was pending and had not expired.
   */
  lemma {:induction false} GrantIsOnRecord(budgets: Ledger, ts: seq<Transaction>, rules: Rules, i: nat)
    requires Setting(budgets, rules) && i in History(budgets, ts, rules).actions && IsGranted(History(budgets, ts, rules).actions[i])
    ensures exists k | 0 <= k < |ts| :: Approves(History(budgets, ts[..k], rules), ts[k], i, History(budgets, ts, rules).actions[i].digest)
    decreases |ts|
  {
    hide Next, GovInv, Approves;
    var n := |ts| - 1;
    var before := ts[..n];
    var g := History(budgets, before, rules);
    HistoryInvariant(budgets, before, rules);
    GrantedBy(g, ts[n], rules, i);
    if IsGranted(g.actions[i]) {
      GrantIsOnRecord(budgets, before, rules, i);
      var k :| 0 <= k < |before| && Approves(History(budgets, before[..k], rules), before[k], i, g.actions[i].digest);
      assert before[..k] == ts[..k] && before[k] == ts[k];
    }
  }

  /**
   * The claim that executes an action whose policy requires approval comes after the grant of
   * that approval. No earlier claim executed it.
   */
  lemma ExecutionIsApproved(budgets: Ledger, ts: seq<Transaction>, rules: Rules, i: nat, k: nat)
    requires Setting(budgets, rules) && i in History(budgets, ts, rules).actions
    requires Deliverable(History(budgets, ts, rules).actions[i], k, History(budgets, ts, rules).now)
    ensures var a := History(budgets, ts, rules).actions[i];
            && a.executes == 0 && Next(History(budgets, ts, rules), ClaimAction(i, k), rules).actions[i].executes == 1
            && (a.approval.Some? ==>
                  exists n | 0 <= n < |ts| :: Approves(History(budgets, ts[..n], rules), ts[n], i, a.digest))
  {
    hide History, GovInv, Approves;
    var g := History(budgets, ts, rules);
    HistoryInvariant(budgets, ts, rules);
    ActionRow(g, i, rules);
    ApprovedRow(g.actions[i], k, g.now, rules, g.nextToken);
    if g.actions[i].approval.Some? {
      GrantIsOnRecord(budgets, ts, rules, i);
    }
  }

  lemma ApprovedRow(a: Action, k: nat, now: nat, rules: Rules, nextToken: nat)
    requires ActionInv(a, rules, now, nextToken) && Deliverable(a, k, now)
    ensures a.state == Approved && a.executes == 0 && (a.approval.Some? ==> IsGranted(a))
    ensures forall token :: ClaimReady(a, k, now, token, rules).executes == 1
  {
  }

  /** A decided approval is used up: every later decision about it changes nothing. */
  lemma ApprovalUsedOnce(budgets: Ledger, ts: seq<Transaction>, more: seq<Transaction>, rules: Rules, again: Transaction)
    requires Setting(budgets, rules) && again.DecideApproval? && again.action in History(budgets, ts, rules).actions
    requires History(budgets, ts, rules).actions[again.action].state != Proposed
    ensures var h := History(budgets, ts + more, rules); Next(h, again, rules) == h
  {
    hide History, GovInv, CommitAction;
    var i, h := again.action, History(budgets, ts + more, rules);
    HistoryForward(budgets, ts, more, rules);
    HistoryInvariant(budgets, ts + more, rules);
    assert Onward(History(budgets, ts, rules).actions[i], h.actions[i], History(budgets, ts, rules).nextToken);
    ActionRow(h, i, rules);
    DecideSucceeds(h.actions[i], again.submitted, again.approve, h.now, rules, h.nextToken);
  }

  // ---------------------------------------------------------------- dead letters

  /** A redrive succeeds exactly on an open letter of the stated version with redrives left. */
  lemma RedriveDecides(budgets: Ledger, ts: seq<Transaction>, rules: Rules, i: nat, expected: nat)
    requires Setting(budgets, rules) && i in History(budgets, ts, rules).actions
    ensures var g := History(budgets, ts, rules);
            var a := g.actions[i];
            && Redrive(a, expected, g.now) != Err(LineageStale)
            && (Redrive(a, expected, g.now).Ok? <==>
                  a.letter.Some? && a.letter.value.status == Open && a.letter.value.version == expected
                  && a.letter.value.redrives < a.letter.value.maxRedrives)
  {
    hide History, GovInv;
    var g := History(budgets, ts, rules);
    HistoryInvariant(budgets, ts, rules);
    ActionRow(g, i, rules);
    RedriveSucceeds(g.actions[i], expected, g.now, rules, g.nextToken);
  }

  /** No version of a dead letter is redriven twice, whatever happens in between. */
  lemma RedrivenOnce(budgets: Ledger, ts: seq<Transaction>, more: seq<Transaction>, rules: Rules, i: nat, expected: nat)
    requires Setting(budgets, rules) && i in History(budgets, ts, rules).actions
    requires Redrive(History(budgets, ts, rules).actions[i], expected, History(budgets, ts, rules).now).Ok?
    ensures var h := History(budgets, ts + [RedriveLetter(i, expected)] + more, rules);
            i in h.actions && Redrive(h.actions[i], expected, h.now).Err?
  {
    hide History, GovInv, CommitAction, EffectFits, ActionInv;
    var g, taken := History(budgets, ts, rules), ts + [RedriveLetter(i, expected)];
    HistoryInvariant(budgets, ts, rules);
    ActionRow(g, i, rules);
    RedriveKeeps(g.actions[i], expected, g.now, rules, g.nextToken);
    RedriveOnward(g.actions[i], expected, g.now, rules, g.nextToken);
    RedriveEffect(g.actions[i], expected, g.now);
    ActionMoveKeeps(g, i, Move(Redrive(g.actions[i], expected, g.now).value, KeepHolds), rules);
    HistorySnoc(budgets, ts, RedriveLetter(i, expected), rules);
    HistoryForward(budgets, taken, more, rules);
    var after, h := History(budgets, taken, rules), History(budgets, taken + more, rules);
    assert Onward(after.actions[i], h.actions[i], after.nextToken);
  }

  // ---------------------------------------------------------------- model calls

  /**
   * How every model call stands in every reachable state: timed out only if no worker ever
   * claimed it, woken once by every other ending, reconciled at most the maximum number of
   * times, and charged in full only when it stayed ambiguous at that maximum.
   */
  lemma ModelCallOutcomes(budgets: Ledger, ts: seq<Transaction>, rules: Rules, i: nat)
    requires Setting(budgets, rules) && i in History(budgets, ts, rules).calls
    ensures var c := History(budgets, ts, rules).calls[i];
            && (c.state == CallTimedOut ==> c.executes == 0 && c.charge == Free)
            && |c.resumes| == (if c.state in {CallCompleted, CallFailed} then 1 else 0)
            && c.executes <= 1 && c.reconciles <= rules.maxAttempts
            && (c.charge == FullEstimate ==> c.state == CallFailed && c.reconciles == rules.maxAttempts)
            && (CallEnded(c.state) <==> c.charge != Uncharged)
  {
    hide History, GovInv;
    HistoryInvariant(budgets, ts, rules);
    CallRow(History(budgets, ts, rules), i, rules);
  }

  lemma StaleCallSettle(g: Gov, i: nat, mode: Mode, token: nat, answer: Answer, rules: Rules)
    requires i in g.calls && !CallFenced(g.calls[i], mode, token)
    ensures Next(g, SettleModelCall(i, mode, token, answer), rules) == g
  {
    hide CallFenced;
    assert g.calls[i := g.calls[i]] == g.calls;
  }

  lemma CallSettleSpends(g: Gov, i: nat, mode: Mode, token: nat, answer: Answer, rules: Rules)
    requires GovInv(g, rules) && i in g.calls && CallFenced(g.calls[i], mode, token)
    ensures var h := Next(g, SettleModelCall(i, mode, token, answer), rules);
            && i in h.calls && !CallClaimed(h.calls[i].state) && h.nextToken == g.nextToken
            && token < g.nextToken
  {
    hide GovInv, CommitCall, CallEffectFits, CallOnward, Forward;
    var c, m := g.calls[i], SettleCall(g.calls[i], mode, token, answer, g.now, rules);
    CallRow(g, i, rules);
    SettleCallKeeps(c, mode, token, answer, g.now, rules, g.nextToken);
    SettleCallOnward(c, mode, token, answer, g.now, rules, g.nextToken);
    SettleCallEffect(c, mode, token, answer, g.now, rules, g.nextToken);
    SettleCallReady(c, mode, token, answer, g.now, rules);
    CallMoveKeeps(g, i, m, rules);
    CommitCallKeepsTokens(g, i, m);
  }

  lemma CommitCallKeepsTokens(g: Gov, i: nat, m: CallMove)
    ensures CommitCall(g, i, m).nextToken == g.nextToken
  {
    hide Settleable, Settled;
  }

  /** Of all reports on one claim of a model call only the first has an effect. */
  lemma CallClaimSettlesOnce(
    budgets: Ledger, ts: seq<Transaction>, t: Transaction, more: seq<Transaction>, again: Transaction, rules: Rules)
    requires Setting(budgets, rules) && t.SettleModelCall? && again.SettleModelCall?
    requires again.call == t.call && again.token == t.token
    requires t.call in History(budgets, ts, rules).calls && CallFenced(History(budgets, ts, rules).calls[t.call], t.mode, t.token)
    ensures var h := History(budgets, ts + [t] + more, rules); Next(h, again, rules) == h
  {
    hide History, Next, GovInv;
    var g := History(budgets, ts, rules);
    HistoryInvariant(budgets, ts, rules);
    CallSettleSpends(g, t.call, t.mode, t.token, t.answer, rules);
    HistorySnoc(budgets, ts, t, rules);
    HistoryForward(budgets, ts + [t], more, rules);
    StaleCallSettle(History(budgets, ts + [t] + more, rules), t.call, again.mode, again.token, again.answer, rules);
  }
}
