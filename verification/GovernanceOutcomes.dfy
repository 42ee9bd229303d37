/** What each governance transaction does in every reachable state, stated on rows and reservations. */
module GovernanceOutcomes {
  import opened Ids
  import opened Budgets
  import opened Actions
  import opened ModelCalls
  import opened Governance
  import opened GovernanceResults
  import opened GovernanceCalls

  // ---------------------------------------------------------------- which budgets a reservation reaches

  /** The budget covers the context: by organization and by one of the six scopes. */
  predicate Reaches(b: Budget, x: Context) {
    && b.organization == x.organization && b.active
    && (|| b.scope == Organization
        || b.scope == Project(x.project)
        || b.scope == Environment(x.environment)
        || b.scope == AgentScope(x.agent)
        || (x.isUser && b.scope == User(x.actor))
        || (x.route.Some? && b.scope == Route(x.route.value)))
  }

  lemma ReachesMeans(b: Budget, x: Context, estimates: map<Resource, int>)
    ensures Applies(b, x, estimates) <==> Reaches(b, x) && b.resource in estimates
  {
  }

  /** Some budget that covers the context has too little left for the estimate. */
  predicate TooLittle(l: Ledger, x: Context, estimates: map<Resource, int>) {
    exists b | b in l ::
      Reaches(l[b], x) && l[b].resource in estimates && l[b].spent + l[b].reserved + estimates[l[b].resource] > l[b].limit
  }

  /** Every estimated resource has a budget that covers the context. */
  predicate Complete(l: Ledger, x: Context, estimates: map<Resource, int>) {
    forall r | r in estimates :: exists b | b in l :: Reaches(l[b], x) && l[b].resource == r
  }

  /** The checks of a reservation, in their order. */
  lemma RefusalOutcome(l: Ledger, x: Context, estimates: map<Resource, int>)
    ensures Refusal(l, x, estimates) ==
            if estimates == map[] || exists r | r in estimates :: estimates[r] <= 0 then Some(InvalidEstimates)
            else if exists r | r in estimates :: r.Unknown? then Some(UnsupportedResource)
            else if !Complete(l, x, estimates) then Some(NotCovered)
            else if TooLittle(l, x, estimates) then Some(Exhausted)
            else None
  {
    hide Applies, Reaches;
    forall b | b in l ensures Applies(l[b], x, estimates) <==> Reaches(l[b], x) && l[b].resource in estimates {
      ReachesMeans(l[b], x, estimates);
    }
    assert Covered(l, x, estimates) <==> Complete(l, x, estimates);
    if TooLittle(l, x, estimates) {
      var b :| b in l && Reaches(l[b], x) && l[b].resource in estimates
               && l[b].spent + l[b].reserved + estimates[l[b].resource] > l[b].limit;
      assert !Room(l[b], x, estimates);
    }
    if b :| b in l && !Room(l[b], x, estimates) {
      assert Reaches(l[b], x) && l[b].resource in estimates;
    }
  }

  /** The owner holds a new reservation of the estimate in exactly the budgets that cover the context. */
  predicate ReservedIn(l: Ledger, k: Ledger, owner: Owner, x: Context, estimates: map<Resource, int>) {
    && k.Keys == l.Keys
    && forall b | b in l ::
         if Reaches(l[b], x) && l[b].resource in estimates then
           && owner in k[b].holds && k[b].holds[owner].estimate == estimates[l[b].resource]
           && k[b].holds[owner].status == Active && k[b].reserved == l[b].reserved + estimates[l[b].resource] && k[b].spent == l[b].spent
         else k[b] == l[b]
  }

  lemma ReserveOutcome(l: Ledger, owner: Owner, x: Context, estimates: map<Resource, int>)
    requires Refusal(l, x, estimates).None?
    ensures Reserve(l, owner, x, estimates).Ok? && ReservedIn(l, Reserve(l, owner, x, estimates).value, owner, x, estimates)
  {
    hide Applies, Reaches, Covered, Room;
    forall b | b in l ensures Applies(l[b], x, estimates) <==> Reaches(l[b], x) && l[b].resource in estimates {
      ReachesMeans(l[b], x, estimates);
    }
  }

  /**
   * An action is created unless the reservation is refused, for the reasons in their order; it is
   * then reserved in every budget of its organization, project, environment, agent and user.
   */
  lemma CreateActionOutcome(budgets: Ledger, ts: seq<Transaction>, rules: Rules, x: Context, digest: nat, arguments: nat, needsApproval: bool)
    requires Setting(budgets, rules)
    ensures var g := History(budgets, ts, rules);
            var h := History(budgets, ts + [CreateAction(x, digest, arguments, needsApproval)], rules);
            if !Complete(g.ledger, x, ACTION_ESTIMATES) || TooLittle(g.ledger, x, ACTION_ESTIMATES) then h == g
            else
              && g.nextId in h.actions && ReservedIn(g.ledger, h.ledger, ForAction(g.nextId), x, ACTION_ESTIMATES)
              && var a := h.actions[g.nextId];
                 && a.digest == digest == a.intent.digest && a.arguments == arguments == a.intent.arguments && a.executes == 0
                 && (if needsApproval then
                       && a.state == Proposed && a.run == WaitingForApproval && a.readies == []
                       && a.approval == Some(Approval(digest, Pending, g.now + rules.approvalTtl, None))
                     else
                       a.state == Approved && a.run == RunQueued && a.approval.None? && a.readies == [Ready(g.now, false, false)])
  {
    hide History, GovInv, Reserve, Refusal, Complete, TooLittle, ReservedIn;
    var g, t := History(budgets, ts, rules), CreateAction(x, digest, arguments, needsApproval);
    HistoryInvariant(budgets, ts, rules);
    HistorySnoc(budgets, ts, t, rules);
    RefusalOutcome(g.ledger, x, ACTION_ESTIMATES);
    RefusalDecides(g.ledger, ForAction(g.nextId), x, ACTION_ESTIMATES);
    assert Currency in ACTION_ESTIMATES;
    if Refusal(g.ledger, x, ACTION_ESTIMATES).None? {
      ReserveOutcome(g.ledger, ForAction(g.nextId), x, ACTION_ESTIMATES);
    }
  }

  /**
   * A model call is reserved in every budget of its organization, project, environment, agent, user
   * and route, and queued with its two events; refused, its row is left without events and no
   * budget changes.
   */
  lemma CreateCallOutcome(budgets: Ledger, ts: seq<Transaction>, rules: Rules, x: Context, input: nat, output: nat, timeout: nat)
    requires Setting(budgets, rules)
    ensures var g := History(budgets, ts, rules);
            var h := History(budgets, ts + [CreateCall(x, input, output, timeout)], rules);
            var estimates := CallEstimates(input + output);
            && g.nextId in h.calls
            && var c := h.calls[g.nextId];
               && c.state == CallQueued && c.charge == Uncharged && c.executes == 0 && c.tokens == input + output && c.expires == g.now + timeout
               && (if input + output > 0 && Complete(g.ledger, x, estimates) && !TooLittle(g.ledger, x, estimates) then
                     && ReservedIn(g.ledger, h.ledger, ForModelCall(g.nextId), x, estimates)
                     && c.ready == Some(Ready(g.now, false, false)) && c.timeout == Some(Ready(g.now + timeout, false, false))
                   else
                     h.ledger == g.ledger && c.ready.None? && c.timeout.None?)
  {
    hide History, GovInv, Reserve, Refusal, Complete, TooLittle, ReservedIn;
    var g, t := History(budgets, ts, rules), CreateCall(x, input, output, timeout);
    var estimates := CallEstimates(input + output);
    HistoryInvariant(budgets, ts, rules);
    HistorySnoc(budgets, ts, t, rules);
    RefusalOutcome(g.ledger, x, estimates);
    RefusalDecides(g.ledger, ForModelCall(g.nextId), x, estimates);
    PositiveCall(input + output);
    if Refusal(g.ledger, x, estimates).None? {
      ReserveOutcome(g.ledger, ForModelCall(g.nextId), x, estimates);
    }
  }

  lemma PositiveCall(tokens: nat)
    ensures (exists r | r in CallEstimates(tokens) :: CallEstimates(tokens)[r] <= 0) <==> tokens == 0
    ensures CallEstimates(tokens) != map[] && !exists r | r in CallEstimates(tokens) :: r.Unknown?
  {
    assert Tokens in CallEstimates(tokens);
  }

  // ---------------------------------------------------------------- what a settlement does to a budget

  /** The owner's reservation in this budget is active. */
  predicate Reserved(b: Budget, owner: Owner) {
    owner in b.holds && b.holds[owner].status == Active
  }

  /** What a reservation turns out to cost. */
  function Cost(b: Budget, estimate: nat, committed: bool, usage: map<Resource, int>): int {
    if b.resource in usage then usage[b.resource] else if committed then estimate else 0
  }

  /**
   * A settlement of a sound ledger is refused exactly when a reported usage of an active
   * reservation is negative. It takes every active reservation of the owner off the reserved
   * amount, adds what was committed to the spent amount, concurrent runs apart, and touches
   * nothing else.
   */
  lemma SettledMeans(l: Ledger, owner: Owner, committed: bool, usage: map<Resource, int>)
    requires SoundLedger(l)
    ensures Settleable(l, owner, committed, usage) <==>
            forall b | b in l && Reserved(l[b], owner) && l[b].resource in usage :: usage[l[b].resource] >= 0
    ensures var k := Settled(l, owner, committed, usage);
            && k.Keys == l.Keys
            && forall b | b in l ::
                 if !Reserved(l[b], owner) then k[b] == l[b]
                 else
                   var hold, charged := l[b].holds[owner], committed && l[b].resource != ConcurrentRuns;
                   var cost := Cost(l[b], hold.estimate, committed, usage);
                   && k[b].reserved == l[b].reserved - hold.estimate
                   && k[b].spent == l[b].spent + (if charged then cost else 0)
                   && k[b].limit == l[b].limit && k[b].resource == l[b].resource && k[b].scope == l[b].scope
                   && k[b].holds == l[b].holds[owner := Hold(hold.estimate, Some(cost), if charged then Committed else Released)]
  {
    hide Sound;
    forall b | b in l
      ensures Objection(l[b], owner, committed, usage).None? <==>
              (Reserved(l[b], owner) && l[b].resource in usage ==> usage[l[b].resource] >= 0)
    {
      if Reserved(l[b], owner) {
        SoundIsBalanced(l[b]);
        HeldIsReserved(l[b], owner);
      }
    }
  }

  lemma SoundIsBalanced(b: Budget)
    requires Sound(b)
    ensures Balanced(b)
  {
    hide Balanced, Bounded;
  }

  // ---------------------------------------------------------------- what an action has reserved and paid

  /** The reservation is active, paid in full, or given back, as the state of the action says. */
  predicate HoldSays(state: ActionState, r: Resource, hold: Hold) {
    && r in {Currency, Requests, ConcurrentRuns, ToolActions} && hold.estimate == 1
    && match state
       case EffectCommitted =>
         hold.actual == Some(1) && hold.status == (if r == ConcurrentRuns then Released else Committed)
       case EffectFailed => hold.actual == Some(0) && hold.status == Released
       case Rejected => hold.actual == Some(0) && hold.status == Released
       case _ => hold.actual.None? && hold.status == Active
  }

  /** The owner holds a reservation of the resource. */
  predicate HeldSomewhere(l: Ledger, o: Owner, r: Resource) {
    exists b | b in l :: o in l[b].holds && l[b].resource == r
  }

  /** Each of the four resources is reserved, and every reservation is as the state says. */
  ghost predicate HoldsSay(l: Ledger, i: nat, state: ActionState) {
    && HeldSomewhere(l, ForAction(i), Currency) && HeldSomewhere(l, ForAction(i), Requests)
    && HeldSomewhere(l, ForAction(i), ConcurrentRuns) && HeldSomewhere(l, ForAction(i), ToolActions)
    && forall b | b in l && ForAction(i) in l[b].holds :: HoldSays(state, l[b].resource, l[b].holds[ForAction(i)])
  }

  lemma HoldMeans(a: Action, estimate: nat, r: Resource)
    requires r in ACTION_ESTIMATES && estimate == ACTION_ESTIMATES[r]
    ensures HoldSays(a.state, r, HoldOf(a, estimate, r))
  {
  }

  /** In every reachable state the reservations of an action are those of its state. */
  lemma ActionCharges(budgets: Ledger, ts: seq<Transaction>, rules: Rules, i: nat)
    requires Setting(budgets, rules) && i in History(budgets, ts, rules).actions
    ensures HoldsSay(History(budgets, ts, rules).ledger, i, History(budgets, ts, rules).actions[i].state)
  {
    hide History, GovInv, HoldOf, HoldSays;
    var g := History(budgets, ts, rules);
    HistoryInvariant(budgets, ts, rules);
    ActionsAreFunded(budgets, ts, rules, i);
    assert Currency in ACTION_ESTIMATES && Requests in ACTION_ESTIMATES;
    assert ConcurrentRuns in ACTION_ESTIMATES && ToolActions in ACTION_ESTIMATES;
    forall b | b in g.ledger && ForAction(i) in g.ledger[b].holds
      ensures HoldSays(g.actions[i].state, g.ledger[b].resource, g.ledger[b].holds[ForAction(i)])
    {
      ActionHoldAt(g, rules, i, b);
      HoldMeans(g.actions[i], ACTION_ESTIMATES[g.ledger[b].resource], g.ledger[b].resource);
    }
  }

  // ---------------------------------------------------------------- reports on an action

  /** The report comes from the worker that has the action. */
  predicate Reports(a: Action, mode: Mode, token: nat) {
    a.token == Some(token) && (if mode == Execute then a.state == Executing else a.state == Reconciling)
  }

  /** The dead letter once its action has ended. */
  function LetterEnds(letter: Option<Letter>): Option<Letter> {
    if letter.None? then None else Some(letter.value.(status := Resolved, version := letter.value.version + 1))
  }

  /** The dead letter once the attempts are used up: the first one, or the old one reopened. */
  function LetterOpens(a: Action, rules: Rules): Letter {
    if a.letter.None? then Letter(Open, a.reconciles, 0, rules.maxRedrives, 1, a.digest)
    else a.letter.value.(status := Open, attempts := a.reconciles, version := a.letter.value.version + 1)
  }

  /** What the provider's answer makes of the action: nothing but these fields changes. */
  predicate ReportSays(a: Action, b: Action, mode: Mode, provider: Provider, now: nat, rules: Rules) {
    && |a.readies| == 1
    && var done := [a.readies[0].(processed := true)];
       var ended := a.(lease := None, version := a.version + 1);
       match provider
       case ProviderCommitted => b == ended.(state := EffectCommitted, run := RunCompleted, readies := done, letter := LetterEnds(a.letter))
       case ProviderFailed => b == ended.(state := EffectFailed, run := RunFailed, readies := done, letter := LetterEnds(a.letter))
       case ProviderAmbiguous =>
         if mode == Reconcile && a.cycle == rules.maxAttempts then
           b == ended.(state := DeadLettered, run := RunDeadLettered, nextAt := None, readies := done, letter := Some(LetterOpens(a, rules)))
         else
           b == ended.(state := ReconciliationRequired, run := RunUnresolved, nextAt := Some(now + rules.delay))
  }

  lemma SettleSays(a: Action, mode: Mode, token: nat, provider: Provider, now: nat, rules: Rules, nextToken: nat)
    requires ActionInv(a, rules, now, nextToken) && Reports(a, mode, token)
    ensures ReportSays(a, Settle(a, mode, token, provider, now, rules).action, mode, provider, now, rules)
  {
  }

  /**
   * A report by the worker that has the action ends it as the provider answered: committed and
   * paid, failed and given back, or unresolved with everything still reserved. Any other report
   * changes nothing.
   */
  lemma SettleOutcome(budgets: Ledger, ts: seq<Transaction>, rules: Rules, i: nat, mode: Mode, token: nat, provider: Provider)
    requires Setting(budgets, rules) && i in History(budgets, ts, rules).actions
    ensures var g := History(budgets, ts, rules);
            var h := History(budgets, ts + [SettleAction(i, mode, token, provider)], rules);
            if Reports(g.actions[i], mode, token) then
              && i in h.actions && ReportSays(g.actions[i], h.actions[i], mode, provider, g.now, rules)
              && HoldsSay(h.ledger, i, h.actions[i].state)
            else h == g
  {
    hide History, GovInv, CommitAction, Settle, EffectFits, Onward, Forward, ReportSays, HoldsSay, ActionInv;
    var g, t := History(budgets, ts, rules), SettleAction(i, mode, token, provider);
    HistoryInvariant(budgets, ts, rules);
    HistorySnoc(budgets, ts, t, rules);
    ActionRow(g, i, rules);
    if Reports(g.actions[i], mode, token) {
      var m := Settle(g.actions[i], mode, token, provider, g.now, rules);
      SettleKeeps(g.actions[i], mode, token, provider, g.now, rules, g.nextToken);
      SettleOnward(g.actions[i], mode, token, provider, g.now, rules, g.nextToken);
      SettleEffect(g.actions[i], mode, token, provider, g.now, rules);
      ActionMoveKeeps(g, i, m, rules);
      SettleSays(g.actions[i], mode, token, provider, g.now, rules, g.nextToken);
      ActionCharges(budgets, ts + [t], rules, i);
    } else {
      StaleSettle(g, i, mode, token, provider, rules);
    }
  }

  // ---------------------------------------------------------------- decisions, claims and redrives

  /** The decision about the request of a proposed action: nothing but these fields changes. */
  predicate DecisionSays(a: Action, b: Action, approve: bool, now: nat) {
    && a.approval.Some?
    && if approve then
         b == a.(state := Approved, run := RunQueued, version := a.version + 1, readies := [Ready(now, false, false)],
                 approval := Some(a.approval.value.(status := Granted, decidedAt := Some(now))))
       else
         b == a.(state := Rejected, run := RunCancelled, version := a.version + 1, intent := a.intent.(denied := true),
                 approval := Some(a.approval.value.(status := Denied, decidedAt := Some(now))))
  }

  lemma DecideSays(a: Action, submitted: nat, approve: bool, now: nat, rules: Rules, nextToken: nat)
    requires ActionInv(a, rules, now, nextToken) && Decide(a, submitted, approve, now).Ok?
    ensures DecisionSays(a, Decide(a, submitted, approve, now).value.action, approve, now)
  {
  }

  lemma CancelSays(a: Action, now: nat, rules: Rules, nextToken: nat)
    requires ActionInv(a, rules, now, nextToken) && Cancel(a, now).Ok?
    ensures DecisionSays(a, Cancel(a, now).value.action, false, now)
  {
  }

  /**
   * A decision about a pending, unexpired request that shows the stored digest approves the action
   * and queues it, or rejects it and gives its reservations back. Any other changes nothing.
   */
  lemma DecideOutcome(budgets: Ledger, ts: seq<Transaction>, rules: Rules, i: nat, submitted: nat, approve: bool)
    requires Setting(budgets, rules) && i in History(budgets, ts, rules).actions
    ensures var g := History(budgets, ts, rules);
            var h := History(budgets, ts + [DecideApproval(i, submitted, approve)], rules);
            var a := g.actions[i];
            if a.state == Proposed && a.approval.Some? && g.now < a.approval.value.expires && submitted == a.digest then
              && i in h.actions && DecisionSays(a, h.actions[i], approve, g.now) && HoldsSay(h.ledger, i, h.actions[i].state)
            else h == g
  {
    hide History, GovInv, CommitAction, Decide, EffectFits, Onward, Forward, DecisionSays, HoldsSay;
    var g, t := History(budgets, ts, rules), DecideApproval(i, submitted, approve);
    var a := g.actions[i];
    HistoryInvariant(budgets, ts, rules);
    HistorySnoc(budgets, ts, t, rules);
    ActionRow(g, i, rules);
    DecideSucceeds(a, submitted, approve, g.now, rules, g.nextToken);
    if Decide(a, submitted, approve, g.now).Ok? {
      DecideKeeps(a, submitted, approve, g.now, rules, g.nextToken);
      DecideOnward(a, submitted, approve, g.now, rules, g.nextToken);
      DecideEffect(a, submitted, approve, g.now, rules, g.nextToken);
      ActionMoveKeeps(g, i, Decide(a, submitted, approve, g.now).value, rules);
      DecideSays(a, submitted, approve, g.now, rules, g.nextToken);
      ActionCharges(budgets, ts + [t], rules, i);
    }
  }

  /** Cancelling rejects a proposed action and gives its reservations back, and changes nothing else. */
  lemma CancelRunOutcome(budgets: Ledger, ts: seq<Transaction>, rules: Rules, i: nat)
    requires Setting(budgets, rules) && i in History(budgets, ts, rules).actions
    ensures var g, h := History(budgets, ts, rules), History(budgets, ts + [CancelRun(i)], rules);
            if g.actions[i].state == Proposed then
              && i in h.actions && DecisionSays(g.actions[i], h.actions[i], false, g.now) && HoldsSay(h.ledger, i, Rejected)
            else h == g
  {
    hide History, GovInv, CommitAction, Cancel, EffectFits, Onward, Forward, HoldsSay;
    var g, t := History(budgets, ts, rules), CancelRun(i);
    var a := g.actions[i];
    HistoryInvariant(budgets, ts, rules);
    HistorySnoc(budgets, ts, t, rules);
    ActionRow(g, i, rules);
    CancelSucceeds(a, g.now, rules, g.nextToken);
    if Cancel(a, g.now).Ok? {
      CancelKeeps(a, g.now, rules, g.nextToken);
      CancelOnward(a, g.now, rules, g.nextToken);
      CancelEffect(a, g.now);
      ActionMoveKeeps(g, i, Cancel(a, g.now).value, rules);
      CancelSays(a, g.now, rules, g.nextToken);
      ActionCharges(budgets, ts + [t], rules, i);
    }
  }

  /** The execution claim: only of an approved action, once, for the length of the lease. */
  lemma ExecuteOutcome(budgets: Ledger, ts: seq<Transaction>, rules: Rules, i: nat, k: nat)
    requires Setting(budgets, rules) && i in History(budgets, ts, rules).actions
    ensures var g, h := History(budgets, ts, rules), History(budgets, ts + [ClaimAction(i, k)], rules);
            var a := g.actions[i];
            if a.state == Approved && k == 0 then
              && i in h.actions && h.ledger == g.ledger && h.nextToken == g.nextToken + 1
              && h.actions[i] == a.(state := Executing, run := RunRunning, version := a.version + 1, executes := 1,
                                    token := Some(g.nextToken), lease := Some(g.now + rules.lease),
                                    readies := [a.readies[0].(dispatched := true)])
            else h == g
  {
    hide History, GovInv;
    var g := History(budgets, ts, rules);
    HistoryInvariant(budgets, ts, rules);
    HistorySnoc(budgets, ts, ClaimAction(i, k), rules);
    ActionRow(g, i, rules);
    ReadyOnlyApproved(g.actions[i], k, g.now, rules, g.nextToken);
  }

  lemma ReadyOnlyApproved(a: Action, k: nat, now: nat, rules: Rules, nextToken: nat)
    requires ActionInv(a, rules, now, nextToken)
    ensures Deliverable(a, k, now) <==> a.state == Approved && k == 0
    ensures a.state == Approved ==> a.executes == 0 && |a.readies| == 1
  {
  }

  /** The reconciliation claim: of an execution whose lease ran out or a reconciliation that is due. */
  lemma ReconcileOutcome(budgets: Ledger, ts: seq<Transaction>, rules: Rules, i: nat)
    requires Setting(budgets, rules) && i in History(budgets, ts, rules).actions
    ensures var g, h := History(budgets, ts, rules), History(budgets, ts + [ReconcileAction(i)], rules);
            var a := g.actions[i];
            if (a.state == Executing && a.lease.Some? && a.lease.value < g.now)
               || (a.state == ReconciliationRequired && (a.nextAt.Some? ==> a.nextAt.value <= g.now))
            then
              && i in h.actions && h.ledger == g.ledger && h.nextToken == g.nextToken + 1
              && h.actions[i] == a.(state := Reconciling, version := a.version + 1, reconciles := a.reconciles + 1, cycle := a.cycle + 1,
                                    token := Some(g.nextToken), lease := Some(g.now + rules.lease))
            else h == g
  {
    hide History;
    HistorySnoc(budgets, ts, ReconcileAction(i), rules);
  }

  /** A redrive puts an open letter's action back to reconciliation, at once and for a new cycle. */
  lemma RedriveOutcome(budgets: Ledger, ts: seq<Transaction>, rules: Rules, i: nat, expected: nat)
    requires Setting(budgets, rules) && i in History(budgets, ts, rules).actions
    ensures var g, h := History(budgets, ts, rules), History(budgets, ts + [RedriveLetter(i, expected)], rules);
            var a := g.actions[i];
            if a.letter.Some? && a.letter.value.status == Open && a.letter.value.version == expected
               && a.letter.value.redrives < a.letter.value.maxRedrives
            then
              && i in h.actions && h.ledger == g.ledger
              && h.actions[i] == a.(state := ReconciliationRequired, run := RunUnresolved, version := a.version + 1, cycle := 0,
                                    nextAt := Some(g.now),
                                    letter := Some(a.letter.value.(status := Redriven, redrives := a.letter.value.redrives + 1,
                                                                   version := a.letter.value.version + 1)))
            else h == g
  {
    hide History, GovInv;
    var g := History(budgets, ts, rules);
    RedriveDecides(budgets, ts, rules, i, expected);
    HistorySnoc(budgets, ts, RedriveLetter(i, expected), rules);
  }

  // ---------------------------------------------------------------- model calls

  /** The reservation of a call under its charge, resource by resource. */
  predicate CallHoldSays(charge: Charge, tokens: nat, r: Resource, hold: Hold) {
    && r in {Currency, Tokens, Requests, ModelCallUnits} && hold.estimate == (if r == Tokens then tokens else 1)
    && match charge
       case Uncharged => hold.status == Active && hold.actual.None?
       case Free => hold.status == Released && hold.actual == Some(0)
       case FullEstimate => hold.status == Committed && hold.actual == Some(hold.estimate)
       case Metered(u) =>
         && hold.status == Committed
         && hold.actual == Some(if r == Currency then u.cost else if r == Tokens then u.input + u.output else 1)
  }

  /** Each of the four resources of a call is reserved, and every reservation is as the charge says. */
  ghost predicate CallHoldsSay(l: Ledger, i: nat, tokens: nat, charge: Charge) {
    && HeldSomewhere(l, ForModelCall(i), Currency) && HeldSomewhere(l, ForModelCall(i), Tokens)
    && HeldSomewhere(l, ForModelCall(i), Requests) && HeldSomewhere(l, ForModelCall(i), ModelCallUnits)
    && forall b | b in l && ForModelCall(i) in l[b].holds ::
         CallHoldSays(charge, tokens, l[b].resource, l[b].holds[ForModelCall(i)])
  }

  lemma CallHoldMeans(g: Gov, rules: Rules, i: nat, b: nat)
    requires GovInv(g, rules) && i in g.calls && b in g.ledger && ForModelCall(i) in g.ledger[b].holds
    ensures CallHoldSays(g.calls[i].charge, g.calls[i].tokens, g.ledger[b].resource, g.ledger[b].holds[ForModelCall(i)])
  {
    hide GovInv;
    CallHoldAt(g, rules, i, b);
  }

  /** In every reachable state the reservations of a funded call are those of its charge. */
  lemma CallRowsSay(budgets: Ledger, ts: seq<Transaction>, rules: Rules, i: nat)
    requires Setting(budgets, rules) && i in History(budgets, ts, rules).calls && History(budgets, ts, rules).calls[i].ready.Some?
    ensures var g := History(budgets, ts, rules); CallHoldsSay(g.ledger, i, g.calls[i].tokens, g.calls[i].charge)
  {
    hide History, GovInv, CallHoldSays, CallEstimates;
    var g := History(budgets, ts, rules);
    HistoryInvariant(budgets, ts, rules);
    CallsAreFunded(budgets, ts, rules, i);
    FourEstimates(g.calls[i].tokens);
    forall b | b in g.ledger && ForModelCall(i) in g.ledger[b].holds
      ensures CallHoldSays(g.calls[i].charge, g.calls[i].tokens, g.ledger[b].resource, g.ledger[b].holds[ForModelCall(i)])
    {
      CallHoldMeans(g, rules, i, b);
    }
  }

  lemma FourEstimates(tokens: nat)
    ensures {Currency, Tokens, Requests, ModelCallUnits} <= CallEstimates(tokens).Keys
  {
  }

  /** The report comes from the worker that has the call. */
  predicate CallReports(c: Call, mode: Mode, token: nat) {
    c.token == Some(token) && (if mode == Execute then c.state == CallExecuting else c.state == CallReconciling)
  }

  function Processed(e: Option<Ready>): Option<Ready> {
    if e.None? then None else Some(e.value.(processed := true))
  }

  lemma SettleCallSays(c: Call, mode: Mode, token: nat, answer: Answer, now: nat, rules: Rules)
    requires CallReports(c, mode, token) && !answer.AnswerAmbiguous?
    ensures SettleCall(c, mode, token, answer, now, rules).call ==
            c.(state := if answer.AnswerCompleted? then CallCompleted else CallFailed,
               charge := if answer.AnswerCompleted? then Metered(answer.usage) else Free,
               lease := None, ready := Processed(c.ready), timeout := Processed(c.timeout), resumes := c.resumes + [now])
  {
  }

  /**
   * A completed answer by the worker that has the call ends it and charges the reported cost and
   * tokens; a failed one ends it and gives everything back. Either wakes the execution. A report
   * by anybody else changes nothing.
   */
  lemma SettleCallOutcome(budgets: Ledger, ts: seq<Transaction>, rules: Rules, i: nat, mode: Mode, token: nat, answer: Answer)
    requires Setting(budgets, rules) && i in History(budgets, ts, rules).calls && !answer.AnswerAmbiguous?
    ensures var g := History(budgets, ts, rules);
            var h := History(budgets, ts + [SettleModelCall(i, mode, token, answer)], rules);
            if CallReports(g.calls[i], mode, token) then
              && i in h.calls && h.calls[i].resumes == [g.now] && h.calls[i].lease.None?
              && h.calls[i].ready == Processed(g.calls[i].ready) && h.calls[i].timeout == Processed(g.calls[i].timeout)
              && (if answer.AnswerCompleted? then
                    && h.calls[i].state == CallCompleted && h.calls[i].charge == Metered(answer.usage)
                    && CallHoldsSay(h.ledger, i, g.calls[i].tokens, Metered(answer.usage))
                  else
                    h.calls[i].state == CallFailed && h.calls[i].charge == Free && CallHoldsSay(h.ledger, i, g.calls[i].tokens, Free))
            else h == g
  {
    hide History, GovInv, CommitCall, CallEffectFits, CallOnward, Forward, SettleCall, CallHoldsSay, CallInv;
    var g, t := History(budgets, ts, rules), SettleModelCall(i, mode, token, answer);
    var c := g.calls[i];
    HistoryInvariant(budgets, ts, rules);
    HistorySnoc(budgets, ts, t, rules);
    CallRow(g, i, rules);
    if CallReports(c, mode, token) {
      SettleCallKeeps(c, mode, token, answer, g.now, rules, g.nextToken);
      SettleCallOnward(c, mode, token, answer, g.now, rules, g.nextToken);
      SettleCallEffect(c, mode, token, answer, g.now, rules, g.nextToken);
      SettleCallReady(c, mode, token, answer, g.now, rules);
      CallMoveKeeps(g, i, SettleCall(c, mode, token, answer, g.now, rules), rules);
      SettleCallSays(c, mode, token, answer, g.now, rules);
      ClaimedIsFunded(c, rules, g.now, g.nextToken);
      CallRowsSay(budgets, ts + [t], rules, i);
    } else {
      StaleCallSettle(g, i, mode, token, answer, rules);
    }
  }

  lemma ClaimedIsFunded(c: Call, rules: Rules, now: nat, nextToken: nat)
    requires CallInv(c, rules, now, nextToken) && c.state in {CallExecuting, CallReconciling}
    ensures c.ready.Some? && c.resumes == []
  {
  }

  /** The execution claim of a call: only while it is queued and funded, for the length of the lease. */
  lemma TakeCallOutcome(budgets: Ledger, ts: seq<Transaction>, rules: Rules, i: nat)
    requires Setting(budgets, rules) && i in History(budgets, ts, rules).calls
    ensures var g, h := History(budgets, ts, rules), History(budgets, ts + [TakeCall(i)], rules);
            var c := g.calls[i];
            if c.state == CallQueued && c.ready.Some? then
              && i in h.calls && h.ledger == g.ledger && h.nextToken == g.nextToken + 1
              && h.calls[i] == c.(state := CallExecuting, executes := 1, token := Some(g.nextToken), lease := Some(g.now + rules.lease),
                                  ready := Some(c.ready.value.(dispatched := true)))
            else h == g
  {
    hide History, GovInv;
    var g := History(budgets, ts, rules);
    HistoryInvariant(budgets, ts, rules);
    HistorySnoc(budgets, ts, TakeCall(i), rules);
    CallRow(g, i, rules);
  }

  /** The reconciliation claim of a call: of an execution whose lease ran out or a reconciliation that is due. */
  lemma ReconcileCallOutcome(budgets: Ledger, ts: seq<Transaction>, rules: Rules, i: nat)
    requires Setting(budgets, rules) && i in History(budgets, ts, rules).calls
    ensures var g, h := History(budgets, ts, rules), History(budgets, ts + [ReconcileModelCall(i)], rules);
            var c := g.calls[i];
            if (c.state == CallExecuting && c.lease.Some? && c.lease.value < g.now)
               || (c.state == CallUnresolved && (c.nextAt.Some? ==> c.nextAt.value <= g.now))
            then
              && i in h.calls && h.ledger == g.ledger && h.nextToken == g.nextToken + 1
              && h.calls[i] == c.(state := CallReconciling, reconciles := c.reconciles + 1, token := Some(g.nextToken),
                                  lease := Some(g.now + rules.lease))
            else h == g
  {
    hide History;
    HistorySnoc(budgets, ts, ReconcileModelCall(i), rules);
  }

  lemma ExpireSays(c: Call, now: nat, rules: Rules, nextToken: nat)
    requires CallInv(c, rules, now, nextToken) && TimeoutDue(c, now)
    ensures var d := ExpireCall(c, now).call;
            && d.timeout.Some? && d.timeout.value.processed && d.tokens == c.tokens && d.ready.Some? && d.resumes == c.resumes
            && (c.state == CallQueued ==> d.state == CallTimedOut && d.charge == Free)
            && (c.state == CallExecuting ==> d.state == CallUnresolved && d.nextAt == Some(now) && d.charge == Uncharged)
            && (c.state in {CallReconciling, CallUnresolved} ==> d.state == c.state && d.charge == Uncharged)
            && c.state in {CallQueued, CallExecuting, CallReconciling, CallUnresolved}
  {
  }

  /**
   * The timeout of a call ends it and gives everything back while nobody has claimed it, sends an
   * execution to reconciliation at once, and otherwise only marks its event.
   */
  lemma TimeOutOutcome(budgets: Ledger, ts: seq<Transaction>, rules: Rules, i: nat)
    requires Setting(budgets, rules) && i in History(budgets, ts, rules).calls
    ensures var g, h := History(budgets, ts, rules), History(budgets, ts + [TimeOutCall(i)], rules);
            var c := g.calls[i];
            if c.timeout.Some? && !c.timeout.value.processed && c.timeout.value.availableAt <= g.now then
              && i in h.calls && h.calls[i].timeout.Some? && h.calls[i].timeout.value.processed
              && (c.state == CallQueued ==> h.calls[i].state == CallTimedOut && CallHoldsSay(h.ledger, i, c.tokens, Free))
              && (c.state == CallExecuting ==> h.calls[i].state == CallUnresolved && h.calls[i].nextAt == Some(g.now))
              && (c.state in {CallReconciling, CallUnresolved} ==> h.calls[i].state == c.state)
              && (c.state != CallQueued ==> CallHoldsSay(h.ledger, i, c.tokens, Uncharged))
            else h == g
  {
    hide History, GovInv, CommitCall, CallEffectFits, CallOnward, Forward, ExpireCall, CallHoldsSay, CallInv;
    var g, t := History(budgets, ts, rules), TimeOutCall(i);
    var c := g.calls[i];
    HistoryInvariant(budgets, ts, rules);
    HistorySnoc(budgets, ts, t, rules);
    CallRow(g, i, rules);
    if TimeoutDue(c, g.now) {
      ExpireCallKeeps(c, g.now, rules, g.nextToken);
      ExpireCallOnward(c, g.now, rules, g.nextToken);
      ExpireCallEffect(c, g.now, rules, g.nextToken);
      ExpireCallReady(c, g.now);
      CallMoveKeeps(g, i, ExpireCall(c, g.now), rules);
      ExpireSays(c, g.now, rules, g.nextToken);
      CallRowsSay(budgets, ts + [t], rules, i);
    }
  }
}
