/** Model calls and their reservations: which calls are funded, and what their endings charge. */
module GovernanceCalls {
  import opened Ids
  import opened Budgets
  import opened Actions
  import opened ModelCalls
  import opened Governance
  import opened GovernanceResults

  // ---------------------------------------------------------------- creation

  lemma RefusalDecides(l: Ledger, owner: Owner, x: Context, estimates: map<Resource, int>)
    ensures Reserve(l, owner, x, estimates).Ok? <==> Refusal(l, x, estimates).None?
  {
    hide Refusal;
  }

  /** A reservation that succeeds holds in exactly the budgets that apply. */
  lemma HeldWhereApplicable(l: Ledger, owner: Owner, x: Context, estimates: map<Resource, int>)
    requires NewOwner(l, owner) && Reserve(l, owner, x, estimates).Ok?
    ensures var k := Reserve(l, owner, x, estimates).value;
            k.Keys == l.Keys && forall b | b in l :: owner in k[b].holds <==> Applies(l[b], x, estimates)
  {
    hide Applies, Covered, Room;
  }

  /**
   * A new call has its events exactly when no check refuses the reservation. It then holds in
   * every applicable budget; refused, it holds nowhere and no budget changed.
   */
  lemma CreatedCall(budgets: Ledger, ts: seq<Transaction>, rules: Rules, x: Context, input: nat, output: nat, timeout: nat)
    requires Setting(budgets, rules)
    ensures var g, h := History(budgets, ts, rules), History(budgets, ts + [CreateCall(x, input, output, timeout)], rules);
            var estimates := CallEstimates(input + output);
            && g.nextId !in g.calls && g.nextId in h.calls && h.ledger.Keys == g.ledger.Keys
            && (h.calls[g.nextId].ready.Some? <==> Refusal(g.ledger, x, estimates).None?)
            && (Refusal(g.ledger, x, estimates).None? ==>
                  forall b | b in g.ledger :: ForModelCall(g.nextId) in h.ledger[b].holds <==> Applies(g.ledger[b], x, estimates))
            && (Refusal(g.ledger, x, estimates).Some? ==> h.ledger == g.ledger && NewOwner(h.ledger, ForModelCall(g.nextId)))
  {
    hide History, GovInv, Reserve, Refusal, Applies, NewOwner;
    var g, t := History(budgets, ts, rules), CreateCall(x, input, output, timeout);
    HistoryInvariant(budgets, ts, rules);
    UnusedOwner(g, rules);
    HistorySnoc(budgets, ts, t, rules);
    RefusalDecides(g.ledger, ForModelCall(g.nextId), x, CallEstimates(input + output));
    if Reserve(g.ledger, ForModelCall(g.nextId), x, CallEstimates(input + output)).Ok? {
      HeldWhereApplicable(g.ledger, ForModelCall(g.nextId), x, CallEstimates(input + output));
    }
  }

  /** An action is created exactly when no check refuses; it then holds in every applicable budget. */
  lemma CreatedAction(budgets: Ledger, ts: seq<Transaction>, rules: Rules, x: Context, digest: nat, arguments: nat, needsApproval: bool)
    requires Setting(budgets, rules)
    ensures var g := History(budgets, ts, rules);
            var h := History(budgets, ts + [CreateAction(x, digest, arguments, needsApproval)], rules);
            && g.nextId !in g.actions
            && (Refusal(g.ledger, x, ACTION_ESTIMATES).Some? ==> h == g)
            && (Refusal(g.ledger, x, ACTION_ESTIMATES).None? ==>
                  && g.nextId in h.actions && h.actions[g.nextId] == Propose(digest, arguments, needsApproval, g.now, rules)
                  && h.ledger.Keys == g.ledger.Keys
                  && forall b | b in g.ledger ::
                       ForAction(g.nextId) in h.ledger[b].holds <==> Applies(g.ledger[b], x, ACTION_ESTIMATES))
  {
    hide History, GovInv, Reserve, Refusal, Applies, NewOwner, Propose;
    var g, t := History(budgets, ts, rules), CreateAction(x, digest, arguments, needsApproval);
    HistoryInvariant(budgets, ts, rules);
    UnusedOwner(g, rules);
    HistorySnoc(budgets, ts, t, rules);
    RefusalDecides(g.ledger, ForAction(g.nextId), x, ACTION_ESTIMATES);
    if Reserve(g.ledger, ForAction(g.nextId), x, ACTION_ESTIMATES).Ok? {
      HeldWhereApplicable(g.ledger, ForAction(g.nextId), x, ACTION_ESTIMATES);
    }
  }

  /** On a ledger without budgets the reservation is refused, and the row of the call stays behind. */
  lemma RefusedCallRemains(rules: Rules, x: Context, input: nat, output: nat, timeout: nat)
    requires rules.maxAttempts >= 1
    ensures var h := History(map[], [CreateCall(x, input, output, timeout)], rules);
            0 in h.calls && h.calls[0] == Unfunded(input + output, timeout) && h.ledger == map[]
  {
    hide Next;
    var t := CreateCall(x, input, output, timeout);
    var g := History(map[], [], rules);
    assert [t][..0] == [];
    assert History(map[], [t], rules) == Next(g, t, rules);
    NothingCovers(g.ledger, x, CallEstimates(input + output));
    RefusedRow(g, t, rules);
  }

  lemma NothingCovers(l: Ledger, x: Context, estimates: map<Resource, int>)
    requires l == map[] && Currency in estimates
    ensures Refusal(l, x, estimates).Some?
  {
  }

  lemma RefusedRow(g: Gov, t: Transaction, rules: Rules)
    requires t.CreateCall? && Refusal(g.ledger, t.context, CallEstimates(t.inputTokens + t.maxOutput)).Some?
    ensures var h := Next(g, t, rules);
            && h.ledger == g.ledger && g.nextId in h.calls
            && h.calls[g.nextId] == Unfunded(t.inputTokens + t.maxOutput, g.now + t.timeout)
  {
    hide Refusal;
  }

  /** A call left without events stays queued, unclaimed and uncharged in every later state. */
  lemma UnfundedForever(budgets: Ledger, ts: seq<Transaction>, more: seq<Transaction>, rules: Rules, i: nat)
    requires Setting(budgets, rules) && i in History(budgets, ts, rules).calls && History(budgets, ts, rules).calls[i].ready.None?
    ensures var c, h := History(budgets, ts, rules).calls[i], History(budgets, ts + more, rules);
            && i in h.calls && h.calls[i] == c && c.state == CallQueued && c.executes == 0 && c.token.None?
            && c.charge == Uncharged && NewOwner(h.ledger, ForModelCall(i))
  {
    hide History, Onward, CallHoldOf;
    var g, h := History(budgets, ts, rules), History(budgets, ts + more, rules);
    HistoryForward(budgets, ts, more, rules);
    HistoryInvariant(budgets, ts, rules);
    CallRow(g, i, rules);
    assert CallOnward(g.calls[i], h.calls[i], g.nextToken);
    HistoryInvariant(budgets, ts + more, rules);
    NoHoldWithoutEvents(h, rules, i);
  }

  lemma NoHoldWithoutEvents(g: Gov, rules: Rules, i: nat)
    requires GovInv(g, rules) && i in g.calls && g.calls[i].ready.None?
    ensures NewOwner(g.ledger, ForModelCall(i))
  {
    hide ActionInv, CallInv, Sound, HoldOf, CallHoldOf;
    forall b | b in g.ledger ensures ForModelCall(i) !in g.ledger[b].holds {
      forall o | o in g.ledger[b].holds ensures o != ForModelCall(i) {
        assert HoldFits(g, g.ledger[b], o);
      }
    }
  }

  // ---------------------------------------------------------------- every call with events is funded

  /** Only a creation adds a call, and one with events reserved everything. */
  lemma NewCall(g: Gov, t: Transaction, rules: Rules, i: nat)
    requires i !in g.calls && i in Next(g, t, rules).calls && Next(g, t, rules).calls[i].ready.Some?
    ensures Funded(Next(g, t, rules).ledger, ForModelCall(i), CallEstimates(Next(g, t, rules).calls[i].tokens))
  {
    hide Reserve, Settleable, Settled, Decide, Cancel, ClaimReady, ClaimReconciliation, Settle, Redrive, SettleCall, ExpireCall,
      ClaimCall, ReconcileCall, Propose, Funded, CallEstimates;
    if t.CreateCall? {
      ReserveFundsIfOk(g.ledger, ForModelCall(g.nextId), t.context, CallEstimates(t.inputTokens + t.maxOutput));
    }
  }

  lemma ReserveFundsIfOk(l: Ledger, o: Owner, x: Context, estimates: map<Resource, int>)
    ensures Reserve(l, o, x, estimates).Ok? ==> Funded(Reserve(l, o, x, estimates).value, o, estimates)
  {
    hide Reserve, Funded;
    if Reserve(l, o, x, estimates).Ok? {
      ReserveFunds(l, o, x, estimates);
    }
  }

  lemma SameFunding(a: Call, b: Call, floor: nat)
    requires CallOnward(a, b, floor)
    ensures a.ready.Some? == b.ready.Some? && a.tokens == b.tokens
  {
  }

  lemma CallMoves(g: Gov, h: Gov, floor: nat, i: nat)
    requires Forward(g, h, floor) && i in g.calls
    ensures i in h.calls && CallOnward(g.calls[i], h.calls[i], floor)
  {
    hide Onward, CallOnward, HoldsForward;
  }

  lemma {:induction false} EventsAreFunded(budgets: Ledger, ts: seq<Transaction>, rules: Rules, i: nat)
    requires Setting(budgets, rules) && i in History(budgets, ts, rules).calls && History(budgets, ts, rules).calls[i].ready.Some?
    ensures var g := History(budgets, ts, rules); Funded(g.ledger, ForModelCall(i), CallEstimates(g.calls[i].tokens))
    decreases |ts|
  {
    hide Next, GovInv, Funded, Forward, CallOnward, CallEstimates;
    var before, t := ts[..|ts| - 1], ts[|ts| - 1];
    var g := History(budgets, before, rules);
    if i in g.calls {
      HistoryInvariant(budgets, before, rules);
      NextKeeps(g, t, rules);
      CallMoves(g, Next(g, t, rules), g.nextToken, i);
      SameFunding(g.calls[i], Next(g, t, rules).calls[i], g.nextToken);
      EventsAreFunded(budgets, before, rules, i);
      FundedForward(g, Next(g, t, rules), g.nextToken, ForModelCall(i), CallEstimates(g.calls[i].tokens));
    } else {
      NewCall(g, t, rules, i);
    }
  }

  lemma FundedHolds(l: Ledger, i: nat, tokens: nat)
    requires Funded(l, ForModelCall(i), CallEstimates(tokens))
    ensures !NewOwner(l, ForModelCall(i))
  {
    assert Currency in CallEstimates(tokens);
    var b :| b in l && ForModelCall(i) in l[b].holds && l[b].resource == Currency;
  }

  /**
   * In every reachable state a call has its events exactly when it holds a reservation of every
   * resource it estimates, and a call without events holds none at all.
   */
  lemma CallsAreFunded(budgets: Ledger, ts: seq<Transaction>, rules: Rules, i: nat)
    requires Setting(budgets, rules) && i in History(budgets, ts, rules).calls
    ensures var g := History(budgets, ts, rules);
            && (g.calls[i].ready.Some? <==> Funded(g.ledger, ForModelCall(i), CallEstimates(g.calls[i].tokens)))
            && (g.calls[i].ready.None? <==> NewOwner(g.ledger, ForModelCall(i)))
  {
    hide History, GovInv, Funded, NewOwner, CallEstimates;
    var g := History(budgets, ts, rules);
    HistoryInvariant(budgets, ts, rules);
    if g.calls[i].ready.Some? {
      EventsAreFunded(budgets, ts, rules, i);
    } else {
      NoHoldWithoutEvents(g, rules, i);
    }
    if Funded(g.ledger, ForModelCall(i), CallEstimates(g.calls[i].tokens)) {
      FundedHolds(g.ledger, i, g.calls[i].tokens);
    }
  }

  // ---------------------------------------------------------------- what an ending charges

  /** The reservation is what the charge of its call says. */
  predicate Charged(c: Call, row: Budget, hold: Hold) {
    && (hold.status == Active <==> !CallEnded(c.state))
    && (c.charge == Free ==> hold.status == Released && Paid(hold) == 0)
    && (c.charge == FullEstimate ==> hold.status == Committed && Paid(hold) == hold.estimate)
    && (c.charge.Metered? ==>
          hold.status == Committed && row.resource in Metering(c.charge.usage)
          && Paid(hold) == Metering(c.charge.usage)[row.resource])
  }

  /** The owner holds a reservation of resource `r` in budget `b`. */
  predicate HoldsAt(l: Ledger, b: nat, o: Owner, r: Resource) {
    b in l && o in l[b].holds && l[b].resource == r
  }

  /**
   * In every reachable state, for every call with events and every resource it estimates there is
   * a reservation of the call, and each of its reservations is active until the call ends and then
   * released, charged the reported usage or charged the estimate, as the call was.
   */
  lemma ModelCallCharges(budgets: Ledger, ts: seq<Transaction>, rules: Rules, i: nat)
    requires Setting(budgets, rules) && i in History(budgets, ts, rules).calls
    ensures var g := History(budgets, ts, rules);
            && (g.calls[i].ready.Some? ==>
                  forall r | r in CallEstimates(g.calls[i].tokens) :: exists b :: HoldsAt(g.ledger, b, ForModelCall(i), r))
            && (g.calls[i].ready.None? ==> g.calls[i].charge == Uncharged && NewOwner(g.ledger, ForModelCall(i)))
            && forall b | b in g.ledger && ForModelCall(i) in g.ledger[b].holds ::
                 Charged(g.calls[i], g.ledger[b], g.ledger[b].holds[ForModelCall(i)])
  {
    hide History, GovInv, NewOwner, Charged, CallEstimates;
    var g := History(budgets, ts, rules);
    HistoryInvariant(budgets, ts, rules);
    CallsAreFunded(budgets, ts, rules, i);
    CallRow(g, i, rules);
    if g.calls[i].ready.Some? {
      forall r | r in CallEstimates(g.calls[i].tokens) ensures exists b :: HoldsAt(g.ledger, b, ForModelCall(i), r) {
        var b :| b in g.ledger && ForModelCall(i) in g.ledger[b].holds && g.ledger[b].resource == r;
        assert HoldsAt(g.ledger, b, ForModelCall(i), r);
      }
    }
    forall b | b in g.ledger && ForModelCall(i) in g.ledger[b].holds
      ensures Charged(g.calls[i], g.ledger[b], g.ledger[b].holds[ForModelCall(i)])
    {
      ChargedAt(g, rules, i, b);
    }
  }

  lemma ChargedAt(g: Gov, rules: Rules, i: nat, b: nat)
    requires GovInv(g, rules) && i in g.calls && b in g.ledger && ForModelCall(i) in g.ledger[b].holds
    ensures Charged(g.calls[i], g.ledger[b], g.ledger[b].holds[ForModelCall(i)])
    ensures g.ledger[b].resource in CallEstimates(g.calls[i].tokens)
    ensures g.ledger[b].holds[ForModelCall(i)].estimate == CallEstimates(g.calls[i].tokens)[g.ledger[b].resource]
  {
    hide GovInv;
    CallRow(g, i, rules);
    CallHoldAt(g, rules, i, b);
  }

  /**
   * A current claim's ambiguous report ends the call exactly when it reconciled for the last time
   * allowed. Every reservation is then committed at its estimate; otherwise the call goes back to
   * reconciliation after the configured delay and nothing is charged.
   */
  lemma AmbiguousAtMaximum(budgets: Ledger, ts: seq<Transaction>, rules: Rules, i: nat, mode: Mode, token: nat)
    requires Setting(budgets, rules) && i in History(budgets, ts, rules).calls
    requires CallFenced(History(budgets, ts, rules).calls[i], mode, token)
    ensures var g := History(budgets, ts, rules);
            var h := History(budgets, ts + [SettleModelCall(i, mode, token, AnswerAmbiguous)], rules);
            var last := mode == Reconcile && g.calls[i].reconciles == rules.maxAttempts;
            && i in h.calls
            && (last <==> h.calls[i].charge == FullEstimate)
            && (last ==> h.calls[i].state == CallFailed && AllCommitted(h.ledger, i, h.calls[i].tokens))
            && (!last ==>
                  && h.calls[i].state == CallUnresolved && h.calls[i].charge == Uncharged && h.ledger == g.ledger
                  && h.calls[i].nextAt == Some(g.now + rules.delay) && h.calls[i].lease.None?)
  {
    hide History, GovInv, CommitCall, CallEffectFits, CallOnward, Forward, AllCommitted;
    var g, t := History(budgets, ts, rules), SettleModelCall(i, mode, token, AnswerAmbiguous);
    var c, m := g.calls[i], SettleCall(g.calls[i], mode, token, AnswerAmbiguous, g.now, rules);
    HistoryInvariant(budgets, ts, rules);
    HistorySnoc(budgets, ts, t, rules);
    CallRow(g, i, rules);
    SettleCallKeeps(c, mode, token, AnswerAmbiguous, g.now, rules, g.nextToken);
    SettleCallOnward(c, mode, token, AnswerAmbiguous, g.now, rules, g.nextToken);
    SettleCallEffect(c, mode, token, AnswerAmbiguous, g.now, rules, g.nextToken);
    SettleCallReady(c, mode, token, AnswerAmbiguous, g.now, rules);
    CallMoveKeeps(g, i, m, rules);
    var h := Next(g, t, rules);
    if m.effect.KeepReservations? {
      KeepsLedger(g, i, m);
    } else {
      CommittedInFull(budgets, ts + [t], rules, i);
    }
  }

  lemma KeepsLedger(g: Gov, i: nat, m: CallMove)
    requires m.effect.KeepReservations?
    ensures CommitCall(g, i, m).ledger == g.ledger
  {
  }

  /** Every estimated resource is reserved, and every reservation of the call committed at its estimate. */
  ghost predicate AllCommitted(l: Ledger, i: nat, tokens: nat) {
    && Funded(l, ForModelCall(i), CallEstimates(tokens))
    && forall b | b in l && ForModelCall(i) in l[b].holds ::
         && l[b].resource in CallEstimates(tokens)
         && l[b].holds[ForModelCall(i)].status == Committed
         && Paid(l[b].holds[ForModelCall(i)]) == CallEstimates(tokens)[l[b].resource]
  }

  lemma CommittedInFull(budgets: Ledger, ts: seq<Transaction>, rules: Rules, i: nat)
    requires Setting(budgets, rules) && i in History(budgets, ts, rules).calls && History(budgets, ts, rules).calls[i].charge == FullEstimate
    ensures AllCommitted(History(budgets, ts, rules).ledger, i, History(budgets, ts, rules).calls[i].tokens)
  {
    hide History, GovInv, Funded, CallEstimates;
    var g := History(budgets, ts, rules);
    HistoryInvariant(budgets, ts, rules);
    CallsAreFunded(budgets, ts, rules, i);
    CallRow(g, i, rules);
    forall b | b in g.ledger && ForModelCall(i) in g.ledger[b].holds
      ensures g.ledger[b].resource in CallEstimates(g.calls[i].tokens)
      ensures g.ledger[b].holds[ForModelCall(i)].status == Committed
      ensures Paid(g.ledger[b].holds[ForModelCall(i)]) == CallEstimates(g.calls[i].tokens)[g.ledger[b].resource]
    {
      ChargedAt(g, rules, i, b);
    }
  }
}
