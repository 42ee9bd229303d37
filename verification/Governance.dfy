/**
 * Governed actions and model calls over one shared budget ledger, with any number of workers,
 * callers and approvers. Every transaction is atomic; one that raises changes nothing.
 */
module Governance {
  import opened Ids
  import opened Budgets
  import opened Actions
  import opened ModelCalls

  datatype Gov = Gov(
    now: nat, actions: map<nat, Action>, calls: map<nat, Call>, ledger: Ledger, nextToken: nat, nextId: nat)

  datatype Transaction =
    | Tick(seconds: nat)
    | CreateAction(context: Context, digest: nat, arguments: nat, needsApproval: bool)
    | DecideApproval(action: nat, submitted: nat, approve: bool)
    | CancelRun(action: nat)
    | ClaimAction(action: nat, event: nat)
    | ReconcileAction(action: nat)
    | SettleAction(action: nat, mode: Mode, token: nat, provider: Provider)
    | RedriveLetter(action: nat, expected: nat)
    | CreateCall(context: Context, inputTokens: nat, maxOutput: nat, timeout: nat)
    | TakeCall(call: nat)
    | ReconcileModelCall(call: nat)
    | SettleModelCall(call: nat, mode: Mode, token: nat, answer: Answer)
    | TimeOutCall(call: nat)

  /** Writes the action and settles its reservations in one transaction. */
  function CommitAction(g: Gov, i: nat, m: Move): Gov {
    var owner := ForAction(i);
    match m.effect
    case KeepHolds => g.(actions := g.actions[i := m.action])
    case SettleHolds(committed) =>
      if Settleable(g.ledger, owner, committed, map[])
      then g.(actions := g.actions[i := m.action], ledger := Settled(g.ledger, owner, committed, map[]))
      else g
  }

  function CommitCall(g: Gov, i: nat, m: CallMove): Gov {
    var owner := ForModelCall(i);
    match m.effect
    case KeepReservations => g.(calls := g.calls[i := m.call])
    case SettleReservations(committed, usage) =>
      if Settleable(g.ledger, owner, committed, usage)
      then g.(calls := g.calls[i := m.call], ledger := Settled(g.ledger, owner, committed, usage))
      else g
  }

  /** The action is created only with its reservations. */
  function OpenAction(g: Gov, x: Context, digest: nat, arguments: nat, needsApproval: bool, rules: Rules): Gov {
    var reserved := Reserve(g.ledger, ForAction(g.nextId), x, ACTION_ESTIMATES);
    if reserved.Err? then g
    else g.(actions := g.actions[g.nextId := Propose(digest, arguments, needsApproval, g.now, rules)],
            ledger := reserved.value, nextId := g.nextId + 1)
  }

  /** A refused reservation fails the execution but leaves the call row behind, unfunded. */
  function OpenModelCall(g: Gov, x: Context, tokens: nat, timeout: nat): Gov {
    var reserved := Reserve(g.ledger, ForModelCall(g.nextId), x, CallEstimates(tokens));
    if reserved.Err? then
      g.(calls := g.calls[g.nextId := Unfunded(tokens, g.now + timeout)], nextId := g.nextId + 1)
    else
      g.(calls := g.calls[g.nextId := Enqueue(tokens, g.now, g.now + timeout)],
         ledger := reserved.value, nextId := g.nextId + 1)
  }

  function Next(g: Gov, t: Transaction, rules: Rules): Gov {
    match t
    case Tick(seconds) => g.(now := g.now + seconds)
    case CreateAction(x, digest, arguments, needsApproval) => OpenAction(g, x, digest, arguments, needsApproval, rules)
    case DecideApproval(i, submitted, approve) =>
      if i in g.actions && Decide(g.actions[i], submitted, approve, g.now).Ok?
      then CommitAction(g, i, Decide(g.actions[i], submitted, approve, g.now).value) else g
    case CancelRun(i) =>
      if i in g.actions && Cancel(g.actions[i], g.now).Ok? then CommitAction(g, i, Cancel(g.actions[i], g.now).value) else g
    case ClaimAction(i, k) =>
      if i in g.actions && Deliverable(g.actions[i], k, g.now)
      then g.(actions := g.actions[i := ClaimReady(g.actions[i], k, g.now, g.nextToken, rules)], nextToken := g.nextToken + 1)
      else g
    case ReconcileAction(i) =>
      if i in g.actions && Reconcilable(g.actions[i], g.now)
      then g.(actions := g.actions[i := ClaimReconciliation(g.actions[i], g.now, g.nextToken, rules)], nextToken := g.nextToken + 1)
      else g
    case SettleAction(i, mode, token, provider) =>
      if i in g.actions then CommitAction(g, i, Settle(g.actions[i], mode, token, provider, g.now, rules)) else g
    case RedriveLetter(i, expected) =>
      if i in g.actions && Redrive(g.actions[i], expected, g.now).Ok?
      then CommitAction(g, i, Move(Redrive(g.actions[i], expected, g.now).value, KeepHolds)) else g
    case CreateCall(x, inputTokens, maxOutput, timeout) => OpenModelCall(g, x, inputTokens + maxOutput, timeout)
    case TakeCall(i) =>
      if i in g.calls && CallDeliverable(g.calls[i], g.now)
      then g.(calls := g.calls[i := ClaimCall(g.calls[i], g.now, g.nextToken, rules)], nextToken := g.nextToken + 1)
      else g
    case ReconcileModelCall(i) =>
      if i in g.calls && CallReconcilable(g.calls[i], g.now)
      then g.(calls := g.calls[i := ReconcileCall(g.calls[i], g.now, g.nextToken, rules)], nextToken := g.nextToken + 1)
      else g
    case SettleModelCall(i, mode, token, answer) =>
      if i in g.calls then CommitCall(g, i, SettleCall(g.calls[i], mode, token, answer, g.now, rules)) else g
    case TimeOutCall(i) =>
      if i in g.calls && TimeoutDue(g.calls[i], g.now) then CommitCall(g, i, ExpireCall(g.calls[i], g.now)) else g
  }

  /** The state after a sequence of transactions, from budgets nobody has reserved against yet. */
  function History(budgets: Ledger, ts: seq<Transaction>, rules: Rules): Gov {
    if ts == [] then Gov(0, map[], map[], budgets, 0, 0)
    else Next(History(budgets, ts[..|ts| - 1], rules), ts[|ts| - 1], rules)
  }

  // ---------------------------------------------------------------- the invariant

  /** The reservation is exactly what its owner's state says it is. */
  predicate HoldFits(g: Gov, b: Budget, o: Owner)
    requires o in b.holds
  {
    match o
    case ForAction(i) =>
      && i in g.actions && b.resource in ACTION_ESTIMATES
      && b.holds[o] == HoldOf(g.actions[i], ACTION_ESTIMATES[b.resource], b.resource)
    case ForModelCall(i) =>
      && i in g.calls && b.resource in CallEstimates(g.calls[i].tokens)
      && g.calls[i].tokens > 0 && g.calls[i].ready.Some?
      && b.holds[o] == CallHoldOf(g.calls[i], CallEstimates(g.calls[i].tokens)[b.resource], b.resource)
  }

  predicate HoldsFit(g: Gov) {
    forall b, o | b in g.ledger && o in g.ledger[b].holds :: HoldFits(g, g.ledger[b], o)
  }

  predicate ActionsFit(g: Gov, rules: Rules) {
    forall i | i in g.actions :: i < g.nextId && ActionInv(g.actions[i], rules, g.now, g.nextToken)
  }

  predicate CallsFit(g: Gov, rules: Rules) {
    forall i | i in g.calls :: i < g.nextId && CallInv(g.calls[i], rules, g.now, g.nextToken)
  }

  ghost predicate GovInv(g: Gov, rules: Rules) {
    ActionsFit(g, rules) && CallsFit(g, rules) && HoldsFit(g) && SoundLedger(g.ledger)
  }

  /** Budgets within their limits, with no reservation and nothing spent. */
  predicate Untouched(l: Ledger) {
    forall b | b in l :: l[b].reserved == 0 && l[b].spent == 0 && l[b].holds == map[] && l[b].limit >= 0
  }

  // ---------------------------------------------------------------- what never goes back

  /** Reservations that left the active state stay as they are, and every row only moves forward. */
  predicate Forward(g: Gov, h: Gov, floor: nat) {
    && g.now <= h.now && g.nextToken <= h.nextToken && h.ledger.Keys == g.ledger.Keys
    && (forall i | i in g.actions :: i in h.actions && Onward(g.actions[i], h.actions[i], floor))
    && (forall i | i in g.calls :: i in h.calls && CallOnward(g.calls[i], h.calls[i], floor))
    && (forall b | b in g.ledger :: HoldsForward(g.ledger[b], h.ledger[b]))
  }

  predicate HoldsForward(b: Budget, c: Budget) {
    && c.limit == b.limit && c.resource == b.resource
    && forall o | o in b.holds :: o in c.holds && (b.holds[o].status != Active ==> c.holds[o] == b.holds[o])
  }

  // ---------------------------------------------------------------- single rows

  lemma LaterRows(g: Gov, now: nat, nextToken: nat, rules: Rules)
    requires ActionsFit(g, rules) && CallsFit(g, rules) && g.now <= now && g.nextToken <= nextToken
    ensures var h := g.(now := now, nextToken := nextToken); ActionsFit(h, rules) && CallsFit(h, rules)
  {
    hide ActionInv, CallInv;
    forall i | i in g.actions ensures ActionInv(g.actions[i], rules, now, nextToken) {
      LaterKeeps(g.actions[i], rules, g.now, g.nextToken, now, nextToken);
    }
    forall i | i in g.calls ensures CallInv(g.calls[i], rules, now, nextToken) {
      LaterCallKeeps(g.calls[i], rules, g.now, g.nextToken, now, nextToken);
    }
  }

  lemma Stays(g: Gov, rules: Rules)
    requires GovInv(g, rules)
    ensures Forward(g, g, g.nextToken)
  {
    hide ActionInv, CallInv, Onward, CallOnward, HoldFits, Sound;
    forall i | i in g.actions ensures Onward(g.actions[i], g.actions[i], g.nextToken) {
      OnwardSelf(g.actions[i], rules, g.now, g.nextToken);
    }
    forall i | i in g.calls ensures CallOnward(g.calls[i], g.calls[i], g.nextToken) {
      CallOnwardSelf(g.calls[i], rules, g.now, g.nextToken);
    }
  }

  lemma TickKeeps(g: Gov, seconds: nat, rules: Rules)
    requires GovInv(g, rules)
    ensures GovInv(g.(now := g.now + seconds), rules) && Forward(g, g.(now := g.now + seconds), g.nextToken)
  {
    hide ActionInv, CallInv, Onward, CallOnward, Sound, ActionsFit, CallsFit;
    LaterRows(g, g.now + seconds, g.nextToken, rules);
    Stays(g, rules);
  }

  /** A claim changes one row and hands out one token; no reservation moves. */
  lemma ActionClaimKeeps(g: Gov, i: nat, a: Action, rules: Rules)
    requires GovInv(g, rules) && i in g.actions && ActionInv(a, rules, g.now, g.nextToken + 1)
    requires Onward(g.actions[i], a, g.nextToken) && EffectFits(g.actions[i], Move(a, KeepHolds))
    ensures var h := g.(actions := g.actions[i := a], nextToken := g.nextToken + 1);
            GovInv(h, rules) && Forward(g, h, g.nextToken)
  {
    hide ActionInv, CallInv, Onward, CallOnward, Sound;
    LaterRows(g, g.now, g.nextToken + 1, rules);
    Stays(g, rules);
    var h := g.(actions := g.actions[i := a], nextToken := g.nextToken + 1);
    assert HoldsFit(h) by {
      hide ActionsFit, CallsFit, SoundLedger, Forward;
      KeptHolds(g, h, i, a);
    }
  }

  /** Reservations of an action whose state keeps them. */
  lemma KeptHolds(g: Gov, h: Gov, i: nat, a: Action)
    requires HoldsFit(g) && i in g.actions && EffectFits(g.actions[i], Move(a, KeepHolds))
    requires h.actions == g.actions[i := a] && h.calls == g.calls && h.ledger == g.ledger
    ensures HoldsFit(h)
  {
    hide CallHoldOf;
    forall b, o | b in h.ledger && o in h.ledger[b].holds ensures HoldFits(h, h.ledger[b], o) {
      assert HoldFits(g, g.ledger[b], o);
    }
  }

  lemma CallClaimKeeps(g: Gov, i: nat, c: Call, rules: Rules)
    requires GovInv(g, rules) && i in g.calls && CallInv(c, rules, g.now, g.nextToken + 1)
    requires CallOnward(g.calls[i], c, g.nextToken) && CallEffectFits(g.calls[i], CallMove(c, KeepReservations))
    requires c.ready.Some? == g.calls[i].ready.Some?
    ensures var h := g.(calls := g.calls[i := c], nextToken := g.nextToken + 1);
            GovInv(h, rules) && Forward(g, h, g.nextToken)
  {
    hide ActionInv, CallInv, Onward, CallOnward, Sound, CallEffectFits;
    LaterRows(g, g.now, g.nextToken + 1, rules);
    Stays(g, rules);
    var h := g.(calls := g.calls[i := c], nextToken := g.nextToken + 1);
    assert HoldsFit(h) by {
      hide ActionsFit, CallsFit, SoundLedger, Forward;
      SameTokens(g.calls[i], c, g.nextToken);
      KeptReservations(g, h, i, c);
    }
  }

  lemma SameTokens(a: Call, b: Call, floor: nat)
    requires CallOnward(a, b, floor)
    ensures a.tokens == b.tokens
  {
  }

  lemma KeptReservations(g: Gov, h: Gov, i: nat, c: Call)
    requires HoldsFit(g) && i in g.calls && CallEffectFits(g.calls[i], CallMove(c, KeepReservations))
    requires c.tokens == g.calls[i].tokens && c.ready.Some? == g.calls[i].ready.Some?
    requires h.actions == g.actions && h.calls == g.calls[i := c] && h.ledger == g.ledger
    ensures HoldsFit(h)
  {
    hide HoldOf;
    forall b, o | b in h.ledger && o in h.ledger[b].holds ensures HoldFits(h, h.ledger[b], o) {
      assert HoldFits(g, g.ledger[b], o);
    }
  }

  // ---------------------------------------------------------------- settlements

  /** A row with its reservations kept: any move without a ledger effect, no token handed out. */
  lemma ActionMoveKeeps(g: Gov, i: nat, m: Move, rules: Rules)
    requires GovInv(g, rules) && i in g.actions && ActionInv(m.action, rules, g.now, g.nextToken)
    requires Onward(g.actions[i], m.action, g.nextToken) && EffectFits(g.actions[i], m)
    ensures GovInv(CommitAction(g, i, m), rules) && Forward(g, CommitAction(g, i, m), g.nextToken)
    ensures CommitAction(g, i, m).actions == g.actions[i := m.action]
  {
    hide ActionInv, CallInv, Onward, CallOnward, Sound, Settled, Settleable, EffectFits;
    var h := CommitAction(g, i, m);
    Stays(g, rules);
    match m.effect
    case KeepHolds =>
      assert HoldsFit(h) by {
        hide ActionsFit, CallsFit, SoundLedger, Forward;
        KeptHolds(g, h, i, m.action);
      }
    case SettleHolds(committed) =>
      AlwaysSettleable(g.ledger, ForAction(i), committed, map[]);
      SettledSound(g.ledger, ForAction(i), committed, map[]);
      SettledForward(g.ledger, ForAction(i), committed, map[]);
      assert HoldsFit(h) by {
        hide ActionsFit, CallsFit, SoundLedger, Forward;
        SettledActionHolds(g, h, i, m);
      }
  }

  lemma SettledForward(l: Ledger, owner: Owner, committed: bool, usage: map<Resource, int>)
    ensures var k := Settled(l, owner, committed, usage);
            k.Keys == l.Keys && forall b | b in l :: HoldsForward(l[b], k[b])
  {
  }

  /** Settling one owner leaves every other owner's reservations alone. */
  lemma OthersKept(b: Budget, owner: Owner, committed: bool, usage: map<Resource, int>, o: Owner)
    requires o in SettleOne(b, owner, committed, usage).holds
    ensures o in b.holds && SettleOne(b, owner, committed, usage).resource == b.resource
    ensures o != owner ==> SettleOne(b, owner, committed, usage).holds[o] == b.holds[o]
  {
  }

  lemma SettledActionHolds(g: Gov, h: Gov, i: nat, m: Move)
    requires HoldsFit(g) && i in g.actions && EffectFits(g.actions[i], m) && m.effect.SettleHolds?
    requires h.actions == g.actions[i := m.action] && h.calls == g.calls
    requires h.ledger == Settled(g.ledger, ForAction(i), m.effect.committed, map[])
    ensures HoldsFit(h)
  {
    hide SettleOne, EffectFits, HoldOf, CallHoldOf;
    forall b, o | b in h.ledger && o in h.ledger[b].holds ensures HoldFits(h, h.ledger[b], o) {
      OthersKept(g.ledger[b], ForAction(i), m.effect.committed, map[], o);
      assert HoldFits(g, g.ledger[b], o);
      if o == ForAction(i) {
        ActionHoldSettles(g.ledger[b], i, g.actions[i], m);
      }
    }
  }

  /** Settling turns the reservation of the old state into the reservation of the new one. */
  lemma ActionHoldSettles(b: Budget, i: nat, a: Action, m: Move)
    requires EffectFits(a, m) && m.effect.SettleHolds? && ForAction(i) in b.holds && b.resource in ACTION_ESTIMATES
    requires b.holds[ForAction(i)] == HoldOf(a, ACTION_ESTIMATES[b.resource], b.resource)
    ensures var c := SettleOne(b, ForAction(i), m.effect.committed, map[]);
            ForAction(i) in c.holds && c.holds[ForAction(i)] == HoldOf(m.action, ACTION_ESTIMATES[b.resource], b.resource)
  {
  }

  lemma CallMoveKeeps(g: Gov, i: nat, m: CallMove, rules: Rules)
    requires GovInv(g, rules) && i in g.calls && CallInv(m.call, rules, g.now, g.nextToken)
    requires CallOnward(g.calls[i], m.call, g.nextToken) && CallEffectFits(g.calls[i], m)
    requires m.call.ready.Some? == g.calls[i].ready.Some?
    ensures GovInv(CommitCall(g, i, m), rules) && Forward(g, CommitCall(g, i, m), g.nextToken)
    ensures CommitCall(g, i, m).calls == g.calls[i := m.call]
  {
    hide ActionInv, CallInv, Onward, CallOnward, Sound, Settled, Settleable, CallEffectFits;
    var h := CommitCall(g, i, m);
    Stays(g, rules);
    SameTokens(g.calls[i], m.call, g.nextToken);
    match m.effect
    case KeepReservations =>
      assert HoldsFit(h) by {
        hide ActionsFit, CallsFit, SoundLedger, Forward;
        KeptReservations(g, h, i, m.call);
      }
    case SettleReservations(committed, usage) =>
      UsageIsNatural(g.calls[i], m);
      AlwaysSettleable(g.ledger, ForModelCall(i), committed, usage);
      SettledSound(g.ledger, ForModelCall(i), committed, usage);
      SettledForward(g.ledger, ForModelCall(i), committed, usage);
      assert HoldsFit(h) by {
        hide ActionsFit, CallsFit, SoundLedger, Forward;
        SettledCallHolds(g, h, i, m);
      }
  }

  lemma UsageIsNatural(c: Call, m: CallMove)
    requires CallEffectFits(c, m) && m.effect.SettleReservations?
    ensures forall r | r in m.effect.usage :: m.effect.usage[r] >= 0
  {
  }

  lemma SettledCallHolds(g: Gov, h: Gov, i: nat, m: CallMove)
    requires HoldsFit(g) && i in g.calls && CallEffectFits(g.calls[i], m) && m.effect.SettleReservations?
    requires m.call.tokens == g.calls[i].tokens && m.call.ready.Some? == g.calls[i].ready.Some?
    requires h.actions == g.actions && h.calls == g.calls[i := m.call]
    requires h.ledger == Settled(g.ledger, ForModelCall(i), m.effect.committed, m.effect.usage)
    ensures HoldsFit(h)
  {
    hide SettleOne, CallEffectFits, HoldOf, CallHoldOf;
    forall b, o | b in h.ledger && o in h.ledger[b].holds ensures HoldFits(h, h.ledger[b], o) {
      OthersKept(g.ledger[b], ForModelCall(i), m.effect.committed, m.effect.usage, o);
      assert HoldFits(g, g.ledger[b], o);
      if o == ForModelCall(i) {
        CallHoldSettles(g.ledger[b], i, g.calls[i], m);
      }
    }
  }

  lemma CallHoldSettles(b: Budget, i: nat, c: Call, m: CallMove)
    requires CallEffectFits(c, m) && m.effect.SettleReservations? && ForModelCall(i) in b.holds
    requires b.resource in CallEstimates(c.tokens) && c.tokens > 0
    requires b.holds[ForModelCall(i)] == CallHoldOf(c, CallEstimates(c.tokens)[b.resource], b.resource)
    ensures var d := SettleOne(b, ForModelCall(i), m.effect.committed, m.effect.usage);
            && ForModelCall(i) in d.holds
            && d.holds[ForModelCall(i)] == CallHoldOf(m.call, CallEstimates(c.tokens)[b.resource], b.resource)
  {
  }

  // ---------------------------------------------------------------- creation

  lemma UnusedOwner(g: Gov, rules: Rules)
    requires GovInv(g, rules)
    ensures g.nextId !in g.actions && g.nextId !in g.calls
    ensures NewOwner(g.ledger, ForAction(g.nextId)) && NewOwner(g.ledger, ForModelCall(g.nextId))
  {
    hide ActionInv, CallInv, Sound, HoldOf, CallHoldOf;
    forall b | b in g.ledger ensures ForAction(g.nextId) !in g.ledger[b].holds && ForModelCall(g.nextId) !in g.ledger[b].holds {
      forall o | o in g.ledger[b].holds ensures o != ForAction(g.nextId) && o != ForModelCall(g.nextId) {
        assert HoldFits(g, g.ledger[b], o);
      }
    }
  }

  lemma ReservedForward(l: Ledger, owner: Owner, x: Context, estimates: map<Resource, int>)
    requires NewOwner(l, owner) && Reserve(l, owner, x, estimates).Ok?
    ensures var k := Reserve(l, owner, x, estimates).value;
            k.Keys == l.Keys && forall b | b in l :: HoldsForward(l[b], k[b])
  {
    hide Applies, Covered, Room;
  }

  /** What a reservation writes, budget by budget. */
  lemma ReservedHold(l: Ledger, owner: Owner, x: Context, estimates: map<Resource, int>, b: nat, o: Owner)
    requires Reserve(l, owner, x, estimates).Ok? && b in l && NewOwner(l, owner)
    requires o in Reserve(l, owner, x, estimates).value[b].holds
    ensures var c := Reserve(l, owner, x, estimates).value[b];
            && c.resource == l[b].resource
            && (o != owner ==> o in l[b].holds && c.holds[o] == l[b].holds[o])
            && (o == owner ==>
                  c.resource in estimates && estimates[c.resource] > 0
                  && c.holds[o] == Hold(estimates[c.resource], None, Active))
  {
    hide Covered, Room;
  }

  lemma OpenActionKeeps(g: Gov, x: Context, digest: nat, arguments: nat, needsApproval: bool, rules: Rules)
    requires GovInv(g, rules)
    ensures var h := OpenAction(g, x, digest, arguments, needsApproval, rules);
            GovInv(h, rules) && Forward(g, h, g.nextToken)
  {
    hide ActionInv, CallInv, Onward, CallOnward, Sound, Reserve, Propose;
    Stays(g, rules);
    UnusedOwner(g, rules);
    ProposeKeeps(digest, arguments, needsApproval, g.now, rules, g.nextToken);
    if Reserve(g.ledger, ForAction(g.nextId), x, ACTION_ESTIMATES).Ok? {
      ReserveSound(g.ledger, ForAction(g.nextId), x, ACTION_ESTIMATES);
      ReservedForward(g.ledger, ForAction(g.nextId), x, ACTION_ESTIMATES);
      var a := Propose(digest, arguments, needsApproval, g.now, rules);
      var h := OpenAction(g, x, digest, arguments, needsApproval, rules);
      assert HoldsFit(h) by {
        hide ActionsFit, CallsFit, SoundLedger, Forward;
        ProposedHold(digest, arguments, needsApproval, g.now, rules);
        OpenActionHolds(g, h, x, a);
      }
    }
  }

  lemma ProposedHold(digest: nat, arguments: nat, needsApproval: bool, now: nat, rules: Rules)
    ensures !Final(Propose(digest, arguments, needsApproval, now, rules).state)
  {
  }

  lemma OpenActionHolds(g: Gov, h: Gov, x: Context, a: Action)
    requires HoldsFit(g) && g.nextId !in g.actions && NewOwner(g.ledger, ForAction(g.nextId)) && !Final(a.state)
    requires Reserve(g.ledger, ForAction(g.nextId), x, ACTION_ESTIMATES) == Ok(h.ledger) && h.ledger.Keys == g.ledger.Keys
    requires h.actions == g.actions[g.nextId := a] && h.calls == g.calls
    ensures HoldsFit(h)
  {
    hide Reserve, CallHoldOf, NewOwner;
    forall b, o | b in h.ledger && o in h.ledger[b].holds ensures HoldFits(h, h.ledger[b], o) {
      ReservedHold(g.ledger, ForAction(g.nextId), x, ACTION_ESTIMATES, b, o);
      if o != ForAction(g.nextId) {
        assert HoldFits(g, g.ledger[b], o);
      }
    }
  }

  lemma OpenCallKeeps(g: Gov, x: Context, tokens: nat, timeout: nat, rules: Rules)
    requires GovInv(g, rules)
    ensures var h := OpenModelCall(g, x, tokens, timeout); GovInv(h, rules) && Forward(g, h, g.nextToken)
  {
    hide ActionInv, CallInv, Onward, CallOnward, Sound, Reserve, Enqueue, Unfunded;
    Stays(g, rules);
    UnusedOwner(g, rules);
    EnqueueKeeps(tokens, g.now, g.now + timeout, rules, g.nextToken);
    var owner := ForModelCall(g.nextId);
    var h := OpenModelCall(g, x, tokens, timeout);
    if Reserve(g.ledger, owner, x, CallEstimates(tokens)).Ok? {
      ReserveSound(g.ledger, owner, x, CallEstimates(tokens));
      ReservedForward(g.ledger, owner, x, CallEstimates(tokens));
      assert HoldsFit(h) by {
        hide ActionsFit, CallsFit, SoundLedger, Forward;
        FundedCall(tokens, g.now, g.now + timeout);
        FundedTokens(g.ledger, owner, x, tokens);
        OpenCallHolds(g, h, x, Enqueue(tokens, g.now, g.now + timeout));
      }
    } else {
      assert HoldsFit(h) by {
        hide ActionsFit, CallsFit, SoundLedger, Forward;
        UnfundedHolds(g, h, Unfunded(tokens, g.now + timeout));
      }
    }
  }

  lemma FundedCall(tokens: nat, now: nat, expires: nat)
    ensures var c := Enqueue(tokens, now, expires); c.tokens == tokens && c.charge == Uncharged && c.ready.Some?
  {
  }

  lemma FundedTokens(l: Ledger, owner: Owner, x: Context, tokens: nat)
    requires Reserve(l, owner, x, CallEstimates(tokens)).Ok?
    ensures tokens > 0
  {
    hide Covered, Room;
    assert Tokens in CallEstimates(tokens);
  }

  lemma OpenCallHolds(g: Gov, h: Gov, x: Context, c: Call)
    requires HoldsFit(g) && g.nextId !in g.calls && NewOwner(g.ledger, ForModelCall(g.nextId))
    requires c.charge == Uncharged && c.tokens > 0 && c.ready.Some?
    requires Reserve(g.ledger, ForModelCall(g.nextId), x, CallEstimates(c.tokens)) == Ok(h.ledger) && h.ledger.Keys == g.ledger.Keys
    requires h.actions == g.actions && h.calls == g.calls[g.nextId := c]
    ensures HoldsFit(h)
  {
    hide Reserve, HoldOf, NewOwner;
    forall b, o | b in h.ledger && o in h.ledger[b].holds ensures HoldFits(h, h.ledger[b], o) {
      ReservedHold(g.ledger, ForModelCall(g.nextId), x, CallEstimates(c.tokens), b, o);
      if o != ForModelCall(g.nextId) {
        assert HoldFits(g, g.ledger[b], o);
      }
    }
  }

  lemma UnfundedHolds(g: Gov, h: Gov, c: Call)
    requires HoldsFit(g) && g.nextId !in g.calls && h.ledger == g.ledger
    requires h.actions == g.actions && h.calls == g.calls[g.nextId := c]
    ensures HoldsFit(h)
  {
    hide HoldOf, CallHoldOf;
    forall b, o | b in h.ledger && o in h.ledger[b].holds ensures HoldFits(h, h.ledger[b], o) {
      assert HoldFits(g, g.ledger[b], o);
    }
  }

  // ---------------------------------------------------------------- every transaction

  lemma ActionRow(g: Gov, i: nat, rules: Rules)
    requires GovInv(g, rules) && i in g.actions
    ensures ActionInv(g.actions[i], rules, g.now, g.nextToken)
  {
    hide ActionInv;
  }

  lemma CallRow(g: Gov, i: nat, rules: Rules)
    requires GovInv(g, rules) && i in g.calls
    ensures CallInv(g.calls[i], rules, g.now, g.nextToken)
  {
    hide CallInv;
  }

  lemma ActionStepKeeps(g: Gov, t: Transaction, rules: Rules)
    requires rules.maxAttempts >= 1 && GovInv(g, rules)
    requires t.DecideApproval? || t.CancelRun? || t.ClaimAction? || t.ReconcileAction? || t.SettleAction? || t.RedriveLetter?
    ensures GovInv(Next(g, t, rules), rules) && Forward(g, Next(g, t, rules), g.nextToken)
  {
    hide GovInv, Forward, ActionInv, Onward, EffectFits, CommitAction, Decide, Cancel, ClaimReady, ClaimReconciliation, Settle,
      Redrive, Deliverable, Reconcilable;
    Stays(g, rules);
    if t.action in g.actions {
      var i, a := t.action, g.actions[t.action];
      ActionRow(g, i, rules);
      match t
      case DecideApproval(_, submitted, approve) =>
        if Decide(a, submitted, approve, g.now).Ok? {
          DecideKeeps(a, submitted, approve, g.now, rules, g.nextToken);
          DecideOnward(a, submitted, approve, g.now, rules, g.nextToken);
          DecideEffect(a, submitted, approve, g.now, rules, g.nextToken);
          ActionMoveKeeps(g, i, Decide(a, submitted, approve, g.now).value, rules);
        }
      case CancelRun(_) =>
        if Cancel(a, g.now).Ok? {
          CancelKeeps(a, g.now, rules, g.nextToken);
          CancelOnward(a, g.now, rules, g.nextToken);
          CancelEffect(a, g.now);
          ActionMoveKeeps(g, i, Cancel(a, g.now).value, rules);
        }
      case ClaimAction(_, k) =>
        if Deliverable(a, k, g.now) {
          ClaimKeeps(a, k, g.now, g.nextToken, rules);
          ClaimOnward(a, k, g.now, g.nextToken, rules);
          ClaimEffect(a, k, g.now, g.nextToken, rules);
          ActionClaimKeeps(g, i, ClaimReady(a, k, g.now, g.nextToken, rules), rules);
        }
      case ReconcileAction(_) =>
        if Reconcilable(a, g.now) {
          ReconcileKeeps(a, g.now, g.nextToken, rules);
          ReconcileOnward(a, g.now, g.nextToken, rules);
          ReconcileEffect(a, g.now, g.nextToken, rules);
          ActionClaimKeeps(g, i, ClaimReconciliation(a, g.now, g.nextToken, rules), rules);
        }
      case SettleAction(_, mode, token, provider) =>
        SettleKeeps(a, mode, token, provider, g.now, rules, g.nextToken);
        SettleOnward(a, mode, token, provider, g.now, rules, g.nextToken);
        SettleEffect(a, mode, token, provider, g.now, rules);
        ActionMoveKeeps(g, i, Settle(a, mode, token, provider, g.now, rules), rules);
      case RedriveLetter(_, expected) =>
        if Redrive(a, expected, g.now).Ok? {
          RedriveKeeps(a, expected, g.now, rules, g.nextToken);
          RedriveOnward(a, expected, g.now, rules, g.nextToken);
          RedriveEffect(a, expected, g.now);
          ActionMoveKeeps(g, i, Move(Redrive(a, expected, g.now).value, KeepHolds), rules);
        }
    }
  }

  lemma ClaimEffect(a: Action, k: nat, now: nat, token: nat, rules: Rules)
    requires Deliverable(a, k, now)
    ensures EffectFits(a, Move(ClaimReady(a, k, now, token, rules), KeepHolds))
  {
  }

  lemma ReconcileEffect(a: Action, now: nat, token: nat, rules: Rules)
    requires Reconcilable(a, now)
    ensures EffectFits(a, Move(ClaimReconciliation(a, now, token, rules), KeepHolds))
  {
  }

  lemma RedriveEffect(a: Action, expected: nat, now: nat)
    requires Redrive(a, expected, now).Ok?
    ensures EffectFits(a, Move(Redrive(a, expected, now).value, KeepHolds))
  {
  }

  lemma CallStepKeeps(g: Gov, t: Transaction, rules: Rules)
    requires rules.maxAttempts >= 1 && GovInv(g, rules)
    requires t.TakeCall? || t.ReconcileModelCall? || t.SettleModelCall? || t.TimeOutCall?
    ensures GovInv(Next(g, t, rules), rules) && Forward(g, Next(g, t, rules), g.nextToken)
  {
    hide GovInv, Forward, CallInv, CallOnward, CallEffectFits, CommitCall, ClaimCall, ReconcileCall, SettleCall, ExpireCall,
      CallDeliverable, CallReconcilable, TimeoutDue;
    Stays(g, rules);
    if t.call in g.calls {
      var i, c := t.call, g.calls[t.call];
      CallRow(g, i, rules);
      match t
      case TakeCall(_) =>
        if CallDeliverable(c, g.now) {
          ClaimCallKeeps(c, g.now, g.nextToken, rules);
          ClaimCallOnward(c, g.now, g.nextToken, rules);
          ClaimCallEffect(c, g.now, g.nextToken, rules);
          CallClaimKeeps(g, i, ClaimCall(c, g.now, g.nextToken, rules), rules);
        }
      case ReconcileModelCall(_) =>
        if CallReconcilable(c, g.now) {
          ReconcileCallKeeps(c, g.now, g.nextToken, rules);
          ReconcileCallOnward(c, g.now, g.nextToken, rules);
          ReconcileCallEffect(c, g.now, g.nextToken, rules);
          CallClaimKeeps(g, i, ReconcileCall(c, g.now, g.nextToken, rules), rules);
        }
      case SettleModelCall(_, mode, token, answer) =>
        SettleCallKeeps(c, mode, token, answer, g.now, rules, g.nextToken);
        SettleCallOnward(c, mode, token, answer, g.now, rules, g.nextToken);
        SettleCallEffect(c, mode, token, answer, g.now, rules, g.nextToken);
        SettleCallReady(c, mode, token, answer, g.now, rules);
        CallMoveKeeps(g, i, SettleCall(c, mode, token, answer, g.now, rules), rules);
      case TimeOutCall(_) =>
        if TimeoutDue(c, g.now) {
          ExpireCallKeeps(c, g.now, rules, g.nextToken);
          ExpireCallOnward(c, g.now, rules, g.nextToken);
          ExpireCallEffect(c, g.now, rules, g.nextToken);
          ExpireCallReady(c, g.now);
          CallMoveKeeps(g, i, ExpireCall(c, g.now), rules);
        }
    }
  }

  lemma ClaimCallEffect(c: Call, now: nat, token: nat, rules: Rules)
    requires CallDeliverable(c, now)
    ensures CallEffectFits(c, CallMove(ClaimCall(c, now, token, rules), KeepReservations))
    ensures ClaimCall(c, now, token, rules).ready.Some? == c.ready.Some?
  {
  }

  lemma ReconcileCallEffect(c: Call, now: nat, token: nat, rules: Rules)
    ensures CallEffectFits(c, CallMove(ReconcileCall(c, now, token, rules), KeepReservations))
    ensures ReconcileCall(c, now, token, rules).ready.Some? == c.ready.Some?
  {
  }

  lemma SettleCallReady(c: Call, mode: Mode, token: nat, answer: Answer, now: nat, rules: Rules)
    ensures SettleCall(c, mode, token, answer, now, rules).call.ready.Some? == c.ready.Some?
  {
  }

  lemma ExpireCallReady(c: Call, now: nat)
    ensures ExpireCall(c, now).call.ready.Some? == c.ready.Some?
  {
  }

  /** Every transaction keeps the invariant and only moves forward. */
  lemma NextKeeps(g: Gov, t: Transaction, rules: Rules)
    requires rules.maxAttempts >= 1 && GovInv(g, rules)
    ensures GovInv(Next(g, t, rules), rules) && Forward(g, Next(g, t, rules), g.nextToken)
  {
    hide GovInv, Forward, OpenAction, OpenModelCall;
    match t
    case Tick(seconds) => TickKeeps(g, seconds, rules);
    case CreateAction(x, digest, arguments, needsApproval) => OpenActionKeeps(g, x, digest, arguments, needsApproval, rules);
    case CreateCall(x, inputTokens, maxOutput, timeout) => OpenCallKeeps(g, x, inputTokens + maxOutput, timeout, rules);
    case TakeCall(_) => CallStepKeeps(g, t, rules);
    case ReconcileModelCall(_) => CallStepKeeps(g, t, rules);
    case SettleModelCall(_, _, _, _) => CallStepKeeps(g, t, rules);
    case TimeOutCall(_) => CallStepKeeps(g, t, rules);
    case _ => ActionStepKeeps(g, t, rules);
  }

  lemma {:induction false} HistoryInvariant(budgets: Ledger, ts: seq<Transaction>, rules: Rules)
    requires rules.maxAttempts >= 1 && Untouched(budgets)
    ensures GovInv(History(budgets, ts, rules), rules)
  {
    hide Next, GovInv;
    if ts == [] {
      FirstState(budgets, rules);
    } else {
      HistoryInvariant(budgets, ts[..|ts| - 1], rules);
      NextKeeps(History(budgets, ts[..|ts| - 1], rules), ts[|ts| - 1], rules);
    }
  }

  lemma FirstState(budgets: Ledger, rules: Rules)
    requires Untouched(budgets)
    ensures GovInv(Gov(0, map[], map[], budgets, 0, 0), rules)
  {
    forall b | b in budgets ensures Sound(budgets[b]) {
      SumZero(PendingOf(budgets[b].holds));
      SumZero(PaidOf(budgets[b].holds));
      SumZero(ExcessOf(budgets[b].holds));
    }
  }
}
