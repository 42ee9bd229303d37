/**
 * The model-call worker and the engine's timeout handling as they change the call row field
 * by field, proved to have the effects that `ModelCalls` gives them.
 */
module ModelCallStore {
  import opened Ids
  import opened Budgets
  import opened LedgerStore
  import opened Actions
  import opened ModelCalls

  class ModelCallRow {
    const id: nat
    var state: CallState
    var token: Option<nat>
    var lease: Option<nat>
    var executes: nat
    var reconciles: nat
    var nextAt: Option<nat>
    var tokens: nat
    var expires: nat
    var charge: Charge
    var ready: Option<Ready>
    var timeout: Option<Ready>
    var resumes: seq<nat>

    function Snapshot(): Call
      reads this
    {
      Call(state, token, lease, executes, reconciles, nextAt, tokens, expires, charge, ready, timeout, resumes)
    }

    /**
     * An agent node's call: queued with its two events when every reservation was made, and
     * left behind without events when one was refused.
     */
    constructor (table: LedgerTable, id: nat, x: Context, tokens: nat, now: nat, expires: nat)
      modifies table
      ensures this.id == id
      ensures var reserved := Reserve(old(table.rows), ForModelCall(id), x, CallEstimates(tokens));
              if reserved.Ok? then table.rows == reserved.value && Snapshot() == Enqueue(tokens, now, expires)
              else table.rows == old(table.rows) && Snapshot() == Unfunded(tokens, expires)
    {
      hide Budgets.Reserve;
      this.id := id;
      state, token, lease, executes, reconciles, nextAt := CallQueued, None, None, 0, 0, None;
      this.tokens, this.expires, charge, ready, timeout, resumes := tokens, expires, Uncharged, None, None, [];
      new;
      RefusalMeans(table.rows, ForModelCall(id), x, CallEstimates(tokens));
      var error := table.Reserve(ForModelCall(id), x, CallEstimates(tokens));
      if error.None? {
        ready := Some(Ready(now, false, false));
        timeout := Some(Ready(expires, false, false));
      }
    }

    /** What one transaction leaves: the whole move, or nothing when a reservation cannot be settled. */
    twostate predicate Committed(m: CallMove, table: LedgerTable)
      reads this, table
    {
      match m.effect
      case KeepReservations => Snapshot() == m.call && table.rows == old(table.rows)
      case SettleReservations(committed, usage) =>
        if Settleable(old(table.rows), ForModelCall(id), committed, usage)
        then Snapshot() == m.call && table.rows == Settled(old(table.rows), ForModelCall(id), committed, usage)
        else Snapshot() == old(Snapshot()) && table.rows == old(table.rows)
    }

    method Claim(now: nat, issued: nat, rules: Rules) returns (claimed: Option<nat>)
      requires CallDeliverable(Snapshot(), now)
      modifies this
      ensures Snapshot() == ClaimCall(old(Snapshot()), now, issued, rules)
      ensures claimed == if old(state) == CallQueued then Some(issued) else None
    {
      if state != CallQueued {
        ready := Some(ready.value.(dispatched := true, processed := true));
        return None;
      }
      state := CallExecuting;
      token := Some(issued);
      lease := Some(now + rules.lease);
      executes := executes + 1;
      ready := Some(ready.value.(dispatched := true));
      return token;
    }

    method ClaimForReconciliation(now: nat, issued: nat, rules: Rules) returns (claimed: Option<nat>)
      modifies this
      ensures claimed.Some? <==> CallReconcilable(old(Snapshot()), now)
      ensures Snapshot() == if claimed.Some? then ReconcileCall(old(Snapshot()), now, issued, rules) else old(Snapshot())
    {
      var expired := state == CallExecuting && lease.Some? && lease.value < now;
      var due := state == CallUnresolved && (nextAt.None? || nextAt.value <= now);
      if !expired && !due {
        return None;
      }
      state := CallReconciling;
      token := Some(issued);
      lease := Some(now + rules.lease);
      reconciles := reconciles + 1;
      return token;
    }

    /** The worker's report on its claim; a terminal report wakes the execution. */
    method Report(table: LedgerTable, mode: Mode, claim: nat, answer: Answer, now: nat, rules: Rules)
      modifies this, table
      ensures Committed(SettleCall(old(Snapshot()), mode, claim, answer, now, rules), table)
    {
      hide Settled, Settleable, Metering, ModelCalls.End;
      var expected := if mode == Execute then CallExecuting else CallReconciling;
      if state != expected || token != Some(claim) {
        return;
      }
      match answer {
        case AnswerCompleted(usage) => Finish(table, CallCompleted, Metered(usage), true, Metering(usage), now);
        case AnswerFailed => Finish(table, CallFailed, Free, false, map[], now);
        case AnswerAmbiguous =>
          if mode == Reconcile && reconciles >= rules.maxAttempts {
            Finish(table, CallFailed, FullEstimate, true, map[], now);
          } else {
            state := CallUnresolved;
            nextAt := Some(now + rules.delay);
            lease := None;
          }
      }
    }

    /** Ends the call: reservations settled, its events processed, one resume event sent. */
    method Finish(table: LedgerTable, outcome: CallState, charged: Charge, committed: bool, usage: map<Resource, int>, now: nat)
      modifies this, table
      ensures Committed(CallMove(ModelCalls.End(old(Snapshot()), outcome, charged, now), SettleReservations(committed, usage)), table)
    {
      hide Settled, Settleable, MarkProcessed;
      var ok := table.Settle(ForModelCall(id), committed, usage);
      if !ok {
        return;
      }
      state := outcome;
      charge := charged;
      lease := None;
      CloseEvents();
      resumes := resumes + [now];
    }

    method CloseEvents()
      modifies this`ready, this`timeout
      ensures ready == MarkProcessed(old(ready)) && timeout == MarkProcessed(old(timeout))
    {
      if ready.Some? {
        ready := Some(ready.value.(processed := true));
      }
      if timeout.Some? && !timeout.value.processed {
        timeout := Some(timeout.value.(processed := true));
      }
    }

    /** The engine handles the timeout event. */
    method TimeOut(table: LedgerTable, now: nat)
      requires TimeoutDue(Snapshot(), now)
      modifies this, table
      ensures Committed(ExpireCall(old(Snapshot()), now), table)
    {
      hide Settled, Settleable;
      if state in {CallCompleted, CallFailed, CallTimedOut} || expires > now {
      } else if state in {CallExecuting, CallReconciling, CallUnresolved} {
        if state == CallExecuting {
          state := CallUnresolved;
          nextAt := Some(now);
        }
      } else if ready.None? || ready.value.dispatched {
        state := CallUnresolved;
        nextAt := Some(now);
      } else {
        var ok := table.Settle(ForModelCall(id), false, map[]);
        if !ok {
          return;
        }
        ready := Some(ready.value.(dispatched := true, processed := true));
        state := CallTimedOut;
        charge := Free;
      }
      timeout := Some(timeout.value.(processed := true));
    }
  }

  lemma RefusalMeans(l: Ledger, owner: Owner, x: Context, estimates: map<Resource, int>)
    ensures Reserve(l, owner, x, estimates).Ok? <==> Refusal(l, x, estimates).None?
  {
    hide Refusal;
  }
}
