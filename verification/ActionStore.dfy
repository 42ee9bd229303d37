/**
 * The action worker, the approval service and the dead-letter service as they change rows
 * field by field. Each method is one transaction and is proved to have the effect that
 * `Actions` gives it; a transaction that raises changes no field, so the
 * reservations are settled before the fields that depend on them are written.
 */
module ActionStore {
  import opened Ids
  import opened Budgets
  import opened LedgerStore
  import opened Actions

  class ActionRow {
    const id: nat
    var state: ActionState
    var version: nat
    var digest: nat
    var arguments: nat
    var token: Option<nat>
    var lease: Option<nat>
    var executes: nat
    var reconciles: nat
    var cycle: nat
    var nextAt: Option<nat>
    var run: RunStatus
    var intent: Intent
    var approval: Option<Approval>
    var letter: Option<Letter>
    var readies: seq<Ready>

    function Snapshot(): Action
      reads this
    {
      Action(state, version, digest, arguments, token, lease, executes, reconciles, cycle, nextAt, run, intent, approval, letter, readies)
    }

    constructor (id: nat, a: Action)
      ensures Snapshot() == a && this.id == id
    {
      this.id := id;
      state, version, digest, arguments, token, lease := a.state, a.version, a.digest, a.arguments, a.token, a.lease;
      executes, reconciles, cycle, nextAt, run := a.executes, a.reconciles, a.cycle, a.nextAt, a.run;
      intent, approval, letter, readies := a.intent, a.approval, a.letter, a.readies;
    }

    /** What one transaction leaves: the whole move, or nothing when a reservation cannot be settled. */
    twostate predicate Committed(m: Move, table: LedgerTable)
      reads this, table
    {
      match m.effect
      case KeepHolds => Snapshot() == m.action && table.rows == old(table.rows)
      case SettleHolds(committed) =>
        if Settleable(old(table.rows), ForAction(id), committed, map[])
        then Snapshot() == m.action && table.rows == Settled(old(table.rows), ForAction(id), committed, map[])
        else Snapshot() == old(Snapshot()) && table.rows == old(table.rows)
    }

    method DecideApproval(table: LedgerTable, submitted: nat, approve: bool, now: nat) returns (error: Option<Refused>)
      modifies this, table
      ensures var spec := Decide(old(Snapshot()), submitted, approve, now);
              if spec.Err? then error == Some(spec.error) && Snapshot() == old(Snapshot()) && table.rows == old(table.rows)
              else error.None? && Committed(spec.value, table)
    {
      if approval.None? {
        return Some(NotFound);
      }
      if approval.value.status != Pending {
        return Some(ApprovalReplayed);
      }
      if approval.value.expires <= now {
        return Some(ApprovalExpired);
      }
      var expected := approval.value.digest;
      if submitted != expected || digest != expected || intent.digest != expected || arguments != intent.arguments {
        return Some(DigestMismatch);
      }
      if approve {
        approval := Some(approval.value.(status := Granted, decidedAt := Some(now)));
        state := Approved;
        version := version + 1;
        run := RunQueued;
        readies := readies + [Ready(now, false, false)];
      } else {
        Reject(table, now);
      }
      return None;
    }

    /** The common end of a denial and a cancellation. */
    method Reject(table: LedgerTable, now: nat)
      requires approval.Some?
      modifies this, table
      ensures var a := old(Snapshot());
              Committed(Move(a.(state := Rejected, version := a.version + 1, run := RunCancelled, intent := a.intent.(denied := true),
                                approval := Some(a.approval.value.(status := Denied, decidedAt := Some(now)))), SettleHolds(false)), table)
    {
      hide Settled, Settleable;
      var ok := table.Release(ForAction(id));
      if !ok {
        return;
      }
      approval := Some(approval.value.(status := Denied, decidedAt := Some(now)));
      state := Rejected;
      version := version + 1;
      intent := intent.(denied := true);
      run := RunCancelled;
    }

    method CancelRun(table: LedgerTable, now: nat) returns (error: Option<Refused>)
      modifies this, table
      ensures var spec := Cancel(old(Snapshot()), now);
              if spec.Err? then error == Some(spec.error) && Snapshot() == old(Snapshot()) && table.rows == old(table.rows)
              else error.None? && Committed(spec.value, table)
    {
      if run != WaitingForApproval {
        return Some(NotCancellable);
      }
      if state != Proposed || approval.None? {
        return Some(NotCancellable);
      }
      if approval.value.status != Pending {
        return Some(NotCancellable);
      }
      Reject(table, now);
      return None;
    }

    /** Takes ready event `k`; returns the claim token when the action may execute. */
    method Claim(k: nat, now: nat, issued: nat, rules: Rules) returns (claimed: Option<nat>)
      requires Deliverable(Snapshot(), k, now)
      modifies this
      ensures Snapshot() == ClaimReady(old(Snapshot()), k, now, issued, rules)
      ensures claimed == if old(state) == Approved then Some(issued) else None
    {
      if state != Approved {
        readies := readies[k := readies[k].(dispatched := true, processed := true)];
        return None;
      }
      state := Executing;
      version := version + 1;
      token := Some(issued);
      lease := Some(now + rules.lease);
      executes := executes + 1;
      readies := readies[k := readies[k].(dispatched := true)];
      run := RunRunning;
      return token;
    }

    method ClaimForReconciliation(now: nat, issued: nat, rules: Rules) returns (claimed: Option<nat>)
      modifies this
      ensures claimed.Some? <==> Reconcilable(old(Snapshot()), now)
      ensures Snapshot() == if claimed.Some? then ClaimReconciliation(old(Snapshot()), now, issued, rules) else old(Snapshot())
    {
      var expired := state == Executing && lease.Some? && lease.value < now;
      var due := state == ReconciliationRequired && (nextAt.None? || nextAt.value <= now);
      if !expired && !due {
        return None;
      }
      state := Reconciling;
      version := version + 1;
      token := Some(issued);
      lease := Some(now + rules.lease);
      reconciles := reconciles + 1;
      cycle := cycle + 1;
      return token;
    }

    /** The worker's report on its claim. */
    method Report(table: LedgerTable, mode: Mode, claim: nat, provider: Provider, now: nat, rules: Rules)
      modifies this, table
      ensures Committed(Settle(old(Snapshot()), mode, claim, provider, now, rules), table)
    {
      hide Settled, Settleable, ResolveLetter, OpenLetter, ProcessLast;
      var expected := if mode == Execute then Executing else Reconciling;
      if state != expected || token != Some(claim) {
        return;
      }
      match provider {
        case ProviderCommitted => End(table, EffectCommitted, RunCompleted, true);
        case ProviderFailed => End(table, EffectFailed, RunFailed, false);
        case ProviderAmbiguous =>
          if mode == Reconcile && cycle >= rules.maxAttempts {
            DeadLetter(rules);
          } else {
            Retry(now, rules);
          }
      }
    }

    /** An ambiguous outcome that will be reconciled later. */
    method Retry(now: nat, rules: Rules)
      modifies this
      ensures var a := old(Snapshot());
              Snapshot() == a.(state := ReconciliationRequired, run := RunUnresolved, nextAt := Some(now + rules.delay),
                               version := a.version + 1, lease := None)
    {
      state := ReconciliationRequired;
      nextAt := Some(now + rules.delay);
      run := RunUnresolved;
      lease := None;
      version := version + 1;
    }

    /** A final outcome: the reservations are settled and an open or redriven letter is resolved. */
    method End(table: LedgerTable, outcome: ActionState, runOutcome: RunStatus, committed: bool)
      modifies this, table
      ensures var a := old(Snapshot());
              Committed(Move(a.(state := outcome, run := runOutcome, version := a.version + 1, lease := None,
                                readies := ProcessLast(a.readies), letter := ResolveLetter(a.letter)), SettleHolds(committed)), table)
    {
      hide Settled, Settleable, ResolveLetter;
      var ok := table.Settle(ForAction(id), committed, map[]);
      if !ok {
        return;
      }
      state := outcome;
      lease := None;
      run := runOutcome;
      version := version + 1;
      ProcessReady();
      CloseLetter();
    }

    /** The latest ready event is done. */
    method ProcessReady()
      modifies this`readies
      ensures readies == ProcessLast(old(readies))
    {
      if readies != [] {
        readies := readies[|readies| - 1 := readies[|readies| - 1].(processed := true)];
      }
    }

    method CloseLetter()
      modifies this`letter
      ensures letter == ResolveLetter(old(letter))
    {
      if letter.Some? && letter.value.status != Resolved {
        letter := Some(letter.value.(status := Resolved, version := letter.value.version + 1));
      }
    }

    /** An outcome that stayed ambiguous for a whole cycle of attempts. */
    method DeadLetter(rules: Rules)
      modifies this
      ensures var a := old(Snapshot());
              Snapshot() == a.(state := DeadLettered, run := RunDeadLettered, nextAt := None, readies := ProcessLast(a.readies),
                               letter := Some(OpenLetter(a, rules)), version := a.version + 1, lease := None)
    {
      hide ProcessLast;
      if letter.None? {
        letter := Some(Letter(Open, reconciles, 0, rules.maxRedrives, 1, digest));
      } else {
        letter := Some(letter.value.(status := Open, attempts := reconciles, version := letter.value.version + 1));
      }
      state := DeadLettered;
      nextAt := None;
      run := RunDeadLettered;
      lease := None;
      version := version + 1;
      ProcessReady();
    }

    method RedriveLetter(expected: nat, now: nat) returns (error: Option<Refused>)
      modifies this
      ensures var spec := Redrive(old(Snapshot()), expected, now);
              if spec.Err? then error == Some(spec.error) && Snapshot() == old(Snapshot())
              else error.None? && Snapshot() == spec.value
    {
      if letter.None? {
        return Some(NotFound);
      }
      if letter.value.status != Open {
        return Some(LetterNotOpen);
      }
      if letter.value.version != expected {
        return Some(LetterStale);
      }
      if letter.value.redrives >= letter.value.maxRedrives {
        return Some(RedrivesExhausted);
      }
      if state != DeadLettered || run != RunDeadLettered || lease.Some? || digest != letter.value.digest {
        return Some(LineageStale);
      }
      letter := Some(letter.value.(status := Redriven, redrives := letter.value.redrives + 1, version := letter.value.version + 1));
      state := ReconciliationRequired;
      cycle := 0;
      nextAt := Some(now);
      version := version + 1;
      run := RunUnresolved;
      return None;
    }
  }
}
