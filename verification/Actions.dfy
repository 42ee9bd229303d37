/**
 * The life of one governed action: proposal, approval, execution, reconciliation, dead letter
 * and redrive.
 *
 * An `Action` is the action row with the rows that belong to it alone: its run, intent,
 * approval request, dead letter and ready events. Each function is the effect of one
 * transaction; an error stands for a transaction that was rolled back.
 */
module Actions {
  import opened Ids
  import opened Budgets

  datatype Rules = Rules(maxAttempts: nat, maxRedrives: nat, lease: nat, delay: nat, approvalTtl: nat)

  datatype ActionState =
    | Proposed | Approved | Executing | Reconciling | ReconciliationRequired
    | EffectCommitted | EffectFailed | DeadLettered | Rejected

  datatype RunStatus =
    | WaitingForApproval | RunQueued | RunRunning | RunUnresolved | RunCompleted | RunFailed | RunCancelled | RunDeadLettered

  datatype ApprovalStatus = Pending | Granted | Denied

  datatype Approval = Approval(digest: nat, status: ApprovalStatus, expires: nat, decidedAt: Option<nat>)

  datatype Intent = Intent(digest: nat, arguments: nat, denied: bool)

  datatype LetterStatus = Open | Redriven | Resolved

  datatype Letter = Letter(status: LetterStatus, attempts: nat, redrives: nat, maxRedrives: nat, version: nat, digest: nat)

  datatype Ready = Ready(availableAt: nat, dispatched: bool, processed: bool)

  datatype Action = Action(
    state: ActionState, version: nat, digest: nat, arguments: nat, token: Option<nat>, lease: Option<nat>,
    executes: nat, reconciles: nat, cycle: nat, nextAt: Option<nat>,
    run: RunStatus, intent: Intent, approval: Option<Approval>, letter: Option<Letter>, readies: seq<Ready>)

  datatype Mode = Execute | Reconcile

  datatype Provider = ProviderCommitted | ProviderFailed | ProviderAmbiguous

  /** What a transaction does to the reservations of its action. */
  datatype Effect = KeepHolds | SettleHolds(committed: bool)

  datatype Move = Move(action: Action, effect: Effect)

  datatype Refused =
    | NotFound | ApprovalReplayed | ApprovalExpired | DigestMismatch | NotCancellable
    | LetterNotOpen | LetterStale | RedrivesExhausted | LineageStale

  const ACTION_ESTIMATES: map<Resource, int> :=
    map[Currency := 1, Requests := 1, ConcurrentRuns := 1, ToolActions := 1]

  // ---------------------------------------------------------------- proposal and approval

  /** A new action: waiting for approval, or approved by policy with its ready event queued. */
  function Propose(digest: nat, arguments: nat, needsApproval: bool, now: nat, rules: Rules): Action {
    Action(
      if needsApproval then Proposed else Approved, 1, digest, arguments, None, None, 0, 0, 0, None,
      if needsApproval then WaitingForApproval else RunQueued, Intent(digest, arguments, false),
      if needsApproval then Some(Approval(digest, Pending, now + rules.approvalTtl, None)) else None,
      None, if needsApproval then [] else [Ready(now, false, false)])
  }

  /** The content of the action, its intent and its approval is the one submitted. */
  predicate ExactContent(a: Action, submitted: nat)
    requires a.approval.Some?
  {
    var digest := a.approval.value.digest;
    submitted == digest && a.digest == digest && a.intent.digest == digest && a.arguments == a.intent.arguments
  }

  /** `decide_approval`, which reads the approval's status but never the action's. */
  function Decide(a: Action, submitted: nat, approve: bool, now: nat): Outcome<Move, Refused> {
    if a.approval.None? then Err(NotFound)
    else if a.approval.value.status != Pending then Err(ApprovalReplayed)
    else if a.approval.value.expires <= now then Err(ApprovalExpired)
    else if !ExactContent(a, submitted) then Err(DigestMismatch)
    else if approve then
      Ok(Move(a.(state := Approved, version := a.version + 1, run := RunQueued,
                 approval := Some(a.approval.value.(status := Granted, decidedAt := Some(now))),
                 readies := a.readies + [Ready(now, false, false)]), KeepHolds))
    else
      Ok(Move(a.(state := Rejected, version := a.version + 1, run := RunCancelled, intent := a.intent.(denied := true),
                 approval := Some(a.approval.value.(status := Denied, decidedAt := Some(now)))), SettleHolds(false)))
  }

  /** `cancel_run`: only at the approval boundary. */
  function Cancel(a: Action, now: nat): Outcome<Move, Refused> {
    if a.run != WaitingForApproval || a.state != Proposed || a.approval.None? || a.approval.value.status != Pending
    then Err(NotCancellable)
    else Ok(Move(a.(state := Rejected, version := a.version + 1, run := RunCancelled, intent := a.intent.(denied := true),
                    approval := Some(a.approval.value.(status := Denied, decidedAt := Some(now)))), SettleHolds(false)))
  }

  // ---------------------------------------------------------------- claims

  predicate Deliverable(a: Action, k: nat, now: nat) {
    k < |a.readies| && !a.readies[k].dispatched && a.readies[k].availableAt <= now
  }

  /** Takes a ready event; an action that is not approved only has the event marked processed. */
  function ClaimReady(a: Action, k: nat, now: nat, token: nat, rules: Rules): Action
    requires Deliverable(a, k, now)
  {
    var taken := a.readies[k].(dispatched := true);
    if a.state != Approved then a.(readies := a.readies[k := taken.(processed := true)])
    else a.(state := Executing, version := a.version + 1, token := Some(token), lease := Some(now + rules.lease),
            executes := a.executes + 1, run := RunRunning, readies := a.readies[k := taken])
  }

  predicate Reconcilable(a: Action, now: nat) {
    || (a.state == Executing && a.lease.Some? && a.lease.value < now)
    || (a.state == ReconciliationRequired && (a.nextAt.None? || a.nextAt.value <= now))
  }

  function ClaimReconciliation(a: Action, now: nat, token: nat, rules: Rules): Action {
    a.(state := Reconciling, version := a.version + 1, token := Some(token), lease := Some(now + rules.lease),
       reconciles := a.reconciles + 1, cycle := a.cycle + 1)
  }

  // ---------------------------------------------------------------- settlement

  /** The claim is the current one. */
  predicate Fenced(a: Action, mode: Mode, token: nat) {
    a.state == (if mode == Execute then Executing else Reconciling) && a.token == Some(token)
  }

  function ProcessLast(readies: seq<Ready>): seq<Ready> {
    if readies == [] then [] else readies[|readies| - 1 := readies[|readies| - 1].(processed := true)]
  }

  function ResolveLetter(letter: Option<Letter>): Option<Letter> {
    if letter.Some? && letter.value.status != Resolved
    then Some(letter.value.(status := Resolved, version := letter.value.version + 1))
    else letter
  }

  function OpenLetter(a: Action, rules: Rules): Letter {
    if a.letter.None? then Letter(Open, a.reconciles, 0, rules.maxRedrives, 1, a.digest)
    else a.letter.value.(status := Open, attempts := a.reconciles, version := a.letter.value.version + 1)
  }

  /** The worker's report of what the provider did. A stale claim changes nothing. */
  function Settle(a: Action, mode: Mode, token: nat, provider: Provider, now: nat, rules: Rules): Move {
    if !Fenced(a, mode, token) then Move(a, KeepHolds)
    else
      var b := a.(version := a.version + 1, lease := None);
      match provider
      case ProviderCommitted =>
        Move(b.(state := EffectCommitted, run := RunCompleted, readies := ProcessLast(a.readies), letter := ResolveLetter(a.letter)),
             SettleHolds(true))
      case ProviderFailed =>
        Move(b.(state := EffectFailed, run := RunFailed, readies := ProcessLast(a.readies), letter := ResolveLetter(a.letter)),
             SettleHolds(false))
      case ProviderAmbiguous =>
        if mode == Reconcile && a.cycle >= rules.maxAttempts then
          Move(b.(state := DeadLettered, run := RunDeadLettered, nextAt := None, readies := ProcessLast(a.readies),
                  letter := Some(OpenLetter(a, rules))), KeepHolds)
        else
          Move(b.(state := ReconciliationRequired, run := RunUnresolved, nextAt := Some(now + rules.delay)), KeepHolds)
  }

  /** `redrive_dead_letter`: back to reconciliation, never to execution. */
  function Redrive(a: Action, expected: nat, now: nat): Outcome<Action, Refused> {
    if a.letter.None? then Err(NotFound)
    else
      var letter := a.letter.value;
      if letter.status != Open then Err(LetterNotOpen)
      else if letter.version != expected then Err(LetterStale)
      else if letter.redrives >= letter.maxRedrives then Err(RedrivesExhausted)
      else if a.state != DeadLettered || a.run != RunDeadLettered || a.lease.Some? || a.digest != letter.digest
      then Err(LineageStale)
      else Ok(a.(state := ReconciliationRequired, version := a.version + 1, cycle := 0, nextAt := Some(now), run := RunUnresolved,
                 letter := Some(letter.(status := Redriven, redrives := letter.redrives + 1, version := letter.version + 1))))
  }

  // ---------------------------------------------------------------- what every transaction keeps

  predicate Final(state: ActionState) {
    state in {EffectCommitted, EffectFailed, Rejected}
  }

  predicate Claimed(state: ActionState) {
    state in {Executing, Reconciling}
  }

  /** The run row follows the action row. */
  predicate RunFits(a: Action) {
    match a.state
    case Proposed => a.run == WaitingForApproval
    case Approved => a.run == RunQueued
    case Executing => a.run == RunRunning
    case Reconciling => a.run in {RunRunning, RunUnresolved}
    case ReconciliationRequired => a.run == RunUnresolved
    case EffectCommitted => a.run == RunCompleted
    case EffectFailed => a.run == RunFailed
    case DeadLettered => a.run == RunDeadLettered
    case Rejected => a.run == RunCancelled
  }

  /** A pending approval exists exactly while the action is proposed; otherwise it was decided in time. */
  predicate ApprovalFits(a: Action) {
    && (a.state == Proposed <==> a.approval.Some? && a.approval.value.status == Pending)
    && (a.state == Rejected ==> a.approval.Some? && a.approval.value.status == Denied)
    && (a.approval.Some? && a.state !in {Proposed, Rejected} ==> a.approval.value.status == Granted)
    && (a.approval.Some? ==>
          && a.approval.value.digest == a.digest
          && (a.approval.value.status != Pending ==> a.approval.value.decidedAt.Some?)
          && (a.approval.value.status == Granted ==> a.approval.value.decidedAt.value < a.approval.value.expires))
    && a.intent.digest == a.digest && a.intent.arguments == a.arguments && (a.intent.denied <==> a.state == Rejected)
  }

  /** The dead letter is open exactly while the action is dead-lettered, and then nobody holds a lease. */
  predicate LetterFits(a: Action, rules: Rules) {
    && (a.state == DeadLettered <==> a.letter.Some? && a.letter.value.status == Open)
    && (a.lease.Some? <==> Claimed(a.state))
    && (a.letter.Some? ==>
          && a.letter.value.digest == a.digest && a.letter.value.maxRedrives == rules.maxRedrives
          && a.letter.value.redrives <= a.letter.value.maxRedrives
          && (a.letter.value.status == Resolved ==> Final(a.state))
          && a.state !in {Proposed, Approved, Executing, Rejected}
          && (a.letter.value.status == Open ==> a.letter.value.attempts == a.reconciles))
  }

  function Redrives(a: Action): nat {
    if a.letter.Some? then a.letter.value.redrives else 0
  }

  /** Attempt accounting. */
  predicate AttemptsFit(a: Action, rules: Rules) {
    && a.reconciles == rules.maxAttempts * Redrives(a) + a.cycle
    && a.cycle <= rules.maxAttempts
    && (a.state in {Executing, ReconciliationRequired} ==> a.cycle < rules.maxAttempts)
    && (a.state == DeadLettered ==> a.cycle == rules.maxAttempts)
    && a.executes == (if a.state in {Proposed, Approved, Rejected} then 0 else 1)
    && (a.executes == 0 || a.state == Executing ==> a.reconciles == 0)
  }

  /** One ready event at most: none before approval, undelivered while approved, delivered afterwards. */
  predicate ReadyFits(a: Action, now: nat) {
    if a.state in {Proposed, Rejected} then a.readies == []
    else |a.readies| == 1 && a.readies[0].dispatched == (a.state != Approved) && a.readies[0].availableAt <= now
  }

  predicate TokenFits(a: Action, nextToken: nat) {
    (a.token.Some? <==> a.executes == 1) && (a.token.Some? ==> a.token.value < nextToken)
  }

  predicate ActionInv(a: Action, rules: Rules, now: nat, nextToken: nat) {
    && RunFits(a) && ApprovalFits(a) && LetterFits(a, rules) && AttemptsFit(a, rules) && ReadyFits(a, now)
    && TokenFits(a, nextToken)
  }

  lemma ProposeKeeps(digest: nat, arguments: nat, needsApproval: bool, now: nat, rules: Rules, nextToken: nat)
    ensures ActionInv(Propose(digest, arguments, needsApproval, now, rules), rules, now, nextToken)
  {
  }

  lemma DecideKeeps(a: Action, submitted: nat, approve: bool, now: nat, rules: Rules, nextToken: nat)
    requires ActionInv(a, rules, now, nextToken) && Decide(a, submitted, approve, now).Ok?
    ensures ActionInv(Decide(a, submitted, approve, now).value.action, rules, now, nextToken)
  {
  }

  lemma CancelKeeps(a: Action, now: nat, rules: Rules, nextToken: nat)
    requires ActionInv(a, rules, now, nextToken) && Cancel(a, now).Ok?
    ensures ActionInv(Cancel(a, now).value.action, rules, now, nextToken)
  {
  }

  lemma ClaimKeeps(a: Action, k: nat, now: nat, token: nat, rules: Rules)
    requires rules.maxAttempts >= 1 && ActionInv(a, rules, now, token) && Deliverable(a, k, now)
    ensures a.state == Approved
    ensures ActionInv(ClaimReady(a, k, now, token, rules), rules, now, token + 1)
  {
  }

  lemma ReconcileKeeps(a: Action, now: nat, token: nat, rules: Rules)
    requires ActionInv(a, rules, now, token) && Reconcilable(a, now)
    ensures ActionInv(ClaimReconciliation(a, now, token, rules), rules, now, token + 1)
  {
  }

  lemma SettleKeeps(a: Action, mode: Mode, token: nat, provider: Provider, now: nat, rules: Rules, nextToken: nat)
    requires ActionInv(a, rules, now, nextToken)
    ensures ActionInv(Settle(a, mode, token, provider, now, rules).action, rules, now, nextToken)
  {
  }

  lemma RedriveKeeps(a: Action, expected: nat, now: nat, rules: Rules, nextToken: nat)
    requires rules.maxAttempts >= 1 && ActionInv(a, rules, now, nextToken) && Redrive(a, expected, now).Ok?
    ensures ActionInv(Redrive(a, expected, now).value, rules, now, nextToken)
  {
  }

  lemma LaterKeeps(a: Action, rules: Rules, now: nat, nextToken: nat, later: nat, laterToken: nat)
    requires ActionInv(a, rules, now, nextToken) && now <= later && nextToken <= laterToken
    ensures ActionInv(a, rules, later, laterToken)
  {
  }

  // ---------------------------------------------------------------- guards

  /** An approval is decided exactly when it is pending, unexpired and shown the stored content. */
  lemma DecideSucceeds(a: Action, submitted: nat, approve: bool, now: nat, rules: Rules, nextToken: nat)
    requires ActionInv(a, rules, now, nextToken)
    ensures Decide(a, submitted, approve, now).Ok? <==>
            a.state == Proposed && now < a.approval.value.expires && submitted == a.digest
  {
  }

  /** A run can be cancelled exactly while its action is proposed. */
  lemma CancelSucceeds(a: Action, now: nat, rules: Rules, nextToken: nat)
    requires ActionInv(a, rules, now, nextToken)
    ensures Cancel(a, now).Ok? <==> a.run == WaitingForApproval
    ensures Cancel(a, now).Ok? <==> a.state == Proposed
  {
  }

  /** The lineage guard never rejects: version and budget of redrives alone decide. */
  lemma RedriveSucceeds(a: Action, expected: nat, now: nat, rules: Rules, nextToken: nat)
    requires ActionInv(a, rules, now, nextToken)
    ensures Redrive(a, expected, now) != Err(LineageStale)
    ensures Redrive(a, expected, now).Ok? <==>
            a.state == DeadLettered && a.letter.value.version == expected && Redrives(a) < rules.maxRedrives
  {
  }

  /** Reconciliation attempts over the whole life of an action are bounded. */
  lemma AttemptsBounded(a: Action, rules: Rules, now: nat, nextToken: nat)
    requires ActionInv(a, rules, now, nextToken)
    ensures a.reconciles <= rules.maxAttempts * (rules.maxRedrives + 1)
  {
    assert Redrives(a) <= rules.maxRedrives;
    assert rules.maxAttempts * Redrives(a) <= rules.maxAttempts * rules.maxRedrives by {
      Monotone(rules.maxAttempts, Redrives(a), rules.maxRedrives);
    }
  }

  lemma Monotone(m: nat, x: nat, y: nat)
    requires x <= y
    ensures m * x <= m * y
  {
  }

  // ---------------------------------------------------------------- the reservations of an action

  /** What a reservation of the action looks like while the action is in its present state. */
  function HoldOf(a: Action, estimate: nat, r: Resource): Hold {
    match a.state
    case EffectCommitted => Hold(estimate, Some(estimate), if r == ConcurrentRuns then Released else Committed)
    case EffectFailed | Rejected => Hold(estimate, Some(0), Released)
    case _ => Hold(estimate, None, Active)
  }

  /** A transaction's effect turns the old reservation into the one of the new state. */
  predicate EffectFits(a: Action, m: Move) {
    match m.effect
    case KeepHolds => Final(a.state) == Final(m.action.state) && (Final(a.state) ==> m.action.state == a.state)
    case SettleHolds(committed) =>
      && !Final(a.state)
      && (if committed then m.action.state == EffectCommitted else m.action.state in {EffectFailed, Rejected})
  }

  lemma DecideEffect(a: Action, submitted: nat, approve: bool, now: nat, rules: Rules, nextToken: nat)
    requires ActionInv(a, rules, now, nextToken) && Decide(a, submitted, approve, now).Ok?
    ensures EffectFits(a, Decide(a, submitted, approve, now).value)
  {
  }

  lemma CancelEffect(a: Action, now: nat)
    requires Cancel(a, now).Ok?
    ensures EffectFits(a, Cancel(a, now).value)
  {
  }

  lemma SettleEffect(a: Action, mode: Mode, token: nat, provider: Provider, now: nat, rules: Rules)
    ensures EffectFits(a, Settle(a, mode, token, provider, now, rules))
  {
  }

  // ---------------------------------------------------------------- what never goes back

  function LetterVersion(a: Action): nat {
    if a.letter.Some? then a.letter.value.version else 0
  }

  /** Claims, letters and decisions only move forward; tokens handed out meanwhile are at least `floor`. */
  predicate Onward(a: Action, b: Action, floor: nat) {
    && b.digest == a.digest && a.executes <= b.executes && a.reconciles <= b.reconciles && a.version <= b.version
    && LetterVersion(a) <= LetterVersion(b)
    && (Final(a.state) ==> b.state == a.state)
    && (a.state != Proposed ==> b.state != Proposed && b.approval == a.approval)
    && (Claimed(b.state) ==>
          b.token.Some? && ((Claimed(a.state) && b.token == a.token && b.state == a.state) || floor <= b.token.value))
    && (a.approval.Some? <==> b.approval.Some?)
    && (a.approval.Some? ==> b.approval.value.expires == a.approval.value.expires)
  }

  lemma OnwardSelf(a: Action, rules: Rules, now: nat, nextToken: nat)
    requires ActionInv(a, rules, now, nextToken)
    ensures Onward(a, a, nextToken)
  {
  }

  lemma OnwardCompose(a: Action, b: Action, c: Action, floor: nat, later: nat)
    requires Onward(a, b, floor) && Onward(b, c, later) && floor <= later
    ensures Onward(a, c, floor)
  {
  }

  lemma DecideOnward(a: Action, submitted: nat, approve: bool, now: nat, rules: Rules, nextToken: nat)
    requires ActionInv(a, rules, now, nextToken) && Decide(a, submitted, approve, now).Ok?
    ensures Onward(a, Decide(a, submitted, approve, now).value.action, nextToken)
  {
  }

  lemma CancelOnward(a: Action, now: nat, rules: Rules, nextToken: nat)
    requires ActionInv(a, rules, now, nextToken) && Cancel(a, now).Ok?
    ensures Onward(a, Cancel(a, now).value.action, nextToken)
  {
  }

  lemma ClaimOnward(a: Action, k: nat, now: nat, token: nat, rules: Rules)
    requires ActionInv(a, rules, now, token) && Deliverable(a, k, now)
    ensures Onward(a, ClaimReady(a, k, now, token, rules), token)
  {
  }

  lemma ReconcileOnward(a: Action, now: nat, token: nat, rules: Rules)
    requires ActionInv(a, rules, now, token) && Reconcilable(a, now)
    ensures Onward(a, ClaimReconciliation(a, now, token, rules), token)
  {
  }

  lemma SettleOnward(a: Action, mode: Mode, token: nat, provider: Provider, now: nat, rules: Rules, nextToken: nat)
    requires ActionInv(a, rules, now, nextToken)
    ensures Onward(a, Settle(a, mode, token, provider, now, rules).action, nextToken)
  {
  }

  lemma RedriveOnward(a: Action, expected: nat, now: nat, rules: Rules, nextToken: nat)
    requires ActionInv(a, rules, now, nextToken) && Redrive(a, expected, now).Ok?
    ensures Onward(a, Redrive(a, expected, now).value, nextToken)
  {
  }
}
