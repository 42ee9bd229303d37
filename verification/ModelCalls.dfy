/**
 * The life of one durable model call: queued by an agent node, executed and reconciled by
 * workers, timed out by the workflow engine.
 */
module ModelCalls {
  import opened Ids
  import opened Budgets
  import opened Actions

  datatype CallState = CallQueued | CallExecuting | CallReconciling | CallUnresolved | CallCompleted | CallFailed | CallTimedOut

  datatype Usage = Usage(input: nat, output: nat, cost: nat)

  datatype Answer = AnswerCompleted(usage: Usage) | AnswerFailed | AnswerAmbiguous

  /** How a call was charged: not yet, by the usage the provider reported, nothing, or the whole estimate. */
  datatype Charge = Uncharged | Metered(usage: Usage) | Free | FullEstimate

  /** A call row with its ready and timeout events and the resume events sent to its execution. */
  datatype Call = Call(
    state: CallState, token: Option<nat>, lease: Option<nat>, executes: nat, reconciles: nat, nextAt: Option<nat>,
    tokens: nat, expires: nat, charge: Charge, ready: Option<Ready>, timeout: Option<Ready>, resumes: seq<nat>)

  datatype CallMove = CallMove(call: Call, effect: CallEffect)

  datatype CallEffect = KeepReservations | SettleReservations(committed: bool, usage: map<Resource, int>)

  /** What a call reserves; `tokens` is its input estimate plus the output allowance. */
  function CallEstimates(tokens: nat): map<Resource, int> {
    map[Currency := 1, Tokens := tokens, Requests := 1, ModelCallUnits := 1]
  }

  function Metering(u: Usage): map<Resource, int> {
    map[Currency := u.cost, Tokens := u.input + u.output, Requests := 1, ModelCallUnits := 1]
  }

  /** A funded call, queued with a ready event for workers and a timeout event for its execution. */
  function Enqueue(tokens: nat, now: nat, expires: nat): Call {
    Call(CallQueued, None, None, 0, 0, None, tokens, expires, Uncharged,
         Some(Ready(now, false, false)), Some(Ready(expires, false, false)), [])
  }

  /** The row left when the reservation was refused: the execution fails and no event names the call. */
  function Unfunded(tokens: nat, expires: nat): Call {
    Call(CallQueued, None, None, 0, 0, None, tokens, expires, Uncharged, None, None, [])
  }

  // ---------------------------------------------------------------- workers

  predicate CallDeliverable(c: Call, now: nat) {
    c.ready.Some? && !c.ready.value.dispatched && c.ready.value.availableAt <= now
  }

  function ClaimCall(c: Call, now: nat, token: nat, rules: Rules): Call
    requires CallDeliverable(c, now)
  {
    if c.state != CallQueued then c.(ready := Some(c.ready.value.(dispatched := true, processed := true)))
    else c.(state := CallExecuting, token := Some(token), lease := Some(now + rules.lease), executes := c.executes + 1,
            ready := Some(c.ready.value.(dispatched := true)))
  }

  predicate CallReconcilable(c: Call, now: nat) {
    || (c.state == CallExecuting && c.lease.Some? && c.lease.value < now)
    || (c.state == CallUnresolved && (c.nextAt.None? || c.nextAt.value <= now))
  }

  function ReconcileCall(c: Call, now: nat, token: nat, rules: Rules): Call {
    c.(state := CallReconciling, token := Some(token), lease := Some(now + rules.lease), reconciles := c.reconciles + 1)
  }

  predicate CallFenced(c: Call, mode: Mode, token: nat) {
    c.state == (if mode == Execute then CallExecuting else CallReconciling) && c.token == Some(token)
  }

  function MarkProcessed(e: Option<Ready>): Option<Ready> {
    if e.Some? then Some(e.value.(processed := true)) else None
  }

  /** The end of a call: its events are processed and its execution is woken once. */
  function End(c: Call, state: CallState, charge: Charge, now: nat): Call {
    c.(state := state, charge := charge, lease := None, ready := MarkProcessed(c.ready), timeout := MarkProcessed(c.timeout),
       resumes := c.resumes + [now])
  }

  function SettleCall(c: Call, mode: Mode, token: nat, answer: Answer, now: nat, rules: Rules): CallMove {
    if !CallFenced(c, mode, token) then CallMove(c, KeepReservations)
    else
      match answer
      case AnswerCompleted(u) => CallMove(End(c, CallCompleted, Metered(u), now), SettleReservations(true, Metering(u)))
      case AnswerFailed => CallMove(End(c, CallFailed, Free, now), SettleReservations(false, map[]))
      case AnswerAmbiguous =>
        if mode == Reconcile && c.reconciles >= rules.maxAttempts
        then CallMove(End(c, CallFailed, FullEstimate, now), SettleReservations(true, map[]))
        else CallMove(c.(state := CallUnresolved, nextAt := Some(now + rules.delay), lease := None), KeepReservations)
  }

  // ---------------------------------------------------------------- timeout

  predicate CallEnded(state: CallState) {
    state in {CallCompleted, CallFailed, CallTimedOut}
  }

  /** The engine handles the timeout event of the call. */
  predicate TimeoutDue(c: Call, now: nat) {
    c.timeout.Some? && !c.timeout.value.processed && c.timeout.value.availableAt <= now
  }

  /** `expire_model_call`, and the engine marking the timeout event processed. */
  function ExpireCall(c: Call, now: nat): CallMove {
    var b := c.(timeout := MarkProcessed(c.timeout));
    if CallEnded(c.state) || c.expires > now then CallMove(b, KeepReservations)
    else if c.state in {CallExecuting, CallReconciling, CallUnresolved} then
      CallMove(if c.state == CallExecuting then b.(state := CallUnresolved, nextAt := Some(now)) else b, KeepReservations)
    else if c.ready.None? || c.ready.value.dispatched then
      CallMove(b.(state := CallUnresolved, nextAt := Some(now)), KeepReservations)
    else
      CallMove(b.(state := CallTimedOut, charge := Free, ready := Some(c.ready.value.(dispatched := true, processed := true))),
               SettleReservations(false, map[]))
  }

  // ---------------------------------------------------------------- what every transaction keeps

  predicate ChargeFits(c: Call) {
    match c.state
    case CallCompleted => c.charge.Metered?
    case CallFailed => c.charge in {Free, FullEstimate}
    case CallTimedOut => c.charge == Free
    case _ => c.charge == Uncharged
  }

  /** A worker's ending wakes the execution once; a timeout before dispatch needs no wake-up. */
  predicate WakeFits(c: Call) {
    && |c.resumes| == (if c.state in {CallCompleted, CallFailed} then 1 else 0)
    && (CallEnded(c.state) ==> c.timeout.Some? && c.timeout.value.processed)
    && (c.timeout.Some? ==> c.timeout.value.availableAt == c.expires)
    && (c.timeout.Some? <==> c.ready.Some?)
    && (c.ready.None? ==> c.state == CallQueued)
  }

  predicate CallAttempts(c: Call, rules: Rules) {
    && c.reconciles <= rules.maxAttempts
    && (c.state in {CallExecuting, CallUnresolved} ==> c.reconciles < rules.maxAttempts)
    && c.executes == (if c.state in {CallQueued, CallTimedOut} then 0 else 1)
    && (c.state in {CallQueued, CallExecuting, CallTimedOut} ==> c.reconciles == 0)
    && (c.charge == FullEstimate ==> c.reconciles == rules.maxAttempts)
  }

  predicate CallReadyFits(c: Call, now: nat) {
    c.ready.Some? ==> c.ready.value.dispatched == (c.state != CallQueued) && c.ready.value.availableAt <= now
  }

  predicate CallTokenFits(c: Call, nextToken: nat) {
    && (c.token.Some? <==> c.executes == 1) && (c.token.Some? ==> c.token.value < nextToken)
    && (c.state in {CallExecuting, CallReconciling} ==> c.lease.Some?)
  }

  predicate CallInv(c: Call, rules: Rules, now: nat, nextToken: nat) {
    ChargeFits(c) && WakeFits(c) && CallAttempts(c, rules) && CallReadyFits(c, now) && CallTokenFits(c, nextToken)
  }

  lemma EnqueueKeeps(tokens: nat, now: nat, expires: nat, rules: Rules, nextToken: nat)
    ensures CallInv(Enqueue(tokens, now, expires), rules, now, nextToken)
    ensures CallInv(Unfunded(tokens, expires), rules, now, nextToken)
  {
  }

  lemma ClaimCallKeeps(c: Call, now: nat, token: nat, rules: Rules)
    requires rules.maxAttempts >= 1 && CallInv(c, rules, now, token) && CallDeliverable(c, now)
    ensures c.state == CallQueued
    ensures CallInv(ClaimCall(c, now, token, rules), rules, now, token + 1)
  {
  }

  lemma ReconcileCallKeeps(c: Call, now: nat, token: nat, rules: Rules)
    requires CallInv(c, rules, now, token) && CallReconcilable(c, now)
    ensures CallInv(ReconcileCall(c, now, token, rules), rules, now, token + 1)
  {
  }

  lemma SettleCallKeeps(c: Call, mode: Mode, token: nat, answer: Answer, now: nat, rules: Rules, nextToken: nat)
    requires CallInv(c, rules, now, nextToken)
    ensures CallInv(SettleCall(c, mode, token, answer, now, rules).call, rules, now, nextToken)
  {
  }

  lemma ExpireCallKeeps(c: Call, now: nat, rules: Rules, nextToken: nat)
    requires CallInv(c, rules, now, nextToken) && TimeoutDue(c, now)
    ensures CallInv(ExpireCall(c, now).call, rules, now, nextToken)
  {
  }

  lemma LaterCallKeeps(c: Call, rules: Rules, now: nat, nextToken: nat, later: nat, laterToken: nat)
    requires CallInv(c, rules, now, nextToken) && now <= later && nextToken <= laterToken
    ensures CallInv(c, rules, later, laterToken)
  {
  }

  /** A timeout ends a call exactly when no worker ever claimed it. */
  lemma TimeoutEndsUnclaimed(c: Call, now: nat, rules: Rules, nextToken: nat)
    requires CallInv(c, rules, now, nextToken) && TimeoutDue(c, now)
    ensures ExpireCall(c, now).call.state == CallTimedOut <==> c.executes == 0
    ensures ExpireCall(c, now).effect.SettleReservations? <==> c.executes == 0
  {
  }

  // ---------------------------------------------------------------- the reservations of a call

  /** What a reservation of the call looks like under its present charge. */
  function CallHoldOf(c: Call, estimate: nat, r: Resource): Hold {
    match c.charge
    case Uncharged => Hold(estimate, None, Active)
    case Free => Hold(estimate, Some(0), Released)
    case FullEstimate => Hold(estimate, Some(estimate), Committed)
    case Metered(u) => Hold(estimate, Some(if r in Metering(u) then Metering(u)[r] else estimate), Committed)
  }

  /** A transaction's effect turns the old reservation into the one of the new charge. */
  predicate CallEffectFits(c: Call, m: CallMove) {
    match m.effect
    case KeepReservations => m.call.charge == c.charge
    case SettleReservations(committed, usage) =>
      && c.charge == Uncharged
      && m.call.charge != Uncharged
      && committed == (m.call.charge != Free)
      && usage == (if m.call.charge.Metered? then Metering(m.call.charge.usage) else map[])
  }

  lemma SettleCallEffect(c: Call, mode: Mode, token: nat, answer: Answer, now: nat, rules: Rules, nextToken: nat)
    requires CallInv(c, rules, now, nextToken)
    ensures CallEffectFits(c, SettleCall(c, mode, token, answer, now, rules))
  {
  }

  lemma ExpireCallEffect(c: Call, now: nat, rules: Rules, nextToken: nat)
    requires CallInv(c, rules, now, nextToken)
    ensures CallEffectFits(c, ExpireCall(c, now))
  {
  }

  // ---------------------------------------------------------------- what never goes back

  predicate CallClaimed(state: CallState) {
    state in {CallExecuting, CallReconciling}
  }

  /** Endings are final, a call without events is frozen, and tokens handed out meanwhile are at least `floor`. */
  predicate CallOnward(a: Call, b: Call, floor: nat) {
    && b.tokens == a.tokens && a.executes <= b.executes && a.reconciles <= b.reconciles && a.resumes <= b.resumes
    && (CallEnded(a.state) ==> b.state == a.state && b.charge == a.charge && b.resumes == a.resumes)
    && b.ready.Some? == a.ready.Some? && (a.ready.None? ==> b == a)
    && (CallClaimed(b.state) ==>
          b.token.Some? && ((CallClaimed(a.state) && b.token == a.token && b.state == a.state) || floor <= b.token.value))
  }

  lemma CallOnwardSelf(c: Call, rules: Rules, now: nat, nextToken: nat)
    requires CallInv(c, rules, now, nextToken)
    ensures CallOnward(c, c, nextToken)
  {
  }

  lemma CallOnwardCompose(a: Call, b: Call, c: Call, floor: nat, later: nat)
    requires CallOnward(a, b, floor) && CallOnward(b, c, later) && floor <= later
    ensures CallOnward(a, c, floor)
  {
  }

  lemma ClaimCallOnward(c: Call, now: nat, token: nat, rules: Rules)
    requires CallInv(c, rules, now, token) && CallDeliverable(c, now)
    ensures CallOnward(c, ClaimCall(c, now, token, rules), token)
  {
  }

  lemma ReconcileCallOnward(c: Call, now: nat, token: nat, rules: Rules)
    requires CallInv(c, rules, now, token) && CallReconcilable(c, now)
    ensures CallOnward(c, ReconcileCall(c, now, token, rules), token)
  {
  }

  lemma SettleCallOnward(c: Call, mode: Mode, token: nat, answer: Answer, now: nat, rules: Rules, nextToken: nat)
    requires CallInv(c, rules, now, nextToken)
    ensures CallOnward(c, SettleCall(c, mode, token, answer, now, rules).call, nextToken)
  {
  }

  lemma ExpireCallOnward(c: Call, now: nat, rules: Rules, nextToken: nat)
    requires CallInv(c, rules, now, nextToken) && TimeoutDue(c, now)
    ensures CallOnward(c, ExpireCall(c, now).call, nextToken)
  {
  }
}
