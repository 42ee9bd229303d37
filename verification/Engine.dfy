/**
 * The durable engine: any number of workers, executions and subworkflow children.
 *
 * A `Case` is one execution row together with the rows that reference it: its waits, the
 * subworkflow calls it made, its checkpoints and the outbox events addressed to it. An
 * outbox event is identified by its deduplication key, which the database keeps unique.
 * Every function below is the effect of one database transaction.
 */
module Engine {
  import opened Ids
  import opened Json
  import opened Definitions
  import opened Interpreter

  type EId = nat

  datatype Status = Queued | Running | Waiting | Completed | Failed | Stopped

  datatype At = At(node: Id, step: nat)

  datatype Key =
    | ReadyEvent(version: nat)
    | WaitWake(at: At) | WaitResume(at: At)
    | CallTimeout(at: At) | CallResume(at: At)
    | ParentStopped | Finalize

  datatype Outbox = Outbox(availableAt: nat, dispatched: bool, processed: bool)

  datatype WaitStatus = WaitPending | WaitResolved | WaitExpired | WaitCancelled

  /** The content a wait is bound to; its digest is this document itself. */
  datatype WaitContent = WaitContent(at: At, kind: NodeType, state: State, due: Option<nat>, expires: nat)

  datatype Wait = Wait(
    content: WaitContent, eventKey: Option<Json>, status: WaitStatus,
    resolution: Option<Resolution>, payload: Option<State>)

  datatype CallStatus = CallPending | CallCompleted | CallFailed | CallCancelled | CallTimedOut

  datatype Call = Call(child: EId, status: CallStatus, result: Option<State>, expires: nat)

  datatype Link = Link(parent: EId, at: At)

  datatype Origin = Origin(source: EId, checkpoint: nat)

  datatype Failure =
    | DeadlineExceeded | StepLimitExceeded | NoReadyNode | WakeMismatch | PolicyRefused
    | SubworkflowUnavailable | SubworkflowTimedOut | SubworkflowEnded | SubworkflowResultInvalid
    | WaitExceedsDeadline | WaitTimedOut | WaitResolutionInvalid
    | ParentGone | CancelledByCaller

  datatype Case = Case(
    d: Definition, core: Core, status: Status, version: nat, token: Option<nat>, lease: Option<nat>,
    deadline: nat, error: Option<Failure>, parent: Option<Link>, origin: Option<Origin>,
    waits: map<At, Wait>, calls: map<At, Call>, events: map<Key, Outbox>, checkpoints: seq<Core>)

  predicate Terminal(c: Case) {
    c.status in {Completed, Failed, Stopped}
  }

  /** Where the execution stands: its first active node and its step count. */
  function Here(c: Case): At {
    At(if c.core.current == [] then "" else c.core.current[0], c.core.steps)
  }

  function Min(a: nat, b: nat): nat {
    if a < b then a else b
  }

  /** A new execution, or one restarted from a checkpoint, with its first ready event. */
  function NewCase(d: Definition, core: Core, parent: Option<Link>, origin: Option<Origin>, now: nat): Case {
    Case(d, core, Queued, 1, None, None, now + d.maxDuration, None, parent, origin,
         map[], map[], map[ReadyEvent(1) := Outbox(now, false, false)], [core])
  }

  function Put(c: Case, k: Key, at: nat): Case {
    c.(events := c.events[k := Outbox(at, false, false)])
  }

  function Done(c: Case, k: Key): Case {
    if k in c.events then c.(events := c.events[k := c.events[k].(processed := true)]) else c
  }

  // ---------------------------------------------------------------- claiming

  /** A running execution whose lease has passed. */
  predicate Recoverable(c: Case, now: nat) {
    c.status == Running && c.lease.Some? && c.lease.value < now
  }

  predicate Claimable(c: Case, k: Key, now: nat) {
    && !k.Finalize? && k in c.events && !c.events[k].processed && c.events[k].availableAt <= now
    && (c.status in {Queued, Waiting} || Recoverable(c, now))
    && (!c.events[k].dispatched || Recoverable(c, now))
  }

  function ClaimCase(c: Case, k: Key, now: nat, token: nat, lease: nat): Case {
    if !Claimable(c, k, now) then c
    else c.(status := Running, token := Some(token), lease := Some(now + lease),
            events := c.events[k := c.events[k].(dispatched := true)])
  }

  // ---------------------------------------------------------------- ending

  function CancelWaits(waits: map<At, Wait>): map<At, Wait> {
    map a | a in waits :: if waits[a].status == WaitPending
                          then waits[a].(status := WaitCancelled, resolution := Some(Cancelled))
                          else waits[a]
  }

  function CancelCalls(calls: map<At, Call>): map<At, Call> {
    map a | a in calls :: if calls[a].status == CallPending then calls[a].(status := CallCancelled) else calls[a]
  }

  /** The common effect of every way an execution ends early. */
  function Close(c: Case, status: Status, error: Failure): Case {
    c.(status := status, error := Some(error), token := None, lease := None, version := c.version + 1,
       waits := CancelWaits(c.waits), calls := CancelCalls(c.calls))
  }

  function Fail(c: Case, k: Key, error: Failure): Case {
    Done(Close(c, Failed, error), k)
  }

  // ---------------------------------------------------------------- advancing

  /** What an advance reads from outside the execution's own rows. */
  datatype Env = Env(refused: bool, child: Option<EId>, finals: map<EId, State>)

  /** The node an event makes the engine run; None when the event does not fit the record. */
  function Chosen(c: Case, k: Key): (r: Option<Id>)
    requires Ready(c.d, c.core) != []
    ensures r.Some? ==> r.value in Ready(c.d, c.core)
  {
    var ready := Ready(c.d, c.core);
    match k
    case WaitWake(at) => if at in c.waits && at.step == c.core.steps && at.node in ready then Some(at.node) else None
    case WaitResume(at) => if at in c.waits && at.step == c.core.steps && at.node in ready then Some(at.node) else None
    case CallTimeout(at) => if at in c.calls && at.step == c.core.steps && at.node in ready then Some(at.node) else None
    case CallResume(at) => if at in c.calls && at.step == c.core.steps && at.node in ready then Some(at.node) else None
    case _ => Some(ready[0])
  }

  /** Records a step: the checkpoint is written and the next event queued, or the execution completes. */
  function Record(c: Case, k: Key, y: Core, now: nat): Case {
    var c1 := c.(core := y, version := c.version + 1, token := None, lease := None, checkpoints := c.checkpoints + [y],
                 events := Done(c, k).events);
    if y.current == [] then c1.(status := Completed)
    else Put(c1.(status := Queued), ReadyEvent(c1.version), now)
  }

  /** Runs the node and records the step. */
  function Finish(c: Case, k: Key, id: Id, outside: Outside, now: nat): Case
    requires id in NodeIds(c.d)
  {
    var y := RunNode(c.d, c.core, id, outside);
    if y.None? then c else Record(c, k, y.value, now)
  }

  /** Gives the claim up and waits; the event is consumed. */
  function Park(c: Case, k: Key): Case {
    Done(c.(status := Waiting, token := None, lease := None), k)
  }

  function DelayOf(n: Node): nat {
    if PositiveInt(n.config, "delay_seconds") then n.config["delay_seconds"].i else 0
  }

  function NewWait(c: Case, n: Node, now: nat): Wait {
    var due := if n.kind == Timer then Some(now + DelayOf(n)) else None;
    var expires := if due.Some? then due.value else Min(now + n.timeout, c.deadline);
    Wait(WaitContent(At(n.id, c.core.steps), n.kind, c.core.state, due, expires),
         if n.kind == Event && "event_key" in n.config then Some(n.config["event_key"]) else None,
         WaitPending, None, None)
  }

  /** Suspends at a wait node, with one wake event for its expiry. */
  function OpenWait(c: Case, k: Key, n: Node, now: nat): Case {
    var at := At(n.id, c.core.steps);
    var w := NewWait(c, n, now);
    var c1 := Park(c, k).(version := c.version + 1, waits := c.waits[at := w]);
    Put(c1, WaitWake(at), w.content.expires)
  }

  predicate Acceptable(kind: NodeType, r: Resolution) {
    match kind
    case Approval => r in {Granted, Refused}
    case Timer => r == Elapsed
    case _ => r == Received
  }

  function AtWait(c: Case, k: Key, n: Node, now: nat): Case
    requires n.id in NodeIds(c.d)
  {
    var at := At(n.id, c.core.steps);
    if at !in c.waits then
      if n.kind == Timer && now + DelayOf(n) >= c.deadline then Fail(c, k, WaitExceedsDeadline)
      else OpenWait(c, k, n, now)
    else
      var w := c.waits[at];
      if w.content.kind != n.kind then Fail(c, k, WakeMismatch)
      else if w.status == WaitPending then
        if n.kind == Timer && w.content.due.Some? && w.content.due.value <= now then
          var elapsed := w.(status := WaitResolved, resolution := Some(Elapsed));
          Finish(c.(waits := c.waits[at := elapsed]), k, n.id, Response(Elapsed, None), now)
        else if w.content.expires <= now then
          var expired := w.(status := WaitExpired, resolution := Some(Expired));
          Fail(c.(waits := c.waits[at := expired]), k, WaitTimedOut)
        else Park(c, k)
      else if w.status != WaitResolved || w.resolution.None? then Fail(c, k, WaitResolutionInvalid)
      else if !Acceptable(n.kind, w.resolution.value) then Fail(c, k, WaitResolutionInvalid)
      else Finish(c, k, n.id, Response(w.resolution.value, w.payload), now)
  }

  /** Suspends on a subworkflow call, with one wake event for its timeout. */
  function OpenCall(c: Case, k: Key, n: Node, child: EId, now: nat): Case {
    var at := At(n.id, c.core.steps);
    var expires := Min(now + n.timeout, c.deadline);
    var c1 := Park(c, k).(version := c.version + 1, calls := c.calls[at := Call(child, CallPending, None, expires)]);
    Put(c1, CallTimeout(at), expires)
  }

  function AtCall(c: Case, k: Key, n: Node, now: nat, env: Env): Case
    requires n.id in NodeIds(c.d)
  {
    var at := At(n.id, c.core.steps);
    if at !in c.calls then
      if env.child.None? then Fail(c, k, SubworkflowUnavailable) else OpenCall(c, k, n, env.child.value, now)
    else
      var call := c.calls[at];
      if call.status == CallPending then
        if call.expires <= now then
          Fail(c.(calls := c.calls[at := call.(status := CallTimedOut)]), k, SubworkflowTimedOut)
        else Park(c, k)
      else if call.status != CallCompleted then Fail(c, k, SubworkflowEnded)
      else if call.child !in env.finals || call.result != Some(env.finals[call.child]) then
        Fail(c, k, SubworkflowResultInvalid)
      else Finish(c, k, n.id, Result(env.finals[call.child]), now)
  }

  function AtNode(c: Case, k: Key, id: Id, now: nat, env: Env): Case
    requires id in NodeIds(c.d)
  {
    var n := NodeAt(c.d, id);
    if n.kind == Subworkflow then AtCall(c, k, n, now, env)
    else if n.kind in WAIT_KINDS then AtWait(c, k, n, now)
    else Finish(c, k, id, Nothing, now)
  }

  /** A worker can only hold a claim for an event that was dispatched to some worker. */
  predicate Handed(c: Case, k: Key) {
    k in c.events && c.events[k].dispatched
  }

  /** The claim is the current one and its event is still to be processed. */
  predicate HoldsClaim(c: Case, k: Key, token: nat) {
    && !k.Finalize? && k in c.events && !c.events[k].processed
    && c.status == Running && c.token == Some(token)
  }

  function AdvanceCase(c: Case, k: Key, token: nat, now: nat, stopped: bool, env: Env): Case {
    if !HoldsClaim(c, k, token) then c
    else if stopped then Done(Close(c, Stopped, ParentGone), k)
    else if c.deadline <= now then Fail(c, k, DeadlineExceeded)
    else if c.core.steps >= c.d.maxSteps then Fail(c, k, StepLimitExceeded)
    else if Ready(c.d, c.core) == [] then Fail(c, k, NoReadyNode)
    else
      var id := Chosen(c, k);
      if id.None? then Fail(c, k, WakeMismatch)
      else if env.refused then Fail(c, k, PolicyRefused)
      else AtNode(c, k, id.value, now, env)
  }

  // ---------------------------------------------------------------- responses and cancellation

  datatype Reply = Reply(
    kind: NodeType, submitted: WaitContent, eventKey: Option<Json>, resolution: Resolution, payload: Option<State>)

  /** What the three response endpoints submit. */
  predicate Offered(reply: Reply) {
    match reply.kind
    case Approval => reply.resolution in {Granted, Refused} && reply.payload.None?
    case Event | RequestInformation => reply.resolution == Received && reply.payload.Some?
    case _ => false
  }

  predicate ReplyAccepted(c: Case, at: At, reply: Reply, now: nat) {
    && Offered(reply) && at in c.waits && c.waits[at].content.kind == reply.kind && c.waits[at].status == WaitPending
    && now < c.waits[at].content.expires && reply.submitted == c.waits[at].content
    && (reply.kind == Event ==> reply.eventKey.Some? && reply.eventKey == c.waits[at].eventKey)
    && c.status == Waiting && at.node in c.core.current && at.step == c.core.steps
  }

  /** A response settles the wait, retires its wake event and queues a resume event. */
  function RespondCase(c: Case, at: At, reply: Reply, now: nat): Case {
    if !ReplyAccepted(c, at, reply, now) then c
    else
      var w := c.waits[at].(status := WaitResolved, resolution := Some(reply.resolution), payload := reply.payload);
      Put(Done(c.(waits := c.waits[at := w]), WaitWake(at)), WaitResume(at), now)
  }

  /** Cancellation of an idle execution by its caller; settlement is left to a finalize event. */
  function CancelCase(c: Case, now: nat): Case {
    if c.status !in {Queued, Waiting} then c
    else Put(Close(c, Stopped, CancelledByCaller), Finalize, now)
  }

  /** The end of a child reaches the call that its parent made, once. */
  function ChildSettled(c: Case, at: At, status: Status, state: State, now: nat): Case
    requires at in c.calls
  {
    if c.calls[at].status != CallPending then c
    else
      var call := c.calls[at].(
        status := if status == Completed then CallCompleted else if status == Stopped then CallCancelled else CallFailed,
        result := if status == Completed then Some(state) else None);
      Put(Done(c, CallTimeout(at)).(calls := c.calls[at := call]), CallResume(at), now)
  }

  // ---------------------------------------------------------------- the system

  datatype Sys = Sys(now: nat, cases: map<EId, Case>, nextToken: nat, nextId: EId)

  const Empty := Sys(0, map[], 0, 0)

  /** The definitions this model runs: executable, without agent and tool nodes. */
  ghost predicate Served(d: Definition) {
    Executable(d) && !Has(d, {Agent, Tool})
  }

  predicate GaveUp(s: CallStatus) {
    s in {CallCancelled, CallTimedOut}
  }

  /** The parent's call that made this execution. */
  predicate HasCall(s: Sys, link: Link) {
    link.parent in s.cases && link.at in s.cases[link.parent].calls
  }

  /** The parent gave up on this execution. */
  predicate IsStopped(s: Sys, e: EId)
    requires e in s.cases
  {
    var link := s.cases[e].parent;
    link.Some? && HasCall(s, link.value) && GaveUp(s.cases[link.value.parent].calls[link.value.at].status)
  }

  function Finals(s: Sys): map<EId, State> {
    map e | e in s.cases && s.cases[e].status == Completed :: s.cases[e].core.state
  }

  /** The children whose calls an execution gave up while moving from `c` to `c'`. */
  function Dropped(c: Case, c': Case): set<EId> {
    set a | a in c.calls && a in c'.calls && c.calls[a].status == CallPending && GaveUp(c'.calls[a].status) ::
      c.calls[a].child
  }

  function Tell(s: Sys, children: set<EId>): Sys {
    s.(cases := map e | e in s.cases :: if e in children then Put(s.cases[e], ParentStopped, s.now) else s.cases[e])
  }

  function SettleParent(s: Sys, e: EId): Sys
    requires e in s.cases
  {
    var c := s.cases[e];
    if c.parent.None? || !HasCall(s, c.parent.value) then s
    else
      var link := c.parent.value;
      var p := ChildSettled(s.cases[link.parent], link.at, c.status, c.core.state, s.now);
      s.(cases := s.cases[link.parent := p])
  }

  /**
   * Writes the new row set of `e`, installs the child it spawned, sends a stop to every child
   * whose call it gave up and, when `settle`, settles the call that its own parent made.
   */
  function Commit(s: Sys, e: EId, c': Case, child: Option<Case>, settle: bool): Sys
    requires e in s.cases
  {
    var s1 := s.(cases := s.cases[e := c']);
    var s2 := if child.None? then s1
              else s1.(cases := s1.cases[s1.nextId := child.value], nextId := s1.nextId + 1);
    var s3 := Tell(s2, Dropped(s.cases[e], c'));
    if settle then SettleParent(s3, e) else s3
  }

  datatype Transaction =
    | Tick(seconds: nat)
    | Start(d: Definition, input: State)
    | Fork(source: EId, checkpoint: nat)
    | Claim(e: EId, k: Key, lease: nat)
    | Advance(e: EId, k: Key, token: nat, refused: bool, childDefinition: Option<Definition>)
    | Respond(e: EId, at: At, reply: Reply)
    | Cancel(e: EId)
    | FinalizeCancelled(e: EId)

  /** The row set an advance writes. */
  ghost function Advanced(s: Sys, t: Transaction): Case
    requires t.Advance? && t.e in s.cases
  {
    var child := if t.childDefinition.Some? && Served(t.childDefinition.value) then Some(s.nextId) else None;
    AdvanceCase(s.cases[t.e], t.k, t.token, s.now, IsStopped(s, t.e), Env(t.refused, child, Finals(s)))
  }

  /** The child execution of the call an advance opened. */
  function ChildOf(s: Sys, e: EId, c': Case, d: Option<Definition>): Option<Case>
    requires e in s.cases
  {
    var c := s.cases[e];
    if d.None? || c'.calls.Keys == c.calls.Keys then None
    else Some(NewCase(d.value, Fresh(d.value, c.core.state), Some(Link(e, Here(c))), None, s.now))
  }

  predicate FinalizeDue(c: Case, now: nat) {
    Finalize in c.events && !c.events[Finalize].processed && c.events[Finalize].availableAt <= now
  }

  /** A new top-level execution. */
  function Launch(s: Sys, c: Case): Sys {
    s.(cases := s.cases[s.nextId := c], nextId := s.nextId + 1)
  }

  /** The effect of one transaction; a transaction that does not apply changes nothing. */
  ghost function Next(s: Sys, t: Transaction): Sys {
    match t
    case Tick(seconds) => s.(now := s.now + seconds)
    case Start(d, input) => if Served(d) then Launch(s, NewCase(d, Fresh(d, input), None, None, s.now)) else s
    case Fork(source, k) =>
      if source in s.cases && k < |s.cases[source].checkpoints| && s.cases[source].checkpoints[k].current != []
      then Launch(s, NewCase(s.cases[source].d, s.cases[source].checkpoints[k], None, Some(Origin(source, k)), s.now))
      else s
    case Claim(e, k, lease) =>
      if e in s.cases && Claimable(s.cases[e], k, s.now)
      then Commit(s, e, ClaimCase(s.cases[e], k, s.now, s.nextToken, lease), None, false).(nextToken := s.nextToken + 1)
      else s
    case Advance(e, k, _, _, d) =>
      if e in s.cases && Handed(s.cases[e], k)
      then
        var c' := Advanced(s, t);
        Commit(s, e, c', ChildOf(s, e, c', d), Terminal(c') && !Terminal(s.cases[e]))
      else s
    case Respond(e, at, reply) =>
      if e in s.cases then Commit(s, e, RespondCase(s.cases[e], at, reply, s.now), None, false) else s
    case Cancel(e) =>
      if e in s.cases then Commit(s, e, CancelCase(s.cases[e], s.now), None, false) else s
    case FinalizeCancelled(e) =>
      if e in s.cases && FinalizeDue(s.cases[e], s.now)
      then Commit(s, e, Done(s.cases[e], Finalize), None, s.cases[e].status == Stopped)
      else s
  }

  /** The state after a sequence of transactions by any number of workers and callers. */
  ghost function History(ts: seq<Transaction>): Sys {
    if ts == [] then Empty else Next(History(ts[..|ts| - 1]), ts[|ts| - 1])
  }
}
