/**
 * The hierarchical budget ledger: reservations over every applicable scope, their release
 * and their settlement.
 *
 * A budget row is kept together with the reservations made against it, one per owner. An
 * owner is the governed action or the model call that a reservation is linked to.
 */
module Budgets {
  import opened Ids

  datatype Resource =
    | Currency | Tokens | Requests | ConcurrentRuns | ToolActions | ModelCallUnits
    | Unknown(key: string)

  datatype Scope =
    | Organization | Project(id: nat) | Environment(id: nat) | AgentScope(id: nat) | User(id: nat) | Route(id: nat)

  datatype Owner = ForAction(id: nat) | ForModelCall(id: nat)

  datatype HoldStatus = Active | Committed | Released

  datatype Hold = Hold(estimate: nat, actual: Option<int>, status: HoldStatus)

  datatype Budget = Budget(
    organization: nat, scope: Scope, resource: Resource, limit: int, active: bool,
    reserved: int, spent: int, holds: map<Owner, Hold>)

  type Ledger = map<nat, Budget>

  datatype Context = Context(
    organization: nat, project: nat, environment: nat, agent: nat, actor: nat, isUser: bool, route: Option<nat>)

  datatype Outcome<+T, +E> = Ok(value: T) | Err(error: E)

  datatype Error = InvalidEstimates | UnsupportedResource | NotCovered | Exhausted | UnsafeReservation | NegativeUsage

  // ---------------------------------------------------------------- reserving

  predicate InScope(scope: Scope, x: Context) {
    match scope
    case Organization => true
    case Project(id) => id == x.project
    case Environment(id) => id == x.environment
    case AgentScope(id) => id == x.agent
    case User(id) => x.isUser && id == x.actor
    case Route(id) => x.route == Some(id)
  }

  /** The budgets a reservation is made against. */
  predicate Applies(b: Budget, x: Context, estimates: map<Resource, int>) {
    b.organization == x.organization && b.active && b.resource in estimates && InScope(b.scope, x)
  }

  predicate Positive(estimates: map<Resource, int>) {
    estimates != map[] && forall r | r in estimates :: estimates[r] > 0
  }

  predicate Supported(estimates: map<Resource, int>) {
    forall r | r in estimates :: !r.Unknown?
  }

  predicate Covered(l: Ledger, x: Context, estimates: map<Resource, int>) {
    forall r | r in estimates :: exists b | b in l :: Applies(l[b], x, estimates) && l[b].resource == r
  }

  predicate Room(b: Budget, x: Context, estimates: map<Resource, int>) {
    Applies(b, x, estimates) ==> b.spent + b.reserved + estimates[b.resource] <= b.limit
  }

  /** The reservation of one budget, or the budget as it was when it does not apply. */
  function ReserveOne(b: Budget, owner: Owner, x: Context, estimates: map<Resource, int>): Budget
    requires Positive(estimates)
  {
    if Applies(b, x, estimates) then
      b.(reserved := b.reserved + estimates[b.resource],
         holds := b.holds[owner := Hold(estimates[b.resource], None, Active)])
    else b
  }

  /** What `reserve_budgets` refuses, in the order in which it checks. */
  function Refusal(l: Ledger, x: Context, estimates: map<Resource, int>): Option<Error> {
    if !Positive(estimates) then Some(InvalidEstimates)
    else if !Supported(estimates) then Some(UnsupportedResource)
    else if !Covered(l, x, estimates) then Some(NotCovered)
    else if !(forall b | b in l :: Room(l[b], x, estimates)) then Some(Exhausted)
    else None
  }

  function Reserve(l: Ledger, owner: Owner, x: Context, estimates: map<Resource, int>): Outcome<Ledger, Error> {
    var refusal := Refusal(l, x, estimates);
    if refusal.Some? then Err(refusal.value)
    else Ok(map b | b in l :: ReserveOne(l[b], owner, x, estimates))
  }

  // ---------------------------------------------------------------- settling

  predicate Held(b: Budget, owner: Owner) {
    owner in b.holds && b.holds[owner].status == Active
  }

  function Actual(b: Budget, h: Hold, committed: bool, usage: map<Resource, int>): int {
    if b.resource in usage then usage[b.resource] else if committed then h.estimate else 0
  }

  /** Why settling this budget would raise. */
  function Objection(b: Budget, owner: Owner, committed: bool, usage: map<Resource, int>): Option<Error> {
    if !Held(b, owner) then None
    else if b.reserved < b.holds[owner].estimate then Some(UnsafeReservation)
    else if Actual(b, b.holds[owner], committed, usage) < 0 then Some(NegativeUsage)
    else None
  }

  function SettleOne(b: Budget, owner: Owner, committed: bool, usage: map<Resource, int>): Budget {
    if !Held(b, owner) then b
    else
      var h := b.holds[owner];
      var actual := Actual(b, h, committed, usage);
      var charged := committed && b.resource != ConcurrentRuns;
      b.(reserved := b.reserved - h.estimate,
         spent := if charged then b.spent + actual else b.spent,
         holds := b.holds[owner := Hold(h.estimate, Some(actual), if charged then Committed else Released)])
  }

  predicate Settleable(l: Ledger, owner: Owner, committed: bool, usage: map<Resource, int>) {
    forall b | b in l :: Objection(l[b], owner, committed, usage).None?
  }

  /** The ledger after every active reservation of the owner is settled. */
  function Settled(l: Ledger, owner: Owner, committed: bool, usage: map<Resource, int>): Ledger {
    map b | b in l :: SettleOne(l[b], owner, committed, usage)
  }

  // ---------------------------------------------------------------- sums

  /** The sum of a finite table, in whatever order it is read. */
  ghost function Sum(m: map<Owner, int>): int
    decreases |m|
  {
    if m == map[] then 0
    else
      var o :| o in m;
      m[o] + Sum(m - {o})
  }

  lemma {:induction false} SumWithout(m: map<Owner, int>, o: Owner)
    requires o in m
    ensures Sum(m) == m[o] + Sum(m - {o})
    decreases |m|
  {
    var p :| p in m && Sum(m) == m[p] + Sum(m - {p});
    if p != o {
      SumWithout(m - {p}, o);
      SumWithout(m - {o}, p);
      assert m - {p} - {o} == m - {o} - {p};
    }
  }

  lemma SumUpdate(m: map<Owner, int>, o: Owner, v: int)
    ensures Sum(m[o := v]) == Sum(m) + v - if o in m then m[o] else 0
  {
    SumWithout(m[o := v], o);
    assert m[o := v] - {o} == m - {o};
    if o in m {
      SumWithout(m, o);
    } else {
      assert m - {o} == m;
    }
  }

  lemma {:induction false} SumNonNegative(m: map<Owner, int>)
    requires forall o | o in m :: m[o] >= 0
    ensures Sum(m) >= 0
    ensures forall o | o in m :: m[o] <= Sum(m)
    decreases |m|
  {
    if m != map[] {
      var p :| p in m;
      SumWithout(m, p);
      SumNonNegative(m - {p});
      forall o | o in m ensures m[o] <= Sum(m) {
        if o != p {
          assert (m - {p})[o] == m[o];
        }
      }
    }
  }

  lemma {:induction false} SumZero(m: map<Owner, int>)
    requires forall o | o in m :: m[o] == 0
    ensures Sum(m) == 0
    decreases |m|
  {
    if m != map[] {
      var p :| p in m;
      SumWithout(m, p);
      SumZero(m - {p});
    }
  }

  // ---------------------------------------------------------------- conservation

  function Pending(h: Hold): int {
    if h.status == Active then h.estimate else 0
  }

  function Paid(h: Hold): int {
    if h.status == Committed && h.actual.Some? then h.actual.value else 0
  }

  /** How far a committed model call went over its estimate. */
  function Excess(o: Owner, h: Hold): int {
    if o.ForModelCall? && Paid(h) > h.estimate then Paid(h) - h.estimate else 0
  }

  function PendingOf(holds: map<Owner, Hold>): map<Owner, int> {
    map o | o in holds :: Pending(holds[o])
  }

  function PaidOf(holds: map<Owner, Hold>): map<Owner, int> {
    map o | o in holds :: Paid(holds[o])
  }

  function ExcessOf(holds: map<Owner, Hold>): map<Owner, int> {
    map o | o in holds :: Excess(o, holds[o])
  }

  /** `reserved` is the active estimates and `spent` the committed actuals. */
  ghost predicate Balanced(b: Budget) {
    b.reserved == Sum(PendingOf(b.holds)) && b.spent == Sum(PaidOf(b.holds))
  }

  /** The overshoot bound. */
  ghost predicate Bounded(b: Budget) {
    b.spent + b.reserved <= b.limit + Sum(ExcessOf(b.holds))
  }

  /** A governed action never pays more than its estimate. */
  predicate Frugal(b: Budget) {
    forall o | o in b.holds && o.ForAction? :: Paid(b.holds[o]) <= b.holds[o].estimate
  }

  ghost predicate Sound(b: Budget) {
    Balanced(b) && Bounded(b) && Frugal(b)
  }

  lemma HoldUpdate(holds: map<Owner, Hold>, o: Owner, h: Hold)
    ensures var was := if o in holds then Some(holds[o]) else None;
            && Sum(PendingOf(holds[o := h])) == Sum(PendingOf(holds)) + Pending(h) - (if was.Some? then Pending(was.value) else 0)
            && Sum(PaidOf(holds[o := h])) == Sum(PaidOf(holds)) + Paid(h) - (if was.Some? then Paid(was.value) else 0)
            && Sum(ExcessOf(holds[o := h])) == Sum(ExcessOf(holds)) + Excess(o, h) - (if was.Some? then Excess(o, was.value) else 0)
  {
    hide Pending, Paid, Excess;
    SumUpdate(PendingOf(holds), o, Pending(h));
    SumUpdate(PaidOf(holds), o, Paid(h));
    SumUpdate(ExcessOf(holds), o, Excess(o, h));
    assert PendingOf(holds[o := h]) == PendingOf(holds)[o := Pending(h)];
    assert PaidOf(holds[o := h]) == PaidOf(holds)[o := Paid(h)];
    assert ExcessOf(holds[o := h]) == ExcessOf(holds)[o := Excess(o, h)];
  }

  /** In a balanced budget an active reservation can always be taken back. */
  lemma HeldIsReserved(b: Budget, owner: Owner)
    requires Balanced(b) && Held(b, owner)
    ensures b.holds[owner].estimate <= b.reserved
  {
    SumNonNegative(PendingOf(b.holds));
    assert PendingOf(b.holds)[owner] == b.holds[owner].estimate;
  }

  lemma ReserveOneSound(b: Budget, owner: Owner, x: Context, estimates: map<Resource, int>)
    requires Sound(b) && Positive(estimates) && Room(b, x, estimates) && owner !in b.holds
    ensures Sound(ReserveOne(b, owner, x, estimates))
  {
    if Applies(b, x, estimates) {
      var b' := ReserveOne(b, owner, x, estimates);
      HoldUpdate(b.holds, owner, b'.holds[owner]);
      SumNonNegative(ExcessOf(b'.holds));
    }
  }

  lemma SettleOneSound(b: Budget, owner: Owner, committed: bool, usage: map<Resource, int>)
    requires Sound(b) && (owner.ForAction? ==> usage == map[])
    ensures Sound(SettleOne(b, owner, committed, usage))
  {
    if Held(b, owner) {
      var b' := SettleOne(b, owner, committed, usage);
      HoldUpdate(b.holds, owner, b'.holds[owner]);
    }
  }

  // ---------------------------------------------------------------- the whole ledger

  ghost predicate SoundLedger(l: Ledger) {
    forall b | b in l :: Sound(l[b])
  }

  predicate NewOwner(l: Ledger, owner: Owner) {
    forall b | b in l :: owner !in l[b].holds
  }

  /** All or nothing: a reservation holds in every applicable budget, or nothing changed. */
  lemma ReserveSound(l: Ledger, owner: Owner, x: Context, estimates: map<Resource, int>)
    requires SoundLedger(l) && NewOwner(l, owner) && Reserve(l, owner, x, estimates).Ok?
    ensures SoundLedger(Reserve(l, owner, x, estimates).value)
  {
    hide Sound, Applies, Covered;
    forall b | b in l ensures Sound(ReserveOne(l[b], owner, x, estimates)) {
      ReserveOneSound(l[b], owner, x, estimates);
    }
  }

  /** The guards against unsafe reservations and negative usage never fire on a sound ledger. */
  lemma AlwaysSettleable(l: Ledger, owner: Owner, committed: bool, usage: map<Resource, int>)
    requires SoundLedger(l) && forall r | r in usage :: usage[r] >= 0
    ensures Settleable(l, owner, committed, usage)
  {
    forall b | b in l ensures Objection(l[b], owner, committed, usage).None? {
      if Held(l[b], owner) {
        HeldIsReserved(l[b], owner);
      }
    }
  }

  lemma SettledSound(l: Ledger, owner: Owner, committed: bool, usage: map<Resource, int>)
    requires SoundLedger(l) && (owner.ForAction? ==> usage == map[])
    ensures SoundLedger(Settled(l, owner, committed, usage))
  {
    hide Sound;
    forall b | b in l ensures Sound(SettleOne(l[b], owner, committed, usage)) {
      SettleOneSound(l[b], owner, committed, usage);
    }
  }

  /** Settling twice is settling once. */
  lemma SettleOnce(l: Ledger, owner: Owner, committed: bool, usage: map<Resource, int>, again: bool, other: map<Resource, int>)
    ensures Settled(Settled(l, owner, committed, usage), owner, again, other) == Settled(l, owner, committed, usage)
  {
  }

  /** With governed actions alone the limit is never exceeded. */
  lemma ActionsStayWithinLimit(b: Budget)
    requires Sound(b) && forall o | o in b.holds :: o.ForAction?
    ensures b.spent + b.reserved <= b.limit
  {
    SumZero(ExcessOf(b.holds));
  }
}
