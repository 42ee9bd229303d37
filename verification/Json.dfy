/** JSON values and the Python comparisons that condition nodes apply to them. */
module Json {
  import opened Ids

  datatype Json =
    | Null
    | Bool(b: bool)
    | Int(i: int)
    | Float(r: real)
    | Str(s: string)
    | Arr(items: seq<Json>)
    | Obj(fields: map<string, Json>)

  /** Python's bool, int and float compare with each other by value. */
  predicate Numeric(v: Json) {
    v.Bool? || v.Int? || v.Float?
  }

  function Number(v: Json): real
    requires Numeric(v)
  {
    match v
    case Bool(b) => if b then 1.0 else 0.0
    case Int(i) => i as real
    case Float(r) => r
  }

  /** Python's `==` on JSON values. */
  predicate Equal(a: Json, b: Json)
    decreases a
  {
    if Numeric(a) && Numeric(b) then Number(a) == Number(b)
    else match (a, b)
      case (Null, Null) => true
      case (Str(s), Str(t)) => s == t
      case (Arr(xs), Arr(ys)) => |xs| == |ys| && forall k | 0 <= k < |xs| :: Equal(xs[k], ys[k])
      case (Obj(m), Obj(n)) => m.Keys == n.Keys && forall k | k in m :: Equal(m[k], n[k])
      case _ => false
  }

  /** -1, 0 or 1 where Python orders the two values, None where it raises TypeError. */
  function Order(a: Json, b: Json): (c: Option<int>)
    decreases a
  {
    if Numeric(a) && Numeric(b) then
      Some(if Number(a) < Number(b) then -1 else if Number(a) == Number(b) then 0 else 1)
    else match (a, b)
      case (Str(s), Str(t)) => Some(if s == t then 0 else if Leq(s, t) then -1 else 1)
      case (Arr(xs), Arr(ys)) => OrderLists(xs, ys)
      case _ => None
  }

  /** Lists compare at the first position that differs, otherwise by length. */
  function OrderLists(xs: seq<Json>, ys: seq<Json>): (c: Option<int>)
    decreases xs
  {
    if xs == [] || ys == [] then
      Some(if |xs| < |ys| then -1 else if |xs| == |ys| then 0 else 1)
    else if Equal(xs[0], ys[0]) then OrderLists(xs[1..], ys[1..])
    else Order(xs[0], ys[0])
  }

  const OPERATORS: set<string> := {"eq", "ne", "gt", "gte", "lt", "lte"}

  datatype Operator = Eq | Ne | Gt | Gte | Lt | Lte

  function OperatorName(op: Operator): string {
    match op
    case Eq => "eq"
    case Ne => "ne"
    case Gt => "gt"
    case Gte => "gte"
    case Lt => "lt"
    case Lte => "lte"
  }

  /** The operator a name stands for; None where the source raises ValueError. */
  function ParseOperator(name: string): (r: Option<Operator>)
    ensures r.Some? <==> name in OPERATORS
    ensures forall op :: r == Some(op) <==> name == OperatorName(op)
  {
    if name == "eq" then Some(Eq)
    else if name == "ne" then Some(Ne)
    else if name == "gt" then Some(Gt)
    else if name == "gte" then Some(Gte)
    else if name == "lt" then Some(Lt)
    else if name == "lte" then Some(Lte)
    else None
  }

  /** The outcome of a condition; values that Python cannot order compare as false. */
  function Compare(left: Json, operator: Operator, right: Json): bool {
    match operator
    case Eq => Equal(left, right)
    case Ne => !Equal(left, right)
    case Gt => Order(left, right).Some? && Order(left, right).value > 0
    case Gte => Order(left, right).Some? && Order(left, right).value >= 0
    case Lt => Order(left, right).Some? && Order(left, right).value < 0
    case Lte => Order(left, right).Some? && Order(left, right).value <= 0
  }

  lemma {:induction false} EqualSymmetric(a: Json, b: Json)
    ensures Equal(a, b) == Equal(b, a)
    decreases a
  {
    match (a, b)
    case (Arr(xs), Arr(ys)) =>
      forall k | 0 <= k < |xs| && k < |ys| ensures Equal(xs[k], ys[k]) == Equal(ys[k], xs[k]) {
        EqualSymmetric(xs[k], ys[k]);
      }
    case (Obj(m), Obj(n)) =>
      forall k | k in m && k in n ensures Equal(m[k], n[k]) == Equal(n[k], m[k]) {
        EqualSymmetric(m[k], n[k]);
      }
    case _ =>
  }

  function Opposite(c: Option<int>): Option<int> {
    if c.None? then None else Some(-c.value)
  }

  lemma {:induction false} OrderOpposite(a: Json, b: Json)
    ensures Order(b, a) == Opposite(Order(a, b))
    decreases a
  {
    match (a, b)
    case (Str(s), Str(t)) =>
      LeqTotal(s, t);
      if Leq(s, t) && Leq(t, s) {
        LeqAntisymmetric(s, t);
      }
    case (Arr(xs), Arr(ys)) => OrderListsOpposite(xs, ys);
    case _ =>
  }

  lemma {:induction false} OrderListsOpposite(xs: seq<Json>, ys: seq<Json>)
    ensures OrderLists(ys, xs) == Opposite(OrderLists(xs, ys))
    decreases xs
  {
    if xs != [] && ys != [] {
      EqualSymmetric(xs[0], ys[0]);
      if Equal(xs[0], ys[0]) {
        OrderListsOpposite(xs[1..], ys[1..]);
      } else {
        OrderOpposite(xs[0], ys[0]);
      }
    }
  }

  /** Swapping the sides of a condition swaps gt with lt and gte with lte, and keeps eq and ne. */
  lemma CompareMirror(a: Json, b: Json)
    ensures Compare(a, Gt, b) == Compare(b, Lt, a) && Compare(a, Gte, b) == Compare(b, Lte, a)
    ensures Compare(a, Eq, b) == Compare(b, Eq, a) && Compare(a, Ne, b) == Compare(b, Ne, a)
  {
    EqualSymmetric(a, b);
    OrderOpposite(a, b);
  }

  /** Where Python orders two values, neither comes first exactly when they are equal. */
  lemma {:induction false} OrderZero(a: Json, b: Json)
    requires Order(a, b).Some?
    ensures Order(a, b).value == 0 <==> Equal(a, b)
    decreases a
  {
    if a.Arr? && b.Arr? {
      OrderListsZero(a.items, b.items);
    }
  }

  lemma {:induction false} OrderListsZero(xs: seq<Json>, ys: seq<Json>)
    requires OrderLists(xs, ys).Some?
    ensures OrderLists(xs, ys).value == 0 <==> |xs| == |ys| && forall k | 0 <= k < |xs| :: Equal(xs[k], ys[k])
    decreases xs
  {
    if xs != [] && ys != [] {
      if Equal(xs[0], ys[0]) {
        OrderListsZero(xs[1..], ys[1..]);
        assert forall k | 0 < k < |xs| && k < |ys| :: xs[k] == xs[1..][k - 1] && ys[k] == ys[1..][k - 1];
        assert forall k | 0 <= k < |xs| - 1 && k < |ys| - 1 :: xs[1..][k] == xs[k + 1] && ys[1..][k] == ys[k + 1];
      } else {
        OrderZero(xs[0], ys[0]);
      }
    }
  }

  /** The six operators agree with one another; on values that Python cannot order all four orderings are false. */
  lemma CompareAgrees(a: Json, b: Json)
    ensures Compare(a, Gte, b) ==> Compare(a, Gt, b) || Compare(a, Eq, b)
    ensures Compare(a, Lte, b) ==> Compare(a, Lt, b) || Compare(a, Eq, b)
    ensures Compare(a, Gt, b) || Compare(a, Lt, b) ==> Compare(a, Ne, b)
    ensures Order(a, b).Some? ==> Compare(a, Gte, b) == !Compare(a, Lt, b) && Compare(a, Lte, b) == !Compare(a, Gt, b)
    ensures Order(a, b).None? ==> forall op | op in {Gt, Gte, Lt, Lte} :: !Compare(a, op, b)
  {
    if Order(a, b).Some? {
      OrderZero(a, b);
    }
  }

  type State = map<string, Json>

  /** Python's `field.split(".")`. */
  function SplitDots(field: string): (parts: seq<string>)
    ensures |parts| >= 1
    ensures '.' !in field ==> parts == [field]
  {
    if field == [] then [""]
    else
      var rest := SplitDots(field[1..]);
      if field[0] == '.' then [""] + rest
      else
        assert field == [field[0]] + field[1..];
        [[field[0]] + rest[0]] + rest[1..]
  }

  /** The value a dotted path names inside a value; Null (Python's None) where it leads nowhere. */
  function Lookup(value: Json, parts: seq<string>): Json {
    if parts == [] then value
    else if value.Obj? && parts[0] in value.fields then Lookup(value.fields[parts[0]], parts[1..])
    else Null
  }

  method ConditionValue(state: State, field: string) returns (value: Json)
    ensures value == Lookup(Obj(state), SplitDots(field))
  {
    var parts := SplitDots(field);
    value := Obj(state);
    var i := 0;
    while i < |parts|
      invariant 0 <= i <= |parts|
      invariant Lookup(Obj(state), parts) == Lookup(value, parts[i..])
    {
      if !value.Obj? || parts[i] !in value.fields {
        return Null;
      }
      value := value.fields[parts[i]];
      i := i + 1;
    }
  }
}
