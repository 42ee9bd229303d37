/** What the comparisons of condition nodes mean, stated on the values themselves. */
module JsonMeaning {
  import opened Ids
  import opened Json

  // ---------------------------------------------------------------- equality

  /** A value with its numbers replaced by what they are worth. */
  datatype Plain =
    | PNull | PNumber(r: real) | PText(s: string) | PList(items: seq<Plain>) | PTable(fields: map<string, Plain>)

  function Worth(v: Json): Plain
    decreases v
  {
    match v
    case Null => PNull
    case Bool(b) => PNumber(if b then 1.0 else 0.0)
    case Int(i) => PNumber(i as real)
    case Float(r) => PNumber(r)
    case Str(s) => PText(s)
    case Arr(xs) => PList(seq(|xs|, i requires 0 <= i < |xs| => Worth(xs[i])))
    case Obj(m) => PTable(map k | k in m :: Worth(m[k]))
  }

  /** Python's `==` holds exactly between values that are worth the same. */
  lemma {:induction false} EqualIsSameWorth(a: Json, b: Json)
    ensures Equal(a, b) <==> Worth(a) == Worth(b)
    decreases a
  {
    match (a, b)
    case (Arr(xs), Arr(ys)) =>
      forall k | 0 <= k < |xs| && k < |ys| ensures Equal(xs[k], ys[k]) <==> Worth(xs[k]) == Worth(ys[k]) {
        EqualIsSameWorth(xs[k], ys[k]);
      }
      ListsWorth(xs, ys);
    case (Obj(m), Obj(n)) =>
      forall k | k in m && k in n ensures Equal(m[k], n[k]) <==> Worth(m[k]) == Worth(n[k]) {
        EqualIsSameWorth(m[k], n[k]);
      }
      TablesWorth(m, n);
    case _ =>
  }

  lemma ListsWorth(xs: seq<Json>, ys: seq<Json>)
    ensures Worth(Arr(xs)) == Worth(Arr(ys)) <==> |xs| == |ys| && forall k | 0 <= k < |xs| :: Worth(xs[k]) == Worth(ys[k])
  {
    var p, q := Worth(Arr(xs)).items, Worth(Arr(ys)).items;
    if |xs| == |ys| && forall k | 0 <= k < |xs| :: Worth(xs[k]) == Worth(ys[k]) {
      assert p == q;
    }
    if p == q {
      forall k | 0 <= k < |xs| ensures Worth(xs[k]) == Worth(ys[k]) {
        assert p[k] == q[k];
      }
    }
  }

  lemma TablesWorth(m: map<string, Json>, n: map<string, Json>)
    ensures Worth(Obj(m)) == Worth(Obj(n)) <==> m.Keys == n.Keys && forall k | k in m :: Worth(m[k]) == Worth(n[k])
  {
    var p, q := Worth(Obj(m)).fields, Worth(Obj(n)).fields;
    assert p.Keys == m.Keys && q.Keys == n.Keys;
    if m.Keys == n.Keys && forall k | k in m :: Worth(m[k]) == Worth(n[k]) {
      assert p == q;
    }
    if p == q {
      forall k | k in m ensures Worth(m[k]) == Worth(n[k]) {
        assert p[k] == q[k];
      }
    }
  }

  /** `eq` and `ne` compare what values are worth. */
  lemma EqualityMeans(a: Json, b: Json)
    ensures Compare(a, Eq, b) <==> Worth(a) == Worth(b)
    ensures Compare(a, Ne, b) <==> Worth(a) != Worth(b)
  {
    EqualIsSameWorth(a, b);
  }

  // ---------------------------------------------------------------- numbers

  /** Numbers, booleans among them, are ordered by size. */
  lemma NumbersCompare(a: Json, b: Json)
    requires (a.Bool? || a.Int? || a.Float?) && (b.Bool? || b.Int? || b.Float?)
    ensures Worth(a).PNumber? && Worth(b).PNumber?
    ensures Compare(a, Gt, b) <==> Worth(a).r > Worth(b).r
    ensures Compare(a, Gte, b) <==> Worth(a).r >= Worth(b).r
    ensures Compare(a, Lt, b) <==> Worth(a).r < Worth(b).r
    ensures Compare(a, Lte, b) <==> Worth(a).r <= Worth(b).r
  {
  }

  // ---------------------------------------------------------------- text

  /** `s` and `t` agree up to position `k`, where `s` has a character and `t` has a smaller one or none. */
  predicate GreaterAt(s: string, t: string, k: nat) {
    && k <= |t| && k < |s| && s[..k] == t[..k]
    && (k == |t| || s[k] > t[k])
  }

  ghost predicate Greater(s: string, t: string) {
    exists k: nat :: GreaterAt(s, t, k)
  }

  lemma {:induction false} LeqMeans(s: string, t: string)
    ensures Leq(s, t) <==> !Greater(s, t)
    decreases |s|
  {
    if s == [] {
      assert Leq(s, t);
    } else if t == [] {
      assert GreaterAt(s, t, 0);
    } else if s[0] != t[0] {
      if s[0] > t[0] {
        assert GreaterAt(s, t, 0);
      } else {
        forall k: nat ensures !GreaterAt(s, t, k) {
          if k > 0 && k < |s| && k <= |t| {
            assert s[..k][0] == s[0] && t[..k][0] == t[0];
          }
        }
      }
    } else {
      LeqMeans(s[1..], t[1..]);
      GreaterTail(s, t);
    }
  }

  lemma GreaterTail(s: string, t: string)
    requires s != [] && t != [] && s[0] == t[0]
    ensures Greater(s, t) <==> Greater(s[1..], t[1..])
  {
    if k: nat :| GreaterAt(s, t, k) {
      var j: nat := k - 1;
      assert s[1..][..j] == s[..k][1..] && t[1..][..j] == t[..k][1..];
      assert GreaterAt(s[1..], t[1..], j);
    }
    if j: nat :| GreaterAt(s[1..], t[1..], j) {
      assert s[..j + 1] == [s[0]] + s[1..][..j] && t[..j + 1] == [t[0]] + t[1..][..j];
      assert GreaterAt(s, t, j + 1);
    }
  }

  lemma GreaterIsNotLeq(s: string, t: string)
    ensures Greater(s, t) <==> s != t && Leq(t, s)
  {
    LeqMeans(s, t);
    LeqTotal(s, t);
    LeqTotal(s, s);
    if Leq(s, t) && Leq(t, s) {
      LeqAntisymmetric(s, t);
    }
  }

  /** Texts are ordered by their first differing character, a proper prefix coming first. */
  lemma TextsCompare(s: string, t: string)
    ensures Compare(Str(s), Gt, Str(t)) <==> Greater(s, t)
    ensures Compare(Str(s), Lt, Str(t)) <==> Greater(t, s)
    ensures Compare(Str(s), Gte, Str(t)) <==> !Greater(t, s)
    ensures Compare(Str(s), Lte, Str(t)) <==> !Greater(s, t)
  {
    hide Greater;
    GreaterIsNotLeq(s, t);
    GreaterIsNotLeq(t, s);
    LeqTotal(s, t);
    if Leq(s, t) && Leq(t, s) {
      LeqAntisymmetric(s, t);
    }
  }

  // ---------------------------------------------------------------- lists

  /** The two lists are worth the same up to position `k` and, if both go on, differ there. */
  predicate PartAt(xs: seq<Json>, ys: seq<Json>, k: nat) {
    && k <= |xs| && k <= |ys| && (forall i | 0 <= i < k :: Worth(xs[i]) == Worth(ys[i]))
    && (k < |xs| && k < |ys| ==> Worth(xs[k]) != Worth(ys[k]))
  }

  /** The first position that differs decides, and otherwise the length. */
  function OrderFrom(xs: seq<Json>, ys: seq<Json>, k: nat): Option<int>
    requires k <= |xs| && k <= |ys|
  {
    if k < |xs| && k < |ys| then Order(xs[k], ys[k])
    else Some(if |xs| < |ys| then -1 else if |xs| == |ys| then 0 else 1)
  }

  lemma {:induction false} ListsOrder(xs: seq<Json>, ys: seq<Json>)
    ensures exists k: nat :: PartAt(xs, ys, k) && OrderLists(xs, ys) == OrderFrom(xs, ys, k)
    decreases |xs|
  {
    if xs == [] || ys == [] {
      assert PartAt(xs, ys, 0);
    } else {
      EqualIsSameWorth(xs[0], ys[0]);
      if Equal(xs[0], ys[0]) {
        ListsOrder(xs[1..], ys[1..]);
        var k: nat :| PartAt(xs[1..], ys[1..], k) && OrderLists(xs[1..], ys[1..]) == OrderFrom(xs[1..], ys[1..], k);
        PartShift(xs, ys, k);
      } else {
        assert PartAt(xs, ys, 0);
      }
    }
  }

  lemma PartShift(xs: seq<Json>, ys: seq<Json>, k: nat)
    requires xs != [] && ys != [] && Worth(xs[0]) == Worth(ys[0]) && PartAt(xs[1..], ys[1..], k)
    ensures PartAt(xs, ys, k + 1) && OrderFrom(xs, ys, k + 1) == OrderFrom(xs[1..], ys[1..], k)
  {
    hide Worth, Order;
    forall i | 0 <= i < k + 1 ensures Worth(xs[i]) == Worth(ys[i]) {
      if i > 0 {
        assert xs[i] == xs[1..][i - 1] && ys[i] == ys[1..][i - 1];
      }
    }
  }

  /**
   * Lists are ordered at the first position where they are worth different things, by the
   * ordering there, and by length when there is none. Everything else cannot be ordered.
   */
  lemma ListsCompare(xs: seq<Json>, ys: seq<Json>, op: Operator)
    requires op in {Gt, Gte, Lt, Lte}
    ensures exists k: nat :: PartAt(xs, ys, k) &&
              (Compare(Arr(xs), op, Arr(ys)) <==>
                 if k < |xs| && k < |ys| then Compare(xs[k], op, ys[k])
                 else match op
                   case Gt => |xs| > |ys|
                   case Gte => |xs| >= |ys|
                   case Lt => |xs| < |ys|
                   case _ => |xs| <= |ys|)
  {
    hide Worth;
    ListsOrder(xs, ys);
    var k: nat :| PartAt(xs, ys, k) && OrderLists(xs, ys) == OrderFrom(xs, ys, k);
  }

  predicate Kin(a: Json, b: Json) {
    || ((a.Bool? || a.Int? || a.Float?) && (b.Bool? || b.Int? || b.Float?))
    || (a.Str? && b.Str?) || (a.Arr? && b.Arr?)
  }

  /** Values of different kinds, objects and nulls satisfy none of the four orderings. */
  lemma StrangersCompare(a: Json, b: Json, op: Operator)
    requires !Kin(a, b) && op in {Gt, Gte, Lt, Lte}
    ensures !Compare(a, op, b)
  {
  }

  // ---------------------------------------------------------------- dotted paths

  function JoinDots(parts: seq<string>): string
    requires parts != []
  {
    if |parts| == 1 then parts[0] else parts[0] + "." + JoinDots(parts[1..])
  }

  /** Splitting at dots and joining again gives the text back, and no part holds a dot. */
  lemma {:induction false} SplitIsExact(field: string)
    ensures JoinDots(SplitDots(field)) == field
    ensures forall part | part in SplitDots(field) :: '.' !in part
  {
    if field != [] {
      SplitIsExact(field[1..]);
      var rest := SplitDots(field[1..]);
      assert field == [field[0]] + field[1..];
      if field[0] == '.' {
        assert ([""] + rest)[1..] == rest;
      } else {
        GrowFirst(field[0], rest);
      }
    }
  }

  /** A character in front of the first part is in front of the joined text. */
  lemma GrowFirst(c: char, rest: seq<string>)
    requires rest != [] && c != '.' && forall part | part in rest :: '.' !in part
    ensures JoinDots([[c] + rest[0]] + rest[1..]) == [c] + JoinDots(rest)
    ensures forall part | part in [[c] + rest[0]] + rest[1..] :: '.' !in part
  {
    var parts := [[c] + rest[0]] + rest[1..];
    assert parts[1..] == rest[1..] && rest[0] in rest;
    forall k | 0 <= k < |parts| ensures '.' !in parts[k] {
      if k > 0 {
        assert parts[k] == rest[k] && rest[k] in rest;
      }
    }
  }

  /** One name of a path: the field of that name in an object, and nothing anywhere else. */
  lemma LookupOne(value: Json, name: string)
    ensures Lookup(value, [name]) == if value.Obj? && name in value.fields then value.fields[name] else Null
  {
    assert [name][1..] == [];
  }

  /** A longer path is followed name by name. */
  lemma {:induction false} LookupOn(value: Json, parts: seq<string>, more: seq<string>)
    ensures Lookup(value, parts + more) == Lookup(Lookup(value, parts), more)
    decreases |parts|
  {
    if parts == [] {
      assert parts + more == more;
    } else {
      assert (parts + more)[1..] == parts[1..] + more;
      if value.Obj? && parts[0] in value.fields {
        LookupOn(value.fields[parts[0]], parts[1..], more);
      } else {
        NothingInNull(more);
      }
    }
  }

  lemma NothingInNull(parts: seq<string>)
    ensures Lookup(Null, parts) == Null
  {
  }
}
