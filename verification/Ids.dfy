/** Node identifiers and the order in which Python's `sorted` lists them. */
module Ids {

  type Id = string

  datatype Option<+T> = None | Some(value: T)

  /** The order of Python strings: by code point, a proper prefix first. */
  predicate Leq(a: Id, b: Id) {
    a == [] || (b != [] && (a[0] < b[0] || (a[0] == b[0] && Leq(a[1..], b[1..]))))
  }

  lemma {:induction false} LeqTotal(a: Id, b: Id)
    ensures Leq(a, b) || Leq(b, a)
  {
    if a != [] && b != [] && a[0] == b[0] {
      LeqTotal(a[1..], b[1..]);
    }
  }

  lemma {:induction false} LeqAntisymmetric(a: Id, b: Id)
    requires Leq(a, b) && Leq(b, a)
    ensures a == b
  {
    if a != [] {
      LeqAntisymmetric(a[1..], b[1..]);
      assert a == [a[0]] + a[1..] && b == [b[0]] + b[1..];
    }
  }

  lemma {:induction false} LeqTransitive(a: Id, b: Id, c: Id)
    requires Leq(a, b) && Leq(b, c)
    ensures Leq(a, c)
  {
    if a != [] && a[0] == b[0] == c[0] {
      LeqTransitive(a[1..], b[1..], c[1..]);
    }
  }

  predicate IsLeast(x: Id, s: set<Id>) {
    x in s && forall y | y in s :: Leq(x, y)
  }

  lemma {:induction false} LeastExists(s: set<Id>)
    requires s != {}
    ensures exists x :: IsLeast(x, s)
  {
    var y :| y in s;
    LeqTotal(y, y);
    if s == {y} {
      assert IsLeast(y, s);
    } else {
      var rest := s - {y};
      assert s == rest + {y};
      LeastExists(rest);
      var x :| IsLeast(x, rest);
      LeqTotal(x, y);
      if Leq(x, y) {
        assert IsLeast(x, s);
      } else {
        forall z | z in s ensures Leq(y, z) {
          if z != y {
            LeqTransitive(y, x, z);
          }
        }
        assert IsLeast(y, s);
      }
    }
  }

  function Least(s: set<Id>): (x: Id)
    requires s != {}
    ensures IsLeast(x, s)
  {
    LeastExists(s);
    assert forall x, y | IsLeast(x, s) && IsLeast(y, s) :: x == y by {
      forall x, y | IsLeast(x, s) && IsLeast(y, s) ensures x == y {
        LeqAntisymmetric(x, y);
      }
    }
    var x :| x in s && IsLeast(x, s);
    x
  }

  ghost predicate Ascending(r: seq<Id>) {
    forall i, j | 0 <= i < j < |r| :: Leq(r[i], r[j]) && r[i] != r[j]
  }

  /** Python's `sorted(set(...))`: each member once, in ascending order. */
  function SortIds(s: set<Id>): (r: seq<Id>)
    ensures forall x :: x in r <==> x in s
    ensures |r| == |s|
    ensures Ascending(r)
  {
    if s == {} then []
    else
      var x := Least(s);
      var rest := SortIds(s - {x});
      [x] + rest
  }

  function Elements(ids: seq<Id>): (s: set<Id>)
    ensures forall x :: x in s <==> x in ids
  {
    set x | x in ids
  }

  lemma SortSingleton(x: Id)
    ensures SortIds({x}) == [x]
  {
    assert {x} - {x} == {};
  }
}
