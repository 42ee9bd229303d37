/** Walks, cycles and reachability over a finite set of arcs. */
module Graphs {
  import opened Ids

  type Arcs = set<(Id, Id)>

  ghost predicate Walk(arcs: Arcs, p: seq<Id>) {
    |p| >= 1 && forall i | 0 <= i < |p| - 1 :: (p[i], p[i + 1]) in arcs
  }

  ghost predicate WalkBetween(arcs: Arcs, p: seq<Id>, a: Id, b: Id) {
    Walk(arcs, p) && p[0] == a && p[|p| - 1] == b
  }

  ghost predicate Reaches(arcs: Arcs, a: Id, b: Id) {
    exists p :: WalkBetween(arcs, p, a, b)
  }

  /** `a` leads to `b` along at least one arc. */
  ghost predicate Leads(arcs: Arcs, a: Id, b: Id) {
    exists p :: |p| >= 2 && WalkBetween(arcs, p, a, b)
  }

  ghost predicate Cycle(arcs: Arcs, p: seq<Id>) {
    |p| >= 2 && WalkBetween(arcs, p, p[0], p[0])
  }

  ghost predicate HasCycle(arcs: Arcs) {
    exists p :: Cycle(arcs, p)
  }

  ghost predicate Closed(arcs: Arcs, s: set<Id>) {
    forall a, b | (a, b) in arcs && a in s :: b in s
  }

  lemma CycleStartsWithArc(arcs: Arcs, p: seq<Id>)
    requires Cycle(arcs, p)
    ensures (p[0], p[1]) in arcs
  {
    assert (p[0], p[0 + 1]) in arcs;
  }

  lemma WalkExtend(arcs: Arcs, p: seq<Id>, c: Id)
    requires Walk(arcs, p) && (p[|p| - 1], c) in arcs
    ensures WalkBetween(arcs, p + [c], p[0], c)
  {
    var q := p + [c];
    forall i | 0 <= i < |q| - 1 ensures (q[i], q[i + 1]) in arcs {
      assert q[i] == p[i];
      if i < |p| - 1 {
        assert q[i + 1] == p[i + 1];
      }
    }
  }

  lemma LeadsStep(arcs: Arcs, a: Id, b: Id)
    requires (a, b) in arcs
    ensures Leads(arcs, a, b)
  {
    assert WalkBetween(arcs, [a, b], a, b);
  }

  lemma LeadsExtend(arcs: Arcs, a: Id, b: Id, c: Id)
    requires Leads(arcs, a, b) && (b, c) in arcs
    ensures Leads(arcs, a, c)
  {
    var p :| |p| >= 2 && WalkBetween(arcs, p, a, b);
    WalkExtend(arcs, p, c);
  }

  lemma ReachesExtend(arcs: Arcs, a: Id, b: Id, c: Id)
    requires Reaches(arcs, a, b) && (b, c) in arcs
    ensures Reaches(arcs, a, c)
  {
    var p :| WalkBetween(arcs, p, a, b);
    WalkExtend(arcs, p, c);
  }

  /** A walk that starts inside a closed set never leaves it. */
  lemma {:induction false} ClosedKeepsWalk(arcs: Arcs, s: set<Id>, p: seq<Id>, k: nat)
    requires Closed(arcs, s) && Walk(arcs, p) && p[0] in s && k < |p|
    ensures p[k] in s
  {
    if k > 0 {
      ClosedKeepsWalk(arcs, s, p, k - 1);
      assert (p[k - 1], p[k - 1 + 1]) in arcs;
    }
  }

  /** A closed set that contains a node contains everything it reaches. */
  lemma ClosedKeepsReachable(arcs: Arcs, s: set<Id>, a: Id)
    requires Closed(arcs, s) && a in s
    ensures forall b | Reaches(arcs, a, b) :: b in s
  {
    forall b | Reaches(arcs, a, b) ensures b in s {
      var p :| WalkBetween(arcs, p, a, b);
      ClosedKeepsWalk(arcs, s, p, |p| - 1);
    }
  }

  /** A repeated node on a walk closes a cycle. */
  lemma RepeatIsCycle(arcs: Arcs, p: seq<Id>, i: nat, j: nat)
    requires Walk(arcs, p) && i < j < |p| && p[i] == p[j]
    ensures Cycle(arcs, p[i..j + 1])
  {
    var q := p[i..j + 1];
    forall k | 0 <= k < |q| - 1 ensures (q[k], q[k + 1]) in arcs {
      assert (p[i + k], p[i + k + 1]) in arcs;
    }
  }
}
