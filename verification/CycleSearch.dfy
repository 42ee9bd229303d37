/** The validator's two graph searches, kept in the imperative form of the source. */
module CycleSearch {
  import opened Ids
  import opened Graphs

  /**
   * The recursive depth-first search with its mutable `visiting` and `visited` sets.
   * `visiting` holds the nodes on the current recursion stack, `visited` the nodes
   * whose whole future has been explored.
   */
  class DepthFirst {
    const nodes: set<Id>
    const adjacency: map<Id, seq<Id>>
    var visiting: set<Id>
    var visited: set<Id>

    ghost const arcs: Arcs

    ghost predicate Valid()
      reads this
    {
      && nodes <= adjacency.Keys
      && (forall a, b :: (a, b) in arcs <==> a in nodes && b in adjacency[a])
      && (forall a, b | (a, b) in arcs :: b in nodes)
      && visiting <= nodes && visited <= nodes && visiting !! visited
      && Closed(arcs, visited)
      && forall p | Cycle(arcs, p) :: p[0] !in visited
    }

    constructor (nodes: set<Id>, adjacency: map<Id, seq<Id>>, ghost arcs: Arcs)
      requires nodes <= adjacency.Keys
      requires forall a, b :: (a, b) in arcs <==> a in nodes && b in adjacency[a]
      requires forall a, b | (a, b) in arcs :: b in nodes
      ensures Valid() && visiting == {} && visited == {}
      ensures this.nodes == nodes && this.arcs == arcs
    {
      this.nodes, this.adjacency, this.arcs := nodes, adjacency, arcs;
      visiting, visited := {}, {};
    }

    /** Finds a cycle, or finishes `id` and everything it reaches. */
    method Visit(id: Id) returns (found: bool)
      requires Valid() && id in nodes
      requires forall v | v in visiting :: Leads(arcs, v, id)
      modifies this
      ensures found ==> HasCycle(arcs)
      ensures !found ==> Valid() && visiting == old(visiting) && id in visited && old(visited) <= visited
      decreases nodes - visiting - visited
    {
      if id in visiting {
        ghost var p :| |p| >= 2 && WalkBetween(arcs, p, id, id);
        assert Cycle(arcs, p);
        return true;
      }
      if id in visited {
        return false;
      }
      visiting := visiting + {id};
      var i := 0;
      while i < |adjacency[id]|
        invariant 0 <= i <= |adjacency[id]|
        invariant Valid() && visiting == old(visiting) + {id} && old(visited) <= visited
        invariant forall k | 0 <= k < i :: adjacency[id][k] in visited
      {
        var target := adjacency[id][i];
        assert (id, target) in arcs;
        forall v | v in visiting ensures Leads(arcs, v, target) {
          if v == id {
            LeadsStep(arcs, id, target);
          } else {
            LeadsExtend(arcs, v, id, target);
          }
        }
        assert id in old(nodes - visiting - visited) && id !in nodes - visiting - visited;
        var deeper := Visit(target);
        if deeper {
          return true;
        }
        i := i + 1;
      }
      FinishedNodeIsAcyclic(id);
      visiting := visiting - {id};
      visited := visited + {id};
      return false;
    }

    /** Once every target of `id` is visited, no cycle starts at `id`. */
    lemma FinishedNodeIsAcyclic(id: Id)
      requires Valid() && id in nodes && id in visiting
      requires forall b | b in adjacency[id] :: b in visited
      ensures forall p | Cycle(arcs, p) :: p[0] != id
    {
      forall p | Cycle(arcs, p) && p[0] == id ensures false {
        assert (p[0], p[0 + 1]) in arcs;
        var q := p[1..];
        forall i | 0 <= i < |q| - 1 ensures (q[i], q[i + 1]) in arcs {
          assert (p[i + 1], p[i + 1 + 1]) in arcs;
        }
        ClosedKeepsWalk(arcs, visited, q, |q| - 1);
      }
    }

    /** Visits every node in ascending order, as the outer `any(...)` does. */
    method Run() returns (found: bool)
      requires Valid() && visiting == {} && visited == {}
      modifies this
      ensures found <==> HasCycle(arcs)
    {
      var order := SortIds(nodes);
      var i := 0;
      while i < |order|
        invariant 0 <= i <= |order|
        invariant Valid() && visiting == {}
        invariant forall k | 0 <= k < i :: order[k] in visited
      {
        if order[i] !in visited {
          assert order[i] in nodes;
          var cyclic := Visit(order[i]);
          if cyclic {
            return true;
          }
        }
        i := i + 1;
      }
      assert nodes <= visited;
      if HasCycle(arcs) {
        ghost var p :| Cycle(arcs, p);
        CycleStartsWithArc(arcs, p);
        assert false;
      }
      return false;
    }
  }

  /** The reachability worklist: exactly the nodes that `entry` reaches. */
  method Reachable(entry: Id, nodes: set<Id>, targets: map<Id, seq<Id>>, ghost arcs: Arcs)
    returns (reachable: set<Id>)
    requires entry in nodes && nodes <= targets.Keys
    requires forall a, b :: (a, b) in arcs <==> a in nodes && b in targets[a]
    requires forall a, b | (a, b) in arcs :: b in nodes
    ensures forall b :: b in reachable <==> Reaches(arcs, entry, b)
  {
    reachable := {};
    var pending := [entry];
    assert WalkBetween(arcs, [entry], entry, entry);
    while pending != []
      invariant reachable <= nodes && forall b | b in pending :: b in nodes
      invariant forall b | b in reachable || b in pending :: Reaches(arcs, entry, b)
      invariant forall a, b | (a, b) in arcs && a in reachable :: b in reachable || b in pending
      invariant entry in reachable || entry in pending
      decreases nodes - reachable, |pending|
    {
      var last := |pending| - 1;
      var current := pending[last];
      ghost var before := pending;
      pending := pending[..last];
      assert forall b | b in before :: b in pending || b == current;
      if current in reachable {
        continue;
      }
      reachable := reachable + {current};
      forall b | b in targets[current] ensures Reaches(arcs, entry, b) && b in nodes {
        assert (current, b) in arcs;
        ReachesExtend(arcs, entry, current, b);
      }
      pending := pending + targets[current];
    }
    ClosedKeepsReachable(arcs, reachable, entry);
  }
}
