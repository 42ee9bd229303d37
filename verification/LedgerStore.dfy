/** The budget table as the services change it: loops over rows, undone as a whole on an error. */
module LedgerStore {
  import opened Ids
  import opened Budgets

  /** The budget table. A method that ends in an error has rolled its transaction back. */
  class LedgerTable {
    var rows: Ledger

    constructor (initial: Ledger)
      ensures rows == initial
    {
      rows := initial;
    }

    /** The ids of the budgets that a reservation locks. */
    function Locked(x: Context, estimates: map<Resource, int>): set<nat>
      reads this
    {
      set b | b in rows && Applies(rows[b], x, estimates)
    }

    /**
     * Reserves the estimates for the owner in every applicable budget, or changes nothing in
     * any scope and reports the first check that failed.
     */
    method Reserve(owner: Owner, x: Context, estimates: map<Resource, int>) returns (error: Option<Error>)
      modifies this
      ensures error == Refusal(old(rows), x, estimates)
      ensures error.Some? ==> rows == old(rows)
      ensures error.None? ==> Budgets.Reserve(old(rows), owner, x, estimates) == Ok(rows)
    {
      hide Covered, Room, InScope, Supported;
      if !Positive(estimates) {
        return Some(InvalidEstimates);
      }
      if !Supported(estimates) {
        return Some(UnsupportedResource);
      }
      var locked := Locked(x, estimates);
      var covered := set b | b in locked :: rows[b].resource;
      CoverageMeans(x, estimates, locked, covered);
      if !(estimates.Keys <= covered) {
        return Some(NotCovered);
      }
      var room := HasRoom(x, estimates, locked);
      if !room {
        return Some(Exhausted);
      }
      var todo, updated := locked, rows;
      while todo != {}
        invariant todo <= locked && updated.Keys == rows.Keys
        invariant forall b | b in rows ::
                    updated[b] == if b in locked - todo then ReserveOne(rows[b], owner, x, estimates) else rows[b]
        decreases todo
      {
        var b :| b in todo;
        var estimate: int := estimates[updated[b].resource];
        var reservation := Hold(estimate, None, Active);
        updated := updated[b := updated[b].(reserved := updated[b].reserved + estimate,
                                            holds := updated[b].holds[owner := reservation])];
        todo := todo - {b};
      }
      assert updated == Budgets.Reserve(rows, owner, x, estimates).value;
      rows := updated;
      return None;
    }

    /** Whether every locked budget has room for its estimate. */
    method HasRoom(x: Context, estimates: map<Resource, int>, locked: set<nat>) returns (room: bool)
      requires locked == Locked(x, estimates)
      ensures room <==> forall b | b in rows :: Room(rows[b], x, estimates)
    {
      var todo := locked;
      while todo != {}
        invariant todo <= locked
        invariant forall b | b in locked - todo :: Room(rows[b], x, estimates)
        decreases todo
      {
        var b :| b in todo;
        if rows[b].spent + rows[b].reserved + estimates[rows[b].resource] > rows[b].limit {
          assert !Room(rows[b], x, estimates);
          return false;
        }
        todo := todo - {b};
      }
      return true;
    }

    lemma CoverageMeans(x: Context, estimates: map<Resource, int>, locked: set<nat>, covered: set<Resource>)
      requires locked == Locked(x, estimates) && covered == set b | b in locked :: rows[b].resource
      ensures estimates.Keys <= covered <==> Covered(rows, x, estimates)
    {
      hide Applies;
      if Covered(rows, x, estimates) {
        forall r | r in estimates ensures r in covered {
          var b :| b in rows && Applies(rows[b], x, estimates) && rows[b].resource == r;
          assert b in locked;
        }
      }
      if estimates.Keys <= covered {
        forall r | r in estimates ensures exists b | b in rows :: Applies(rows[b], x, estimates) && rows[b].resource == r {
          assert r in covered;
        }
      }
    }

    /**
     * Settles every active reservation of the owner. The two guards are the only errors, and
     * an error leaves every row as it was.
     */
    method Settle(owner: Owner, committed: bool, usage: map<Resource, int>) returns (ok: bool)
      modifies this
      ensures ok == Settleable(old(rows), owner, committed, usage)
      ensures rows == if ok then Settled(old(rows), owner, committed, usage) else old(rows)
    {
      hide Objection, SettleOne;
      var todo, updated := rows.Keys, rows;
      while todo != {}
        invariant rows == old(rows) && todo <= rows.Keys && updated.Keys == rows.Keys
        invariant forall b | b in rows && b !in todo :: Objection(rows[b], owner, committed, usage).None?
        invariant forall b | b in rows ::
                    updated[b] == if b in todo then rows[b] else SettleOne(rows[b], owner, committed, usage)
        decreases todo
      {
        var b :| b in todo;
        todo := todo - {b};
        var error, row := SettleRow(updated[b], owner, committed, usage);
        if error.Some? {
          return false;
        }
        updated := updated[b := row];
      }
      rows := updated;
      return true;
    }

    /** Releases every active reservation of the owner: a settlement that charges nothing. */
    method Release(owner: Owner) returns (ok: bool)
      modifies this
      ensures ok == Settleable(old(rows), owner, false, map[])
      ensures rows == if ok then Settled(old(rows), owner, false, map[]) else old(rows)
    {
      hide Objection, SettleOne;
      var todo, updated := rows.Keys, rows;
      while todo != {}
        invariant rows == old(rows) && todo <= rows.Keys && updated.Keys == rows.Keys
        invariant forall b | b in rows && b !in todo :: Objection(rows[b], owner, false, map[]).None?
        invariant forall b | b in rows ::
                    updated[b] == if b in todo then rows[b] else SettleOne(rows[b], owner, false, map[])
        decreases todo
      {
        var b :| b in todo;
        todo := todo - {b};
        var error, row := ReleaseRow(updated[b], owner);
        if error.Some? {
          return false;
        }
        updated := updated[b := row];
      }
      rows := updated;
      return true;
    }
  }

  /** One pass of the settlement loop; a budget without an active reservation is skipped. */
  method SettleRow(budget: Budget, owner: Owner, committed: bool, usage: map<Resource, int>)
    returns (error: Option<Error>, row: Budget)
    ensures error == Objection(budget, owner, committed, usage)
    ensures error.None? ==> row == SettleOne(budget, owner, committed, usage)
  {
    row := budget;
    if owner !in row.holds || row.holds[owner].status != Active {
      return None, row;
    }
    var hold := row.holds[owner];
    if row.reserved < hold.estimate {
      return Some(UnsafeReservation), row;
    }
    row := row.(reserved := row.reserved - hold.estimate);
    var actual := if row.resource in usage then usage[row.resource] else if committed then hold.estimate else 0;
    if actual < 0 {
      return Some(NegativeUsage), row;
    }
    hold := hold.(actual := Some(actual));
    if committed && row.resource != ConcurrentRuns {
      row := row.(spent := row.spent + actual);
      hold := hold.(status := Committed);
    } else {
      hold := hold.(status := Released);
    }
    row := row.(holds := row.holds[owner := hold]);
    return None, row;
  }

  /** One pass of the release loop. */
  method ReleaseRow(budget: Budget, owner: Owner) returns (error: Option<Error>, row: Budget)
    ensures error == Objection(budget, owner, false, map[])
    ensures error.None? ==> row == SettleOne(budget, owner, false, map[])
  {
    row := budget;
    if owner !in row.holds || row.holds[owner].status != Active {
      return None, row;
    }
    var hold := row.holds[owner];
    if row.reserved < hold.estimate {
      return Some(UnsafeReservation), row;
    }
    row := row.(reserved := row.reserved - hold.estimate);
    hold := hold.(actual := Some(0), status := Released);
    row := row.(holds := row.holds[owner := hold]);
    return None, row;
  }
}
