/** The audit log: one hash chain per organization in a shared table. */
module Audit {
  import opened Ids

  datatype Entry = Entry(actor: nat, event: string, subject: nat, content: nat, metadata: string)

  /** What is hashed: the entry with its place in the chain. */
  datatype Document = Document(
    organization: nat, sequence: nat, entry: Entry, previous: Option<nat>, createdAt: nat)

  datatype Row = Row(document: Document, hash: nat)

  /** A digest without collisions. */
  ghost predicate CollisionFree(digest: Document -> nat) {
    forall d, e :: digest(d) == digest(e) ==> d == e
  }

  /** The rows of one organization, in the order in which they were written. */
  function Chain(rows: seq<Row>, organization: nat): seq<Row> {
    if rows == [] then []
    else
      var n := |rows| - 1;
      Chain(rows[..n], organization) + if rows[n].document.organization == organization then [rows[n]] else []
  }

  /** Row `i` has its place in the sequence, the hash of the row before it, and its own hash. */
  predicate LinkedAt(chain: seq<Row>, i: nat, digest: Document -> nat)
    requires i < |chain|
  {
    && chain[i].document.sequence == i + 1
    && chain[i].document.previous == (if i == 0 then None else Some(chain[i - 1].hash))
    && chain[i].hash == digest(chain[i].document)
  }

  /** Sequences run from 1 without gaps, and each row carries the hash of the row before it. */
  predicate Linked(chain: seq<Row>, digest: Document -> nat) {
    forall i | 0 <= i < |chain| :: LinkedAt(chain, i, digest)
  }

  /** The row that `_audit` writes after the chain of its organization. */
  function NextRow(chain: seq<Row>, organization: nat, entry: Entry, now: nat, digest: Document -> nat): Row {
    var d := Document(organization, |chain| + 1, entry, if chain == [] then None else Some(chain[|chain| - 1].hash), now);
    Row(d, digest(d))
  }

  datatype Append = Append(organization: nat, entry: Entry, now: nat)

  /** The table after a sequence of appends by any number of writers. */
  function Table(appends: seq<Append>, digest: Document -> nat): seq<Row> {
    if appends == [] then []
    else
      var n := |appends| - 1;
      var rows := Table(appends[..n], digest);
      var a := appends[n];
      rows + [NextRow(Chain(rows, a.organization), a.organization, a.entry, a.now, digest)]
  }

  lemma ChainSnoc(rows: seq<Row>, row: Row, organization: nat)
    ensures Chain(rows + [row], organization) ==
            if row.document.organization == organization then Chain(rows, organization) + [row] else Chain(rows, organization)
  {
    assert (rows + [row])[..|rows|] == rows;
  }

  lemma LinkedSnoc(chain: seq<Row>, organization: nat, entry: Entry, now: nat, digest: Document -> nat)
    requires Linked(chain, digest)
    ensures Linked(chain + [NextRow(chain, organization, entry, now, digest)], digest)
  {
    var longer := chain + [NextRow(chain, organization, entry, now, digest)];
    forall i | 0 <= i < |longer| ensures LinkedAt(longer, i, digest) {
      if i < |chain| {
        assert LinkedAt(chain, i, digest);
      }
    }
  }

  lemma LastSequence(chain: seq<Row>, digest: Document -> nat)
    requires Linked(chain, digest) && chain != []
    ensures chain[|chain| - 1].document.sequence == |chain|
  {
    assert LinkedAt(chain, |chain| - 1, digest);
  }

  /** Whatever the interleaving of writers, every organization's chain is dense and linked. */
  lemma {:induction false} ChainsAreLinked(appends: seq<Append>, digest: Document -> nat, organization: nat)
    ensures Linked(Chain(Table(appends, digest), organization), digest)
  {
    if appends != [] {
      var n := |appends| - 1;
      var rows, a := Table(appends[..n], digest), appends[n];
      ChainsAreLinked(appends[..n], digest, organization);
      LinkedSnoc(Chain(rows, organization), organization, a.entry, a.now, digest);
      ChainSnoc(rows, NextRow(Chain(rows, a.organization), a.organization, a.entry, a.now, digest), organization);
    }
  }

  /** Every row of the table holds exactly what was appended at its place. */
  lemma {:induction false} RowsHoldAppends(appends: seq<Append>, digest: Document -> nat)
    ensures |Table(appends, digest)| == |appends|
    ensures forall k | 0 <= k < |appends| ::
              var document := Table(appends, digest)[k].document;
              && document.organization == appends[k].organization && document.entry == appends[k].entry
              && document.createdAt == appends[k].now
    decreases |appends|
  {
    if appends != [] {
      RowsHoldAppends(appends[..|appends| - 1], digest);
    }
  }

  lemma LinkedPrefix(chain: seq<Row>, part: seq<Row>, digest: Document -> nat)
    requires Linked(chain, digest) && part <= chain
    ensures Linked(part, digest)
  {
    forall i | 0 <= i < |part| ensures LinkedAt(part, i, digest) {
      assert LinkedAt(chain, i, digest);
    }
  }

  /** Equal hashes are hashes of equal rows, at the same place and after equal hashes. */
  lemma SameRow(c: seq<Row>, d: seq<Row>, i: nat, j: nat, digest: Document -> nat)
    requires CollisionFree(digest) && i < |c| && j < |d| && LinkedAt(c, i, digest) && LinkedAt(d, j, digest)
    requires c[i].hash == d[j].hash
    ensures i == j && c[i] == d[j] && (i > 0 ==> c[i - 1].hash == d[j - 1].hash)
  {
    assert c[i].document == d[j].document;
  }

  /** Two linked chains that end in the same hash are the same, row by row. */
  lemma {:induction false} HeadDeterminesChain(c: seq<Row>, d: seq<Row>, digest: Document -> nat)
    requires CollisionFree(digest) && Linked(c, digest) && Linked(d, digest) && c != [] && d != []
    requires c[|c| - 1].hash == d[|d| - 1].hash
    ensures c == d
    decreases |c|
  {
    var m, n := |c| - 1, |d| - 1;
    assert LinkedAt(c, m, digest) && LinkedAt(d, n, digest);
    hide CollisionFree, LinkedAt, Linked;
    SameRow(c, d, m, n, digest);
    if m > 0 {
      LinkedPrefix(c, c[..m], digest);
      LinkedPrefix(d, d[..n], digest);
      HeadDeterminesChain(c[..m], d[..n], digest);
    }
    assert c == c[..m] + [c[m]] && d == d[..n] + [d[n]];
  }

  /**
   * Two organizations' logs, possibly from different databases and histories, that show the
   * same head hash hold the same documents at every position.
   */
  lemma EqualHeadsEqualHistories(
    appends: seq<Append>, organization: nat, others: seq<Append>, other: nat, digest: Document -> nat)
    requires CollisionFree(digest)
    requires Chain(Table(appends, digest), organization) != [] && Chain(Table(others, digest), other) != []
    requires var c, d := Chain(Table(appends, digest), organization), Chain(Table(others, digest), other);
             c[|c| - 1].hash == d[|d| - 1].hash
    ensures Chain(Table(appends, digest), organization) == Chain(Table(others, digest), other)
  {
    ChainsAreLinked(appends, digest, organization);
    ChainsAreLinked(others, digest, other);
    HeadDeterminesChain(Chain(Table(appends, digest), organization), Chain(Table(others, digest), other), digest);
  }

  /** Rewriting any earlier document of a chain without changing its head breaks a link. */
  lemma TamperingShows(c: seq<Row>, d: seq<Row>, digest: Document -> nat, i: nat)
    requires CollisionFree(digest) && Linked(c, digest) && i < |c| && |d| == |c| && d[|d| - 1].hash == c[|c| - 1].hash
    requires d[i].document != c[i].document
    ensures !Linked(d, digest)
  {
    if Linked(d, digest) {
      HeadDeterminesChain(c, d, digest);
    }
  }

  class AuditLog {
    var rows: seq<Row>
    const digest: Document -> nat

    constructor (digest: Document -> nat)
      ensures rows == [] && this.digest == digest
    {
      rows := [];
      this.digest := digest;
    }

    ghost predicate Valid()
      reads this
    {
      forall organization :: Linked(Chain(rows, organization), digest)
    }

    /** The organization's row with the highest sequence. */
    method Latest(organization: nat) returns (latest: Option<Row>)
      requires Valid()
      ensures var chain := Chain(rows, organization);
              latest == if chain == [] then None else Some(chain[|chain| - 1])
    {
      latest := None;
      var i := 0;
      while i < |rows|
        invariant 0 <= i <= |rows|
        invariant var chain := Chain(rows[..i], organization);
                  && Linked(chain, digest)
                  && latest == if chain == [] then None else Some(chain[|chain| - 1])
      {
        Prefix(i, organization);
        if Chain(rows[..i], organization) != [] {
          LastSequence(Chain(rows[..i], organization), digest);
        }
        if rows[i].document.organization == organization {
          LastSequence(Chain(rows[..i + 1], organization), digest);
        }
        if rows[i].document.organization == organization &&
           (latest.None? || latest.value.document.sequence < rows[i].document.sequence)
        {
          latest := Some(rows[i]);
        }
        i := i + 1;
      }
      assert rows[..i] == rows;
    }

    lemma Prefix(i: nat, organization: nat)
      requires Valid() && i < |rows|
      ensures Linked(Chain(rows[..i + 1], organization), digest)
      ensures Chain(rows[..i + 1], organization) ==
              if rows[i].document.organization == organization then Chain(rows[..i], organization) + [rows[i]]
              else Chain(rows[..i], organization)
    {
      assert rows[..i + 1] == rows[..i] + [rows[i]];
      ChainSnoc(rows[..i], rows[i], organization);
      ChainPrefix(rows, i + 1, organization);
      LinkedPrefix(Chain(rows, organization), Chain(rows[..i + 1], organization), digest);
    }

    /** Appends one entry under the organization's lock. */
    method Write(organization: nat, entry: Entry, now: nat) returns (row: Row)
      requires Valid()
      modifies this`rows
      ensures Valid()
      ensures row == NextRow(Chain(old(rows), organization), organization, entry, now, digest)
      ensures rows == old(rows) + [row]
    {
      var previous := Latest(organization);
      var sequence := if previous.Some? then previous.value.document.sequence + 1 else 1;
      var hash := if previous.Some? then Some(previous.value.hash) else None;
      var document := Document(organization, sequence, entry, hash, now);
      row := Row(document, digest(document));
      ghost var chain := Chain(rows, organization);
      if chain != [] {
        LastSequence(chain, digest);
      }
      LinkedSnoc(chain, organization, entry, now, digest);
      forall o ensures Linked(Chain(rows + [row], o), digest) {
        ChainSnoc(rows, row, o);
      }
      rows := rows + [row];
    }
  }

  lemma {:induction false} ChainPrefix(rows: seq<Row>, i: nat, organization: nat)
    requires i <= |rows|
    ensures Chain(rows[..i], organization) <= Chain(rows, organization)
    decreases |rows|
  {
    if i == |rows| {
      assert rows[..i] == rows;
    } else {
      var n := |rows| - 1;
      ChainPrefix(rows[..n], i, organization);
      assert rows[..n][..i] == rows[..i];
    }
  }
}
