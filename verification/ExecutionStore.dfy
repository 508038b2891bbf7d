/** The durable table of execution records, and the in-memory record a process works on. */
module ExecutionStore {
  import opened Common
  import opened Lifecycle

  /** The first five columns identify an order and are written once; the others are rewritten by every save. */
  datatype Row = Row(
    cycle: string, symbol: Symbol, proposed: int, limitPrice: real, rank: int,
    status: Status, final: Option<int>, brokerId: Option<nat>, executed: int, price: Option<real>, checked: Option<int>)

  type Rows = map<string, Row>

  function NewProposal(cycle: string, symbol: Symbol, proposed: int, limitPrice: real, rank: int): Row {
    Row(cycle, symbol, proposed, limitPrice, rank, Proposal, None, None, 0, None, None)
  }

  predicate SameIdentity(a: Row, b: Row) {
    && a.cycle == b.cycle && a.symbol == b.symbol && a.proposed == b.proposed
    && a.limitPrice == b.limitPrice && a.rank == b.rank
  }

  function Upsert(rows: Rows, id: string, r: Row): Rows {
    if id in rows then
      rows[id := rows[id].(status := r.status, final := r.final, brokerId := r.brokerId, executed := r.executed,
                           price := r.price, checked := r.checked)]
    else rows[id := r]
  }

  /** What was saved is what is loaded, except that identity columns keep their first values. */
  lemma SaveThenLoad(rows: Rows, id: string, r: Row)
    ensures var saved := Upsert(rows, id, r);
            && saved.Keys == rows.Keys + {id}
            && (forall other :: other in rows && other != id ==> saved[other] == rows[other])
            && SameIdentity(saved[id], if id in rows then rows[id] else r)
            && (saved[id] == r <==> id !in rows || SameIdentity(rows[id], r))
            && Upsert(saved, id, r) == saved
  {
  }

  ghost predicate Enumerates(ids: seq<string>, rows: Rows) {
    && (forall id :: id in ids <==> id in rows)
    && Distinct(ids)
  }

  predicate Distinct(ids: seq<string>) {
    forall i, j :: 0 <= i < j < |ids| ==> ids[i] != ids[j]
  }

  class ExecutionStateStore {
    var rows: Rows
    /** Row order: the order of first insertion. */
    var ids: seq<string>

    ghost predicate Valid()
      reads this
    {
      Enumerates(ids, rows)
    }

    constructor ()
      ensures Valid() && rows == map[]
    {
      rows := map[];
      ids := [];
    }

    /** A save that does not work raises and leaves the table alone. */
    method SaveExecutionRecord(id: string, r: Row, works: bool) returns (saved: bool)
      requires Valid()
      modifies this
      ensures Valid() && saved == works
      ensures rows == if works then Upsert(old(rows), id, r) else old(rows)
      ensures old(ids) <= ids && (id in old(rows) ==> ids == old(ids))
    {
      saved := works;
      if works {
        if id !in rows {
          ids := ids + [id];
        }
        rows := Upsert(rows, id, r);
      }
    }

    method LoadExecutionRecord(id: string) returns (r: Option<Row>)
      ensures r == if id in rows then Some(rows[id]) else None
    {
      r := if id in rows then Some(rows[id]) else None;
    }

    /** The records whose status is, or is not, RECONCILED, in row order. */
    method LoadWhere(reconciled: bool) returns (found: seq<string>)
      requires Valid()
      ensures Distinct(found)
      ensures forall id :: id in found <==> id in rows && (rows[id].status == Reconciled) == reconciled
    {
      found := [];
      for i := 0 to |ids|
        invariant Distinct(found)
        invariant forall id :: id in found <==> id in ids[..i] && (rows[id].status == Reconciled) == reconciled
      {
        assert ids[..i + 1] == ids[..i] + [ids[i]];
        assert ids[i] !in ids[..i];
        if (rows[ids[i]].status == Reconciled) == reconciled {
          found := found + [ids[i]];
        }
      }
      assert ids[..|ids|] == ids;
    }
  }

  class ExecutionRecord {
    const id: string
    var row: Row

    constructor (id: string, row: Row)
      ensures this.id == id && this.row == row
    {
      this.id := id;
      this.row := row;
    }

    /** A transition outside the table raises and changes nothing. */
    method TransitionTo(target: Status) returns (ok: bool)
      modifies this
      ensures ok == Allowed(old(row).status, target)
      ensures row == if ok then old(row).(status := target) else old(row)
    {
      ok := Allowed(row.status, target);
      if ok {
        row := row.(status := target);
      }
    }
  }
}
