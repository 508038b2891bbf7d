/** Holdings rebuilt from the reconciled records, by a running weighted average. */
module PortfolioReconciliation {
  import opened Common
  import opened Sums
  import opened Lifecycle
  import opened ExecutionStore

  datatype Holding = Holding(quantity: int, average: real, current: real)

  predicate Counts(r: Row) {
    r.status == Reconciled && r.executed > 0
  }

  /** Python's `or`: a missing or zero executed price gives way to the limit price. */
  function PaidPrice(r: Row): real {
    if r.price.Some? && r.price.value != 0.0 then r.price.value else r.limitPrice
  }

  function Cost(r: Row): real {
    if Counts(r) then Times(r.executed as real, PaidPrice(r)) else 0.0
  }

  function Units(r: Row): int {
    if Counts(r) then r.executed else 0
  }

  function Merge(h: Holding, quantity: int, price: real): Holding
    requires h.quantity + quantity > 0
  {
    var cost := Times(h.quantity as real, h.average) + Times(quantity as real, price);
    Holding(h.quantity + quantity, cost / (h.quantity + quantity) as real, price)
  }

  lemma MergeKeepsCost(h: Holding, quantity: int, price: real)
    requires h.quantity + quantity > 0
    ensures var m := Merge(h, quantity, price);
            Times(m.quantity as real, m.average)
            == Times(h.quantity as real, h.average) + Times(quantity as real, price)
  {
    var units := (h.quantity + quantity) as real;
    var cost := Times(h.quantity as real, h.average) + Times(quantity as real, price);
    assert units * (cost / units) == cost;
  }

  // ---- What the records say, independently of any running average ----

  function CostFor(rows: Rows, ids: seq<string>, s: Symbol): real
    requires forall id :: id in ids ==> id in rows
  {
    if ids == [] then 0.0
    else
      var r := rows[ids[|ids| - 1]];
      CostFor(rows, ids[..|ids| - 1], s) + (if r.symbol == s then Cost(r) else 0.0)
  }

  function UnitsFor(rows: Rows, ids: seq<string>, s: Symbol): int
    requires forall id :: id in ids ==> id in rows
  {
    if ids == [] then 0
    else
      var r := rows[ids[|ids| - 1]];
      UnitsFor(rows, ids[..|ids| - 1], s) + (if r.symbol == s then Units(r) else 0)
  }

  function CostOf(rows: Rows, ids: seq<string>): real
    requires forall id :: id in ids ==> id in rows
  {
    if ids == [] then 0.0 else CostOf(rows, ids[..|ids| - 1]) + Cost(rows[ids[|ids| - 1]])
  }

  function Invested(holdings: map<Symbol, Holding>): map<Symbol, real> {
    map s | s in holdings :: Times(holdings[s].quantity as real, holdings[s].average)
  }

  /** A symbol is held exactly with the units and the money of its records, and only if it has some. */
  predicate HeldRight(holdings: map<Symbol, Holding>, s: Symbol, units: int, cost: real) {
    if s in holdings then
      holdings[s].quantity == units > 0 && Times(holdings[s].quantity as real, holdings[s].average) == cost
    else units == 0 && cost == 0.0
  }

  ghost predicate Faithful(holdings: map<Symbol, Holding>, rows: Rows, ids: seq<string>)
    requires forall id :: id in ids ==> id in rows
  {
    && (forall s :: HeldRight(holdings, s, UnitsFor(rows, ids, s), CostFor(rows, ids, s)))
    && Total(Invested(holdings)) == CostOf(rows, ids)
    && PricedByLast(holdings, rows, ids)
  }

  predicate PricedByLast(holdings: map<Symbol, Holding>, rows: Rows, ids: seq<string>)
    requires forall id :: id in ids ==> id in rows
  {
    forall s :: s in holdings ==> LastPrice(rows, ids, s) == Some(holdings[s].current)
  }

  /** What the last of the records to count for the symbol paid. */
  function LastPrice(rows: Rows, ids: seq<string>, s: Symbol): Option<real>
    requires forall id :: id in ids ==> id in rows
  {
    if ids == [] then None
    else
      var r := rows[ids[|ids| - 1]];
      if Counts(r) && r.symbol == s then Some(PaidPrice(r)) else LastPrice(rows, ids[..|ids| - 1], s)
  }

  /** What adding one record does to its own symbol. */
  lemma AddedHolding(holdings: map<Symbol, Holding>, r: Row, units: int, cost: real)
    requires HeldRight(holdings, r.symbol, units, cost)
    ensures HeldRight(Added(holdings, r), r.symbol, units + Units(r), cost + Cost(r))
  {
    if Counts(r) && r.symbol in holdings {
      MergeKeepsCost(holdings[r.symbol], r.executed, PaidPrice(r));
    }
  }

  lemma AddedTotal(holdings: map<Symbol, Holding>, r: Row, units: int, cost: real)
    requires HeldRight(holdings, r.symbol, units, cost)
    ensures Total(Invested(Added(holdings, r))) == Total(Invested(holdings)) + Cost(r)
  {
    AddedHolding(holdings, r, units, cost);
    var after := Added(holdings, r);
    if Counts(r) {
      TotalUpdate(Invested(holdings), r.symbol, cost + Cost(r));
      assert Invested(after) == Invested(holdings)[r.symbol := cost + Cost(r)];
    }
  }

  lemma OneMoreRecord(holdings: map<Symbol, Holding>, rows: Rows, ids: seq<string>)
    requires ids != [] && forall id :: id in ids ==> id in rows
    requires forall id :: id in ids[..|ids| - 1] ==> id in rows
    requires Faithful(holdings, rows, ids[..|ids| - 1])
    ensures Faithful(Added(holdings, rows[ids[|ids| - 1]]), rows, ids)
  {
    var fewer, r := ids[..|ids| - 1], rows[ids[|ids| - 1]];
    assert HeldRight(holdings, r.symbol, UnitsFor(rows, fewer, r.symbol), CostFor(rows, fewer, r.symbol));
    AddedTotal(holdings, r, UnitsFor(rows, fewer, r.symbol), CostFor(rows, fewer, r.symbol));
    forall s
      ensures HeldRight(Added(holdings, r), s, UnitsFor(rows, ids, s), CostFor(rows, ids, s))
    {
      assert HeldRight(holdings, s, UnitsFor(rows, fewer, s), CostFor(rows, fewer, s));
      HeldOneMore(holdings, rows, ids, s);
    }
    PricedOneMore(holdings, rows, ids);
  }

  lemma HeldOneMore(holdings: map<Symbol, Holding>, rows: Rows, ids: seq<string>, s: Symbol)
    requires ids != [] && forall id :: id in ids ==> id in rows
    requires forall id :: id in ids[..|ids| - 1] ==> id in rows
    requires var fewer := ids[..|ids| - 1];
             HeldRight(holdings, s, UnitsFor(rows, fewer, s), CostFor(rows, fewer, s))
    ensures HeldRight(Added(holdings, rows[ids[|ids| - 1]]), s, UnitsFor(rows, ids, s), CostFor(rows, ids, s))
  {
    var fewer, r := ids[..|ids| - 1], rows[ids[|ids| - 1]];
    if r.symbol == s {
      AddedHolding(holdings, r, UnitsFor(rows, fewer, s), CostFor(rows, fewer, s));
    }
  }

  lemma PricedOneMore(holdings: map<Symbol, Holding>, rows: Rows, ids: seq<string>)
    requires ids != [] && forall id :: id in ids ==> id in rows
    requires forall id :: id in ids[..|ids| - 1] ==> id in rows
    requires PricedByLast(holdings, rows, ids[..|ids| - 1])
    requires var r := rows[ids[|ids| - 1]]; r.symbol in holdings ==> holdings[r.symbol].quantity > 0
    ensures PricedByLast(Added(holdings, rows[ids[|ids| - 1]]), rows, ids)
  {
  }

  function Added(holdings: map<Symbol, Holding>, r: Row): map<Symbol, Holding> {
    if !Counts(r) then holdings
    else if r.symbol !in holdings then holdings[r.symbol := Holding(r.executed, PaidPrice(r), PaidPrice(r))]
    else if holdings[r.symbol].quantity + r.executed <= 0 then holdings
    else holdings[r.symbol := Merge(holdings[r.symbol], r.executed, PaidPrice(r))]
  }

  /** One turn of the loop: records not reconciled or with nothing executed are skipped. */
  method AddRecord(holdings: map<Symbol, Holding>, r: Row) returns (after: map<Symbol, Holding>)
    requires r.symbol in holdings ==> holdings[r.symbol].quantity > 0
    ensures after == Added(holdings, r)
  {
    after := holdings;
    if r.status != Reconciled || r.executed <= 0 {
      return;
    }
    var price := if r.price.Some? && r.price.value != 0.0 then r.price.value else r.limitPrice;
    if r.symbol !in after {
      after := after[r.symbol := Holding(r.executed, price, price)];
    } else {
      var holding := after[r.symbol];
      var totalQuantity := holding.quantity + r.executed;
      var totalCost := Times(holding.quantity as real, holding.average) + Times(r.executed as real, price);
      holding := holding.(quantity := totalQuantity);
      holding := holding.(average := totalCost / totalQuantity as real);
      holding := holding.(current := price);
      after := after[r.symbol := holding];
    }
  }

  /** The holdings tell, symbol by symbol and in total, exactly what the reconciled records say. */
  ghost predicate Rebuilt(holdings: map<Symbol, Holding>, rows: Rows) {
    exists records: seq<string> ::
      && Distinct(records)
      && (forall id :: id in records <==> id in rows && rows[id].status == Reconciled)
      && Faithful(holdings, rows, records)
  }

  method BuildPortfolio(store: ExecutionStateStore) returns (holdings: map<Symbol, Holding>)
    requires store.Valid()
    ensures Rebuilt(holdings, store.rows)
  {
    var reconciled := store.LoadWhere(true);
    holdings := map[];
    for i := 0 to |reconciled|
      invariant Faithful(holdings, store.rows, reconciled[..i])
    {
      assert reconciled[..i + 1][..i] == reconciled[..i];
      assert reconciled[i] in reconciled;
      OneMoreRecord(holdings, store.rows, reconciled[..i + 1]);
      var s := store.rows[reconciled[i]].symbol;
      assert HeldRight(holdings, s, UnitsFor(store.rows, reconciled[..i], s), CostFor(store.rows, reconciled[..i], s));
      holdings := AddRecord(holdings, store.rows[reconciled[i]]);
    }
    assert reconciled[..|reconciled|] == reconciled;
  }

  // ---- Over all records at once ----

  function Costs(rows: Rows): map<string, real> {
    map id | id in rows :: Cost(rows[id])
  }

  function Paid(rows: Rows, ids: seq<string>): map<string, real>
    requires forall id :: id in ids ==> id in rows
  {
    map id | id in ids :: Cost(rows[id])
  }

  lemma PaidOneMore(rows: Rows, fewer: seq<string>, last: string)
    requires last in rows && last !in fewer && forall id :: id in fewer ==> id in rows
    ensures Paid(rows, fewer + [last]) - {last} == Paid(rows, fewer)
    ensures last in Paid(rows, fewer + [last]) && Paid(rows, fewer + [last])[last] == Cost(rows[last])
  {
  }

  lemma {:induction false} CostOfIsTotal(rows: Rows, ids: seq<string>)
    requires Distinct(ids) && forall id :: id in ids ==> id in rows
    ensures CostOf(rows, ids) == Total(Paid(rows, ids))
  {
    if ids == [] {
      assert Paid(rows, ids) == map[];
    } else {
      var fewer, last := ids[..|ids| - 1], ids[|ids| - 1];
      assert ids == fewer + [last];
      assert last in ids && last !in fewer;
      assert forall id :: id in fewer ==> id in ids;
      CostOfIsTotal(rows, fewer);
      PaidOneMore(rows, fewer, last);
      TotalSplit(Paid(rows, ids), last);
    }
  }

  lemma PaidIsAll(rows: Rows, ids: seq<string>)
    requires forall id :: id in ids <==> id in rows && rows[id].status == Reconciled
    ensures Total(Costs(rows)) == Total(Paid(rows, ids))
  {
    var paid := set id | id in ids;
    TotalIgnoresZeros(Costs(rows), paid);
    assert (map id | id in Costs(rows) && id in paid :: Costs(rows)[id]) == Paid(rows, ids);
  }

  /** The money in the portfolio is the money paid by all reconciled records, in whatever order they were read. */
  lemma InvestedIsPaid(holdings: map<Symbol, Holding>, rows: Rows)
    requires Rebuilt(holdings, rows)
    ensures Total(Invested(holdings)) == Total(Costs(rows))
  {
    var ids: seq<string> :| && Distinct(ids)
                            && (forall id :: id in ids <==> id in rows && rows[id].status == Reconciled)
                            && Faithful(holdings, rows, ids);
    CostOfIsTotal(rows, ids);
    PaidIsAll(rows, ids);
  }
}
