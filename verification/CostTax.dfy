/** Transaction costs and FIFO capital-gains lots for Indian equity delivery. */
module CostTax {
  import opened Common
  import opened Sums

  const LONG_TERM_THRESHOLD_DAYS := 365

  datatype Side = Buy | Sell

  datatype GainType = ShortTerm | LongTerm

  datatype Config = Config(
    brokeragePct: real, brokerageFlat: real, sttBuy: real, sttSell: real, stampDutyBuy: real,
    exchangeCharge: real, sebiFee: real, gst: real, slippageBps: real,
    stcgRate: real, ltcgRate: real, longTermDays: int)
  {
    predicate Valid() {
      && brokeragePct >= 0.0 && brokerageFlat >= 0.0 && sttBuy >= 0.0 && sttSell >= 0.0
      && stampDutyBuy >= 0.0 && exchangeCharge >= 0.0 && sebiFee >= 0.0 && gst >= 0.0 && slippageBps >= 0.0
    }
  }

  const INDIA_EQUITY := Config(0.0, 0.0, 0.001, 0.001, 0.00015, 0.0000297, 0.000001, 0.18, 5.0,
                               0.20, 0.125, LONG_TERM_THRESHOLD_DAYS)

  const NO_COSTS := Config(0.0, 0.0, 0.0, 0.0, 0.0, 0.0, 0.0, 0.0, 0.0, 0.0, 0.0, LONG_TERM_THRESHOLD_DAYS)

  /** Below this many units a remainder or a residue of a lot counts as nothing. */
  const LOT_TOLERANCE := 0.000000001

  datatype CostBreakdown = CostBreakdown(
    grossAmount: real, brokerage: real, stt: real, stampDuty: real,
    exchangeCharge: real, sebiFee: real, gst: real, slippage: real)
  {
    function TotalCost(): real {
      brokerage + stt + stampDuty + exchangeCharge + sebiFee + gst + slippage
    }
  }

  function TransactionCost(cfg: Config, side: Side, price: real, quantity: real): CostBreakdown {
    var gross := Times(quantity, price);
    var brokerage := cfg.brokerageFlat + Times(gross, cfg.brokeragePct);
    var exchange := Times(gross, cfg.exchangeCharge);
    var sebi := Times(gross, cfg.sebiFee);
    CostBreakdown(
      gross,
      brokerage,
      Times(gross, if side == Buy then cfg.sttBuy else cfg.sttSell),
      if side == Buy then Times(gross, cfg.stampDutyBuy) else 0.0,
      exchange,
      sebi,
      Times(brokerage + exchange + sebi, cfg.gst),
      Times(gross, cfg.slippageBps / 10000.0))
  }

  /** A larger purchase never costs less, and no cost is ever negative. */
  lemma CostMonotone(cfg: Config, side: Side, price: real, fewer: real, more: real)
    requires cfg.Valid() && price >= 0.0 && 0.0 <= fewer <= more
    ensures 0.0 <= TransactionCost(cfg, side, price, fewer).TotalCost()
                <= TransactionCost(cfg, side, price, more).TotalCost()
  {
    TimesMonotone(fewer, more, price);
    var g, h := Times(fewer, price), Times(more, price);
    TimesMonotone(g, h, cfg.brokeragePct);
    TimesMonotone(g, h, cfg.sttBuy);
    TimesMonotone(g, h, cfg.sttSell);
    TimesMonotone(g, h, cfg.stampDutyBuy);
    TimesMonotone(g, h, cfg.exchangeCharge);
    TimesMonotone(g, h, cfg.sebiFee);
    TimesMonotone(g, h, cfg.slippageBps / 10000.0);
    var a, b := TransactionCost(cfg, side, price, fewer), TransactionCost(cfg, side, price, more);
    TimesMonotone(a.brokerage + a.exchangeCharge + a.sebiFee, b.brokerage + b.exchangeCharge + b.sebiFee, cfg.gst);
  }

  /**
   * A trade costs one rate on its value plus the flat fee: GST is charged on brokerage, exchange charge and SEBI fee
   * alone, stamp duty on buys alone.
   */
  lemma CostRates(cfg: Config, side: Side, price: real, quantity: real)
    ensures var taxed := cfg.brokeragePct + cfg.exchangeCharge + cfg.sebiFee;
            var untaxed := (if side == Buy then cfg.sttBuy + cfg.stampDutyBuy else cfg.sttSell)
                           + cfg.slippageBps / 10000.0;
            TransactionCost(cfg, side, price, quantity).TotalCost()
            == Times(Times(quantity, price), Times(taxed, 1.0 + cfg.gst) + untaxed)
               + Times(cfg.brokerageFlat, 1.0 + cfg.gst)
  {
  }

  /**
   * At the default rates one trade costs 16.86226 basis points of its value to buy and 15.36226 to sell, whatever its
   * size: tax, charges with GST on top, slippage, and stamp duty on buys only.
   */
  lemma DefaultRates(price: real, quantity: real)
    ensures var value := Times(quantity, price);
            && TransactionCost(INDIA_EQUITY, Buy, price, quantity).TotalCost() == Times(value, 0.001686226)
            && TransactionCost(INDIA_EQUITY, Sell, price, quantity).TotalCost() == Times(value, 0.001536226)
  {
  }

  lemma NothingCosts(side: Side, price: real, quantity: real)
    ensures TransactionCost(NO_COSTS, side, price, quantity).TotalCost() == 0.0
  {
    TimesZero(Times(quantity, price));
    TimesZero(0.0);
  }

  datatype TaxLot = TaxLot(symbol: Symbol, buyDate: int, quantity: real, buyPrice: real, cost: CostBreakdown)

  datatype RealizedGain = RealizedGain(
    symbol: Symbol, sellDate: int, quantity: real, buyDate: int, buyPrice: real, sellPrice: real,
    gainType: GainType, grossGain: real, taxRate: real, estimatedTax: real, holdingDays: int)

  /** Outcome of matching one sell: the gains and the lots left, or the units no lot could cover. */
  datatype Match = Matched(gains: seq<RealizedGain>, lots: seq<TaxLot>) | Short(missing: real)

  function GainOn(cfg: Config, lot: TaxLot, sellDate: int, matched: real, sellPrice: real): RealizedGain {
    var days := sellDate - lot.buyDate;
    var long := days > cfg.longTermDays;
    var rate := if long then cfg.ltcgRate else cfg.stcgRate;
    var gross := Times(matched, sellPrice - lot.buyPrice);
    RealizedGain(lot.symbol, sellDate, matched, lot.buyDate, lot.buyPrice, sellPrice,
                 if long then LongTerm else ShortTerm,
                 gross, rate, Times(if gross > 0.0 then gross else 0.0, rate), days)
  }

  /** FIFO matching, oldest lot first; a residue of at most `tol` units is dropped with its lot. */
  function MatchLots(cfg: Config, tol: real, lots: seq<TaxLot>, sellDate: int, quantity: real, sellPrice: real): Match
  {
    if quantity <= tol then Matched([], lots)
    else if lots == [] then Short(quantity)
    else
      var lot := lots[0];
      var matched := if lot.quantity < quantity then lot.quantity else quantity;
      var gain := GainOn(cfg, lot, sellDate, matched, sellPrice);
      if matched >= lot.quantity - tol then
        Preceded([gain], MatchLots(cfg, tol, lots[1..], sellDate, quantity - matched, sellPrice))
      else
        Matched([gain], [lot.(quantity := lot.quantity - matched)] + lots[1..])
  }

  function Preceded(gains: seq<RealizedGain>, m: Match): Match {
    if m.Matched? then m.(gains := gains + m.gains) else m
  }

  /** One turn of the matching loop moves one gain from what is to come to what has been. */
  lemma OneTurn(cfg: Config, tol: real, queue: seq<TaxLot>, sellDate: int, remaining: real, sellPrice: real,
                realized: seq<RealizedGain>, left: seq<TaxLot>)
    requires tol >= 0.0 && remaining > tol && queue != []
    requires var lot := queue[0];
             var matched := if lot.quantity < remaining then lot.quantity else remaining;
             left == if matched >= lot.quantity - tol then queue[1..]
                     else [lot.(quantity := lot.quantity - matched)] + queue[1..]
    ensures var matched := if queue[0].quantity < remaining then queue[0].quantity else remaining;
            Preceded(realized, MatchLots(cfg, tol, queue, sellDate, remaining, sellPrice))
            == Preceded(realized + [GainOn(cfg, queue[0], sellDate, matched, sellPrice)],
                        MatchLots(cfg, tol, left, sellDate, remaining - matched, sellPrice))
  {
    var lot := queue[0];
    var matched := if lot.quantity < remaining then lot.quantity else remaining;
    var gain := GainOn(cfg, lot, sellDate, matched, sellPrice);
    PrecededTwice(realized, gain, MatchLots(cfg, tol, left, sellDate, remaining - matched, sellPrice));
  }

  lemma PrecededTwice(realized: seq<RealizedGain>, gain: RealizedGain, m: Match)
    ensures Preceded(realized, Preceded([gain], m)) == Preceded(realized + [gain], m)
  {
    if m.Matched? {
      assert realized + ([gain] + m.gains) == realized + [gain] + m.gains;
    }
  }

  function SplitLot(lot: TaxLot, ratio: real): TaxLot
    requires ratio > 0.0
  {
    lot.(quantity := Times(lot.quantity, ratio), buyPrice := lot.buyPrice / ratio)
  }

  function SplitLots(lots: seq<TaxLot>, ratio: real): (r: seq<TaxLot>)
    requires ratio > 0.0
    ensures |r| == |lots|
  {
    if lots == [] then [] else [SplitLot(lots[0], ratio)] + SplitLots(lots[1..], ratio)
  }

  function Quantity(lots: seq<TaxLot>): real {
    if lots == [] then 0.0 else lots[0].quantity + Quantity(lots[1..])
  }

  /** What the open lots cost, before transaction costs. */
  function Basis(lots: seq<TaxLot>): real {
    if lots == [] then 0.0 else Times(lots[0].quantity, lots[0].buyPrice) + Basis(lots[1..])
  }

  lemma {:induction false} QuantityAppend(lots: seq<TaxLot>, lot: TaxLot)
    ensures Quantity(lots + [lot]) == Quantity(lots) + lot.quantity
    ensures Basis(lots + [lot]) == Basis(lots) + Times(lot.quantity, lot.buyPrice)
  {
    if lots != [] {
      QuantityAppend(lots[1..], lot);
      assert (lots + [lot])[1..] == lots[1..] + [lot];
    } else {
      assert lots + [lot] == [lot];
    }
  }

  function LotsOf(book: map<Symbol, seq<TaxLot>>, symbol: Symbol): seq<TaxLot> {
    if symbol in book then book[symbol] else []
  }

  /** Stateful FIFO lot tracker, one deque of lots per symbol. */
  class CostTaxEngine {
    const config: Config
    const tol: real
    var lots: map<Symbol, seq<TaxLot>>

    constructor (config: Config, tol: real)
      ensures this.config == config && this.tol == tol && lots == map[]
    {
      this.config, this.tol := config, tol;
      lots := map[];
    }

    method RecordBuy(symbol: Symbol, buyDate: int, quantity: real, price: real, cost: CostBreakdown)
      modifies this
      ensures lots == old(lots)[symbol := LotsOf(old(lots), symbol) + [TaxLot(symbol, buyDate, quantity, price, cost)]]
    {
      var queue := if symbol in lots then lots[symbol] else [];
      lots := lots[symbol := queue + [TaxLot(symbol, buyDate, quantity, price, cost)]];
    }

    /** Pops and trims lots until the sell is covered. A sell no lot covers empties the queue and fails. */
    method MatchSell(symbol: Symbol, sellDate: int, quantity: real, sellPrice: real) returns (result: Match)
      requires tol >= 0.0
      modifies this
      ensures result == MatchLots(config, tol, LotsOf(old(lots), symbol), sellDate, quantity, sellPrice)
      ensures lots == if symbol in old(lots)
                      then old(lots)[symbol := if result.Matched? then result.lots else []]
                      else old(lots)
    {
      var queue := if symbol in lots then lots[symbol] else [];
      var remaining := quantity;
      var realized: seq<RealizedGain> := [];
      ghost var whole := MatchLots(config, tol, queue, sellDate, quantity, sellPrice);
      while remaining > tol && queue != []
        invariant whole == Preceded(realized, MatchLots(config, tol, queue, sellDate, remaining, sellPrice))
        invariant lots == old(lots) && (symbol !in lots ==> queue == [])
        decreases |queue|, if remaining > tol then 1 else 0
      {
        var lot := queue[0];
        var matched := if lot.quantity < remaining then lot.quantity else remaining;
        ghost var before, earlier := queue, realized;
        realized := realized + [GainOn(config, lot, sellDate, matched, sellPrice)];
        if matched >= lot.quantity - tol {
          queue := queue[1..];
        } else {
          queue := [lot.(quantity := lot.quantity - matched)] + queue[1..];
        }
        OneTurn(config, tol, before, sellDate, remaining, sellPrice, earlier, queue);
        remaining := remaining - matched;
      }
      if symbol in lots {
        lots := lots[symbol := queue];
      }
      result := if remaining > tol then Short(remaining) else Matched(realized, queue);
    }

    /** Scales every open lot; a non-positive ratio is refused before anything changes. */
    method ApplySplit(symbol: Symbol, ratio: real) returns (ok: bool)
      modifies this
      ensures ok == (ratio > 0.0)
      ensures !ok ==> lots == old(lots)
      ensures ok ==> lots == if symbol in old(lots)
                             then old(lots)[symbol := SplitLots(old(lots)[symbol], ratio)]
                             else old(lots)
    {
      if ratio <= 0.0 {
        return false;
      }
      if symbol in lots && lots[symbol] != [] {
        lots := lots[symbol := SplitLots(lots[symbol], ratio)];
      }
      ok := true;
    }

    method TotalOpenQuantity(symbol: Symbol) returns (total: real)
      ensures total == Quantity(LotsOf(lots, symbol))
    {
      var queue := if symbol in lots then lots[symbol] else [];
      total := 0.0;
      for i := 0 to |queue|
        invariant total == Quantity(queue[..i])
      {
        assert queue[..i + 1] == queue[..i] + [queue[i]];
        QuantityAppend(queue[..i], queue[i]);
        total := total + queue[i].quantity;
      }
      assert queue[..|queue|] == queue;
    }
  }
}
