/**
 * The execution planner (execution/planner.py): from an agent's intent and what its lots
 * hold already, either an order for the difference to target, or a reason to do nothing.
 */
module Planner {
  import opened Common
  import opened Orders
  import opened Lots
  import opened Sizing

  datatype Action = BuyAction | SellAction | RebalanceTo | CloseAction

  datatype Intent = Intent(agent: AgentId, symbol: string, action: Action, targetWeight: real, legs: seq<Leg>)

  datatype Snapshot = Snapshot(prices: map<string, real>, realizedVol: map<string, real>, vix: VixBucket)

  /** What sizing reads besides the intent and the lots. */
  datatype Setting = Setting(equity: real, drawdown: DrawdownBucket, capability: real, weights: map<AgentId, real>)

  datatype Reason = SubMin | NoPosition | NoMark | ZeroQty | NearTarget | AlreadyAtTarget | SleeveGrossBreach

  datatype Ticket = Ticket(agent: AgentId, symbol: string, side: Side, qty: real, orderClass: OrderClass)

  /** `Halted` stands for the error a master capability above its maximum raises. */
  datatype Plan = Planned(ticket: Ticket) | Dropped(reason: Reason) | Halted

  const MIN_NOTIONAL := 1.0
  const OPTIONS_MULTIPLIER := 100.0
  const QTY_GRID := 0.000000001
  const REBALANCE_BAND := 0.02
  const DEFAULT_VOL := 0.08

  /** quantize with ROUND_DOWN: to the grid, towards zero. */
  function RoundDown(x: real, grid: real): real
    requires grid > 0.0
  {
    if x >= 0.0 then (x / grid).Floor as real * grid else -((-x / grid).Floor as real * grid)
  }

  // ── Gross exposure of a sleeve ───────────────────────────────────────────────

  /** Entry price of the first open lot of a symbol, if there is one. */
  function FirstEntry(lots: seq<Lot>, agent: AgentId, symbol: string): real {
    if lots == [] then 0.0
    else if lots[0].agent == agent && lots[0].symbol == symbol && !lots[0].isClosed then lots[0].entryPrice
    else FirstEntry(lots[1..], agent, symbol)
  }

  predicate HasMark(prices: map<string, real>, symbol: string) {
    symbol in prices && prices[symbol] > 0.0
  }

  /** The price a symbol's position is marked at: the market, or an entry price without one. */
  function MarkFor(lots: seq<Lot>, agent: AgentId, prices: map<string, real>, symbol: string): real {
    var key := NormalizeSymbol(symbol);
    if HasMark(prices, key) then prices[key] else FirstEntry(lots, agent, key)
  }

  function Marking(lots: seq<Lot>, agent: AgentId, prices: map<string, real>): string -> real {
    symbol => MarkFor(lots, agent, prices, symbol)
  }

  /** The open lots of an agent, each valued at its symbol's mark. */
  function MarkedOpen(lots: seq<Lot>, agent: AgentId, mark: string -> real): real {
    if lots == [] then 0.0
    else
      var last := lots[|lots| - 1];
      MarkedOpen(lots[..|lots| - 1], agent, mark) + OpenPart(last, agent, last.symbol) * mark(last.symbol)
  }

  /** _sleeve_gross_notional, lot by lot. */
  function SleeveGross(lots: seq<Lot>, agent: AgentId, prices: map<string, real>): real {
    MarkedOpen(lots, agent, Marking(lots, agent, prices))
  }

  // ── Planning ─────────────────────────────────────────────────────────────────

  function TargetNotional(i: Intent, snap: Snapshot, s: Setting, cap: real): real {
    var symbol := NormalizeSymbol(i.symbol);
    var vol := if symbol in snap.realizedVol then snap.realizedVol[symbol] else DEFAULT_VOL;
    Min(VolTargetedValue(i.targetWeight, s.equity, vol, BaseVolTarget(i.agent) * s.capability), cap * s.equity)
  }

  /** _plan_close: sell exactly what is open. */
  function PlanClose(i: Intent, snap: Snapshot, s: Setting, open: real): Plan {
    var symbol := NormalizeSymbol(i.symbol);
    if open <= 0.0 then Dropped(NoPosition)
    else if !HasMark(snap.prices, symbol) then Dropped(NoMark)
    else if open * snap.prices[symbol] < MIN_NOTIONAL then Dropped(SubMin)
    else if EffectiveMaxGross(i.agent, s.capability, snap.vix, s.drawdown, s.weights).None? then Halted
    else Planned(Ticket(i.agent, symbol, Sell, open, Simple))
  }

  /** The mark of an intent's symbol; without one its position counts for nothing. */
  function MarkOfIntent(i: Intent, snap: Snapshot): real {
    var symbol := NormalizeSymbol(i.symbol);
    if HasMark(snap.prices, symbol) then snap.prices[symbol] else 0.0
  }

  /** From the current position to the target, in dollars. */
  function Gap(i: Intent, snap: Snapshot, s: Setting, held: real, cap: real): real {
    TargetNotional(i, snap, s, cap) - held * MarkOfIntent(i, snap)
  }

  predicate WithinBand(delta: real, equity: real) {
    equity > 0.0 && Abs(delta) / equity < REBALANCE_BAND
  }

  function SideOf(i: Intent, delta: real): Side {
    if i.legs != [] then (if (i.action.SellAction? || i.action.CloseAction?) then Sell else Buy)
    else if i.action == SellAction || (i.action == RebalanceTo && delta < 0.0) then Sell
    else Buy
  }

  /** The order for a known gap to target. */
  function PlanQty(i: Intent, snap: Snapshot, open: real, delta: real, value: real): Plan {
    var symbol := NormalizeSymbol(i.symbol);
    var options := i.legs != [];
    if value < MIN_NOTIONAL then Dropped(SubMin)
    else if !HasMark(snap.prices, symbol) then Dropped(NoMark)
    else
      var mark := snap.prices[symbol];
      var qty := if options then RoundDown(value / (mark * OPTIONS_MULTIPLIER), 1.0)
                 else RoundDown(value / mark, QTY_GRID);
      if qty <= 0.0 then Dropped(ZeroQty)
      else
        var side := SideOf(i, delta);
        var capped := if side == Sell && !options && open > 0.0 then Min(qty, open) else qty;
        Planned(Ticket(i.agent, symbol, side, capped, if options then Mleg else Simple))
  }

  /** Everything after the target is known, with the sleeve's gross exposure as it stands. */
  function PlanDelta(i: Intent, snap: Snapshot, s: Setting, open: real, gross: real, cap: real): Plan {
    var options := i.legs != [];
    var held := if options then 0.0 else open;
    var delta := Gap(i, snap, s, held, cap);
    if i.action == BuyAction && delta <= 0.0 then Dropped(AlreadyAtTarget)
    else if i.action == SellAction && delta >= 0.0 then Dropped(NearTarget)
    else if WithinBand(delta, s.equity) then Dropped(NearTarget)
    else if !options && delta > 0.0 && gross + delta > cap * s.equity then Dropped(SleeveGrossBreach)
    else PlanQty(i, snap, held, delta, if options then TargetNotional(i, snap, s, cap) else Abs(delta))
  }

  predicate ExitsFully(i: Intent) {
    i.action == CloseAction || (i.action == SellAction && i.targetWeight <= 0.0)
  }

  /** plan, given the agent's open quantity and its sleeve's gross exposure. */
  function PlanWith(i: Intent, snap: Snapshot, s: Setting, open: real, gross: real): Plan {
    if ExitsFully(i) then PlanClose(i, snap, s, open)
    else if i.action == SellAction && open <= 0.0 then Dropped(NoPosition)
    else
      match EffectiveMaxGross(i.agent, s.capability, snap.vix, s.drawdown, s.weights)
      case None => Halted
      case Some(cap) => PlanDelta(i, snap, s, open, gross, cap)
  }

  function OpenFor(i: Intent, lots: seq<Lot>): real {
    OpenQty(lots, i.agent, NormalizeSymbol(i.symbol))
  }

  function PlanIntent(i: Intent, snap: Snapshot, s: Setting, lots: seq<Lot>): Plan {
    PlanWith(i, snap, s, OpenFor(i, lots), SleeveGross(lots, i.agent, snap.prices))
  }

  /** The lots once an order fills in full at its mark, under a new fill id. */
  function FilledAtMark(lots: seq<Lot>, t: Ticket, mark: real, f: Fill): seq<Lot> {
    Book(Ledger(lots, {}), f.(agent := t.agent, symbol := t.symbol, side := t.side, qty := t.qty, price := mark),
         Fifo).lots
  }
}
