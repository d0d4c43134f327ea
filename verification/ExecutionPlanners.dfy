/**
 * The planner object (execution/planner.py): it reads the lot ledger, adds up the sleeve's
 * gross exposure symbol by symbol, and counts what it drops.
 */
module ExecutionPlanners {
  import opened Orders
  import opened Lots
  import opened LotLedgers
  import opened Sizing
  import opened Planner

  class ExecutionPlanner {
    const ledger: LotLedger
    var droppedNoMark: nat
    var droppedNoPosition: nat
    var droppedSubMin: nat
    var droppedZeroQty: nat
    var droppedNearTarget: nat
    var droppedAlreadyAtTarget: nat
    var droppedSleeveGrossBreach: nat

    constructor (ledger: LotLedger)
      ensures this.ledger == ledger && forall r :: DroppedFor(r) == 0
    {
      this.ledger := ledger;
      droppedNoMark, droppedNoPosition, droppedSubMin, droppedZeroQty := 0, 0, 0, 0;
      droppedNearTarget, droppedAlreadyAtTarget, droppedSleeveGrossBreach := 0, 0, 0;
    }

    function DroppedFor(r: Reason): nat
      reads this
    {
      match r
      case SubMin => droppedSubMin
      case NoPosition => droppedNoPosition
      case NoMark => droppedNoMark
      case ZeroQty => droppedZeroQty
      case NearTarget => droppedNearTarget
      case AlreadyAtTarget => droppedAlreadyAtTarget
      case SleeveGrossBreach => droppedSleeveGrossBreach
    }

    method CountDrop(r: Reason)
      modifies this
      ensures forall q :: DroppedFor(q) == old(DroppedFor(q)) + (if q == r then 1 else 0)
    {
      match r {
        case SubMin => droppedSubMin := droppedSubMin + 1;
        case NoPosition => droppedNoPosition := droppedNoPosition + 1;
        case NoMark => droppedNoMark := droppedNoMark + 1;
        case ZeroQty => droppedZeroQty := droppedZeroQty + 1;
        case NearTarget => droppedNearTarget := droppedNearTarget + 1;
        case AlreadyAtTarget => droppedAlreadyAtTarget := droppedAlreadyAtTarget + 1;
        case SleeveGrossBreach => droppedSleeveGrossBreach := droppedSleeveGrossBreach + 1;
      }
    }

    static function Value(qty: real, price: real): real {
      qty * price
    }

    /** Marks seen so far count; the others are taken as zero. */
    static function Masked(mark: string -> real, done: set<string>): string -> real {
      s => if s in done then mark(s) else 0.0
    }

    static lemma LotOfSymbol(lot: Lot, agent: AgentId, mark: string -> real, done: set<string>, s: string)
      requires s !in done
      ensures OpenPart(lot, agent, lot.symbol) * Masked(mark, done + {s})(lot.symbol)
           == OpenPart(lot, agent, lot.symbol) * Masked(mark, done)(lot.symbol) + OpenPart(lot, agent, s) * mark(s)
    {
    }

    static lemma {:induction false} OneMoreSymbol(lots: seq<Lot>, agent: AgentId,
                                                  mark: string -> real, done: set<string>, s: string)
      requires s !in done
      ensures MarkedOpen(lots, agent, Masked(mark, done + {s})) == MarkedOpen(lots, agent, Masked(mark, done))
            + Value(OpenQty(lots, agent, s), mark(s))
    {
      hide OpenPart, Masked;
      if lots != [] {
        var init, last := lots[..|lots| - 1], lots[|lots| - 1];
        OneMoreSymbol(init, agent, mark, done, s);
        LotOfSymbol(last, agent, mark, done, s);
        SumTimes(OpenQty(init, agent, s), OpenPart(last, agent, s), mark(s));
      }
    }

    static lemma {:induction false} NothingMasked(lots: seq<Lot>, agent: AgentId, mark: string -> real)
      ensures MarkedOpen(lots, agent, Masked(mark, {})) == 0.0
    {
      if lots != [] {
        NothingMasked(lots[..|lots| - 1], agent, mark);
      }
    }

    static lemma {:induction false} AllMasked(lots: seq<Lot>, agent: AgentId, mark: string -> real, done: set<string>)
      requires SoundLots(lots) && forall k :: 0 <= k < |lots| && lots[k].agent == agent && !lots[k].isClosed ==>
                 lots[k].symbol in done
      ensures MarkedOpen(lots, agent, Masked(mark, done)) == MarkedOpen(lots, agent, mark)
    {
      if lots != [] {
        AllMasked(lots[..|lots| - 1], agent, mark, done);
      }
    }

    static lemma {:induction false} OpenLotIsPositive(lots: seq<Lot>, agent: AgentId, k: nat)
      requires SoundLots(lots) && k < |lots| && lots[k].agent == agent && !lots[k].isClosed
      ensures OpenQty(lots, agent, lots[k].symbol) > 0.0
    {
      SaleAvailable(lots[..|lots| - 1], agent, lots[k].symbol, Fifo);
      if k < |lots| - 1 {
        OpenLotIsPositive(lots[..|lots| - 1], agent, k);
      }
    }

    method FirstOpenEntry(agent: AgentId, symbol: string) returns (entry: real)
      ensures entry == FirstEntry(ledger.lots, agent, symbol)
    {
      for k := 0 to |ledger.lots|
        invariant FirstEntry(ledger.lots, agent, symbol) == FirstEntry(ledger.lots[k..], agent, symbol)
      {
        var lot := ledger.lots[k];
        assert ledger.lots[k..][1..] == ledger.lots[k + 1..];
        if lot.agent == agent && lot.symbol == symbol && !lot.isClosed {
          return lot.entryPrice;
        }
      }
      return 0.0;
    }

    method MarkOfSymbol(agent: AgentId, prices: map<string, real>, symbol: string) returns (price: real)
      ensures price == MarkFor(ledger.lots, agent, prices, symbol)
    {
      var key := NormalizeSymbol(symbol);
      if HasMark(prices, key) {
        return prices[key];
      }
      price := FirstOpenEntry(agent, key);
    }

    /** _sleeve_gross_notional: by symbol, in any order. */
    method SleeveGrossNotional(agent: AgentId, prices: map<string, real>) returns (total: real)
      requires SoundLots(ledger.lots)
      ensures total == SleeveGross(ledger.lots, agent, prices)
    {
      hide MarkFor, MarkedOpen, OpenQty, SoundLots, Masked, Value, HasMark, NormalizeSymbol, Marking;
      var open := ledger.OpenQtyBySymbol(agent);
      ghost var lots, mark := ledger.lots, Marking(ledger.lots, agent, prices);
      ghost var all := open.Keys;
      total := 0.0;
      var todo := open.Keys;
      NothingMasked(lots, agent, mark);
      assert all - todo == {};
      while todo != {}
        invariant todo <= all
        invariant total == MarkedOpen(lots, agent, Masked(mark, all - todo))
        decreases |todo|
      {
        var symbol :| symbol in todo;
        NextSymbol(lots, agent, mark, all, todo, symbol);
        todo := todo - {symbol};
        var price := MarkOfSymbol(agent, prices, symbol);
        MarkingAt(lots, agent, prices, symbol);
        total := total + Value(open[symbol], price);
      }
      assert all - todo == all;
      EverySymbolMarked(lots, agent, mark, all);
    }

    static lemma MarkingAt(lots: seq<Lot>, agent: AgentId, prices: map<string, real>, s: string)
      ensures Marking(lots, agent, prices)(s) == MarkFor(lots, agent, prices, s)
    {
      hide MarkFor;
    }

    static lemma NextSymbol(lots: seq<Lot>, agent: AgentId,
                            mark: string -> real, all: set<string>, todo: set<string>, s: string)
      requires s in todo && todo <= all
      ensures MarkedOpen(lots, agent, Masked(mark, all - (todo - {s})))
           == MarkedOpen(lots, agent, Masked(mark, all - todo)) + Value(OpenQty(lots, agent, s), mark(s))
    {
      hide MarkedOpen, Masked, Value, OpenQty;
      OneMoreSymbol(lots, agent, mark, all - todo, s);
      assert all - (todo - {s}) == all - todo + {s};
    }

    static lemma EverySymbolMarked(lots: seq<Lot>, agent: AgentId, mark: string -> real, all: set<string>)
      requires SoundLots(lots) && forall s :: s in all <==> OpenQty(lots, agent, s) > 0.0
      ensures MarkedOpen(lots, agent, Masked(mark, all)) == MarkedOpen(lots, agent, mark)
    {
      hide MarkedOpen, Masked, OpenQty, SoundLots;
      forall k | 0 <= k < |lots| && lots[k].agent == agent && !lots[k].isClosed ensures lots[k].symbol in all {
        OpenLotIsPositive(lots, agent, k);
      }
      AllMasked(lots, agent, mark, all);
    }

    /** plan: the order or the reason, and one more drop counted for the reason. */
    method Plan(i: Intent, snap: Snapshot, s: Setting) returns (p: Planner.Plan)
      requires SoundLots(ledger.lots)
      modifies this
      ensures p == PlanIntent(i, snap, s, ledger.lots)
      ensures forall q :: DroppedFor(q) == old(DroppedFor(q)) + (if p == Dropped(q) then 1 else 0)
    {
      var open := ledger.TotalOpenQty(i.agent, NormalizeSymbol(i.symbol));
      NormalizeTwice(i.symbol);
      var gross := SleeveGrossNotional(i.agent, snap.prices);
      hide PlanWith, OpenQty, SleeveGross;
      p := PlanWith(i, snap, s, open, gross);
      if p.Dropped? {
        CountDrop(p.reason);
      }
    }
  }
}
