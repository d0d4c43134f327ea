/**
 * What planning and filling together keep: the sleeve's gross cap, no uncovered sale, and
 * no second order once the first has filled.
 */
module PlannerSafety {
  import opened Common
  import opened Orders
  import opened Lots
  import opened Sizing
  import opened Planner

  // ── Quantities ───────────────────────────────────────────────────────────────

  lemma PositiveProduct(x: real, y: real)
    requires x > 0.0 && y > 0.0
    ensures x * y > 0.0
  {
  }

  lemma Difference(a: real, b: real, c: real)
    ensures (b - a) * c == b * c - a * c
  {
  }

  lemma LessTimes(a: real, b: real, c: real)
    requires a < b && c > 0.0
    ensures a * c < b * c
  {
  }

  lemma AtMostTimes(a: real, b: real, c: real)
    requires a <= b && c > 0.0
    ensures a * c <= b * c
  {
  }

  /** A value on a grid of steps lies between the step below it and the next. */
  lemma StepBelow(x: real, y: real, k: real, step: real)
    requires step > 0.0 && x == y * step && k <= y
    ensures k * step <= x
  {
    AtMostTimes(k, y, step);
  }

  lemma StepAbove(x: real, y: real, k: real, step: real)
    requires step > 0.0 && x == y * step && y < k + 1.0
    ensures x < k * step + step
  {
    LessTimes(y, k + 1.0, step);
  }

  lemma QuotientTimes(x: real, y: real)
    requires y != 0.0
    ensures x == (x / y) * y
  {
  }

  /** Rounding down loses less than one grid step. */
  lemma RoundDownFits(x: real, grid: real)
    requires x >= 0.0 && grid > 0.0
    ensures 0.0 <= RoundDown(x, grid) <= x && x - RoundDown(x, grid) < grid
  {
    QuotientPositive(x, grid);
    QuotientTimes(x, grid);
    var y := x / grid;
    StepBelow(x, y, y.Floor as real, grid);
    StepAbove(x, y, y.Floor as real, grid);
    ProductBelow(y.Floor as real, grid, y.Floor as real, grid);
  }

  lemma Residue(value: real, x: real, qty: real, mark: real, step: real)
    requires value == x * mark && mark > 0.0 && 0.0 <= qty <= x && x - qty < step
    ensures 0.0 <= value - qty * mark < step * mark
  {
    AtMostTimes(qty, x, mark);
    Difference(qty, x, mark);
    LessTimes(x - qty, step, mark);
  }

  /** The quantity for a value at a mark, and what it leaves of the value. */
  lemma QtyFits(value: real, mark: real)
    requires value >= 0.0 && mark > 0.0
    ensures var qty := RoundDown(value / mark, QTY_GRID);
            && 0.0 <= qty <= value / mark && 0.0 <= value - qty * mark < QTY_GRID * mark
            && (value < QTY_GRID * mark ==> qty == 0.0)
  {
    hide RoundDown;
    QuotientPositive(value, mark);
    QuotientTimes(value, mark);
    var x := value / mark;
    RoundDownFits(x, QTY_GRID);
    Residue(value, x, RoundDown(x, QTY_GRID), mark, QTY_GRID);
    BelowOneStep(value, x, mark);
  }

  lemma BelowOneStep(value: real, x: real, mark: real)
    requires mark > 0.0 && x >= 0.0 && value == x * mark
    ensures value < QTY_GRID * mark ==> RoundDown(x, QTY_GRID) == 0.0
  {
    if x >= QTY_GRID {
      AtMostTimes(QTY_GRID, x, mark);
    } else {
      QuotientPositive(x, QTY_GRID);
      assert x / QTY_GRID < 1.0;
      assert (x / QTY_GRID).Floor == 0;
    }
  }

  // ── What a planned order looks like ──────────────────────────────────────────

  predicate PlainIntent(i: Intent) {
    i.legs == [] && !ExitsFully(i)
  }

  /** An order that is not a full exit and has no option legs. */
  ghost predicate SizedOrder(i: Intent, snap: Snapshot, s: Setting, open: real, gross: real, cap: real, t: Ticket) {
    var mark := MarkOfIntent(i, snap);
    var delta := Gap(i, snap, s, open, cap);
    && mark > 0.0 && t.agent == i.agent && t.symbol == NormalizeSymbol(i.symbol) && t.qty > 0.0
    && (t.side == Buy ==>
        delta > 0.0 && 0.0 <= delta - t.qty * mark < QTY_GRID * mark && gross + delta <= cap * s.equity)
    && (t.side == Sell ==>
          && delta < 0.0
          && t.qty == (if open > 0.0 then Min(RoundDown(-delta / mark, QTY_GRID), open)
                       else RoundDown(-delta / mark, QTY_GRID)))
  }

  lemma SizedOrders(i: Intent, snap: Snapshot, s: Setting, open: real, gross: real, cap: real)
    requires PlainIntent(i)
    ensures var p := PlanDelta(i, snap, s, open, gross, cap);
            !p.Halted? && (p.Planned? ==> SizedOrder(i, snap, s, open, gross, cap, p.ticket))
  {
    hide Gap, RoundDown, NormalizeSymbol, WithinBand;
    var p := PlanDelta(i, snap, s, open, gross, cap);
    if p.Planned? {
      var mark := MarkOfIntent(i, snap);
      var delta := Gap(i, snap, s, open, cap);
      assert mark > 0.0;
      QtyFits(Abs(delta), mark);
    }
  }

  /** The two kinds of order without option legs: a full exit, or one sized by the gap. */
  lemma PlannedKinds(i: Intent, snap: Snapshot, s: Setting, open: real, gross: real)
    requires i.legs == []
    ensures var p := PlanWith(i, snap, s, open, gross);
            p.Planned? ==>
              && p.ticket.agent == i.agent && p.ticket.symbol == NormalizeSymbol(i.symbol)
              && MarkOfIntent(i, snap) > 0.0
              && EffectiveMaxGross(i.agent, s.capability, snap.vix, s.drawdown, s.weights).Some?
              && (if ExitsFully(i) then p.ticket.side == Sell && p.ticket.qty == open > 0.0
                  else SizedOrder(i, snap, s, open, gross,
                                  EffectiveMaxGross(i.agent, s.capability, snap.vix, s.drawdown, s.weights).value,
                                  p.ticket))
  {
    hide PlanDelta, EffectiveMaxGross, NormalizeSymbol, SizedOrder;
    if !ExitsFully(i) {
      var cap := EffectiveMaxGross(i.agent, s.capability, snap.vix, s.drawdown, s.weights);
      if cap.Some? {
        SizedOrders(i, snap, s, open, gross, cap.value);
        SizedHasMark(i, snap, s, open, gross, cap.value);
      }
    }
  }

  lemma SizedHasMark(i: Intent, snap: Snapshot, s: Setting, open: real, gross: real, cap: real)
    requires PlainIntent(i)
    ensures var p := PlanDelta(i, snap, s, open, gross, cap);
            p.Planned? ==>
              MarkOfIntent(i, snap) > 0.0 && p.ticket.agent == i.agent && p.ticket.symbol == NormalizeSymbol(i.symbol)
  {
    SizedOrders(i, snap, s, open, gross, cap);
    hide PlanDelta, Gap, RoundDown, NormalizeSymbol;
  }

  // ── Selling only what is held ────────────────────────────────────────────────

  /** A planned sale is covered by the open lots if and only if something is open. */
  lemma SellCoveredIffHeld(i: Intent, snap: Snapshot, s: Setting, lots: seq<Lot>)
    requires i.legs == [] && SoundLots(lots)
    ensures var p := PlanIntent(i, snap, s, lots);
            p.Planned? && p.ticket.side == Sell ==> (0.0 < p.ticket.qty <= OpenFor(i, lots) <==> OpenFor(i, lots) > 0.0)
  {
    hide SleeveGross, PlanWith, NormalizeSymbol, EffectiveMaxGross, RoundDown;
    PlannedKinds(i, snap, s, OpenFor(i, lots), SleeveGross(lots, i.agent, snap.prices));
  }

  /** Weights, equity and capability that are not negative. */
  predicate Sensible(i: Intent, s: Setting) {
    i.targetWeight >= 0.0 && s.equity >= 0.0 && s.capability >= 0.0
  }

  lemma TargetNotNegative(i: Intent, snap: Snapshot, s: Setting, cap: real)
    requires Sensible(i, s) && cap >= 0.0
    ensures TargetNotional(i, snap, s, cap) >= 0.0
  {
    var symbol := NormalizeSymbol(i.symbol);
    var vol := if symbol in snap.realizedVol then snap.realizedVol[symbol] else DEFAULT_VOL;
    ProductBelow(BaseVolTarget(i.agent), s.capability, BaseVolTarget(i.agent), s.capability);
    TargetIsPositive(i.targetWeight, s.equity, vol, BaseVolTarget(i.agent) * s.capability);
    ProductBelow(cap, s.equity, cap, s.equity);
    hide VolTargetedValue;
  }

  /** With sensible inputs a planned sale is always covered, so booking it never falls short. */
  lemma SensibleSalesAreCovered(i: Intent, snap: Snapshot, s: Setting, lots: seq<Lot>, f: Fill)
    requires i.legs == [] && SoundLots(lots) && Sensible(i, s)
    ensures var p := PlanIntent(i, snap, s, lots);
            p.Planned? && p.ticket.side == Sell ==>
              && 0.0 < p.ticket.qty <= OpenFor(i, lots)
              && CloseLots(lots, p.ticket.agent, p.ticket.symbol, p.ticket.qty, f, Fifo).Closed?
  {
    hide SleeveGross, PlanWith, NormalizeSymbol, RoundDown, CloseLots, TargetNotional, OpenQty, EffectiveMaxGross;
    var open := OpenFor(i, lots);
    var p := PlanIntent(i, snap, s, lots);
    SellCoveredIffHeld(i, snap, s, lots);
    PlannedKinds(i, snap, s, open, SleeveGross(lots, i.agent, snap.prices));
    if p.Planned? && p.ticket.side == Sell {
      NormalizeTwice(i.symbol);
      SaleSucceedsIffCovered(lots, p.ticket.agent, p.ticket.symbol, p.ticket.qty, f, Fifo);
      SaleAvailable(lots, i.agent, NormalizeSymbol(i.symbol), Fifo);
      if !ExitsFully(i) {
        var cap := EffectiveMaxGross(i.agent, s.capability, snap.vix, s.drawdown, s.weights).value;
        CapIsBounded(i.agent, s.capability, snap.vix, s.drawdown, s.weights);
        TargetNotNegative(i, snap, s, cap);
        assert open != 0.0;
      }
    }
  }

  lemma ExactRound()
    ensures RoundDown(5000.0 / 100.0, QTY_GRID) == 50.0
  {
    assert 50.0 / QTY_GRID == 50000000000.0;
    assert (50000000000.0).Floor == 50000000000;
  }

  lemma ShortTarget(i: Intent, snap: Snapshot, s: Setting)
    requires i == Intent(Haiku, "SPY", RebalanceTo, -0.5, []) && NormalizeSymbol("SPY") == "SPY"
    requires s == Setting(10000.0, Normal, 1.0, map[])
          && snap == Snapshot(map["SPY" := 100.0], map["SPY" := 0.30], SweetSpot)
    ensures Gap(i, snap, s, 0.0, 1.5) == -5000.0 && MarkOfIntent(i, snap) == 100.0
    ensures EffectiveMaxGross(Haiku, 1.0, SweetSpot, Normal, map[]) == Some(1.5)
  {
    hide NormalizeSymbol;
    assert SizingMultiplier(0.30, 0.3) == 1.0;
  }

  /**
   * Nothing checks that a target weight is not negative: such a rebalance of a symbol the
   * agent does not hold plans a sale of shares it does not have.
   */
  lemma NegativeWeightSellsUncovered(i: Intent, snap: Snapshot, s: Setting)
    requires i == Intent(Haiku, "SPY", RebalanceTo, -0.5, [])
    requires s == Setting(10000.0, Normal, 1.0, map[])
          && snap == Snapshot(map["SPY" := 100.0], map["SPY" := 0.30], SweetSpot)
    ensures PlanIntent(i, snap, s, []) == Planned(Ticket(Haiku, "SPY", Sell, 50.0, Simple))
  {
    NormalizeIsCanonical("SPY");
    assert Canonical("SPY");
    ShortTarget(i, snap, s);
    ExactRound();
    hide NormalizeSymbol, RoundDown, Gap, EffectiveMaxGross, SleeveGross;
    assert OpenFor(i, []) == 0.0;
  }

  // ── The gross cap ────────────────────────────────────────────────────────────

  lemma {:induction false} SameMarksSameGross(lots: seq<Lot>, agent: AgentId, m: string -> real, n: string -> real)
    requires forall k :: 0 <= k < |lots| && lots[k].agent == agent && !lots[k].isClosed ==>
               m(lots[k].symbol) == n(lots[k].symbol)
    ensures MarkedOpen(lots, agent, m) == MarkedOpen(lots, agent, n)
  {
    if lots != [] {
      SameMarksSameGross(lots[..|lots| - 1], agent, m, n);
    }
  }

  lemma MarkedStep(lots: seq<Lot>, agent: AgentId, mark: string -> real, n: nat)
    requires n < |lots|
    ensures MarkedOpen(lots[..n + 1], agent, mark)
         == MarkedOpen(lots[..n], agent, mark) + OpenPart(lots[n], agent, lots[n].symbol) * mark(lots[n].symbol)
  {
    assert lots[..n + 1][..n] == lots[..n];
  }

  lemma LotMoves(before: Lot, now: Lot, agent: AgentId, symbol: string, price: real)
    requires SoundLot(before) && SoundLot(now) && OnlyConsumed(before, now)
          && (!Candidate(before, agent, symbol) ==> now == before)
    ensures now.symbol == before.symbol
    ensures before.symbol != symbol || before.agent != agent ==>
              now == before && OpenPart(now, agent, symbol) == 0.0 == OpenPart(before, agent, symbol)
  {
  }

  lemma Product(a: real, b: real, c: real)
    ensures (a - b) * c == a * c - b * c
  {
  }

  lemma GrossStep(a: real, b: real, p: real, p0: real, q: real, r: real, was: real, left: real, price: real)
    requires a == b - (q - r) * price && p == p0 + (left - was) * price
    ensures a + p == b + p0 - ((q + was) - (r + left)) * price
  {
    Product(q - r, left - was, price);
    assert (q + was) - (r + left) == (q - r) - (left - was);
  }

  /** Lots consumed in one symbol lower the gross by what they gave up at its mark. */
  lemma {:induction false} ConsumedLowersGross(lots: seq<Lot>, now: seq<Lot>, agent: AgentId, symbol: string,
                                               mark: string -> real, n: nat)
    requires ConsumedAmong(lots, now, agent, symbol) && |now| == |lots| && n <= |lots|
    ensures MarkedOpen(now[..n], agent, mark)
         == MarkedOpen(lots[..n], agent, mark)
            - (OpenQty(lots[..n], agent, symbol) - OpenQty(now[..n], agent, symbol)) * mark(symbol)
  {
    hide ConsumedAmong, MarkedOpen, OpenQty, OpenPart, SoundLot, OnlyConsumed, Candidate;
    if n == 0 {
      NothingMarked(lots, now, agent, symbol, mark);
    } else {
      ConsumedLowersGross(lots, now, agent, symbol, mark, n - 1);
      MarkedStep(lots, agent, mark, n - 1);
      MarkedStep(now, agent, mark, n - 1);
      OpenQtyStep(lots, agent, symbol, n - 1);
      OpenQtyStep(now, agent, symbol, n - 1);
      PartMoves(lots, now, agent, symbol, mark, n - 1);
      var was, left := OpenPart(lots[n - 1], agent, symbol), OpenPart(now[n - 1], agent, symbol);
      var q, r := OpenQty(lots[..n - 1], agent, symbol), OpenQty(now[..n - 1], agent, symbol);
      var a, b := MarkedOpen(now[..n - 1], agent, mark), MarkedOpen(lots[..n - 1], agent, mark);
      var p := OpenPart(lots[n - 1], agent, lots[n - 1].symbol) * mark(lots[n - 1].symbol);
      GrossStep(a, b, p + (left - was) * mark(symbol), p, q, r, was, left, mark(symbol));
    }
  }

  lemma NothingMarked(lots: seq<Lot>, now: seq<Lot>, agent: AgentId, symbol: string, mark: string -> real)
    ensures MarkedOpen(now[..0], agent, mark) == 0.0 && MarkedOpen(lots[..0], agent, mark) == 0.0
    ensures OpenQty(lots[..0], agent, symbol) == 0.0 && OpenQty(now[..0], agent, symbol) == 0.0
  {
  }

  lemma PartMoves(lots: seq<Lot>, now: seq<Lot>, agent: AgentId, symbol: string, mark: string -> real, k: nat)
    requires ConsumedAmong(lots, now, agent, symbol) && |now| == |lots| && k < |lots|
    ensures var was, left := OpenPart(lots[k], agent, symbol), OpenPart(now[k], agent, symbol);
            OpenPart(now[k], agent, now[k].symbol) * mark(now[k].symbol)
            == OpenPart(lots[k], agent, lots[k].symbol) * mark(lots[k].symbol) + (left - was) * mark(symbol)
  {
    LotMoves(lots[k], now[k], agent, symbol, 0.0);
    hide ConsumedAmong, SoundLot, OnlyConsumed, Candidate;
    var was, left := OpenPart(lots[k], agent, symbol), OpenPart(now[k], agent, symbol);
    Product(left, was, mark(symbol));
  }

  lemma {:induction false} FirstEntryKept(lots: seq<Lot>, now: seq<Lot>, agent: AgentId, key: string)
    requires |now| == |lots|
    requires forall k :: 0 <= k < |lots| && (now[k] != lots[k]) ==> now[k].symbol == lots[k].symbol != key
    ensures FirstEntry(now, agent, key) == FirstEntry(lots, agent, key)
  {
    if lots != [] {
      FirstEntryKept(lots[1..], now[1..], agent, key);
    }
  }

  lemma {:induction false} FirstEntryAppend(lots: seq<Lot>, lot: Lot, agent: AgentId, key: string)
    requires lot.symbol != key
    ensures FirstEntry(lots + [lot], agent, key) == FirstEntry(lots, agent, key)
  {
    if lots == [] {
      assert (lots + [lot])[1..] == [];
    } else {
      assert (lots + [lot])[1..] == lots[1..] + [lot];
      FirstEntryAppend(lots[1..], lot, agent, key);
    }
  }

  /** A sale of a marked symbol never raises the gross. */
  lemma SaleLowersGross(lots: seq<Lot>, agent: AgentId, symbol: string, qty: real, f: Fill, prices: map<string, real>)
    requires SoundLots(lots) && qty >= 0.0 && NormalizeSymbol(symbol) == symbol && HasMark(prices, symbol)
    ensures var r := CloseLots(lots, agent, symbol, qty, f, Fifo);
            r.Closed? ==> SleeveGross(r.lots, agent, prices) <= SleeveGross(lots, agent, prices)
  {
    hide SleeveGross, OpenQty, SoundLots, NormalizeSymbol, HasMark, SoldFrom;
    SaleSucceedsIffCovered(lots, agent, symbol, qty, f, Fifo);
    if qty <= OpenQty(lots, agent, symbol) {
      hide CloseLots, Consumed, SaleOrder, SumAt;
      SaleTakesAPrefix(lots, agent, symbol, qty, f, Fifo);
      SaleAmong(lots, agent, symbol, qty, f);
      var now := CloseLots(lots, agent, symbol, qty, f, Fifo).lots;
      SoldLess(lots, now, agent, symbol, qty, f.price);
      AmongLowersGross(lots, now, agent, symbol, prices);
    }
  }

  lemma SoldLess(lots: seq<Lot>, now: seq<Lot>, agent: AgentId, symbol: string, qty: real, price: real)
    requires SoldFrom(lots, now, agent, symbol, qty, price, Fifo) && qty >= 0.0
    ensures OpenQty(now, agent, symbol) <= OpenQty(lots, agent, symbol) && |now| == |lots|
  {
    hide TakesPrefix, OpenQty, SoundLots, OnlyConsumed;
  }

  lemma SaleAmong(lots: seq<Lot>, agent: AgentId, symbol: string, qty: real, f: Fill)
    requires SoundLots(lots) && 0.0 <= qty && NormalizeSymbol(symbol) == symbol
          && CloseLots(lots, agent, symbol, qty, f, Fifo).Closed?
    ensures ConsumedAmong(lots, CloseLots(lots, agent, symbol, qty, f, Fifo).lots, agent, symbol)
  {
    hide SoundLots, Consumed, SaleOrder, SumAt, ConsumedAmong, PrefixSold;
    SaleConsumes(lots, agent, symbol, qty, f, Fifo);
  }

  lemma MarksKept(lots: seq<Lot>, now: seq<Lot>, agent: AgentId, symbol: string, prices: map<string, real>, s: string)
    requires ConsumedAmong(lots, now, agent, symbol) && HasMark(prices, symbol)
    ensures MarkFor(now, agent, prices, s) == MarkFor(lots, agent, prices, s)
  {
    var key := NormalizeSymbol(s);
    if !HasMark(prices, key) {
      forall k | 0 <= k < |lots| && now[k] != lots[k] ensures now[k].symbol == lots[k].symbol != key {
        assert Candidate(lots[k], agent, symbol) && OnlyConsumed(lots[k], now[k]);
      }
      hide ConsumedAmong, NormalizeSymbol;
      FirstEntryKept(lots, now, agent, key);
    }
  }

  lemma AmongLowersGross(lots: seq<Lot>, now: seq<Lot>, agent: AgentId, symbol: string, prices: map<string, real>)
    requires ConsumedAmong(lots, now, agent, symbol) && |now| == |lots| && HasMark(prices, symbol)
          && NormalizeSymbol(symbol) == symbol
    requires OpenQty(now, agent, symbol) <= OpenQty(lots, agent, symbol)
    ensures SleeveGross(now, agent, prices) <= SleeveGross(lots, agent, prices)
  {
    hide ConsumedAmong, OpenQty, MarkedOpen, NormalizeSymbol;
    var was := Marking(lots, agent, prices);
    forall s ensures Marking(now, agent, prices)(s) == was(s) {
      MarksKept(lots, now, agent, symbol, prices, s);
    }
    SameMarksSameGross(now, agent, Marking(now, agent, prices), was);
    ConsumedLowersGross(lots, now, agent, symbol, was, |lots|);
    assert now[..|now|] == now && lots[..|lots|] == lots;
    LowersByProduct(SleeveGross(lots, agent, prices), SleeveGross(now, agent, prices),
                    OpenQty(lots, agent, symbol) - OpenQty(now, agent, symbol), was(symbol));
  }

  lemma LowersByProduct(before: real, now: real, x: real, y: real)
    requires now == before - x * y && x >= 0.0 && y >= 0.0
    ensures now <= before
  {
    NoNegativeProduct(x, y);
  }

  lemma NoNegativeProduct(x: real, y: real)
    requires x >= 0.0 && y >= 0.0
    ensures x * y >= 0.0
  {
  }

  /** A purchase of a marked symbol raises the gross by its value at the mark. */
  lemma PurchaseRaisesGross(lots: seq<Lot>, lot: Lot, prices: map<string, real>)
    requires NormalizeSymbol(lot.symbol) == lot.symbol && HasMark(prices, lot.symbol) && !lot.isClosed
    ensures SleeveGross(lots + [lot], lot.agent, prices)
         == SleeveGross(lots, lot.agent, prices) + lot.remaining * prices[lot.symbol]
  {
    var now := lots + [lot];
    var was, left := Marking(lots, lot.agent, prices), Marking(now, lot.agent, prices);
    forall s ensures left(s) == was(s) {
      var key := NormalizeSymbol(s);
      if !HasMark(prices, key) {
        FirstEntryAppend(lots, lot, lot.agent, key);
      }
    }
    hide FirstEntry, NormalizeSymbol;
    SameMarksSameGross(now, lot.agent, left, was);
    assert now[..|lots|] == lots;
  }

  /**
   * Plan an intent without option legs and fill the order in full at its mark: the
   * sleeve's gross ends no higher than it was, or no higher than its cap.
   */
  lemma FillKeepsGrossCap(i: Intent, snap: Snapshot, s: Setting, lots: seq<Lot>, f: Fill)
    requires i.legs == [] && SoundLots(lots)
    ensures var p := PlanIntent(i, snap, s, lots);
            p.Planned? ==>
              var cap := EffectiveMaxGross(i.agent, s.capability, snap.vix, s.drawdown, s.weights);
              var after := FilledAtMark(lots, p.ticket, MarkOfIntent(i, snap), f);
              && cap.Some? && SoundLots(after)
              && SleeveGross(after, i.agent, snap.prices)
                   <= Max(SleeveGross(lots, i.agent, snap.prices), cap.value * s.equity)
  {
    hide SleeveGross, PlanWith, RoundDown, NormalizeSymbol, EffectiveMaxGross, OpenQty, SoundLots, Gap, CloseLots;
    var gross := SleeveGross(lots, i.agent, snap.prices);
    var p := PlanIntent(i, snap, s, lots);
    PlannedKinds(i, snap, s, OpenFor(i, lots), gross);
    if p.Planned? {
      var t, mark := p.ticket, MarkOfIntent(i, snap);
      var own := f.(agent := t.agent, symbol := t.symbol, side := t.side, qty := t.qty, price := mark);
      NormalizeTwice(i.symbol);
      PositiveTicket(i, snap, s, lots);
      BookKeepsSound(Ledger(lots, {}), own, Fifo);
      if t.side == Buy {
        PurchaseRaisesGross(lots, NewLot(own), snap.prices);
      } else {
        SaleLowersGross(lots, i.agent, t.symbol, t.qty, own, snap.prices);
      }
    }
  }

  lemma PositiveTicket(i: Intent, snap: Snapshot, s: Setting, lots: seq<Lot>)
    requires i.legs == []
    ensures PlanIntent(i, snap, s, lots).Planned? ==> PlanIntent(i, snap, s, lots).ticket.qty > 0.0
  {
    hide SleeveGross, PlanWith, RoundDown, NormalizeSymbol, EffectiveMaxGross, OpenQty, Gap;
    PlannedKinds(i, snap, s, OpenFor(i, lots), SleeveGross(lots, i.agent, snap.prices));
  }

  /** One cycle: an intent, what sizing reads, and the fill its order would get. */
  datatype Cycle = Cycle(intent: Intent, setting: Setting, vix: VixBucket, fill: Fill)

  function AfterCycle(lots: seq<Lot>, c: Cycle, prices: map<string, real>, vols: map<string, real>): seq<Lot> {
    var snap := Snapshot(prices, vols, c.vix);
    match PlanIntent(c.intent, snap, c.setting, lots)
    case Planned(t) => FilledAtMark(lots, t, MarkOfIntent(c.intent, snap), c.fill)
    case _ => lots
  }

  function AfterCycles(lots: seq<Lot>, cycles: seq<Cycle>, prices: map<string, real>,
                       vols: map<string, real>): seq<Lot> {
    if cycles == [] then lots
    else AfterCycle(AfterCycles(lots, cycles[..|cycles| - 1], prices, vols), cycles[|cycles| - 1], prices, vols)
  }

  /** A cycle of this agent whose own gross cap is within a bound. */
  predicate Within(c: Cycle, agent: AgentId, bound: real) {
    && c.intent.agent == agent && c.intent.legs == []
    && var cap := EffectiveMaxGross(agent, c.setting.capability, c.vix, c.setting.drawdown, c.setting.weights);
       cap.Some? ==> cap.value * c.setting.equity <= bound
  }

  /** Over any number of cycles at one set of marks, gross never passes the larger of where it began and the caps. */
  lemma {:induction false} CyclesKeepGrossCap(lots: seq<Lot>, cycles: seq<Cycle>, prices: map<string, real>,
                                              vols: map<string, real>, agent: AgentId, bound: real)
    requires SoundLots(lots) && forall n :: 0 <= n < |cycles| ==> Within(cycles[n], agent, bound)
    ensures var after := AfterCycles(lots, cycles, prices, vols);
            SoundLots(after) && SleeveGross(after, agent, prices) <= Max(SleeveGross(lots, agent, prices), bound)
  {
    hide SleeveGross, PlanIntent, EffectiveMaxGross, FilledAtMark, SoundLots;
    if cycles != [] {
      var init, c := cycles[..|cycles| - 1], cycles[|cycles| - 1];
      CyclesKeepGrossCap(lots, init, prices, vols, agent, bound);
      assert Within(c, agent, bound);
      FillKeepsGrossCap(c.intent, Snapshot(prices, vols, c.vix), c.setting, AfterCycles(lots, init, prices, vols),
                        c.fill);
    }
  }

  // ── No second order ──────────────────────────────────────────────────────────

  /** A gap under a dollar, or under one quantity step at the mark, is never traded. */
  lemma TinyGapDrops(i: Intent, snap: Snapshot, s: Setting, open: real, gross: real, cap: real)
    requires i.legs == [] && MarkOfIntent(i, snap) > 0.0
    requires Abs(Gap(i, snap, s, open, cap)) < 1.0 || Abs(Gap(i, snap, s, open, cap)) < QTY_GRID * MarkOfIntent(i, snap)
    ensures PlanDelta(i, snap, s, open, gross, cap).Dropped?
  {
    hide Gap, RoundDown, NormalizeSymbol, WithinBand;
    QtyFits(Abs(Gap(i, snap, s, open, cap)), MarkOfIntent(i, snap));
  }

  lemma OpenAfterPurchase(lots: seq<Lot>, f: Fill)
    requires NormalizeSymbol(f.symbol) == f.symbol
    ensures OpenQty(lots + [NewLot(f)], f.agent, f.symbol) == OpenQty(lots, f.agent, f.symbol) + f.qty
  {
    assert (lots + [NewLot(f)])[..|lots|] == lots;
    hide NormalizeSymbol;
  }

  lemma GapMoves(i: Intent, snap: Snapshot, s: Setting, open: real, traded: real, cap: real)
    ensures Gap(i, snap, s, open + traded, cap) == Gap(i, snap, s, open, cap) - traded * MarkOfIntent(i, snap)
  {
    hide TargetNotional, MarkOfIntent;
    assert (open + traded) * MarkOfIntent(i, snap) == open * MarkOfIntent(i, snap) + traded * MarkOfIntent(i, snap);
  }

  /** With a target that is not negative, the sale planned never needs its cap at the open quantity. */
  lemma SaleNeedsNoCap(i: Intent, snap: Snapshot, s: Setting, open: real, cap: real)
    requires TargetNotional(i, snap, s, cap) >= 0.0 && MarkOfIntent(i, snap) > 0.0 && Gap(i, snap, s, open, cap) < 0.0
    ensures open > 0.0 && RoundDown(-Gap(i, snap, s, open, cap) / MarkOfIntent(i, snap), QTY_GRID) <= open
  {
    hide TargetNotional, RoundDown, MarkOfIntent;
    var mark, value := MarkOfIntent(i, snap), -Gap(i, snap, s, open, cap);
    QtyFits(value, mark);
    if open <= 0.0 {
      AtMostTimes(open, 0.0, mark);
    }
    QuotientAtMost(value, mark, open);
  }

  lemma QuotientAtMost(value: real, mark: real, open: real)
    requires mark > 0.0 && value <= open * mark
    ensures value / mark <= open
  {
    QuotientTimes(value, mark);
    if open < value / mark {
      LessTimes(open, value / mark, mark);
    }
  }

  /** How far a position may end from its target: one quantity step, or a sliver of dust below it. */
  predicate NearlyThere(gap: real, mark: real) {
    -QTY_GRID * mark < gap && (gap < QTY_GRID * mark || gap < DUST_NOTIONAL_USD)
  }

  lemma SaleResidue(gap: real, mark: real, qty: real, sliver: real)
    requires mark > 0.0 && OnlyDust(sliver, mark) && 0.0 <= -gap - qty * mark < QTY_GRID * mark
    ensures var left := gap - (-(qty + sliver)) * mark;
            -QTY_GRID * mark < left < DUST_NOTIONAL_USD
  {
    assert (-(qty + sliver)) * mark == -(qty * mark) - sliver * mark;
    ProductBelow(sliver, mark, sliver, mark);
    if sliver == 0.0 {
      assert sliver * mark == 0.0;
    }
  }

  /** What is open in the intent's symbol once its order has filled at the mark. */
  lemma OpenAfterFill(i: Intent, snap: Snapshot, s: Setting, lots: seq<Lot>, f: Fill)
    requires i.legs == [] && SoundLots(lots) && Sensible(i, s)
    ensures var p := PlanIntent(i, snap, s, lots);
            p.Planned? ==>
              var t := p.ticket;
              var mark := MarkOfIntent(i, snap);
              var after := FilledAtMark(lots, t, mark, f);
              && (t.side == Buy ==> OpenFor(i, after) == OpenFor(i, lots) + t.qty)
              && (t.side == Sell ==>
                  OnlyDust(OpenFor(i, lots) - OpenFor(i, after) - t.qty, mark) && OpenFor(i, after) >= 0.0)
  {
    hide SleeveGross, PlanWith, RoundDown, NormalizeSymbol, EffectiveMaxGross, OpenQty, SoundLots, Gap, CloseLots,
         OnlyDust;
    var p := PlanIntent(i, snap, s, lots);
    PlannedKinds(i, snap, s, OpenFor(i, lots), SleeveGross(lots, i.agent, snap.prices));
    if p.Planned? {
      var t, mark := p.ticket, MarkOfIntent(i, snap);
      var own := f.(agent := t.agent, symbol := t.symbol, side := t.side, qty := t.qty, price := mark);
      NormalizeTwice(i.symbol);
      if t.side == Buy {
        OpenAfterPurchase(lots, own);
      } else {
        SensibleSalesAreCovered(i, snap, s, lots, own);
        SaleTakesAPrefix(lots, t.agent, t.symbol, t.qty, own, Fifo);
        SoldOpen(lots, CloseLots(lots, t.agent, t.symbol, t.qty, own, Fifo).lots, t.agent, t.symbol, t.qty, mark);
      }
    }
  }

  lemma SoldOpen(lots: seq<Lot>, now: seq<Lot>, agent: AgentId, symbol: string, qty: real, price: real)
    requires SoldFrom(lots, now, agent, symbol, qty, price, Fifo)
    ensures OnlyDust(OpenQty(lots, agent, symbol) - OpenQty(now, agent, symbol) - qty, price)
         && OpenQty(now, agent, symbol) >= 0.0
  {
    SaleAvailable(now, agent, symbol, Fifo);
    hide TakesPrefix, OpenQty, OnlyDust, SaleOrder, SumAt, OnlyConsumed;
  }

  lemma PurchaseClosesGap(i: Intent, snap: Snapshot, s: Setting, open: real, gross: real, cap: real, t: Ticket)
    requires SizedOrder(i, snap, s, open, gross, cap, t) && t.side == Buy
    ensures NearlyThere(Gap(i, snap, s, open + t.qty, cap), MarkOfIntent(i, snap))
  {
    hide TargetNotional, RoundDown, NormalizeSymbol, MarkOfIntent, Gap;
    GapMoves(i, snap, s, open, t.qty, cap);
    PositiveProduct(QTY_GRID, MarkOfIntent(i, snap));
    assert -QTY_GRID * MarkOfIntent(i, snap) == -(QTY_GRID * MarkOfIntent(i, snap));
  }

  lemma SaleClosesGap(i: Intent, snap: Snapshot, s: Setting, open: real, gross: real, cap: real, t: Ticket,
                      sliver: real)
    requires SizedOrder(i, snap, s, open, gross, cap, t) && t.side == Sell && TargetNotional(i, snap, s, cap) >= 0.0
    requires OnlyDust(sliver, MarkOfIntent(i, snap))
    ensures NearlyThere(Gap(i, snap, s, open - t.qty - sliver, cap), MarkOfIntent(i, snap))
  {
    hide TargetNotional, RoundDown, NormalizeSymbol, MarkOfIntent, Gap, OnlyDust;
    var mark, gap := MarkOfIntent(i, snap), Gap(i, snap, s, open, cap);
    SaleNeedsNoCap(i, snap, s, open, cap);
    QtyFits(-gap, mark);
    GapMoves(i, snap, s, open, -(t.qty + sliver), cap);
    assert open + -(t.qty + sliver) == open - t.qty - sliver;
    SaleResidue(gap, mark, t.qty, sliver);
  }

  /** After the fill of a sized order, what is left of the gap is too small to trade. */
  lemma FillClosesGap(i: Intent, snap: Snapshot, s: Setting, open: real, gross: real, cap: real, t: Ticket, after: real)
    requires Sensible(i, s) && cap >= 0.0 && SizedOrder(i, snap, s, open, gross, cap, t)
    requires t.side == Buy ==> after == open + t.qty
    requires t.side == Sell ==> OnlyDust(open - after - t.qty, MarkOfIntent(i, snap))
    ensures NearlyThere(Gap(i, snap, s, after, cap), MarkOfIntent(i, snap))
  {
    hide TargetNotional, RoundDown, NormalizeSymbol, MarkOfIntent, Gap, OnlyDust, SizedOrder, NearlyThere;
    if t.side == Buy {
      PurchaseClosesGap(i, snap, s, open, gross, cap, t);
    } else {
      TargetNotNegative(i, snap, s, cap);
      SaleClosesGap(i, snap, s, open, gross, cap, t, open - after - t.qty);
    }
  }

  /**
   * Plan, fill in full at the mark, plan the same intent again: there is no second order,
   * and after a sized order the position is within a step and a sliver of its target. No
   * assumption on the size of the sleeve is needed.
   */
  lemma NoSecondOrder(i: Intent, snap: Snapshot, s: Setting, lots: seq<Lot>, f: Fill)
    requires i.legs == [] && SoundLots(lots) && Sensible(i, s)
    ensures var p := PlanIntent(i, snap, s, lots);
            p.Planned? ==>
              var mark := MarkOfIntent(i, snap);
              var after := FilledAtMark(lots, p.ticket, mark, f);
              var cap := EffectiveMaxGross(i.agent, s.capability, snap.vix, s.drawdown, s.weights);
              && PlanIntent(i, snap, s, after).Dropped?
              && cap.Some? && (ExitsFully(i) ==> OpenFor(i, after) == 0.0)
              && (!ExitsFully(i) ==> NearlyThere(Gap(i, snap, s, OpenFor(i, after), cap.value), mark))
  {
    hide SleeveGross, RoundDown, NormalizeSymbol, EffectiveMaxGross, OpenFor, SoundLots, Gap, OnlyDust, PlanDelta,
         FilledAtMark, PlanClose, SizedOrder, MarkOfIntent;
    var open, gross := OpenFor(i, lots), SleeveGross(lots, i.agent, snap.prices);
    var p := PlanIntent(i, snap, s, lots);
    PlannedKinds(i, snap, s, open, gross);
    OpenAfterFill(i, snap, s, lots, f);
    if p.Planned? {
      var t, mark := p.ticket, MarkOfIntent(i, snap);
      var lots' := FilledAtMark(lots, t, mark, f);
      var after, gross' := OpenFor(i, lots'), SleeveGross(lots', i.agent, snap.prices);
      var cap := EffectiveMaxGross(i.agent, s.capability, snap.vix, s.drawdown, s.weights).value;
      CapIsBounded(i.agent, s.capability, snap.vix, s.drawdown, s.weights);
      if ExitsFully(i) {
        ExitLeavesNothing(open, after, mark);
        NothingToClose(i, snap, s, after);
      } else {
        FillClosesGap(i, snap, s, open, gross, cap, t, after);
        TinyGapDrops(i, snap, s, after, gross', cap);
      }
    }
  }

  lemma ExitLeavesNothing(open: real, after: real, mark: real)
    requires OnlyDust(open - after - open, mark) && after >= 0.0
    ensures after == 0.0
  {
  }

  lemma NothingToClose(i: Intent, snap: Snapshot, s: Setting, open: real)
    requires open == 0.0
    ensures PlanClose(i, snap, s, open).Dropped?
  {
  }
}
