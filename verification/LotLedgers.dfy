/** The ledger object as the program keeps it (execution/lots.py). */
module LotLedgers {
  import opened Common
  import opened Orders
  import opened Lots

  datatype CloseResult = WrongSide | Short | Done

  class LotLedger {
    var lots: seq<Lot>
    var booked: set<FillId>

    constructor ()
      ensures View() == EMPTY_LEDGER
    {
      lots, booked := [], {};
    }

    function View(): Ledger
      reads this
    {
      Ledger(lots, booked)
    }

    /** Idempotent booking: a fill that was seen before is ignored. */
    method BookFill(f: Fill, how: LotMethod)
      modifies this
      ensures View() == Book(old(View()), f, how)
    {
      if f.id in booked {
        return;
      }
      booked := booked + {f.id};
      if f.side == Buy {
        var _ := OpenLot(f);
      } else {
        var _ := CloseLots(f.agent, f.symbol, f.qty, f, how);
      }
    }

    method OpenLot(f: Fill) returns (ok: bool)
      modifies this`lots
      ensures ok == (f.side == Buy)
      ensures lots == if ok then old(lots) + [NewLot(f)] else old(lots)
    {
      if f.side != Buy {
        return false;
      }
      lots := lots + [NewLot(f)];
      return true;
    }

    method CloseLots(agent: AgentId, symbol: string, qty: real, f: Fill, how: LotMethod) returns (r: CloseResult)
      modifies this`lots
      ensures r == WrongSide <==> f.side != Sell
      ensures f.side == Sell ==>
                r == match Lots.CloseLots(old(lots), agent, symbol, qty, f, how)
                     case Shortfall => Short
                     case Closed(_) => Done
      ensures lots == if r == Done then Lots.CloseLots(old(lots), agent, symbol, qty, f, how).lots else old(lots)
    {
      if f.side != Sell {
        return WrongSide;
      }
      var candidates := OpenPositions(agent, NormalizeSymbol(symbol));
      var order := SortByDate(lots, candidates, how);
      var available := AvailableAt(order);
      if qty > available {
        return Short;
      }
      ConsumeInOrder(order, qty, f);
      return Done;
    }

    method AvailableAt(order: seq<nat>) returns (available: real)
      requires InRange(lots, order)
      ensures available == SumAt(lots, order)
    {
      available := 0.0;
      for i := 0 to |order|
        invariant available == SumAt(lots, order[..i])
      {
        assert order[..i + 1][..i] == order[..i];
        available := available + lots[order[i]].remaining;
      }
      assert order[..|order|] == order;
    }

    /** Take the wanted quantity from the lots in order, until it is met. */
    method ConsumeInOrder(order: seq<nat>, want: real, f: Fill)
      requires InRange(lots, order)
      modifies this`lots
      ensures lots == Consumed(old(lots), order, want, f).0
    {
      ghost var start := lots;
      var left := want;
      var i := 0;
      assert order[..0] == [];
      while i < |order| && left > 0.0
        invariant 0 <= i <= |order| && |lots| == |start|
        invariant (lots, left) == Consumed(start, order[..i], want, f)
      {
        assert order[..i + 1][..i] == order[..i];
        var lot := lots[order[i]];
        var consume := Min(lot.remaining, left);
        var rest := lot.remaining - consume;
        if rest > 0.0 && f.price > 0.0 && rest * f.price < DUST_NOTIONAL_USD {
          rest := 0.0;
        }
        var closed := rest == 0.0;
        lots := lots[order[i] := lot.(remaining := rest, isClosed := closed,
                                      exit := if closed then Some(Exit(f.id, DateOf(f.timestamp), f.price))
                                              else lot.exit)];
        left := left - consume;
        i := i + 1;
      }
      RestUntouched(start, order, i, want, f);
    }

    /** The loop may stop early: the positions it has not visited would stay as they are. */
    static lemma {:induction false} RestUntouched(lots: seq<Lot>, order: seq<nat>, i: nat, want: real, f: Fill)
      requires InRange(lots, order) && i <= |order|
      requires i == |order| || Consumed(lots, order[..i], want, f).1 <= 0.0
      ensures Consumed(lots, order, want, f) == Consumed(lots, order[..i], want, f)
    {
      if i < |order| {
        var init := order[..|order| - 1];
        assert init[..i] == order[..i];
        RestUntouched(lots, init, i, want, f);
      } else {
        assert order[..i] == order;
      }
    }

    method OpenPositions(agent: AgentId, symbol: string) returns (found: seq<nat>)
      ensures found == Candidates(lots, agent, symbol)
    {
      found := [];
      for i := 0 to |lots|
        invariant found == Candidates(lots[..i], agent, symbol)
      {
        assert lots[..i + 1][..i] == lots[..i];
        if Candidate(lots[i], agent, symbol) {
          found := found + [i];
        }
      }
      assert lots[..|lots|] == lots;
    }

    method TotalOpenQty(agent: AgentId, symbol: string) returns (total: real)
      ensures total == OpenQty(lots, agent, NormalizeSymbol(symbol))
    {
      var sym := NormalizeSymbol(symbol);
      total := 0.0;
      for i := 0 to |lots|
        invariant total == OpenQty(lots[..i], agent, sym)
      {
        assert lots[..i + 1][..i] == lots[..i];
        if lots[i].agent == agent && lots[i].symbol == sym && !lots[i].isClosed {
          total := total + lots[i].remaining;
        }
      }
      assert lots[..|lots|] == lots;
    }

    method OpenQtyBySymbol(agent: AgentId) returns (out: map<string, real>)
      ensures forall s :: s in out <==> OpenQty(lots, agent, s) > 0.0
      ensures forall s :: s in out ==> out[s] == OpenQty(lots, agent, s)
    {
      var sums: map<string, real> := map[];
      for i := 0 to |lots|
        invariant forall s :: ValueOr(sums, s, 0.0) == OpenQty(lots[..i], agent, s)
      {
        assert lots[..i + 1][..i] == lots[..i];
        var lot := lots[i];
        if lot.agent == agent && !lot.isClosed {
          sums := sums[lot.symbol := ValueOr(sums, lot.symbol, 0.0) + lot.remaining];
        }
      }
      assert lots[..|lots|] == lots;
      out := map s | s in sums && sums[s] > 0.0 :: sums[s];
      assert forall s :: ValueOr(sums, s, 0.0) == OpenQty(lots, agent, s);
    }
  }
}
