/**
 * Positions as the order manager's fills imply them (execution/reconciler.py,
 * _compute_expected_positions), against what the broker holds.
 */
module Positions {
  import opened Common
  import opened Orders
  import opened OmsState
  import opened Broker
  import opened Trading
  import opened Recovery

  /** The net quantity some fills add to a symbol. */
  function Booked(fills: seq<Fill>, symbol: string): real {
    if fills == [] then 0.0
    else
      var last := fills[|fills| - 1];
      Booked(fills[..|fills| - 1], symbol) + (if last.symbol == symbol then Signed(last.side, last.qty) else 0.0)
  }

  /** The net position over some orders. */
  function Expected(m: Memory, ids: seq<OrderId>, symbol: string): real {
    if ids == [] then 0.0
    else Expected(m, ids[..|ids| - 1], symbol) + Booked(CellOf(m, ids[|ids| - 1]).fills, symbol)
  }

  lemma {:induction false} OwnFillsBook(fills: seq<Fill>, own: string, side: Side, symbol: string)
    requires forall i :: 0 <= i < |fills| ==> fills[i].symbol == own && fills[i].side == side
    ensures Booked(fills, symbol) == if symbol == own then Signed(side, SumQty(fills)) else 0.0
  {
    if fills != [] {
      OwnFillsBook(fills[..|fills| - 1], own, side, symbol);
    }
  }

  /** What a booked ghost order added to the fills without the broker: its signed quantity. */
  function Invented(c: Cell, symbol: string): real {
    if GhostNumbered(c.order) && c.order.state == Filled && c.order.terms.symbol == symbol then
      Signed(c.order.terms.side, c.order.qty)
    else 0.0
  }

  /** What the booked ghost orders together added. */
  function AllInvented(m: Memory, ids: seq<OrderId>, symbol: string): real {
    if ids == [] then 0.0
    else AllInvented(m, ids[..|ids| - 1], symbol) + Invented(CellOf(m, ids[|ids| - 1]), symbol)
  }

  lemma InSyncIsNotGhost(s: Sys, oid: OrderId)
    requires oid in s.mem.cells && InSync(s.mem.cells[oid], StatusOf(s.book, oid)) && StatusOf(s.book, oid).Some?
    requires Indexed(s.book)
    ensures !GhostNumbered(s.mem.cells[oid].order)
  {
    hide Sound, OwnFills;
  }

  /**
   * An order's fills book what its record contributed, or what it invented, up to what the
   * order is short of its record.
   */
  lemma CellBooksItsRecord(s: Sys, oid: OrderId, symbol: string)
    requires oid in s.mem.cells && InSync(s.mem.cells[oid], StatusOf(s.book, oid)) && Indexed(s.book)
    ensures var c := s.mem.cells[oid];
            var gap := Contribution(s.book, oid, symbol) + Invented(c, symbol) - Booked(c.fills, symbol);
            && Abs(gap) < FILL_TOLERANCE
            && (StatusOf(s.book, oid).Some? && c.order.filledQty == StatusOf(s.book, oid).value.filledQty ==>
                gap == 0.0)
            && (StatusOf(s.book, oid).None? ==> gap == 0.0)
  {
    var c := s.mem.cells[oid];
    if StatusOf(s.book, oid).Some? {
      InSyncIsNotGhost(s, oid);
    }
    OwnFillsBook(c.fills, c.order.terms.symbol, c.order.terms.side, symbol);
    hide Walk, SumNotional;
  }

  predicate NoneShort(s: Sys) {
    forall oid :: oid in s.mem.cells && StatusOf(s.book, oid).Some? ==>
      s.mem.cells[oid].order.filledQty == StatusOf(s.book, oid).value.filledQty
  }

  lemma {:induction false} ExpectedIsContributed(s: Sys, ids: seq<OrderId>, symbol: string)
    requires Indexed(s.book)
          && forall oid :: oid in ids ==> oid in s.mem.cells && InSync(s.mem.cells[oid], StatusOf(s.book, oid))
    ensures Abs(Contributions(s.book, ids, symbol) + AllInvented(s.mem, ids, symbol) - Expected(s.mem, ids, symbol))
              <= FILL_TOLERANCE * |ids| as real
    ensures NoneShort(s) ==>
              Contributions(s.book, ids, symbol) + AllInvented(s.mem, ids, symbol) == Expected(s.mem, ids, symbol)
  {
    hide StatusOf, InSync, Booked, Contribution, Invented, Indexed;
    if ids != [] {
      var init, last := ids[..|ids| - 1], ids[|ids| - 1];
      ExpectedIsContributed(s, init, symbol);
      CellBooksItsRecord(s, last, symbol);
    }
  }

  lemma ConservedAt(s: Sys, symbol: string)
    requires Mid(s)
    ensures Held(s.book, symbol) == Contributions(s.book, s.mem.ids, symbol)
    ensures Indexed(s.book) && forall oid :: oid in s.mem.ids <==> oid in s.mem.cells
  {
    hide Rebuilt, AllBehind, Indexed, Held, Contribution, Contributions;
  }

  /** In a settled system the fills explain the broker's holding of every symbol and what the ghost orders invented. */
  lemma FillsExplainHoldings(s: Sys, symbol: string)
    requires Settled(s)
    ensures Abs(Held(s.book, symbol) + AllInvented(s.mem, s.mem.ids, symbol) - Expected(s.mem, s.mem.ids, symbol))
              <= FILL_TOLERANCE * |s.mem.ids| as real
    ensures NoneShort(s) ==>
              Held(s.book, symbol) + AllInvented(s.mem, s.mem.ids, symbol) == Expected(s.mem, s.mem.ids, symbol)
  {
    hide Mid, InSync, StatusOf, Contributions, Held, Expected, NoneShort, AllInvented, Indexed;
    ConservedAt(s, symbol);
    ExpectedIsContributed(s, s.mem.ids, symbol);
  }
}
