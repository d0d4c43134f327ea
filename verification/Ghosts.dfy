/**
 * Ghost orders (execution/oms.py, adopt_orphan_position and book_fee_offset): a made-up
 * order, accepted and filled on the spot, that brings the fills in line with a position
 * the broker holds or with a fee it took in kind.
 */
module Ghosts {
  import opened Common
  import opened Orders
  import opened OmsState
  import opened Broker
  import opened Trading
  import opened Recovery
  import opened CrashSafety
  import opened Positions

  /** Adopting buys the orphan position; a fee offset sells it down. */
  datatype Ghost = Ghost(oid: OrderId, intentId: nat, fillId: FillId, side: Side, symbol: string, qty: real,
                         price: real, agent: AgentId)

  function GhostOrder(g: Ghost, ts: Time): Order {
    Order(Terms(g.oid, g.intentId, g.agent, g.symbol, g.side, Market, Simple, Gtc, ts, None, None, false),
          NOTHING_UNLOGGED,
          g.qty, OrderState.Pending, None, None, None, 0.0, None, None)
  }

  function GhostFill(g: Ghost, ts: Time): Fill {
    Fill(g.fillId, g.oid, g.agent, g.symbol, g.side, g.qty, g.price, ts, 0.0, false)
  }

  function GhostId(g: Ghost): BrokerId {
    if g.side == Buy then BrokerId.Ghost(g.oid) else GhostFee(g.oid)
  }

  /** The three lines a ghost order writes. */
  function GhostLines(g: Ghost, ts: Time): (lines: seq<Logged>)
    ensures |lines| == 3
  {
    [Logged(ts, g.oid, SubmitIntent(GhostOrder(g, ts))),
     Logged(ts, g.oid, OrderAccepted(GhostId(g))),
     Logged(ts, g.oid, FillReceived(GhostFill(g, ts)))]
  }

  function GhostScript(g: Ghost, ts: Time): seq<Micro> {
    var lines := GhostLines(g, ts);
    [Log(lines[0]), Log(lines[1]), Log(lines[2])]
  }

  /** The ghost order after each of its lines. */
  function GhostCell(g: Ghost, ts: Time, k: nat): Cell
    requires 1 <= k <= 3
  {
    var lines := GhostLines(g, ts);
    var submitted := LiveCell(NO_CELL, lines[0].event, ts);
    var accepted := LiveCell(submitted, lines[1].event, ts);
    if k == 1 then submitted else if k == 2 then accepted else LiveCell(accepted, lines[2].event, ts)
  }

  lemma GhostCells(g: Ghost, ts: Time)
    ensures GhostCell(g, ts, 1).order.state == Submitted && GhostCell(g, ts, 1).fills == []
    ensures GhostCell(g, ts, 2).order.state == Accepted && GhostCell(g, ts, 2).fills == []
    ensures GhostCell(g, ts, 3).order.state == Filled && GhostCell(g, ts, 3).fills == [GhostFill(g, ts)]
    ensures forall k :: 1 <= k <= 3 ==>
              Tracks(GhostCell(g, ts, k)) && GhostCell(g, ts, k).order.terms == GhostOrder(g, ts).terms
    ensures forall k :: 0 <= k < 3 ==>
              LegalCell(if k == 0 then NO_CELL else GhostCell(g, ts, k), GhostLines(g, ts)[k].event, ts)
  {
  }

  /** Memory after the first k lines. */
  function WithGhost(m: Memory, g: Ghost, ts: Time, k: nat): Memory
    requires k <= 3
  {
    if k == 0 then m
    else Memory(m.ids + [g.oid], m.cells[g.oid := GhostCell(g, ts, k)],
                if k == 1 then m.brokerIds else m.brokerIds[GhostId(g) := g.oid])
  }

  lemma GhostLineMemory(m: Memory, g: Ghost, ts: Time, k: nat)
    requires k < 3 && g.oid !in m.cells
    ensures var n := WithGhost(m, g, ts, k);
            var e := GhostLines(g, ts)[k];
            && Live(n, e) == WithGhost(m, g, ts, k + 1)
            && CellOf(n, g.oid) == if k == 0 then NO_CELL else GhostCell(g, ts, k)
  {
    var n := WithGhost(m, g, ts, k);
    var e := GhostLines(g, ts)[k];
    var c := LiveCell(CellOf(n, g.oid), e.event, ts);
    hide LiveCell;
    assert GhostCell(g, ts, k + 1) == c;
    hide GhostCell;
    assert n.cells[g.oid := c] == m.cells[g.oid := c];
  }

  lemma GhostTracks(m: Memory, g: Ghost, ts: Time, k: nat)
    requires k < 3 && AllTrack(m)
    ensures AllTrack(WithGhost(m, g, ts, k))
  {
    GhostCells(g, ts);
    hide GhostCell, LegalCell;
  }

  lemma GhostLine(s: Sys, m: Memory, g: Ghost, ts: Time, k: nat)
    requires k < 3 && g.oid !in m.cells && s.mem == WithGhost(m, g, ts, k)
    ensures var t := Step(s, Log(GhostLines(g, ts)[k]));
            t.mem == WithGhost(m, g, ts, k + 1) && t.book == s.book && (Rebuilt(s) && AllTrack(m) ==> Rebuilt(t))
  {
    GhostCells(g, ts);
    GhostLineMemory(m, g, ts, k);
    assert g.oid in s.mem.cells || k == 0;
    if Rebuilt(s) && AllTrack(m) {
      GhostTracks(m, g, ts, k);
      hide LegalCell, Live, WithGhost, GhostCell, Rebuilt, AllTrack;
      LegalLineRebuilds(s, GhostLines(g, ts)[k]);
    }
  }

  lemma NoGhostYet(m: Memory, g: Ghost, ts: Time)
    ensures WithGhost(m, g, ts, 0) == m
  {
  }

  lemma GhostPrefix(s: Sys, g: Ghost, ts: Time, k: nat)
    requires k <= 3 && g.oid !in s.mem.cells
    ensures var t := Exec(s, GhostScript(g, ts)[..k]);
            t.mem == WithGhost(s.mem, g, ts, k) && t.book == s.book && (Rebuilt(s) && AllTrack(s.mem) ==> Rebuilt(t))
  {
    hide Rebuilt, WithGhost;
    if k == 0 {
      NoGhostYet(s.mem, g, ts);
    } else {
      GhostPrefix(s, g, ts, k - 1);
      var script := GhostScript(g, ts);
      assert script[..k][..k - 1] == script[..k - 1];
      GhostLine(Exec(s, script[..k - 1]), s.mem, g, ts, k - 1);
    }
  }

  /** What booking a ghost order has written when it raises after some of its lines; all three if it does not. */
  function GhostPart(g: Ghost, ts: Time, lines: nat): seq<Micro>
    requires lines <= 3
  {
    GhostScript(g, ts)[..lines]
  }

  lemma GhostKnown(s: Sys, g: Ghost, ts: Time, lines: nat)
    requires lines <= 3 && g.oid !in s.mem.cells
    ensures Exec(s, GhostPart(g, ts, lines)).mem.cells.Keys == s.mem.cells.Keys + (if lines == 0 then {} else {g.oid})
  {
    GhostPrefix(s, g, ts, lines);
    hide Exec, GhostScript, GhostCell;
  }

  lemma PartIsWhole(g: Ghost, ts: Time)
    ensures GhostPart(g, ts, 3) == GhostScript(g, ts)
  {
  }

  lemma {:induction false} ExpectedOfOthers(m: Memory, n: Memory, ids: seq<OrderId>, symbol: string)
    requires forall oid :: oid in ids ==> CellOf(m, oid).fills == CellOf(n, oid).fills
    ensures Expected(m, ids, symbol) == Expected(n, ids, symbol)
  {
    if ids != [] {
      ExpectedOfOthers(m, n, ids[..|ids| - 1], symbol);
    }
  }

  lemma ExpectedWithGhost(m: Memory, g: Ghost, ts: Time, symbol: string)
    requires g.oid !in m.ids
    ensures var n := WithGhost(m, g, ts, 3);
            Expected(n, n.ids, symbol)
            == Expected(m, m.ids, symbol) + (if symbol == g.symbol then Signed(g.side, g.qty) else 0.0)
  {
    var n := WithGhost(m, g, ts, 3);
    GhostCells(g, ts);
    assert n.ids[..|n.ids| - 1] == m.ids;
    ExpectedOfOthers(m, n, m.ids, symbol);
    assert [GhostFill(g, ts)][..0] == [];
    hide GhostCell;
    assert Booked([GhostFill(g, ts)], symbol) == if symbol == g.symbol then Signed(g.side, g.qty) else 0.0;
  }

  /**
   * A ghost order ends filled with one fill, moves the net position of its symbol by
   * exactly its quantity and nothing else, and if the log rebuilt memory before, it still does.
   */
  lemma GhostClosesTheGap(s: Sys, g: Ghost, ts: Time)
    requires g.oid !in s.mem.cells && g.oid !in s.mem.ids
    ensures var t := Exec(s, GhostScript(g, ts));
            && t.book == s.book && t.mem.ids == s.mem.ids + [g.oid] && t.mem.cells.Keys == s.mem.cells.Keys + {g.oid}
            && (AllTrack(s.mem) ==> AllTrack(t.mem)) && (Rebuilt(s) && AllTrack(s.mem) ==> Rebuilt(t))
            && t.mem.cells[g.oid].order.terms == GhostOrder(g, ts).terms
            && t.mem.cells[g.oid].order.state == Filled && t.mem.cells[g.oid].fills == [GhostFill(g, ts)]
            && (forall oid :: oid in s.mem.cells ==> oid in t.mem.cells && t.mem.cells[oid] == s.mem.cells[oid])
            && (forall symbol :: Expected(t.mem, t.mem.ids, symbol)
                  == Expected(s.mem, s.mem.ids, symbol) + (if symbol == g.symbol then Signed(g.side, g.qty) else 0.0))
  {
    assert GhostScript(g, ts)[..3] == GhostScript(g, ts);
    GhostPrefix(s, g, ts, 3);
    GhostCells(g, ts);
    if AllTrack(s.mem) {
      assert AllTrack(WithGhost(s.mem, g, ts, 3));
    }
    hide Exec, GhostCell, GhostScript, Rebuilt, Expected;
    forall symbol ensures Expected(WithGhost(s.mem, g, ts, 3), WithGhost(s.mem, g, ts, 3).ids, symbol)
                       == Expected(s.mem, s.mem.ids, symbol)
                       + (if symbol == g.symbol then Signed(g.side, g.qty) else 0.0) {
      ExpectedWithGhost(s.mem, g, ts, symbol);
    }
  }

  lemma AbandonedCell(c: Cell, reason: string, ts: Time)
    requires Tracks(c) && (c.order.state.Submitted? || c.order.state.Accepted?)
    ensures LiveCell(c, OrderRejected(reason), ts).order.state == OrderState.Rejected
    ensures LiveCell(c, OrderRejected(reason), ts).fills == c.fills
  {
  }

  lemma AbandonOpenGhost(s: Sys, oid: OrderId, now: Time)
    requires oid in s.mem.cells && oid !in s.book.byClient
    requires Tracks(s.mem.cells[oid])
          && (s.mem.cells[oid].order.state.Submitted? || s.mem.cells[oid].order.state.Accepted?)
          && s.mem.cells[oid].fills == []
    ensures var t := Exec(s, ReconcileOne(s, oid, now));
            oid in t.mem.cells && t.mem.cells[oid].order.state == OrderState.Rejected && t.mem.cells[oid].fills == []
  {
    var a := Log(Logged(now, oid, ReconcileAbandoned));
    var r := Log(Logged(now, oid, OrderRejected("abandoned_during_recovery")));
    ExecOne(s, a);
    ExecOne(Step(s, a), r);
    ExecConcat(s, [a], [r]);
    assert ReconcileOne(s, oid, now) == [a] + [r];
    AbandonedCell(s.mem.cells[oid], "abandoned_during_recovery", now);
    hide Exec, LiveCell, ReconcileOne, Tracks;
  }

  /**
   * Die after any of the three lines and restart: a ghost order is either booked in full
   * or dropped without a fill, so its position is never adopted in part or twice.
   */
  lemma GhostIsAllOrNothing(s: Sys, g: Ghost, ts: Time, k: nat, now: Time)
    requires k <= 3 && g.oid !in s.mem.cells && g.oid !in s.book.byClient && Rebuilt(s) && AllTrack(s.mem)
    ensures var r := Restart(Exec(s, GhostScript(g, ts)[..k]));
            var t := Exec(r, ReconcileOne(r, g.oid, now));
            && (k == 0 ==> g.oid !in r.mem.cells)
            && (0 < k ==> g.oid in t.mem.cells)
            && (0 < k < 3 ==> t.mem.cells[g.oid].order.state == OrderState.Rejected && t.mem.cells[g.oid].fills == [])
            && (k == 3 ==> t.mem.cells[g.oid].order.state == Filled && t.mem.cells[g.oid].fills == [GhostFill(g, ts)])
  {
    GhostPrefix(s, g, ts, k);
    GhostCells(g, ts);
    var r := Restart(Exec(s, GhostScript(g, ts)[..k]));
    assert r.mem == Erase(WithGhost(s.mem, g, ts, k));
    hide Exec, GhostCell, GhostScript, Replay, ReconcileOne;
    if 0 < k < 3 {
      AbandonOpenGhost(r, g.oid, now);
    } else if k == 3 {
      TerminalIsSkipped(r, g.oid, now);
    }
  }

  lemma TerminalIsSkipped(s: Sys, oid: OrderId, now: Time)
    requires Terminal(StateOf(s.mem, oid))
    ensures Exec(s, ReconcileOne(s, oid, now)) == s
  {
    ExecNone(s);
    hide Exec, CatchUp;
  }

  // ── Ghost orders among the broker's ──────────────────────────────────────────

  /** After each of its lines a ghost order is one the broker never saw; after the last it is over. */
  lemma GhostCellBehind(g: Ghost, ts: Time, k: nat)
    requires 1 <= k <= 3 && g.qty > 0.0
    ensures Behind(GhostCell(g, ts, k), None) && (k == 3 ==> InSync(GhostCell(g, ts, k), None))
    ensures k == 1 ==> GhostCell(g, ts, k).order.brokerOrderId.None?
  {
    var lines := GhostLines(g, ts);
    LiveCellSound(NO_CELL, lines[0].event, ts);
    var submitted := LiveCell(NO_CELL, lines[0].event, ts);
    LiveCellSound(submitted, lines[1].event, ts);
    var accepted := LiveCell(submitted, lines[1].event, ts);
    LiveCellSound(accepted, lines[2].event, ts);
    hide Sound;
  }

  lemma GhostLineSafe(s: Sys, g: Ghost, ts: Time, k: nat)
    requires k < 3 && g.qty > 0.0 && Mid(s) && g.oid !in s.book.byClient
    requires CellOf(s.mem, g.oid) == if k == 0 then NO_CELL else GhostCell(g, ts, k)
    requires g.oid in s.mem.cells || k == 0
    ensures var script := [Log(GhostLines(g, ts)[k])];
            var t := Exec(s, script);
            && Safe(s, script, g.oid) && Mid(t) && t.book == s.book
            && g.oid in t.mem.cells && t.mem.cells[g.oid] == CellOf(t.mem, g.oid) == GhostCell(g, ts, k + 1)
  {
    GhostCells(g, ts);
    GhostCellBehind(g, ts, k + 1);
    var e := GhostLines(g, ts)[k];
    assert LiveCell(CellOf(s.mem, g.oid), e.event, ts) == GhostCell(g, ts, k + 1);
    if k == 1 {
      GhostCellBehind(g, ts, 1);
    }
    assert StatusOf(s.book, g.oid) == None;
    hide Mid, Behind, InSync, StatusOf, LiveCell, LegalCell, GhostCell, Safe, Exec;
    LogSafe(s, e);
  }

  /** Booking a ghost order is crash safe and keeps the system settled, the broker untouched. */
  lemma GhostSafe(s: Sys, g: Ghost, ts: Time)
    requires Settled(s) && g.oid !in s.mem.cells && g.qty > 0.0
    ensures Safe(s, GhostScript(g, ts), g.oid) && Settled(Exec(s, GhostScript(g, ts)))
         && Exec(s, GhostScript(g, ts)).book == s.book
  {
    GhostIsNew(s, g);
    GhostScriptParts(g, ts);
    hide Mid, Safe, Exec, InSync, GhostCell, GhostLines, GhostScript, CellOf, Settled;
    var a, b, c := [Log(GhostLines(g, ts)[0])], [Log(GhostLines(g, ts)[1])], [Log(GhostLines(g, ts)[2])];
    GhostLineSafe(s, g, ts, 0);
    var s1 := Exec(s, a);
    GhostLineSafe(s1, g, ts, 1);
    var s2 := Exec(s1, b);
    GhostLineSafe(s2, g, ts, 2);
    SafeConcat(s, a, b, g.oid);
    SafeConcat(s, a + b, c, g.oid);
    GhostCellBehind(g, ts, 3);
    SettledAfter(s, GhostScript(g, ts), g.oid);
  }

  lemma GhostScriptParts(g: Ghost, ts: Time)
    ensures var lines := GhostLines(g, ts);
            GhostScript(g, ts) == [Log(lines[0])] + [Log(lines[1])] + [Log(lines[2])]
  {
    hide GhostLines;
  }

  lemma GhostIsNew(s: Sys, g: Ghost)
    requires Settled(s) && g.oid !in s.mem.cells
    ensures Mid(s) && g.oid !in s.book.byClient && CellOf(s.mem, g.oid) == NO_CELL && StatusOf(s.book, g.oid) == None
  {
    hide Rebuilt, AllBehind, Conserved, Indexed, InSync;
  }
}
