/**
 * Restart after a crash, over whole runs.
 */
module Restarts {
  import opened Common
  import opened Orders
  import opened OmsState
  import opened Broker
  import opened Trading
  import opened Recovery
  import opened CrashSafety

  // ── Memory rebuilt from the log is as good as the memory that was lost ───────

  lemma EraseKeepsBehind(c: Cell, s: Option<Status>)
    requires Behind(c, s)
    ensures Behind(EraseCell(c), s) && EraseCell(c).order.terms == c.order.terms
  {
    hide Walk, SumQty, SumNotional, GoodStatus;
  }

  lemma EraseTwice(m: Memory)
    ensures Erase(Erase(m)) == Erase(m)
  {
  }

  lemma RestartKeepsLinked(s: Sys)
    requires Mid(s)
    ensures Linked(Restart(s)) && Restart(s).mem == Erase(s.mem)
  {
    hide Conserved, AllBehind, Indexed;
  }

  /** The process may die at any point where the invariant holds. */
  lemma RestartKeepsMid(s: Sys)
    requires Mid(s)
    ensures Mid(Restart(s)) && Restart(s).mem == Erase(s.mem) && Restart(s).book == s.book
  {
    RestartKeepsLinked(s);
    EraseTwice(s.mem);
    hide Linked, Conserved, Behind, StatusOf, EraseCell, Replay;
    forall oid | oid in s.mem.cells ensures Behind(EraseCell(s.mem.cells[oid]), StatusOf(s.book, oid)) {
      EraseKeepsBehind(s.mem.cells[oid], StatusOf(s.book, oid));
    }
  }

  // ── One order caught up ──────────────────────────────────────────────────────

  /** Caught up: in sync, and over if the broker never saw it. */
  ghost predicate CaughtUp(c: Cell, s: Option<Status>) {
    InSync(c, s) && (s.None? ==> Terminal(c.order.state))
  }

  lemma OpenBehind(c: Cell, s: Option<Status>)
    requires Behind(c, s) && !Terminal(c.order.state)
    ensures s.None? ==> (c.order.state.Submitted? || c.order.state.Accepted?)
    ensures s.Some? ==>
              (c.order.state.Submitted? || c.order.state.Accepted? || c.order.state.Partial?)
              && (c.order.state == Submitted <==> c.order.brokerOrderId.None?)
  {
    hide Sound, GoodStatus;
  }

  /** An open order that matches its record is in sync. */
  lemma MatchIsInSync(c: Cell, s: Status)
    requires Behind(c, Some(s)) && Matches(c.order, s)
    ensures InSync(c, Some(s))
  {
    hide Sound, OwnFills;
  }

  lemma CatchUpIdSafe(s: Sys, oid: OrderId, now: Time)
    requires Mid(s) && oid in s.mem.cells && StatusOf(s.book, oid).Some? && !Terminal(StateOf(s.mem, oid))
    ensures var script := CatchUpId(s.mem, oid, StatusOf(s.book, oid).value, now);
            var t := Exec(s, script);
            && Safe(s, script, oid) && Mid(t) && t.book == s.book && oid in t.mem.cells
            && AtVenue(StateOf(t.mem, oid)) && t.mem.cells[oid].order.brokerOrderId.Some?
  {
    hide Mid, Safe, Exec, StatusOf, Behind, LiveCell, LegalCell, OthersKept;
    BehindAt(s, oid);
    var c, u := s.mem.cells[oid], StatusOf(s.book, oid).value;
    OpenBehind(c, Some(u));
    if c.order.brokerOrderId.None? {
      AcceptCell(c, u, now);
      LogSafe(s, Logged(now, oid, OrderAccepted(u.brokerId)));
    } else {
      SafeNone(s, oid);
      ExecNone(s);
    }
  }

  /** After the missing quantity is booked, only the state can differ. */
  ghost predicate QtyCaughtUp(c: Cell, u: Status) {
    && Behind(c, Some(u)) && c.order.filledQty == u.filledQty
    && (c.order.state.Accepted? || c.order.state.Partial? || c.order.state.Filled?) && c.order.brokerOrderId.Some?
  }

  lemma FilledRecordAllowsFill(c: Cell, u: Status)
    requires Behind(c, Some(u)) && c.order.filledQty < u.filledQty
    ensures (u.state.BPartial? || u.state.BFilled? || u.state.BCanceled?)
  {
    SumQtyPositive(c.fills);
    hide Walk, SumQty, SumNotional, OwnFills;
  }

  lemma CatchUpQtySafe(s: Sys, oid: OrderId, now: Time)
    requires Mid(s) && oid in s.mem.cells && StatusOf(s.book, oid).Some?
    requires AtVenue(StateOf(s.mem, oid)) && s.mem.cells[oid].order.brokerOrderId.Some?
    ensures var script := CatchUpQty(s.mem, oid, StatusOf(s.book, oid).value, now);
            var t := Exec(s, script);
            && Safe(s, script, oid) && Mid(t) && t.book == s.book && oid in t.mem.cells
            && QtyCaughtUp(t.mem.cells[oid], StatusOf(s.book, oid).value)
  {
    hide Mid, Safe, Exec, StatusOf, LiveCell, LegalCell, OthersKept, Sound, InSync, SameQty;
    BehindAt(s, oid);
    var c, u := s.mem.cells[oid], StatusOf(s.book, oid).value;
    var delta := u.filledQty - c.order.filledQty;
    if delta > 0.0 {
      FilledRecordAllowsFill(c, u);
      hide Behind;
      var f := Canonical(c.order, SyntheticFill(c, u, delta, now));
      FillCell(c, u, f, now);
      LogSafe(s, Logged(now, oid, FillReceived(f)));
    } else {
      SafeNone(s, oid);
      ExecNone(s);
    }
  }

  lemma CaughtQtyStates(c: Cell, u: Status)
    requires QtyCaughtUp(c, u)
    ensures u.state == BRejected ==> c.order.state == Accepted
    ensures u.state == BFilled ==> c.order.state == Filled
    ensures (u.state.BAccepted? || u.state.BPartial? || u.state.BFilled?) ==> InSync(c, Some(u))
    ensures c.order.state == Filled ==> InSync(c, Some(u))
    ensures (u.state.BAccepted? || u.state.BPartial? || u.state.BFilled? || u.state.BCanceled? || u.state.BRejected?)
  {
    SumQtyPositive(c.fills);
    assert SumQty([]) == 0.0;
    hide Walk, SumNotional, OwnFills;
  }

  lemma CatchUpStateSafe(s: Sys, oid: OrderId, now: Time)
    requires Mid(s) && oid in s.mem.cells && StatusOf(s.book, oid).Some?
          && QtyCaughtUp(s.mem.cells[oid], StatusOf(s.book, oid).value)
    ensures var script := CatchUpState(s.mem, oid, StatusOf(s.book, oid).value, now);
            var t := Exec(s, script);
            && Safe(s, script, oid) && Mid(t) && t.book == s.book && oid in t.mem.cells
            && InSync(t.mem.cells[oid], StatusOf(s.book, oid))
  {
    hide Mid, Safe, Exec, StatusOf, LiveCell, LegalCell, OthersKept, Behind, InSync;
    var c, u := s.mem.cells[oid], StatusOf(s.book, oid).value;
    CaughtQtyStates(c, u);
    if u.state == BCanceled && c.order.state != Filled {
      CancelCell(c, u, None, now);
      InSyncIsBehind(LiveCell(c, OrderCancelled(None), now), Some(u));
      LogSafe(s, Logged(now, oid, OrderCancelled(None)));
    } else if u.state == BRejected {
      var reason := u.rejectionReason.GetOr("broker rejected (recovered)");
      RejectCell(c, u, reason, now);
      InSyncIsBehind(LiveCell(c, OrderRejected(reason), now), Some(u));
      LogSafe(s, Logged(now, oid, OrderRejected(reason)));
    } else {
      SafeNone(s, oid);
      ExecNone(s);
    }
  }

  lemma CatchUpSafe(s: Sys, oid: OrderId, now: Time)
    requires Mid(s) && oid in s.mem.cells && StatusOf(s.book, oid).Some? && !Terminal(StateOf(s.mem, oid))
    ensures var script := CatchUp(s, oid, StatusOf(s.book, oid).value, now);
            var t := Exec(s, script);
            && Safe(s, script, oid) && Mid(t) && t.book == s.book && oid in t.mem.cells
            && InSync(t.mem.cells[oid], StatusOf(s.book, oid))
  {
    hide Mid, Safe, Exec, StatusOf, InSync, QtyCaughtUp, CatchUpId, CatchUpQty, CatchUpState, StateOf;
    var u := StatusOf(s.book, oid).value;
    var id := CatchUpId(s.mem, oid, u, now);
    CatchUpIdSafe(s, oid, now);
    var s1 := Exec(s, id);
    var qty := CatchUpQty(s1.mem, oid, u, now);
    CatchUpQtySafe(s1, oid, now);
    var s2 := Exec(s1, qty);
    var state := CatchUpState(s2.mem, oid, u, now);
    CatchUpStateSafe(s2, oid, now);
    var s3 := Exec(s2, state);
    var advanced := CellOf(s.mem, oid).order.brokerOrderId.None? || qty != [] || state != []
      || (u.state.BCanceled? || u.state.BRejected? || u.state.BExpired?);
    var e := if advanced then ReconcileRecovered else ReconcileNoop;
    AuditSafe(s3, oid, e, now);
    SafeConcat(s, id, qty, oid);
    SafeConcat(s, id + qty, state, oid);
    SafeConcat(s, id + qty + state, [Log(Logged(now, oid, e))], oid);
  }

  lemma AbandonSafe(s: Sys, oid: OrderId, now: Time)
    requires Mid(s) && oid in s.mem.cells && StatusOf(s.book, oid).None? && !Terminal(StateOf(s.mem, oid))
    ensures var script := [Log(Logged(now, oid, ReconcileAbandoned))]
          + Finish(s.mem, oid, OrderRejected("abandoned_during_recovery"), now);
            var t := Exec(s, script);
            && Safe(s, script, oid) && Mid(t) && t.book == s.book && oid in t.mem.cells
            && CaughtUp(t.mem.cells[oid], None)
  {
    hide Mid, Safe, Exec, StatusOf, Behind, InSync, LiveCell, LegalCell;
    BehindAt(s, oid);
    OpenBehind(s.mem.cells[oid], None);
    var a := Logged(now, oid, ReconcileAbandoned);
    AuditSafe(s, oid, ReconcileAbandoned, now);
    var t := Exec(s, [Log(a)]);
    var e := Logged(now, oid, OrderRejected("abandoned_during_recovery"));
    DropCell(t.mem.cells[oid], e.event, now);
    InSyncIsBehind(LiveCell(t.mem.cells[oid], e.event, now), None);
    LogSafe(t, e);
    SafeConcat(s, [Log(a)], [Log(e)], oid);
  }

  lemma ReconcileOneSafe(s: Sys, oid: OrderId, now: Time)
    requires Mid(s) && oid in s.mem.cells
    ensures var script := ReconcileOne(s, oid, now);
            var t := Exec(s, script);
            && Safe(s, script, oid) && Mid(t) && t.book == s.book && oid in t.mem.cells
            && CaughtUp(t.mem.cells[oid], StatusOf(s.book, oid))
  {
    hide Mid, Safe, Exec, Behind, InSync, CatchUp, Finish, StatusOf, Matches;
    BehindAt(s, oid);
    if Terminal(StateOf(s.mem, oid)) {
      TerminalIsInSync(s.mem.cells[oid], StatusOf(s.book, oid));
      SafeNone(s, oid);
      ExecNone(s);
    } else if StatusOf(s.book, oid).None? {
      AbandonSafe(s, oid, now);
    } else if Matches(s.mem.cells[oid].order, StatusOf(s.book, oid).value) {
      MatchIsInSync(s.mem.cells[oid], StatusOf(s.book, oid).value);
      AuditSafe(s, oid, ReconcileNoop, now);
    } else {
      CatchUpSafe(s, oid, now);
    }
  }

  // ── All orders ───────────────────────────────────────────────────────────────

  ghost predicate AllMid(s: Sys, script: seq<Micro>) {
    forall j :: 0 <= j <= |script| ==> Mid(Exec(s, script[..j]))
  }

  lemma AllMidConcat(s: Sys, a: seq<Micro>, b: seq<Micro>)
    requires AllMid(s, a) && AllMid(Exec(s, a), b)
    ensures AllMid(s, a + b)
  {
    hide Mid, Exec;
    forall j | 0 <= j <= |a + b| ensures Mid(Exec(s, (a + b)[..j])) {
      if j <= |a| {
        assert (a + b)[..j] == a[..j];
      } else {
        assert (a + b)[..j] == a + b[..j - |a|];
        ExecConcat(s, a, b[..j - |a|]);
      }
    }
  }

  lemma SafeIsAllMid(s: Sys, script: seq<Micro>, oid: OrderId)
    requires Safe(s, script, oid)
    ensures AllMid(s, script)
  {
    hide Mid, Exec, OthersKept;
  }

  /** Orders listed so far are caught up; the rest are still behind. */
  ghost predicate Caught(s: Sys, done: seq<OrderId>) {
    Mid(s) && forall oid :: oid in done ==> oid in s.mem.cells && CaughtUp(s.mem.cells[oid], StatusOf(s.book, oid))
  }

  lemma CaughtOneMore(s: Sys, t: Sys, done: seq<OrderId>, oid: OrderId)
    requires Caught(s, done) && oid !in done && Mid(t) && OthersKept(s, t, oid)
    requires oid in t.mem.cells && CaughtUp(t.mem.cells[oid], StatusOf(t.book, oid))
    ensures Caught(t, done + [oid])
  {
    hide Mid, CaughtUp, StatusOf;
  }

  lemma {:induction false} ReconcileAllSafe(s: Sys, ids: seq<OrderId>, now: Time)
    requires Mid(s) && NoDup(ids) && forall oid :: oid in ids ==> oid in s.mem.cells
    ensures var script := ReconcileAll(s, ids, now);
            var t := Exec(s, script);
            && AllMid(s, script) && Caught(t, ids) && t.book == s.book && t.mem.cells.Keys == s.mem.cells.Keys
  {
    hide Mid, Exec, CaughtUp, StatusOf, ReconcileOne;
    if ids == [] {
      ExecNone(s);
    } else {
      var init, last := ids[..|ids| - 1], ids[|ids| - 1];
      assert ids == init + [last];
      ReconcileAllSafe(s, init, now);
      var first := ReconcileAll(s, init, now);
      var mid := Exec(s, first);
      var one := ReconcileOne(mid, last, now);
      ReconcileOneSafe(mid, last, now);
      SafeEnd(mid, one, last);
      SafeIsAllMid(mid, one, last);
      AllMidConcat(s, first, one);
      ExecConcat(s, first, one);
      CaughtOneMore(mid, Exec(mid, one), init, last);
    }
  }

  // ── Forced closes are redone ─────────────────────────────────────────────────

  /** An open order whose fills cover what the broker calls filled, be it below the order's quantity. */
  predicate CoversFilled(c: Cell, b: Option<Status>) {
    && Tracks(c) && AtVenue(c.order.state) && c.order.brokerOrderId.Some?
    && b.Some? && b.value.state == BFilled && b.value.filledQty <= c.order.filledQty
  }

  /** The order is filled, at the quantity of its fills, which are those it had. */
  predicate ClosedAt(c: Cell, d: Cell) {
    d.order.state == Filled && d.fills == c.fills && d.order.qty == d.order.filledQty == c.order.filledQty
  }

  lemma CoveredCloses(c: Cell, b: Option<Status>, ts: Time)
    requires CoversFilled(c, b)
    ensures ClosedAt(c, CloseCell(c, ts)) && CoversFilled(EraseCell(c), b)
  {
  }

  /** Reconciling such an order closes it at its fills. */
  lemma CoveredOrderIsClosed(s: Sys, oid: OrderId, now: Time)
    requires oid in s.mem.cells && CoversFilled(s.mem.cells[oid], StatusOf(s.book, oid))
    ensures var t := Exec(s, ReconcileOne(s, oid, now));
            oid in t.mem.cells && ClosedAt(s.mem.cells[oid], t.mem.cells[oid])
  {
    var close, audit := Close(oid, now), Log(Logged(now, oid, ReconcileRecovered));
    var t := Step(s, close);
    ExecNone(s);
    ExecOne(s, close);
    ExecOne(t, audit);
    ExecConcat(s, [close], [audit]);
    assert [] + [] + [close] + [audit] == [close] + [audit];
    assert CatchUp(s, oid, StatusOf(s.book, oid).value, now) == [close] + [audit];
    CoveredCloses(s.mem.cells[oid], StatusOf(s.book, oid), now);
    hide Exec, CloseCell, ClosedAt;
  }

  /**
   * force_close_filled lowers an order to its fills and logs nothing, so a restart brings
   * the order back open at its full quantity. Recovery closes it again at the same quantity.
   */
  lemma RestartRedoesTheClose(s: Sys, oid: OrderId, at: Time, now: Time)
    requires Rebuilt(s) && oid in s.mem.cells && CoversFilled(s.mem.cells[oid], StatusOf(s.book, oid))
    ensures var t := Exec(s, [Close(oid, at)]);
            var r := Restart(t);
            var d := Exec(r, ReconcileOne(r, oid, now));
            && oid in t.mem.cells && ClosedAt(s.mem.cells[oid], t.mem.cells[oid])
            && oid in r.mem.cells && r.mem.cells[oid] == EraseCell(s.mem.cells[oid])
            && oid in d.mem.cells && ClosedAt(s.mem.cells[oid], d.mem.cells[oid])
  {
    CoveredCloses(s.mem.cells[oid], StatusOf(s.book, oid), at);
    ExecOne(s, Close(oid, at));
    hide Exec, ReconcileOne, Replay, CloseCell, CoversFilled, StatusOf;
    var r := Restart(Exec(s, [Close(oid, at)]));
    assert r.mem == Erase(s.mem) && r.book == s.book;
    CoveredOrderIsClosed(r, oid, now);
  }
}
