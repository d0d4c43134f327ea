/**
 * The periodic reconciler over the in-memory broker: what a pass does to a settled
 * system, and when it settles one whose broker moved while its notices were lost.
 */
module Passes {
  import opened Common
  import opened Orders
  import opened OmsState
  import opened Broker
  import opened Trading
  import opened Recovery
  import opened CrashSafety
  import opened Restarts
  import opened Positions
  import opened Ghosts
  import opened Reconciliation

  // ── What the broker answers ──────────────────────────────────────────────────

  function RecordStatus(b: Book, id: BrokerId): Status
    requires id in b.records
  {
    b.records[id].status
  }

  /** The broker's own answers: every record it has. */
  function BrokerAnswers(b: Book): Answers {
    map id | id in b.records :: RecordStatus(b, id)
  }

  /** Open orders the broker has carry its id, and the others carry none. */
  ghost predicate Listening(s: Sys) {
    forall oid :: oid in s.mem.cells && !Terminal(s.mem.cells[oid].order.state) ==>
      (s.mem.cells[oid].order.brokerOrderId.Some? <==> StatusOf(s.book, oid).Some?)
  }

  /** The broker cancelled the order after fills that memory has not heard of. */
  predicate CancelledShort(c: Cell, b: Option<Status>) {
    && !Terminal(c.order.state) && b.Some? && b.value.state == BCanceled && c.order.filledQty < b.value.filledQty
  }

  ghost predicate NoneCancelledShort(s: Sys) {
    forall oid :: oid in s.mem.cells ==> !CancelledShort(s.mem.cells[oid], StatusOf(s.book, oid))
  }

  lemma SettledListens(s: Sys)
    requires Settled(s)
    ensures Listening(s) && NoneCancelledShort(s)
  {
    hide Mid, InSync, StatusOf;
    forall oid | oid in s.mem.cells && !Terminal(s.mem.cells[oid].order.state)
      ensures s.mem.cells[oid].order.brokerOrderId.Some? <==> StatusOf(s.book, oid).Some?
      ensures !CancelledShort(s.mem.cells[oid], StatusOf(s.book, oid))
    {
      SettledAt(s, oid);
      BehindAt(s, oid);
      OpenInSync(s.mem.cells[oid], StatusOf(s.book, oid));
    }
  }

  lemma OpenInSync(c: Cell, b: Option<Status>)
    requires InSync(c, b) && !Terminal(c.order.state)
    ensures c.order.brokerOrderId.Some? <==> b.Some?
    ensures !CancelledShort(c, b)
    ensures b.Some? ==> Working(b.value.state) && c.order.filledQty == b.value.filledQty
  {
    SyncedStates(c, b);
    if b.Some? && c.order.brokerOrderId.None? {
      hide Behind;
    }
  }

  /** The answer about an open order is its record's status. */
  lemma AnswerIsStatus(s: Sys, oid: OrderId)
    requires Mid(s) && oid in s.mem.cells && StatusOf(s.book, oid).Some? && s.mem.cells[oid].order.brokerOrderId.Some?
    ensures var c, answers := s.mem.cells[oid], BrokerAnswers(s.book);
            && c.order.brokerOrderId.value in answers
            && answers[c.order.brokerOrderId.value] == StatusOf(s.book, oid).value
            && StatusOf(s.book, oid).value.clientId == oid
  {
    BehindAt(s, oid);
    hide Mid, Behind, StatusOf;
    BehindNumber(s.mem.cells[oid], StatusOf(s.book, oid).value);
  }

  lemma BehindNumber(c: Cell, u: Status)
    requires Behind(c, Some(u)) && c.order.brokerOrderId.Some?
    ensures c.order.brokerOrderId.value == u.brokerId
  {
    hide Sound, OwnFills, GoodStatus;
  }

  /** The script of a check whose answer is about the order. */
  lemma CheckShape(m: Memory, oid: OrderId, answers: Answers, u: Status)
    requires oid in m.cells && !Terminal(m.cells[oid].order.state) && m.cells[oid].order.terms.id == oid
          && u.clientId == oid
    requires Answered(m.cells[oid], answers) && answers[m.cells[oid].order.brokerOrderId.value] == u
    ensures var c := m.cells[oid];
            var delta := u.filledQty - c.order.filledQty;
            var script := CheckScript(m, c.order, answers);
            && (Executed(u.state) && delta > 0.0 ==>
                  script == HandleFill(m, oid, SyntheticFill(c, u, delta, u.updatedAt), u.updatedAt))
            && (u.state == BAccepted || (u.state == BPartial && delta <= 0.0) ==> script == [])
            && (u.state == BCanceled ==> script == Finish(m, oid, OrderCancelled(None), u.updatedAt))
            && (u.state == BRejected ==> script == Finish(m, oid, OrderRejected("broker rejected"), u.updatedAt))
  {
    hide HandleFill, Finish, SyntheticFill;
  }

  // ── A settled system ─────────────────────────────────────────────────────────

  lemma SettledIsMid(s: Sys)
    requires Settled(s)
    ensures Mid(s)
  {
    hide Mid;
  }

  lemma SettledCheckIsIdle(s: Sys, oid: OrderId)
    requires Settled(s) && oid in s.mem.cells && !Terminal(s.mem.cells[oid].order.state)
    ensures CheckScript(s.mem, s.mem.cells[oid].order, BrokerAnswers(s.book)) == []
  {
    SettledIsMid(s);
    SettledAt(s, oid);
    BehindAt(s, oid);
    hide Mid, InSync, StatusOf, BrokerAnswers, Settled, Behind, CheckScript;
    var c, b := s.mem.cells[oid], StatusOf(s.book, oid);
    OpenInSync(c, b);
    if c.order.brokerOrderId.Some? {
      AnswerIsStatus(s, oid);
      CheckShape(s.mem, oid, BrokerAnswers(s.book), b.value);
    } else {
      NoIdNoCheck(s.mem, c.order, BrokerAnswers(s.book));
    }
  }

  lemma NoIdNoCheck(m: Memory, o: Order, answers: Answers)
    requires o.brokerOrderId.None?
    ensures CheckScript(m, o, answers) == []
  {
  }

  lemma {:induction false} IdleChecks(s: Sys, open: seq<Order>)
    requires Settled(s) && OpenList(s.mem, open) && AllOpen(open)
    ensures OrderPass(s, open, BrokerAnswers(s.book)) == []
  {
    hide Settled, Exec, CheckScript, BrokerAnswers;
    if open != [] {
      IdleChecks(s, open[..|open| - 1]);
      ExecNone(s);
      SettledCheckIsIdle(s, open[|open| - 1].terms.id);
    }
  }

  lemma MidIsTidy(s: Sys)
    requires Mid(s)
    ensures Tidy(s.mem) && NoDup(s.mem.ids)
  {
    hide Rebuilt, Conserved, AllBehind, Indexed;
  }

  lemma OpenOrdersOf(s: Sys)
    requires Mid(s)
    ensures var open := OpenOrders(s.mem, s.mem.ids);
            && OpenList(s.mem, open) && AllOpen(open)
            && forall oid :: oid in s.mem.cells && !Terminal(s.mem.cells[oid].order.state) ==>
                 exists i :: 0 <= i < |open| && open[i].terms.id == oid
  {
    MidIsTidy(s);
    hide Mid, OpenOrders;
    OpenOrdersListed(s.mem, s.mem.ids);
    OpenOrdersAreOpen(s.mem, s.mem.ids);
  }

  /** An order pass over a settled system, the broker answering for itself, does nothing at all. */
  lemma SettledPassIsIdle(s: Sys)
    requires Settled(s)
    ensures OrderPass(s, OpenOrders(s.mem, s.mem.ids), BrokerAnswers(s.book)) == []
    ensures OrdersChecked(s, BrokerAnswers(s.book)) == s
  {
    SettledIsMid(s);
    OpenOrdersOf(s);
    hide Settled, OpenOrders, OrderPass, Exec;
    IdleChecks(s, OpenOrders(s.mem, s.mem.ids));
    ExecNone(s);
  }

  /** With nothing short and no ghost order booked, every position agrees: nothing to adopt, nothing to page. */
  lemma SettledPositionsAgree(s: Sys, tolerance: real, symbol: string)
    requires Settled(s) && NoneShort(s) && AllInvented(s.mem, s.mem.ids, symbol) == 0.0 && tolerance > 0.0
    ensures JudgeSymbol(s.mem, s.book.holdings, tolerance, symbol) == Agrees
  {
    hide Settled, NoneShort, AllInvented, Expected;
    FillsExplainHoldings(s, symbol);
    EqualAgrees(s.book, Expected(s.mem, s.mem.ids, symbol), tolerance, symbol);
  }

  lemma EqualAgrees(b: Book, ours: real, tolerance: real, symbol: string)
    requires ours == Held(b, symbol) && tolerance > 0.0
    ensures Judge(ours, Lookup(b.holdings, symbol), tolerance) == Agrees
  {
  }

  // ── One missed notice made up ────────────────────────────────────────────────

  lemma MatchingQtyIsInSync(c: Cell, u: Status)
    requires Behind(c, Some(u)) && !Terminal(c.order.state) && c.order.brokerOrderId.Some?
          && c.order.filledQty == u.filledQty
    requires (u.state.BAccepted? || u.state.BPartial? || u.state.BFilled?)
    ensures u.state != BFilled && InSync(c, Some(u))
  {
    OpenBehind(c, Some(u));
    assert QtyCaughtUp(c, u);
    CaughtQtyStates(c, u);
  }

  lemma BehindQty(c: Cell, u: Status)
    requires Behind(c, Some(u)) && !Terminal(c.order.state) && c.order.brokerOrderId.Some?
    ensures 0.0 <= c.order.filledQty <= u.filledQty && AtVenue(c.order.state)
    ensures (u.state.BAccepted? || u.state.BPartial? || u.state.BFilled? || u.state.BCanceled? || u.state.BRejected?)
    ensures u.state == BAccepted ==> c.order.filledQty == u.filledQty
    ensures u.state == BRejected ==> c.order.state == Accepted
    ensures u.side == c.order.terms.side && c.order.brokerOrderId == Some(u.brokerId)
  {
    OpenBehind(c, Some(u));
    SumQtyPositive(c.fills);
    assert SumQty([]) == 0.0;
    hide Walk, SumNotional, OwnFills;
  }

  /** A crash-safe script that leaves its order in sync with a broker it did not touch. */
  ghost predicate Syncs(s: Sys, script: seq<Micro>, oid: OrderId) {
    var t := Exec(s, script);
    && Safe(s, script, oid) && Mid(t) && t.book == s.book && oid in t.mem.cells
    && InSync(t.mem.cells[oid], StatusOf(s.book, oid))
  }

  lemma NothingToSync(s: Sys, oid: OrderId)
    requires Mid(s) && oid in s.mem.cells && InSync(s.mem.cells[oid], StatusOf(s.book, oid))
    ensures Syncs(s, [], oid)
  {
    hide Mid, Safe, Exec, InSync, StatusOf;
    SafeNone(s, oid);
    ExecNone(s);
  }

  /** An open order the broker has, both sides under the same broker id. */
  ghost predicate Checkable(s: Sys, oid: OrderId) {
    && Mid(s) && oid in s.mem.cells && !Terminal(s.mem.cells[oid].order.state)
    && StatusOf(s.book, oid).Some? && s.mem.cells[oid].order.brokerOrderId.Some?
  }

  /** The broker has filled more than memory knows, and the order has not ended otherwise. */
  predicate Fillable(c: Cell, u: Status) {
    (u.state == BPartial || u.state == BFilled) && c.order.filledQty < u.filledQty
  }

  /** The fill made up for what memory has not heard of. */
  function Missing(c: Cell, u: Status): Fill {
    SyntheticFill(c, u, u.filledQty - c.order.filledQty, u.updatedAt)
  }

  function CheckOf(s: Sys, oid: OrderId): seq<Micro> {
    CheckScript(s.mem, CellOf(s.mem, oid).order, BrokerAnswers(s.book))
  }

  /** What a check of this order is. */
  lemma CheckIs(s: Sys, oid: OrderId)
    requires Checkable(s, oid)
    ensures var c, u := s.mem.cells[oid], StatusOf(s.book, oid).value;
            && (Fillable(c, u) ==> CheckOf(s, oid) == HandleFill(s.mem, oid, Missing(c, u), u.updatedAt))
            && (u.state == BCanceled ==> CheckOf(s, oid) == Finish(s.mem, oid, OrderCancelled(None), u.updatedAt))
            && (u.state == BRejected ==>
                CheckOf(s, oid) == Finish(s.mem, oid, OrderRejected("broker rejected"), u.updatedAt))
            && (u.state == BAccepted || (u.state == BPartial && u.filledQty <= c.order.filledQty) ==>
                CheckOf(s, oid) == [])
  {
    hide Mid, StatusOf, Behind, CheckScript, BrokerAnswers, HandleFill, Finish, SyntheticFill;
    BehindAt(s, oid);
    AnswerIsStatus(s, oid);
    CheckShape(s.mem, oid, BrokerAnswers(s.book), StatusOf(s.book, oid).value);
  }

  /** How its record relates to it. */
  lemma CheckedRecord(c: Cell, u: Status)
    requires Behind(c, Some(u)) && !Terminal(c.order.state) && c.order.brokerOrderId.Some?
    ensures AtVenue(c.order.state) && c.order.filledQty <= u.filledQty
    ensures u.state == BRejected ==> c.order.state == Accepted
    ensures !Fillable(c, u) && u.state != BCanceled && u.state != BRejected ==>
              InSync(c, Some(u)) && (u.state == BAccepted || (u.state == BPartial && u.filledQty <= c.order.filledQty))
  {
    hide Behind, InSync;
    BehindQty(c, u);
    if !Fillable(c, u) && u.state != BCanceled && u.state != BRejected {
      MatchingQtyIsInSync(c, u);
    }
  }

  lemma CancelledInFull(c: Cell, b: Option<Status>)
    requires !CancelledShort(c, b) && b.Some? && b.value.state == BCanceled && !Terminal(c.order.state)
          && c.order.filledQty <= b.value.filledQty
    ensures c.order.filledQty == b.value.filledQty
  {
  }

  /** Checking an open order against its record brings it in sync, unless it was cancelled short. */
  lemma CheckSafe(s: Sys, oid: OrderId)
    requires Checkable(s, oid) && !CancelledShort(s.mem.cells[oid], StatusOf(s.book, oid))
    ensures Syncs(s, CheckOf(s, oid), oid)
  {
    var c, b := s.mem.cells[oid], StatusOf(s.book, oid);
    CheckIs(s, oid);
    BehindAt(s, oid);
    assert !Terminal(c.order.state) && c.order.brokerOrderId.Some?;
    hide Mid, Checkable, StatusOf, Behind;
    CheckedRecord(c, b.value);
    if Fillable(c, b.value) {
      hide *;
      FillHereSafe(s, oid);
    } else if b.value.state == BCanceled {
      CancelledInFull(c, b);
      hide *;
      CancelHereSafe(s, oid, b.value.updatedAt);
    } else if b.value.state == BRejected {
      hide *;
      RejectHereSafe(s, oid, "broker rejected", b.value.updatedAt);
    } else {
      hide *;
      NothingToSync(s, oid);
    }
  }

  /** One legal line that ends its order brings it in sync if the order it leaves is. */
  lemma LineSyncs(s: Sys, e: Logged)
    requires Mid(s) && e.oid in s.mem.cells && (e.event.OrderCancelled? || e.event.OrderRejected?)
    requires LegalCell(s.mem.cells[e.oid], e.event, e.ts)
    requires InSync(LiveCell(s.mem.cells[e.oid], e.event, e.ts), StatusOf(s.book, e.oid))
    ensures Syncs(s, [Log(e)], e.oid)
  {
    hide Mid, Safe, Exec, StatusOf, Behind, InSync, LiveCell, LegalCell;
    InSyncIsBehind(LiveCell(s.mem.cells[e.oid], e.event, e.ts), StatusOf(s.book, e.oid));
    LogSafe(s, e);
  }

  /** The broker has filled more than memory knows; one made-up fill for the rest brings the order in sync. */
  lemma FillHereSafe(s: Sys, oid: OrderId)
    requires Mid(s) && oid in s.mem.cells && StatusOf(s.book, oid).Some?
    requires AtVenue(s.mem.cells[oid].order.state) && s.mem.cells[oid].order.brokerOrderId.Some?
    requires Fillable(s.mem.cells[oid], StatusOf(s.book, oid).value)
    ensures var c, u := s.mem.cells[oid], StatusOf(s.book, oid).value;
            Syncs(s, HandleFill(s.mem, oid, Missing(c, u), u.updatedAt), oid)
  {
    hide Mid, Safe, Exec, StatusOf, InSync, HandleFill;
    var c, u := s.mem.cells[oid], StatusOf(s.book, oid).value;
    FillNoticeSafe(s, oid, Missing(c, u), u.updatedAt);
  }

  lemma FinishIsOneLine(m: Memory, oid: OrderId, e: Event, ts: Time)
    requires oid in m.cells && AtVenue(m.cells[oid].order.state)
    ensures Finish(m, oid, e, ts) == [Log(Logged(ts, oid, e))]
  {
  }

  /** The broker has cancelled an order memory is up to date with; cancelling it locally brings it in sync. */
  lemma CancelHereSafe(s: Sys, oid: OrderId, ts: Time)
    requires Mid(s) && oid in s.mem.cells && StatusOf(s.book, oid).Some?
    requires var c, u := s.mem.cells[oid], StatusOf(s.book, oid).value;
             u.state == BCanceled && AtVenue(c.order.state) && c.order.filledQty == u.filledQty
    ensures Syncs(s, Finish(s.mem, oid, OrderCancelled(None), ts), oid)
  {
    BehindAt(s, oid);
    CancelCell(s.mem.cells[oid], StatusOf(s.book, oid).value, None, ts);
    FinishIsOneLine(s.mem, oid, OrderCancelled(None), ts);
    hide *;
    LineSyncs(s, Logged(ts, oid, OrderCancelled(None)));
  }

  /** The same for an order the broker rejected before any fill. */
  lemma RejectHereSafe(s: Sys, oid: OrderId, reason: string, ts: Time)
    requires Mid(s) && oid in s.mem.cells && StatusOf(s.book, oid).Some?
    requires StatusOf(s.book, oid).value.state == BRejected && s.mem.cells[oid].order.state == Accepted
    ensures Syncs(s, Finish(s.mem, oid, OrderRejected(reason), ts), oid)
  {
    BehindAt(s, oid);
    RejectCell(s.mem.cells[oid], StatusOf(s.book, oid).value, reason, ts);
    FinishIsOneLine(s.mem, oid, OrderRejected(reason), ts);
    hide *;
    LineSyncs(s, Logged(ts, oid, OrderRejected(reason)));
  }

  // ── A whole pass after missed notices ────────────────────────────────────────

  predicate Visited(open: seq<Order>, oid: OrderId) {
    exists i :: 0 <= i < |open| && open[i].terms.id == oid
  }

  /** After the visited orders were checked: each is in sync if the broker has it, the others are as they were. */
  ghost predicate PassedTo(s: Sys, t: Sys, open: seq<Order>) {
    && Mid(t) && t.book == s.book && t.mem.cells.Keys == s.mem.cells.Keys
    && forall oid :: oid in s.mem.cells ==>
         if Visited(open, oid) && StatusOf(s.book, oid).Some? then InSync(t.mem.cells[oid], StatusOf(s.book, oid))
         else t.mem.cells[oid] == s.mem.cells[oid]
  }

  /** Every order of the list is open, and one the broker has can be checked. */
  ghost predicate PassReady(s: Sys, open: seq<Order>) {
    Mid(s) && Listening(s) && NoneCancelledShort(s) && OpenList(s.mem, open) && AllOpen(open)
  }

  lemma VisitedLast(open: seq<Order>, oid: OrderId)
    requires open != []
    ensures Visited(open, oid) <==> Visited(open[..|open| - 1], oid) || open[|open| - 1].terms.id == oid
  {
    var init := open[..|open| - 1];
    if Visited(init, oid) {
      var i :| 0 <= i < |init| && init[i].terms.id == oid;
      assert open[i].terms.id == oid;
    }
    if open[|open| - 1].terms.id == oid {
      assert Visited(open, oid);
    }
  }

  lemma ReadyInit(s: Sys, open: seq<Order>)
    requires open != [] && PassReady(s, open)
    ensures var init, o := open[..|open| - 1], open[|open| - 1];
            && PassReady(s, init) && !Visited(init, o.terms.id)
            && o.terms.id in s.mem.cells && s.mem.cells[o.terms.id].order == o && !Terminal(o.state)
  {
    hide Mid, Listening, NoneCancelledShort;
  }

  /** The order moved last is in sync, the others are as the pass had left them. */
  lemma PassedOn(s: Sys, t: Sys, last: Sys, open: seq<Order>, oid: OrderId)
    requires open != [] && open[|open| - 1].terms.id == oid && PassedTo(s, t, open[..|open| - 1]) && oid in s.mem.cells
    requires Mid(last) && last.book == s.book && OthersKept(t, last, oid) && oid in last.mem.cells
    requires if StatusOf(s.book, oid).Some? then InSync(last.mem.cells[oid], StatusOf(s.book, oid))
             else last.mem.cells[oid] == s.mem.cells[oid]
    ensures PassedTo(s, last, open)
  {
    hide Mid, InSync, StatusOf, Visited;
    forall i ensures Visited(open, i) <==> Visited(open[..|open| - 1], i) || i == oid {
      VisitedLast(open, i);
    }
  }

  lemma PassedFacts(s: Sys, t: Sys, open: seq<Order>, oid: OrderId)
    requires PassedTo(s, t, open) && oid in s.mem.cells && !Visited(open, oid)
    ensures Mid(t) && t.book == s.book && oid in t.mem.cells && t.mem.cells[oid] == s.mem.cells[oid]
  {
    hide Mid, InSync, StatusOf, Visited;
  }

  lemma ReadyAt(s: Sys, open: seq<Order>, oid: OrderId)
    requires PassReady(s, open) && oid in s.mem.cells && !Terminal(s.mem.cells[oid].order.state)
    ensures s.mem.cells[oid].order.brokerOrderId.Some? <==> StatusOf(s.book, oid).Some?
    ensures !CancelledShort(s.mem.cells[oid], StatusOf(s.book, oid))
  {
    hide Mid, StatusOf, CancelledShort, OpenList, AllOpen;
  }

  /** The last order of the list, checked once the others have been. */
  lemma LastCheck(s: Sys, t: Sys, open: seq<Order>)
    requires open != [] && PassReady(s, open) && PassedTo(s, t, open[..|open| - 1])
    ensures var o := open[|open| - 1];
            var script := CheckScript(t.mem, o, BrokerAnswers(s.book));
            Safe(t, script, o.terms.id) && PassedTo(s, Exec(t, script), open)
  {
    var oid := open[|open| - 1].terms.id;
    ReadyInit(s, open);
    PassedFacts(s, t, open[..|open| - 1], oid);
    ReadyAt(s, open, oid);
    if StatusOf(s.book, oid).Some? {
      CheckHere(t, oid);
    } else {
      NoIdNoCheck(t.mem, open[|open| - 1], BrokerAnswers(s.book));
      SafeNone(t, oid);
      ExecNone(t);
      KeptSelf(t, oid);
    }
    hide *;
    PassedOn(s, t, Exec(t, CheckScript(t.mem, open[|open| - 1], BrokerAnswers(s.book))), open, oid);
  }

  lemma CheckHere(s: Sys, oid: OrderId)
    requires Checkable(s, oid) && !CancelledShort(s.mem.cells[oid], StatusOf(s.book, oid))
    ensures var script := CheckScript(s.mem, s.mem.cells[oid].order, BrokerAnswers(s.book));
            var t := Exec(s, script);
            && Safe(s, script, oid) && Mid(t) && OthersKept(s, t, oid) && t.book == s.book && oid in t.mem.cells
            && InSync(t.mem.cells[oid], StatusOf(s.book, oid))
  {
    CheckSafe(s, oid);
    SafeEnd(s, CheckOf(s, oid), oid);
    hide Mid, Safe, Exec, InSync, StatusOf, CheckScript, BrokerAnswers, OthersKept;
  }

  /** The checks of a pass are crash safe one after the other. */
  lemma {:induction false} PassSafe(s: Sys, open: seq<Order>)
    requires PassReady(s, open)
    ensures var script := OrderPass(s, open, BrokerAnswers(s.book));
            AllMid(s, script) && PassedTo(s, Exec(s, script), open)
  {
    hide Mid, Exec, CheckScript, BrokerAnswers, PassedTo, Safe;
    if open == [] {
      NoCheckYet(s);
    } else {
      ReadyInit(s, open);
      var init, o := open[..|open| - 1], open[|open| - 1];
      PassSafe(s, init);
      var first := OrderPass(s, init, BrokerAnswers(s.book));
      var t := Exec(s, first);
      LastCheck(s, t, open);
      var check := CheckScript(t.mem, o, BrokerAnswers(s.book));
      SafeIsAllMid(t, check, o.terms.id);
      AllMidConcat(s, first, check);
      ExecConcat(s, first, check);
    }
  }

  lemma NoCheckYet(s: Sys)
    requires Mid(s)
    ensures AllMid(s, []) && PassedTo(s, Exec(s, []), [])
  {
    ExecNone(s);
    hide Mid, Exec;
    var none: seq<Micro> := [];
    assert none[..0] == none;
  }

  /** An order the pass left alone is over, or the broker never saw it; either way it is in sync. */
  lemma UntouchedIsInSync(s: Sys, oid: OrderId)
    requires Mid(s) && Listening(s) && oid in s.mem.cells
    requires Terminal(s.mem.cells[oid].order.state) || StatusOf(s.book, oid).None?
    ensures InSync(s.mem.cells[oid], StatusOf(s.book, oid))
  {
    BehindAt(s, oid);
    hide Mid, StatusOf;
    if Terminal(s.mem.cells[oid].order.state) {
      TerminalIsInSync(s.mem.cells[oid], StatusOf(s.book, oid));
    } else {
      NeverSeenIsInSync(s.mem.cells[oid]);
    }
  }

  lemma NeverSeenIsInSync(c: Cell)
    requires Behind(c, None) && c.order.brokerOrderId.None?
    ensures InSync(c, None)
  {
    hide Sound, OwnFills;
  }

  /** A pass settles a system whose notices were lost, if no order was cancelled after a fill nobody heard of. */
  lemma PassSettles(s: Sys)
    requires Mid(s) && Listening(s) && NoneCancelledShort(s)
    ensures var script := OrderPass(s, OpenOrders(s.mem, s.mem.ids), BrokerAnswers(s.book));
            AllMid(s, script) && Settled(Exec(s, script)) && Exec(s, script).book == s.book
            && Exec(s, script).mem.cells.Keys == s.mem.cells.Keys
  {
    OpenOrdersOf(s);
    var open := OpenOrders(s.mem, s.mem.ids);
    hide Mid, Exec, OpenOrders, OrderPass, Listening, NoneCancelledShort, InSync, StatusOf;
    PassSafe(s, open);
    forall oid | oid in s.mem.cells && !(Visited(open, oid) && StatusOf(s.book, oid).Some?)
      ensures InSync(s.mem.cells[oid], StatusOf(s.book, oid))
    {
      UntouchedIsInSync(s, oid);
    }
  }

  // ── And only then ────────────────────────────────────────────────────────────

  lemma AnswersOfBrokerFit(s: Sys)
    requires Mid(s)
    ensures AnswersFit(s.mem, BrokerAnswers(s.book))
  {
    forall oid | oid in s.mem.cells && !Terminal(s.mem.cells[oid].order.state)
      && Answered(s.mem.cells[oid], BrokerAnswers(s.book))
      ensures BrokerAnswers(s.book)[s.mem.cells[oid].order.brokerOrderId.value].clientId == oid
    {
      BehindAt(s, oid);
      AnsweredIsOwn(s, oid);
    }
  }

  lemma AnsweredIsOwn(s: Sys, oid: OrderId)
    requires Mid(s) && oid in s.mem.cells && Answered(s.mem.cells[oid], BrokerAnswers(s.book))
    requires Behind(s.mem.cells[oid], StatusOf(s.book, oid))
    ensures BrokerAnswers(s.book)[s.mem.cells[oid].order.brokerOrderId.value].clientId == oid
  {
    hide Rebuilt, Conserved, AllBehind, Sound, OwnFills, GoodStatus;
  }

  /** Cancelled locally with fewer fills than its record, an order is out of sync for good. */
  lemma CancelledShortStaysOut(c: Cell, u: Status)
    requires Behind(c, Some(u)) && CancelledShort(c, Some(u)) && c.order.brokerOrderId.Some?
    ensures !InSync(CheckedCell(c, u), Some(u))
  {
    OpenBehind(c, Some(u));
    hide Sound, OwnFills, GoodStatus;
  }

  /**
   * The broker moves while its notices are lost. The next order pass settles the system
   * if and only if no open order was cancelled after a fill memory has not heard of.
   */
  lemma PassSettlesIff(s: Sys)
    requires Mid(s) && Listening(s)
    ensures Settled(OrdersChecked(s, BrokerAnswers(s.book))) <==> NoneCancelledShort(s)
  {
    if NoneCancelledShort(s) {
      PassSettles(s);
    } else {
      ShortStaysUnsettled(s);
    }
    hide *;
  }

  lemma PassedAt(m: Memory, answers: Answers, oid: OrderId)
    requires oid in m.cells && Answered(m.cells[oid], answers)
    ensures oid in Passed(m, answers).cells
    ensures Passed(m, answers).cells[oid] == CheckedCell(m.cells[oid], answers[m.cells[oid].order.brokerOrderId.value])
  {
    hide CheckedCell;
  }

  lemma ShortStaysUnsettled(s: Sys)
    requires Mid(s) && Listening(s) && !NoneCancelledShort(s)
    ensures !Settled(OrdersChecked(s, BrokerAnswers(s.book)))
  {
    var oid :| oid in s.mem.cells && CancelledShort(s.mem.cells[oid], StatusOf(s.book, oid));
    BehindAt(s, oid);
    AnswerIsStatus(s, oid);
    CancelledShortStaysOut(s.mem.cells[oid], StatusOf(s.book, oid).value);
    PassedAt(s.mem, BrokerAnswers(s.book), oid);
    hide *;
    MidIsTidy(s);
    AnswersOfBrokerFit(s);
    PassIsPointwise(s, BrokerAnswers(s.book));
    var t := OrdersChecked(s, BrokerAnswers(s.book));
    if Settled(t) {
      SettledAt(t, oid);
    }
  }

  // ── Adopting what is left over ───────────────────────────────────────────────

  /** Adoptions over a settled system keep it settled after every line. */
  lemma {:induction false} AdoptAllSafe(s: Sys, symbols: seq<string>, holdings: map<string, Holding>,
                                        names: map<string, OrderId>, agent: AgentId, ts: Time)
    requires Settled(s) && NewNames(s.mem, names) && NoDup(symbols)
    requires forall symbol :: symbol in symbols ==> symbol in holdings && symbol in names && holdings[symbol].qty > 0.0
    ensures var script := AdoptAll(symbols, holdings, names, agent, ts);
            AllMid(s, script) && Settled(Exec(s, script)) && Exec(s, script).book == s.book
  {
    hide Settled, Mid, Exec, GhostScript;
    if symbols == [] {
      SettledIsMid(s);
      NoCheckYet(s);
      ExecNone(s);
    } else {
      var init, last := symbols[..|symbols| - 1], symbols[|symbols| - 1];
      assert symbols == init + [last];
      AdoptAllSafe(s, init, holdings, names, agent, ts);
      var first := AdoptAll(init, holdings, names, agent, ts);
      var g := Adoption(last, holdings[last], names[last], agent);
      var t := Exec(s, first);
      AdoptionNames(s, init, last, holdings, names, agent, ts);
      GhostSafe(t, g, ts);
      SafeIsAllMid(t, GhostScript(g, ts), g.oid);
      AllMidConcat(s, first, GhostScript(g, ts));
      ExecConcat(s, first, GhostScript(g, ts));
    }
  }

  /** The name of the next symbol is still unused. */
  lemma AdoptionNames(s: Sys, init: seq<string>, last: string, holdings: map<string, Holding>,
                      names: map<string, OrderId>, agent: AgentId, ts: Time)
    requires NewNames(s.mem, names) && NoDup(init) && last !in init && last in names
    requires forall symbol :: symbol in init ==> symbol in holdings && symbol in names
    ensures names[last] !in Exec(s, AdoptAll(init, holdings, names, agent, ts)).mem.cells
  {
    AdoptionClosesGaps(s, init, holdings, names, agent, ts);
    hide Exec, AdoptAll, Expected, Tidy, AllTrack, Rebuilt, OnlyEndedAdded;
  }

  /** The script of a whole reconciler pass: the open orders, then the orphans. */
  function PassScript(s: Sys, orphans: seq<string>, names: map<string, OrderId>, agent: AgentId, ts: Time): seq<Micro>
    requires forall symbol :: symbol in orphans ==> symbol in s.book.holdings && symbol in names
  {
    OrderPass(s, OpenOrders(s.mem, s.mem.ids), BrokerAnswers(s.book))
    + AdoptAll(orphans, s.book.holdings, names, agent, ts)
  }

  /** The pass adopts exactly the orphans it finds, under new names. */
  ghost predicate PassAdopts(s: Sys, orphans: seq<string>, names: map<string, OrderId>, tolerance: real) {
    && NewNames(s.mem, names) && NoDup(orphans) && tolerance > 0.0
    && (forall symbol :: symbol in orphans ==> symbol in s.book.holdings && symbol in names)
    && (forall symbol :: symbol in orphans <==>
          JudgeSymbol(OrdersChecked(s, BrokerAnswers(s.book)).mem, s.book.holdings, tolerance, symbol) == Orphan)
  }

  lemma OrphansArePositive(s: Sys, orphans: seq<string>, names: map<string, OrderId>, tolerance: real, symbol: string)
    requires PassAdopts(s, orphans, names, tolerance) && symbol in orphans
    ensures s.book.holdings[symbol].qty > 0.0
  {
    hide Expected, NewNames, OrdersChecked;
  }

  /** A whole pass after missed notices is crash safe and settles the system. */
  lemma WholePassSafe(s: Sys, orphans: seq<string>, names: map<string, OrderId>, tolerance: real, agent: AgentId,
                      ts: Time)
    requires Mid(s) && Listening(s) && NoneCancelledShort(s) && PassAdopts(s, orphans, names, tolerance)
    ensures var script := PassScript(s, orphans, names, agent, ts);
            AllMid(s, script) && Settled(Exec(s, script)) && Exec(s, script).book == s.book
  {
    forall symbol | symbol in orphans ensures s.book.holdings[symbol].qty > 0.0 {
      OrphansArePositive(s, orphans, names, tolerance, symbol);
    }
    CheckedNamesStayNew(s, BrokerAnswers(s.book), names);
    PassSettles(s);
    hide Mid, Exec, Settled, Listening, NoneCancelledShort, OpenOrders, OrderPass, AdoptAll, BrokerAnswers, NewNames,
         JudgeSymbol;
    var open := OpenOrders(s.mem, s.mem.ids);
    var first := OrderPass(s, open, BrokerAnswers(s.book));
    var adopt := AdoptAll(orphans, s.book.holdings, names, agent, ts);
    AdoptAllSafe(Exec(s, first), orphans, s.book.holdings, names, agent, ts);
    AllMidConcat(s, first, adopt);
    ExecConcat(s, first, adopt);
  }
}
