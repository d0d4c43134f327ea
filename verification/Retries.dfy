/**
 * Submitting an order id again (execution/oms.py, submit_order). The live order manager
 * starts over with no fills, but replay keeps the old ones, so a retry is safe after a
 * restart exactly when nothing was filled before it.
 */
module Retries {
  import opened Common
  import opened Orders
  import opened OmsState
  import opened Broker
  import opened Trading
  import opened Recovery
  import opened CrashSafety
  import opened Runs

  lemma LastFill(fills: seq<Fill>, f: Fill)
    ensures SumQty(fills + [f]) == SumQty(fills) + f.qty
  {
    assert (fills + [f])[..|fills|] == fills;
  }

  /** One log line: what it adds to an order's fills and to its filled quantity. */
  lemma LineAdds(s: Sys, oid: OrderId, e: Event, ts: Time)
    requires oid in s.mem.cells && !e.SubmitIntent?
    ensures var t := Exec(s, [Log(Logged(ts, oid, e))]);
            && oid in t.mem.cells && t.book == s.book
            && (e.FillReceived? ==> t.mem.cells[oid].fills == s.mem.cells[oid].fills + [e.fill])
            && (!e.FillReceived? ==> t.mem.cells[oid].fills == s.mem.cells[oid].fills)
            && (!e.FillReceived? ==> t.mem.cells[oid].order.filledQty == s.mem.cells[oid].order.filledQty)
  {
    ExecOne(s, Log(Logged(ts, oid, e)));
    hide Exec, Fire, Blend;
  }

  lemma FinishAddsNothing(s: Sys, oid: OrderId, e: Event, ts: Time)
    requires oid in s.mem.cells && !e.SubmitIntent? && !e.FillReceived?
    ensures var t := Exec(s, Finish(s.mem, oid, e, ts));
            oid in t.mem.cells && t.mem.cells[oid].fills == s.mem.cells[oid].fills && t.book == s.book
  {
    LineAdds(s, oid, e, ts);
    ExecNone(s);
    hide Exec;
  }

  lemma CloseAddsNothing(s: Sys, oid: OrderId, ts: Time)
    requires oid in s.mem.cells
    ensures var t := Exec(s, [Close(oid, ts)]);
            oid in t.mem.cells && t.mem.cells[oid].fills == s.mem.cells[oid].fills && t.book == s.book
  {
    ExecOne(s, Close(oid, ts));
    hide Exec, Fire;
  }

  lemma CatchUpStateAddsNothing(s: Sys, oid: OrderId, u: Status, now: Time)
    requires oid in s.mem.cells
    ensures var t := Exec(s, CatchUpState(s.mem, oid, u, now));
            oid in t.mem.cells && t.mem.cells[oid].fills == s.mem.cells[oid].fills && t.book == s.book
  {
    hide Exec, Finish;
    ExecNone(s);
    CloseAddsNothing(s, oid, now);
    FinishAddsNothing(s, oid, OrderCancelled(None), now);
    FinishAddsNothing(s, oid, OrderExpired, now);
    FinishAddsNothing(s, oid, OrderRejected(u.rejectionReason.GetOr("broker rejected (recovered)")), now);
  }

  lemma CatchUpIdAddsNothing(s: Sys, oid: OrderId, u: Status, now: Time)
    requires oid in s.mem.cells
    ensures var t := Exec(s, CatchUpId(s.mem, oid, u, now));
            && oid in t.mem.cells && t.mem.cells[oid].fills == s.mem.cells[oid].fills && t.book == s.book
            && t.mem.cells[oid].order.filledQty == s.mem.cells[oid].order.filledQty
  {
    hide Exec;
    ExecNone(s);
    LineAdds(s, oid, OrderAccepted(u.brokerId), now);
  }

  lemma CatchUpQtyAddsTheGap(s: Sys, oid: OrderId, u: Status, now: Time)
    requires oid in s.mem.cells
    ensures var t := Exec(s, CatchUpQty(s.mem, oid, u, now));
            && oid in t.mem.cells && t.book == s.book
            && SumQty(t.mem.cells[oid].fills)
               == SumQty(s.mem.cells[oid].fills) + Max(0.0, u.filledQty - s.mem.cells[oid].order.filledQty)
  {
    hide Exec, SumQty;
    ExecNone(s);
    var c := s.mem.cells[oid];
    var delta := u.filledQty - c.order.filledQty;
    if delta > 0.0 {
      var f := Canonical(c.order, SyntheticFill(c, u, delta, now));
      LineAdds(s, oid, FillReceived(f), now);
      LastFill(c.fills, f);
    }
  }

  /** Catching up, from any memory at all, books what the snapshot is missing and no more. */
  lemma CatchUpAddsTheGap(s: Sys, oid: OrderId, u: Status, now: Time)
    requires oid in s.mem.cells
    ensures var t := Exec(s, CatchUp(s, oid, u, now));
            && oid in t.mem.cells && t.book == s.book
            && SumQty(t.mem.cells[oid].fills)
               == SumQty(s.mem.cells[oid].fills) + Max(0.0, u.filledQty - s.mem.cells[oid].order.filledQty)
  {
    hide Exec, SumQty, CatchUpId, CatchUpQty, CatchUpState;
    var id := CatchUpId(s.mem, oid, u, now);
    CatchUpIdAddsNothing(s, oid, u, now);
    var s1 := Exec(s, id);
    var qty := CatchUpQty(s1.mem, oid, u, now);
    CatchUpQtyAddsTheGap(s1, oid, u, now);
    var s2 := Exec(s1, qty);
    var state := CatchUpState(s2.mem, oid, u, now);
    CatchUpStateAddsNothing(s2, oid, u, now);
    var s3 := Exec(s2, state);
    var advanced := CellOf(s.mem, oid).order.brokerOrderId.None? || qty != [] || state != []
      || (u.state.BCanceled? || u.state.BRejected? || u.state.BExpired?);
    var e := if advanced then ReconcileRecovered else ReconcileNoop;
    LineAdds(s3, oid, e, now);
    ExecConcat4(s, id, qty, state, [Log(Logged(now, oid, e))]);
  }

  lemma ReconcileAddsTheGap(s: Sys, oid: OrderId, now: Time)
    requires oid in s.mem.cells && StatusOf(s.book, oid).Some? && !Terminal(s.mem.cells[oid].order.state)
    ensures var t := Exec(s, ReconcileOne(s, oid, now));
            var u := StatusOf(s.book, oid).value;
            && oid in t.mem.cells && t.book == s.book
            && SumQty(t.mem.cells[oid].fills)
               == SumQty(s.mem.cells[oid].fills) + Max(0.0, u.filledQty - s.mem.cells[oid].order.filledQty)
  {
    hide Exec, SumQty, CatchUp;
    CatchUpAddsTheGap(s, oid, StatusOf(s.book, oid).value, now);
    LineAdds(s, oid, ReconcileNoop, now);
  }

  /** Live memory and the log after one line, for one order. */
  ghost predicate Forgot(s: Sys, oid: OrderId, fills: seq<Fill>) {
    var m := Replay(s.log);
    && oid in s.mem.cells && s.mem.cells[oid].fills == []
    && oid in m.cells && m.cells[oid].fills == fills && m.cells[oid].order.filledQty == 0.0
    && (m.cells[oid].order.state.Submitted? || m.cells[oid].order.state.Accepted?)
  }

  lemma IntentForgets(s: Sys, o: Order, now: Time)
    requires Rebuilt(s) && o.terms.id in s.mem.cells && FreshOrder(o)
    ensures var t := Exec(s, [Log(Logged(now, o.terms.id, SubmitIntent(o)))]);
            t.book == s.book && Forgot(t, o.terms.id, s.mem.cells[o.terms.id].fills)
  {
    var e := Logged(now, o.terms.id, SubmitIntent(o));
    ExecOne(s, Log(e));
    var log := s.log + [PersistLogged(e)];
    assert log[..|log| - 1] == s.log;
    hide Exec;
  }

  lemma AcceptForgets(s: Sys, oid: OrderId, id: BrokerId, now: Time, fills: seq<Fill>)
    requires Forgot(s, oid, fills)
    ensures var t := Exec(s, [Log(Logged(now, oid, OrderAccepted(id)))]);
            t.book == s.book && Forgot(t, oid, fills)
  {
    var e := Logged(now, oid, OrderAccepted(id));
    ExecOne(s, Log(e));
    var log := s.log + [PersistLogged(e)];
    assert log[..|log| - 1] == s.log;
    hide Exec;
  }

  lemma RetryScript(s: Sys, o: Order, now: Time)
    requires o.state == OrderState.Pending && o.terms.id in s.book.byClient && s.book.submitFailure.None?
    ensures var oid := o.terms.id;
            var e := Logged(now, oid, SubmitIntent(o));
            var id := s.book.byClient[oid];
            || SubmitCall(s, o, now).0 == [Log(e)]
            || SubmitCall(s, o, now).0 == [Log(e)] + [Log(Logged(now, oid, OrderAccepted(id)))]
  {
    var oid := o.terms.id;
    var e := Logged(now, oid, SubmitIntent(o));
    var s1 := Exec(s, [Log(e)]);
    ExecOne(s, Log(e));
    ExecNone(s1);
    hide Exec, LiveCell, React;
    assert BrokerSubmit(s1, o, now) == ([], Placed(s.book.byClient[oid]));
  }

  /** What a retry leaves: the old fills in the log under a snapshot that forgot them. */
  lemma RetryForgets(s: Sys, o: Order, now: Time)
    requires Settled(s) && GoodOrder(o) && o.terms.id in s.book.byClient && s.book.submitFailure.None?
    ensures o.terms.id in s.mem.cells
    ensures var t := Exec(s, SubmitCall(s, o, now).0);
            t.book == s.book && Forgot(t, o.terms.id, s.mem.cells[o.terms.id].fills)
  {
    var oid := o.terms.id;
    KnownToMemory(s, oid);
    assert Rebuilt(s);
    hide Settled, Rebuilt, Exec, Forgot, SubmitCall;
    var e := Logged(now, oid, SubmitIntent(o));
    var a := Logged(now, oid, OrderAccepted(s.book.byClient[oid]));
    RetryScript(s, o, now);
    IntentForgets(s, o, now);
    AcceptForgets(Exec(s, [Log(e)]), oid, s.book.byClient[oid], now, s.mem.cells[oid].fills);
    ExecConcat(s, [Log(e)], [Log(a)]);
  }

  lemma NoFillsIffNothingFilled(s: Sys, oid: OrderId)
    requires Settled(s) && oid in s.book.byClient
    ensures oid in s.mem.cells && StatusOf(s.book, oid).Some?
    ensures SumQty(s.mem.cells[oid].fills) == 0.0 <==> s.mem.cells[oid].fills == []
    ensures s.mem.cells[oid].fills == [] <==> StatusOf(s.book, oid).value.filledQty == 0.0
    ensures StatusOf(s.book, oid).value.filledQty >= 0.0
  {
    KnownToMemory(s, oid);
    BehindAt(s, oid);
    SettledAt(s, oid);
    hide Settled, Mid, StatusOf, InSync, SumQty, Behind;
    SyncedFills(s.mem.cells[oid], StatusOf(s.book, oid).value);
  }

  lemma SyncedFills(c: Cell, u: Status)
    requires InSync(c, Some(u))
    ensures SumQty(c.fills) == 0.0 <==> c.fills == []
    ensures c.fills == [] <==> u.filledQty == 0.0
    ensures u.filledQty >= 0.0
  {
    SumQtyPositive(c.fills);
    hide Walk, SumNotional, OwnFills;
  }

  /** The order manager after it submits an order again. */
  function Resubmitted(s: Sys, o: Order, now: Time): Sys {
    Exec(s, SubmitCall(s, o, now).0)
  }

  /** The restarted order manager after it has reconciled one order. */
  function RestartedFor(s: Sys, oid: OrderId, now: Time): Sys {
    Exec(Restart(s), ReconcileOne(Restart(s), oid, now))
  }

  function FillsOf(s: Sys, oid: OrderId): seq<Fill> {
    CellOf(s.mem, oid).fills
  }

  function BrokerFilled(b: Book, oid: OrderId): real {
    if StatusOf(b, oid).Some? then StatusOf(b, oid).value.filledQty else 0.0
  }

  /**
   * The module promises that retrying a submit after a crash never duplicates a position.
   * Retry an order id the broker already knows: live memory forgets the order's fills,
   * and after the next restart its fills agree with the broker again if and only if there
   * were none. Otherwise every share is booked twice.
   */
  lemma RetrySafeIffUnfilled(s: Sys, o: Order, now: Time, later: Time)
    requires Settled(s) && GoodOrder(o) && o.terms.id in s.book.byClient && s.book.submitFailure.None?
    ensures var oid := o.terms.id;
            var t := Resubmitted(s, o, now);
            var r := RestartedFor(t, oid, later);
            && r.book == s.book && FillsOf(t, oid) == []
            && SumQty(FillsOf(r, oid)) == SumQty(FillsOf(s, oid)) + BrokerFilled(s.book, oid)
            && (SumQty(FillsOf(r, oid)) == BrokerFilled(s.book, oid) <==> FillsOf(s, oid) == [])
  {
    hide Settled, Exec, SubmitCall, ReconcileOne, GoodOrder, SumQty, Replay, StatusOf;
    var oid := o.terms.id;
    RetryForgets(s, o, now);
    NoFillsIffNothingFilled(s, oid);
    var t := Resubmitted(s, o, now);
    ReconcileAddsTheGap(Restart(t), oid, later);
  }

  // ── A retry that doubles ─────────────────────────────────────────────────────

  /** The broker's part of a submission that is accepted and filled at once. */
  lemma InstantSend(s: Sys, o: Order, now: Time)
    requires Mid(s) && o.terms.id in s.mem.cells && o.terms.id !in s.book.byClient
    requires s.mem.cells[o.terms.id].order == o.(state := Submitted) && GoodOrder(o)
          && s.mem.cells[o.terms.id].fills == []
    requires s.book.mode == Instant && s.book.submitFailure.None?
    ensures var t := Exec(s, AcceptScript(s, o, now));
            var id := BrokerId.Venue(s.book.nextId);
            && id in t.book.records
            && BrokerSubmit(s, o, now).0 == AcceptScript(s, o, now)
               + FillScript(t, id, o.qty, PriceFor(t.book, o.terms.symbol, o.terms.limitPrice), now)
            && BrokerSubmit(s, o, now).1 == Outcome.Placed(id) && id in Exec(s, BrokerSubmit(s, o, now).0).mem.brokerIds
  {
    BrokerSubmitSafe(s, o, now);
    InstantShape(s, o, now);
    hide Mid, Safe, Exec, StateOf, InSync, GoodOrder, AcceptScript, FillScript, PriceFor, BrokerSubmit;
  }

  lemma InstantShape(s: Sys, o: Order, now: Time)
    requires o.terms.id !in s.book.byClient && s.book.mode == Instant && s.book.submitFailure.None?
    ensures var t := Exec(s, AcceptScript(s, o, now));
            var id := BrokerId.Venue(s.book.nextId);
            && id in t.book.records && BrokerSubmit(s, o, now).1 == Outcome.Placed(id)
            && BrokerSubmit(s, o, now).0 == AcceptScript(s, o, now)
               + FillScript(t, id, o.qty, PriceFor(t.book, o.terms.symbol, o.terms.limitPrice), now)
  {
    hide Exec, AcceptScript, FillScript, Create, PriceFor;
    AcceptScriptCreates(s, o, now);
    CreatedMode(s.book, o, now);
    CreatedRecord(s.book, o, now);
  }

  lemma SubmitShape(s: Sys, o: Order, now: Time)
    requires o.state == OrderState.Pending
    requires var s1 := Exec(s, [Log(Logged(now, o.terms.id, SubmitIntent(o)))]);
             var (send, outcome) := BrokerSubmit(s1, o, now);
             outcome.Placed? && outcome.id in Exec(s1, send).mem.brokerIds
    ensures var intent := [Log(Logged(now, o.terms.id, SubmitIntent(o)))];
            SubmitCall(s, o, now).0 == intent + BrokerSubmit(Exec(s, intent), o, now).0
  {
    hide Exec, BrokerSubmit;
    var intent := [Log(Logged(now, o.terms.id, SubmitIntent(o)))];
    var send := BrokerSubmit(Exec(s, intent), o, now).0;
    assert intent + send + [] == intent + send;
  }

  /** The script of a submission the broker accepts and fills at once. */
  lemma InstantScript(s: Sys, o: Order, now: Time)
    requires Mid(s) && GoodOrder(o) && NewToBroker(s, o.terms.id) && s.book.mode == Instant
          && s.book.submitFailure.None?
    ensures var s1 := Exec(s, [Log(Logged(now, o.terms.id, SubmitIntent(o)))]);
            var s2 := Exec(s1, AcceptScript(s1, o, now));
            var id := BrokerId.Venue(s.book.nextId);
            && id in s2.book.records
            && SubmitCall(s, o, now).0
               == [Log(Logged(now, o.terms.id, SubmitIntent(o)))] + AcceptScript(s1, o, now)
                  + FillScript(s2, id, o.qty, PriceFor(s2.book, o.terms.symbol, o.terms.limitPrice), now)
            && Mid(s1) && s1.book == s.book && o.terms.id in s1.mem.cells
            && s1.mem.cells[o.terms.id].order == o.(state := Submitted) && s1.mem.cells[o.terms.id].fills == []
  {
    assert o.state == OrderState.Pending && o.terms.id !in s.book.byClient;
    hide Mid, Safe, Exec, Behind, GoodOrder, NewToBroker, AcceptScript, FillScript, BrokerSubmit, SubmitCall, PriceFor;
    var intent := [Log(Logged(now, o.terms.id, SubmitIntent(o)))];
    IntentSafe(s, o, now);
    var s1 := Exec(s, intent);
    InstantSend(s1, o, now);
    SubmitShape(s, o, now);
    var accept := AcceptScript(s1, o, now);
    var s2 := Exec(s1, accept);
    AppendsAssociate(intent, accept,
                     FillScript(s2, BrokerId.Venue(s.book.nextId), o.qty,
                                PriceFor(s2.book, o.terms.symbol, o.terms.limitPrice), now));
  }

  lemma AppendsAssociate(a: seq<Micro>, b: seq<Micro>, c: seq<Micro>)
    ensures a + (b + c) == a + b + c
  {
  }

  lemma CreatedRecord(b: Book, o: Order, now: Time)
    ensures var c := Create(b, o, BAccepted, now);
            var id := BrokerId.Venue(b.nextId);
            && id in c.records && c.records[id].status == NewRecord(b, o, BAccepted, now).status
            && o.terms.id in c.byClient && c.byClient[o.terms.id] == id && c.submitFailure == b.submitFailure
            && c.records[id].status.filledQty == 0.0 && c.records[id].status.clientId == o.terms.id
  {
  }

  lemma FilledBook(b: Book, oid: OrderId, qty: real, price: real, now: Time)
    requires oid in b.byClient && b.byClient[oid] in b.records
    ensures var c := RecordFill(b, b.byClient[oid], qty, price, now);
            && oid in c.byClient && c.submitFailure == b.submitFailure
            && BrokerFilled(c, oid) == b.records[b.byClient[oid]].status.filledQty + qty
  {
    hide Rebook, NewAverage;
  }

  /** The broker's acceptance leaves the order known on both sides, with no fill. */
  lemma AcceptedUnfilled(s: Sys, o: Order, now: Time)
    requires Mid(s) && o.terms.id in s.mem.cells && o.terms.id !in s.book.byClient
    requires s.mem.cells[o.terms.id].order.brokerOrderId.None? && s.mem.cells[o.terms.id].fills == []
    ensures var t := Exec(s, AcceptScript(s, o, now));
            && t.book == Create(s.book, o, BAccepted, now)
            && o.terms.id in t.mem.cells && t.mem.cells[o.terms.id].fills == []
  {
    var b := Create(s.book, o, BAccepted, now);
    var e := Logged(now, o.terms.id, OrderAccepted(BrokerId.Venue(s.book.nextId)));
    hide Exec, Create, AcceptScript, Mid, LiveCell;
    AcceptShape(s, o, now);
    AcceptScriptCreates(s, o, now);
    ExecConcat(s, [Move(b)], [Log(e)]);
    ExecOne(s, Move(b));
    LineAdds(Step(s, Move(b)), o.terms.id, e.event, now);
  }

  /** A fill at the broker, with its notice, on an order without fills. */
  lemma FilledOnce(s: Sys, oid: OrderId, qty: real, price: real, now: Time)
    requires oid in s.mem.cells && s.mem.cells[oid].fills == []
    requires oid in s.book.byClient && s.book.byClient[oid] in s.book.records
          && s.book.records[s.book.byClient[oid]].status.clientId == oid
    requires s.book.records[s.book.byClient[oid]].status.filledQty == 0.0
    ensures var t := Exec(s, FillScript(s, s.book.byClient[oid], qty, price, now));
            && oid in t.book.byClient && t.book.submitFailure == s.book.submitFailure
            && BrokerFilled(t.book, oid) == qty && SumQty(FillsOf(t, oid)) == qty
  {
    var id := s.book.byClient[oid];
    FillScriptShape(s, oid, qty, price, now);
    FilledBook(s.book, oid, qty, price, now);
    MadeFill(s.book, s.book.records[id], qty, price, now);
    hide RecordFill, BrokerFilled, MakeFill, Exec, FillScript;
    var f := MakeFill(s.book, s.book.records[id], qty, price, now);
    var c := RecordFill(s.book, id, qty, price, now);
    var booked := Canonical(CellOf(s.mem, oid).order, f);
    ExecConcat(s, [Move(c)], HandleFill(s.mem, oid, f, now));
    ExecOne(s, Move(c));
    LineAdds(Step(s, Move(c)), oid, FillReceived(booked), now);
    LastFill([], booked);
    assert [] + [booked] == [booked] && SumQty([]) == 0.0;
  }

  lemma NewBrokerKnowsNone(s: Sys, oid: OrderId)
    requires Initial(s)
    ensures Mid(s) && NewToBroker(s, oid)
  {
    InitialIsSettled(s);
    hide Mid;
  }

  /** A submission that is filled at once, on a system that has seen nothing: one fill, for all of it. */
  lemma InstantSubmitFills(s: Sys, o: Order, now: Time)
    requires Initial(s) && GoodOrder(o) && s.book.mode == Instant && s.book.submitFailure.None?
    ensures var t := Resubmitted(s, o, now);
            && Settled(t) && o.terms.id in t.book.byClient && t.book.submitFailure.None?
            && SumQty(FillsOf(t, o.terms.id)) == o.qty == BrokerFilled(t.book, o.terms.id)
  {
    var oid := o.terms.id;
    InitialIsSettled(s);
    NewBrokerKnowsNone(s, oid);
    assert o.brokerOrderId.None?;
    hide Initial, Settled, Mid, Exec, SubmitCall, AcceptScript, FillScript, Create, BrokerFilled, GoodOrder, Safe,
         PriceFor, SumQty, FillsOf, NewRecord;
    SubmitSafe(s, o, now);
    InstantScript(s, o, now);
    var id := BrokerId.Venue(s.book.nextId);
    var intent := [Log(Logged(now, oid, SubmitIntent(o)))];
    var s1 := Exec(s, intent);
    AcceptedUnfilled(s1, o, now);
    CreatedRecord(s1.book, o, now);
    var s2 := Exec(s1, AcceptScript(s1, o, now));
    var price := PriceFor(s2.book, o.terms.symbol, o.terms.limitPrice);
    FilledOnce(s2, oid, o.qty, price, now);
    ExecConcat(s, intent + AcceptScript(s1, o, now), FillScript(s2, id, o.qty, price, now));
    ExecConcat(s, intent, AcceptScript(s1, o, now));
  }

  /** A concrete run: one share, filled at once, submitted again, and booked twice after the restart. */
  const ONE_SHARE := Order(Terms(1, 1, Haiku, "AAPL", Buy, Market, Simple, Day, 0, None, None, false), NOTHING_UNLOGGED,
                           1.0, OrderState.Pending, None, None, None, 0.0, None, None)

  const NEW_SYSTEM := Sys(EMPTY, [], Book(map[], map[], map[], 1000.0, map[], Instant, None, None, 0, 0))

  lemma RetryDoublesOneShare()
    ensures var filled := Resubmitted(NEW_SYSTEM, ONE_SHARE, 0);
            var r := RestartedFor(Resubmitted(filled, ONE_SHARE, 1), 1, 2);
            BrokerFilled(r.book, 1) == 1.0 && SumQty(FillsOf(r, 1)) == 2.0
  {
    var s := NEW_SYSTEM;
    assert Initial(s) && s.book.mode == Instant && s.book.submitFailure.None?;
    InstantSubmitFills(s, ONE_SHARE, 0);
    hide *;
    RetrySafeIffUnfilled(Resubmitted(s, ONE_SHARE, 0), ONE_SHARE, 1, 2);
  }
}
