/**
 * The running order manager and the in-memory broker (execution/oms.py,
 * execution/fake_broker.py). The two call each other: submitting an order calls the
 * broker, which calls back before it returns. Each method is proved to carry out the
 * script that Trading gives for it, micro step by micro step.
 */
module Oms {
  import opened Common
  import opened Orders
  import opened OmsState
  import opened OmsStore
  import opened Broker
  import opened Ghosts
  import T = Trading

  class OrderManager {
    var ids: seq<OrderId>                 // the insertion order of the dictionaries
    var orders: map<OrderId, Order>
    var fsms: map<OrderId, Fsm>
    var fills: map<OrderId, seq<Fill>>
    var brokerIds: map<BrokerId, OrderId>
    const store: EventStore
    const broker: FakeBroker

    ghost predicate Valid()
      reads this
    {
      orders.Keys == fsms.Keys == fills.Keys
    }

    ghost predicate Wired()
      reads this, broker
    {
      Valid() && broker.callback == this
    }

    static ghost function CellAt(orders: map<OrderId, Order>, fsms: map<OrderId, Fsm>, fills: map<OrderId, seq<Fill>>,
                                 oid: OrderId): Cell
      requires oid in orders && orders.Keys == fsms.Keys == fills.Keys
    {
      Cell(orders[oid], fsms[oid], fills[oid])
    }

    static ghost function Cells(orders: map<OrderId, Order>, fsms: map<OrderId, Fsm>, fills: map<OrderId, seq<Fill>>):
      map<OrderId, Cell>
      requires orders.Keys == fsms.Keys == fills.Keys
    {
      map oid | oid in orders :: CellAt(orders, fsms, fills, oid)
    }

    ghost function Mem(): (m: Memory)
      requires Valid()
      reads this
      ensures m.ids == ids && m.cells.Keys == orders.Keys
    {
      Memory(ids, Cells(orders, fsms, fills), brokerIds)
    }

    ghost function Sys(): (s: T.Sys)
      requires Valid()
      reads this, store, broker
      ensures s.mem == Mem()
    {
      T.Sys(Mem(), store.Events(), broker.View())
    }

    constructor (store: EventStore, broker: FakeBroker)
      modifies broker
      ensures Wired() && this.store == store && this.broker == broker
      ensures Mem() == EMPTY && broker.View() == old(broker.View())
    {
      this.ids, this.orders, this.fsms, this.fills, this.brokerIds := [], map[], map[], map[], map[];
      this.store, this.broker := store, broker;
      new;
      broker.callback := this;
    }

    // ── Log one event ──────────────────────────────────────────────────────────

    method Append(oid: OrderId, event: Event, ts: Time)
      modifies store
      ensures store.Events() == old(store.Events()) + [PersistLogged(Logged(ts, oid, event))]
    {
      var _ := store.Append(KindOf(event), oid, Payload(event), ts);
      RowRoundTrip(Logged(ts, oid, event));
    }

    /** Writing one order's three entries writes its cell. */
    static lemma CellWritten(orders: map<OrderId, Order>, fsms: map<OrderId, Fsm>, fills: map<OrderId, seq<Fill>>,
                             oid: OrderId, c: Cell)
      requires orders.Keys == fsms.Keys == fills.Keys
      ensures Cells(orders[oid := c.order], fsms[oid := c.fsm], fills[oid := c.fills])
           == Cells(orders, fsms, fills)[oid := c]
    {
    }

    static lemma OrderWritten(orders: map<OrderId, Order>, fsms: map<OrderId, Fsm>, fills: map<OrderId, seq<Fill>>,
                              oid: OrderId, o: Order)
      requires orders.Keys == fsms.Keys == fills.Keys && oid in orders
      ensures Cells(orders[oid := o], fsms, fills) == Cells(orders, fsms, fills)[oid := Cell(o, fsms[oid], fills[oid])]
    {
    }

    static lemma FillsWritten(orders: map<OrderId, Order>, fsms: map<OrderId, Fsm>, fills: map<OrderId, seq<Fill>>,
                              oid: OrderId, o: Order, fs: seq<Fill>)
      requires orders.Keys == fsms.Keys == fills.Keys && oid in orders
      ensures Cells(orders[oid := o], fsms, fills[oid := fs])
           == Cells(orders, fsms, fills)[oid := Cell(o, fsms[oid], fs)]
    {
    }

    method Transition(oid: OrderId, e: OrderEvent)
      requires Valid() && oid in orders
      modifies this`orders, this`fsms
      ensures Valid()
      ensures Mem() == Put(old(Mem()), oid, OmsState.Transition(old(Mem()).cells[oid], e))
    {
      var fsm := fsms[oid];
      var next := Next(fsm.state, e);
      if next.None? {
        CellWritten(old(orders), old(fsms), old(fills), oid, Cell(orders[oid], fsm, fills[oid]));
        return;
      }
      fsms := fsms[oid := Fire(fsm, e)];
      orders := orders[oid := orders[oid].(state := next.value)];
      CellWritten(old(orders), old(fsms), old(fills), oid, OmsState.Transition(old(Mem()).cells[oid], e));
    }

    /** After a change to one order's cell and the log, the system took one Log step. */
    lemma LoggedStep(s: T.Sys, mid: Cell, e: Logged)
      requires Valid() && e.oid in s.mem.cells
      requires store.Events() == s.log + [PersistLogged(e)]
      requires Mem() == Put(WithCell(s.mem, e.oid, mid, LogBrokerId(s.mem, e)), e.oid,
                            LiveCell(s.mem.cells[e.oid], e.event, e.ts))
      requires broker.View() == s.book
      ensures Sys() == T.Step(s, T.Log(e))
      ensures Sys() == T.Exec(s, [T.Log(e)])
    {
      assert s.mem.cells[e.oid := mid][e.oid := LiveCell(s.mem.cells[e.oid], e.event, e.ts)]
          == s.mem.cells[e.oid := LiveCell(s.mem.cells[e.oid], e.event, e.ts)];
      hide LiveCell, Mem;
      T.ExecOne(s, T.Log(e));
    }

    /** Memory with one order's cell and the broker ids rewritten. */
    static function WithCell(m: Memory, oid: OrderId, c: Cell, brokerIds: map<BrokerId, OrderId>): Memory {
      m.(cells := m.cells[oid := c], brokerIds := brokerIds)
    }

    lemma CellIs(oid: OrderId)
      requires Valid() && oid in orders
      ensures Mem().cells[oid] == Cell(orders[oid], fsms[oid], fills[oid])
    {
    }

    static lemma AcceptIsLive(c: Cell, id: BrokerId, ts: Time)
      ensures LiveCell(c, OrderAccepted(id), ts)
           == OmsState.Transition(c.(order := SetAccepted(c.order, id, ts)), Accept)
    {
    }

    static lemma FillIsLive(c: Cell, f: Fill, ts: Time)
      ensures LiveCell(c, FillReceived(f), ts) == OmsState.Transition(AddFill(c, f, ts), FillEvent(AddFill(c, f, ts)))
    {
    }

    method RecordAccepted(oid: OrderId, id: BrokerId, ts: Time)
      requires Valid() && oid in orders
      modifies this, store
      ensures Valid()
      ensures Sys() == T.Exec(old(Sys()), T.RecordAccepted(old(Mem()), oid, id, ts))
    {
      hide T.Exec;
      T.ExecNone(Sys());
      var order := orders[oid];
      if order.brokerOrderId == Some(id) {
        return;
      }
      hide LiveCell, OmsState.Transition, Cells, T.Step, Mem;
      AcceptIsLive(old(Mem()).cells[oid], id, ts);
      Append(oid, OrderAccepted(id), ts);
      Number(oid, id, ts);
      ghost var mid := Mem().cells[oid];
      Transition(oid, Accept);
      LoggedStep(old(Sys()), mid, Logged(ts, oid, OrderAccepted(id)));
    }

    /** Give the order its broker id, in its snapshot and in the map of broker ids. */
    method Number(oid: OrderId, id: BrokerId, ts: Time)
      requires Valid() && oid in orders
      modifies this`orders, this`brokerIds
      ensures Valid() && oid in orders
      ensures var m := old(Mem());
              var c := m.cells[oid];
              Mem() == WithCell(m, oid, c.(order := SetAccepted(c.order, id, ts)), m.brokerIds[id := oid])
    {
      hide Cells;
      var order := orders[oid];
      CellIs(oid);
      brokerIds := brokerIds[id := oid];
      orders := orders[oid := order.(brokerOrderId := Some(id), submittedAt := Some(ts))];
      OrderWritten(old(orders), fsms, fills, oid, SetAccepted(order, id, ts));
    }

    /** Add a fill to the order's list and its aggregate snapshot. */
    method Aggregate(oid: OrderId, fill: Fill, ts: Time) returns (full: bool)
      requires Valid() && oid in orders
      modifies this`orders, this`fills
      ensures Valid() && oid in orders
      ensures Mem() == old(Mem()).(cells := old(Mem()).cells[oid := AddFill(old(Mem()).cells[oid], fill, ts)])
      ensures full == FullyFilled(orders[oid].qty, orders[oid].filledQty)
    {
      var order := orders[oid];
      fills := fills[oid := fills[oid] + [fill]];
      var newFilled := order.filledQty + fill.qty;
      full := FullyFilled(order.qty, newFilled);
      orders := orders[oid := order.(filledQty := newFilled,
                                     filledAvgPrice := Some(Blend(order.filledAvgPrice, order.filledQty, fill)),
                                     filledAt := if full then Some(ts) else order.filledAt)];
      FillsWritten(old(orders), fsms, old(fills), oid, orders[oid], fills[oid]);
    }

    method HandleFill(oid: OrderId, fill: Fill, ts: Time)
      requires Valid() && oid in orders
      modifies this, store
      ensures Valid()
      ensures Sys() == T.Exec(old(Sys()), T.HandleFill(old(Mem()), oid, fill, ts))
    {
      hide T.Exec;
      T.ExecNone(Sys());
      var order := orders[oid];
      var booked := fill;
      if booked.agent != order.terms.agent {
        booked := booked.(agent := order.terms.agent);
      }
      if booked.symbol != order.terms.symbol {
        booked := booked.(symbol := order.terms.symbol);
      }
      assert booked == T.Canonical(old(Mem()).cells[oid].order, fill);
      LogFill(oid, booked, ts);
    }

    method LogFill(oid: OrderId, booked: Fill, ts: Time)
      requires Valid() && oid in orders
      modifies this, store
      ensures Valid()
      ensures Sys() == T.Exec(old(Sys()), [T.Log(Logged(ts, oid, FillReceived(booked)))])
    {
      hide T.Exec;
      hide LiveCell, OmsState.Transition, AddFill;
      FillIsLive(old(Mem()).cells[oid], booked, ts);
      Append(oid, FillReceived(booked), ts);
      var full := Aggregate(oid, booked, ts);
      ghost var mid := Mem().cells[oid];
      if full {
        Transition(oid, FullFill);
      } else {
        Transition(oid, PartialFill);
      }
      assert Mem().cells[oid] == LiveCell(old(Mem()).cells[oid], FillReceived(booked), ts);
      LoggedStep(old(Sys()), mid, Logged(ts, oid, FillReceived(booked)));
    }

    method ForceCloseFilled(oid: OrderId, ts: Time)
      requires Valid()
      modifies this`orders, this`fsms
      ensures Valid()
      ensures Sys() == T.Step(old(Sys()), T.Close(oid, ts))
    {
      if oid !in orders {
        return;
      }
      var order := orders[oid];
      if Terminal(order.state) {
        CellWritten(old(orders), old(fsms), old(fills), oid, Cell(order, fsms[oid], fills[oid]));
        return;
      }
      orders := orders[oid := order.(qty := order.filledQty, filledAt := Some(ts))];
      OrderWritten(old(orders), fsms, fills, oid, orders[oid]);
      Transition(oid, FullFill);
      assert Mem().cells == old(Mem()).cells[oid := T.CloseCell(old(Mem()).cells[oid], ts)];
    }

    method HandleCancellation(oid: OrderId, ts: Time)
      requires Valid() && oid in orders
      modifies this, store
      ensures Valid()
      ensures Sys() == T.Exec(old(Sys()), T.Finish(old(Mem()), oid, OrderCancelled(None), ts))
    {
      hide T.Exec;
      T.ExecNone(Sys());
      if Terminal(orders[oid].state) {
        return;
      }
      Append(oid, OrderCancelled(None), ts);
      Transition(oid, OrderEvent.Cancel);
      ghost var e := Logged(ts, oid, OrderCancelled(None));
      LoggedStep(old(Sys()), old(Mem()).cells[oid], e);
    }

    method HandleRejection(oid: OrderId, reason: string, ts: Time)
      requires Valid() && oid in orders
      modifies this, store
      ensures Valid()
      ensures Sys() == T.Exec(old(Sys()), T.Finish(old(Mem()), oid, OrderRejected(reason), ts))
    {
      hide T.Exec;
      T.ExecNone(Sys());
      if Terminal(orders[oid].state) {
        return;
      }
      Append(oid, OrderRejected(reason), ts);
      orders := orders[oid := orders[oid].(rejectionReason := Some(reason))];
      OrderWritten(old(orders), fsms, fills, oid, orders[oid]);
      Transition(oid, Reject);
      ghost var e := Logged(ts, oid, OrderRejected(reason));
      LoggedStep(old(Sys()), old(Mem()).cells[oid].(order := old(orders)[oid].(rejectionReason := Some(reason))), e);
    }

    method HandleExpiry(oid: OrderId, ts: Time)
      requires Valid() && oid in orders
      modifies this, store
      ensures Valid()
      ensures Sys() == T.Exec(old(Sys()), T.Finish(old(Mem()), oid, OrderExpired, ts))
    {
      hide T.Exec;
      T.ExecNone(Sys());
      if Terminal(orders[oid].state) {
        return;
      }
      Append(oid, OrderExpired, ts);
      Transition(oid, Expire);
      ghost var e := Logged(ts, oid, OrderExpired);
      LoggedStep(old(Sys()), old(Mem()).cells[oid], e);
    }

    // ── Broker callback ────────────────────────────────────────────────────────

    method OnBrokerEvent(n: Notice)
      requires Valid()
      modifies this, store
      ensures Valid()
      ensures Sys() == T.Exec(old(Sys()), T.React(old(Mem()), n))
    {
      hide T.Exec;
      T.ExecNone(Sys());
      var oid := n.clientId;
      if oid !in orders {
        return;
      }
      match n.state {
        case BAccepted =>
          if oid !in brokerIds.Values {
            RecordAccepted(oid, n.brokerId, n.ts);
          }
        case BPartial =>
          if n.fill.None? {
            return;
          }
          HandleFill(oid, n.fill.value, n.ts);
        case BFilled =>
          if n.fill.None? {
            return;
          }
          HandleFill(oid, n.fill.value, n.ts);
        case BCanceled => HandleCancellation(oid, n.ts);
        case BRejected => HandleRejection(oid, n.reason.GetOr("broker rejected"), n.ts);
        case BExpired => HandleExpiry(oid, n.ts);
        case BNew =>
        case BUnknown =>
      }
    }

    // ── Public calls ───────────────────────────────────────────────────────────

    /** A fresh entry for an order, replacing whatever was there. */
    method Begin(oid: OrderId, order: Order, booked: seq<Fill>)
      requires Valid()
      modifies this`ids, this`orders, this`fsms, this`fills
      ensures Valid() && oid in orders
      ensures Mem() == Put(old(Mem()), oid, Cell(order, NEW_FSM, booked))
    {
      if oid !in orders {
        ids := ids + [oid];
      }
      orders := orders[oid := order];
      fsms := fsms[oid := NEW_FSM];
      fills := fills[oid := booked];
      CellWritten(old(orders), old(fsms), old(fills), oid, Cell(order, NEW_FSM, booked));
    }

    static lemma PutTwice(m: Memory, oid: OrderId, c: Cell, d: Cell)
      ensures Put(Put(m, oid, c), oid, d) == Put(m, oid, d)
      ensures Put(m, oid, c).cells[oid] == c
    {
    }

    static lemma IntentPuts(m: Memory, order: Order, now: Time)
      ensures Live(m, Logged(now, order.terms.id, SubmitIntent(order)))
           == Put(m, order.terms.id, OmsState.Transition(Cell(order, NEW_FSM, []), OrderEvent.Submit))
    {
      hide OmsState.Transition;
    }

    /** Set up a new order in memory and log the intent (start of submit_order). */
    method Intend(order: Order, now: Time)
      requires Valid() && order.state == OrderState.Pending
      modifies this, store
      ensures Valid() && order.terms.id in orders
      ensures Sys() == T.Step(old(Sys()), T.Log(Logged(now, order.terms.id, SubmitIntent(order))))
    {
      hide Put, Live, OmsState.Transition, Mem;
      var oid := order.terms.id;
      ghost var started := Cell(order, NEW_FSM, []);
      PutTwice(Mem(), oid, started, OmsState.Transition(started, OrderEvent.Submit));
      IntentPuts(Mem(), order, now);
      Begin(oid, order, []);
      Append(oid, SubmitIntent(order), now);
      Transition(oid, OrderEvent.Submit);
    }

    /** The broker has answered a submission: a refusal ends the order, a placement gives it its broker id. */
    method CloseSubmission(oid: OrderId, outcome: T.Outcome, now: Time)
      requires Valid() && oid in orders
      modifies this, store
      ensures Valid()
      ensures Sys() == T.Exec(old(Sys()), T.AfterSend(old(Mem()), oid, outcome, now))
    {
      hide T.Exec, T.Finish, T.RecordAccepted;
      T.ExecNone(Sys());
      match outcome {
        case Refused(r) => HandleRejection(oid, r, now);
        case Placed(id) =>
          if id !in brokerIds {
            RecordAccepted(oid, id, now);
          }
        case _ =>
      }
    }

    method SubmitOrder(order: Order, now: Time) returns (outcome: T.Outcome)
      requires Wired()
      modifies this, store, broker
      ensures Wired()
      ensures Sys() == T.Exec(old(Sys()), T.SubmitCall(old(Sys()), order, now).0)
      ensures outcome == T.SubmitCall(old(Sys()), order, now).1
    {
      hide T.Exec, T.BrokerSubmit, T.AfterSend, T.Step;
      ghost var s0 := Sys();
      T.ExecNone(s0);
      if order.state != OrderState.Pending {
        return T.WrongState;
      }
      ghost var intent := [T.Log(Logged(now, order.terms.id, SubmitIntent(order)))];
      T.ExecOne(s0, intent[0]);
      Intend(order, now);
      ghost var s1 := Sys();
      ghost var send := T.BrokerSubmit(s1, order, now).0;
      KeepsOrders(s1, send);
      outcome := broker.SubmitOrder(order, now);
      ghost var s2 := Sys();
      assert order.terms.id in s2.mem.cells;
      CloseSubmission(order.terms.id, outcome, now);
      T.ExecConcat(s0, intent + send, T.AfterSend(s2.mem, order.terms.id, outcome, now));
      T.ExecConcat(s0, intent, send);
    }

    /** Cancel an order the broker has not accepted: locally, without a call. */
    method CancelUnsent(oid: OrderId, now: Time)
      requires Valid() && oid in orders
      modifies this, store
      ensures Valid()
      ensures Sys()
           == T.Exec(old(Sys()), [T.Log(Logged(now, oid, OrderCancelled(Some("cancel before broker accept"))))])
    {
      hide T.Exec;
      Append(oid, OrderCancelled(Some("cancel before broker accept")), now);
      Transition(oid, OrderEvent.Cancel);
      LoggedStep(old(Sys()), old(Mem()).cells[oid],
                 Logged(now, oid, OrderCancelled(Some("cancel before broker accept"))));
    }

    method CancelOrder(oid: OrderId, now: Time) returns (outcome: T.Outcome)
      requires Wired()
      modifies this, store, broker
      ensures Wired()
      ensures Sys() == T.Exec(old(Sys()), T.CancelCall(old(Sys()), oid, now).0)
      ensures outcome == T.CancelCall(old(Sys()), oid, now).1
    {
      hide T.Exec, T.BrokerCancel;
      ghost var s0 := Sys();
      T.ExecNone(s0);
      if oid !in orders {
        return T.UnknownOrder;
      }
      var order := orders[oid];
      if Terminal(order.state) {
        return T.NoChange;
      }
      if order.brokerOrderId.None? {
        CancelUnsent(oid, now);
        return T.NoChange;
      }
      var id := order.brokerOrderId.value;
      Audit(CancelRequested(id), oid, now);
      ghost var s1 := Sys();
      outcome := broker.CancelOrder(id, now);
      T.ExecConcat(s0, [T.Log(Logged(now, oid, CancelRequested(id)))], T.BrokerCancel(s1, id, now).0);
    }

    // ── Inspection ─────────────────────────────────────────────────────────────

    method ListOpenOrders() returns (open: seq<Order>)
      requires Valid() && forall oid :: oid in ids ==> oid in orders
      ensures open == OpenOrders(Mem(), ids)
    {
      open := [];
      for i := 0 to |ids|
        invariant open == OpenOrders(Mem(), ids[..i])
      {
        assert ids[..i + 1][..i] == ids[..i];
        var order := orders[ids[i]];
        if !Terminal(order.state) {
          open := open + [order];
        }
      }
      assert ids[..|ids|] == ids;
    }

    // ── Ghost orders ───────────────────────────────────────────────────────────

    static lemma GhostStep(s: T.Sys, g: Ghost, ts: Time, k: nat)
      requires k < 3 && g.oid !in s.mem.cells
      ensures var t := T.Exec(s, GhostPart(g, ts, k));
              && T.Exec(s, GhostPart(g, ts, k + 1)) == T.Step(t, T.Log(GhostLines(g, ts)[k]))
              && t.mem == WithGhost(s.mem, g, ts, k)
    {
      assert GhostPart(g, ts, k + 1)[..k] == GhostPart(g, ts, k);
      GhostPrefix(s, g, ts, k);
      hide WithGhost;
    }

    static lemma AcceptanceLine(m: Memory, g: Ghost, ts: Time)
      ensures T.RecordAccepted(WithGhost(m, g, ts, 1), g.oid, GhostId(g), ts) == [T.Log(GhostLines(g, ts)[1])]
    {
    }

    static lemma FillLine(m: Memory, g: Ghost, ts: Time)
      ensures T.HandleFill(WithGhost(m, g, ts, 2), g.oid, GhostFill(g, ts), ts) == [T.Log(GhostLines(g, ts)[2])]
      ensures g.oid in WithGhost(m, g, ts, 2).cells
    {
    }

    /**
     * Inject a ghost order: intent, acceptance and one fill, with no call to the broker.
     * It writes its first `lines` lines; with fewer than three it raises before the next.
     */
    method BookGhost(g: Ghost, ts: Time, lines: nat)
      requires Valid() && g.oid !in orders && lines <= 3
      modifies this, store
      ensures Valid()
      ensures Sys() == T.Exec(old(Sys()), GhostPart(g, ts, lines))
    {
      hide GhostPart, GhostLines, GhostOrder, GhostFill, GhostId, WithGhost, T.Exec, T.Step, T.HandleFill,
           T.RecordAccepted, Mem, Sys;
      ghost var s0 := Sys();
      NothingWritten(s0, g, ts);
      if lines == 0 {
        return;
      }
      GhostStep(s0, g, ts, 0);
      IntentLine(g, ts);
      Intend(GhostOrder(g, ts), ts);
      if lines == 1 {
        return;
      }
      GhostStep(s0, g, ts, 1);
      AcceptanceLine(s0.mem, g, ts);
      T.ExecOne(Sys(), T.Log(GhostLines(g, ts)[1]));
      RecordAccepted(g.oid, GhostId(g), ts);
      if lines == 2 {
        return;
      }
      GhostStep(s0, g, ts, 2);
      FillLine(s0.mem, g, ts);
      T.ExecOne(Sys(), T.Log(GhostLines(g, ts)[2]));
      HandleFill(g.oid, GhostFill(g, ts), ts);
    }

    static lemma NothingWritten(s: T.Sys, g: Ghost, ts: Time)
      ensures T.Exec(s, GhostPart(g, ts, 0)) == s
    {
      T.ExecNone(s);
    }

    static lemma IntentLine(g: Ghost, ts: Time)
      ensures GhostLines(g, ts)[0] == Logged(ts, g.oid, SubmitIntent(GhostOrder(g, ts)))
      ensures GhostOrder(g, ts).terms.id == g.oid && GhostOrder(g, ts).state == OrderState.Pending
    {
    }

    /** Adopt a position; `lines` is how far it gets before it raises, three if it does not. */
    method AdoptOrphanPosition(oid: OrderId, intentId: nat, fillId: FillId, symbol: string, qty: real, price: real,
                               agent: AgentId, ts: Time, lines: nat := 3)
      requires Valid() && oid !in orders && lines <= 3
      modifies this, store
      ensures Valid()
      ensures Sys() == T.Exec(old(Sys()),
                              GhostPart(Ghost.Ghost(oid, intentId, fillId, Buy, symbol, qty, price, agent), ts, lines))
    {
      hide T.Exec;
      T.ExecNone(Sys());
      BookGhost(Ghost.Ghost(oid, intentId, fillId, Buy, symbol, qty, price, agent), ts, lines);
    }

    method BookFeeOffset(oid: OrderId, intentId: nat, fillId: FillId, symbol: string, qty: real, price: real,
                         agent: AgentId, ts: Time)
      requires Valid() && oid !in orders
      modifies this, store
      ensures Valid()
      ensures Sys()
           == T.Exec(old(Sys()), GhostScript(Ghost.Ghost(oid, intentId, fillId, Sell, symbol, qty, price, agent), ts))
    {
      hide T.Exec;
      T.ExecNone(Sys());
      PartIsWhole(Ghost.Ghost(oid, intentId, fillId, Sell, symbol, qty, price, agent), ts);
      BookGhost(Ghost.Ghost(oid, intentId, fillId, Sell, symbol, qty, price, agent), ts, 3);
    }

    // ── Recovery ───────────────────────────────────────────────────────────────

    /** Trigger the machine, then write the event's target state whether or not it moved. */
    method Advance(oid: OrderId, e: OrderEvent)
      requires Valid() && oid in orders
      modifies this`orders, this`fsms
      ensures Valid()
      ensures Mem() == Put(old(Mem()), oid, Force(old(Mem()).cells[oid], e))
    {
      fsms := fsms[oid := Fire(fsms[oid], e)];
      orders := orders[oid := orders[oid].(state := Target(e))];
      CellWritten(old(orders), old(fsms), old(fills), oid, Force(old(Mem()).cells[oid], e));
    }

    /** The same after replacing the snapshot. */
    method ReplaceAndAdvance(oid: OrderId, order: Order, e: OrderEvent)
      requires Valid() && oid in orders
      modifies this`orders, this`fsms
      ensures Valid()
      ensures Mem() == Put(old(Mem()), oid, Force(old(Mem()).cells[oid].(order := order), e))
    {
      ghost var c := Mem().cells[oid].(order := order);
      orders := orders[oid := order];
      OrderWritten(old(orders), fsms, fills, oid, order);
      assert Mem() == Put(old(Mem()), oid, c);
      hide Mem, Put, Force;
      PutTwice(old(Mem()), oid, c, Force(c, e));
      Advance(oid, e);
    }

    /** A submit intent read back; fills already read under this id stay. */
    method ReadIntent(oid: OrderId, order: Order)
      requires Valid()
      modifies this`ids, this`orders, this`fsms, this`fills
      ensures Valid() && oid in orders
      ensures Mem()
           == Put(old(Mem()), oid, Force(Cell(order, NEW_FSM, CellOf(old(Mem()), oid).fills), OrderEvent.Submit))
    {
      var booked := if oid in fills then fills[oid] else [];
      assert booked == CellOf(Mem(), oid).fills;
      hide Mem, Put, Force;
      ghost var c := Cell(order, NEW_FSM, booked);
      PutTwice(Mem(), oid, c, Force(c, OrderEvent.Submit));
      Begin(oid, order, booked);
      Advance(oid, OrderEvent.Submit);
    }

    /** A fill read back: booked like a live one, then the target state is written. */
    method ReadFill(oid: OrderId, fill: Fill, ts: Time)
      requires Valid() && oid in orders
      modifies this`orders, this`fsms, this`fills
      ensures Valid()
      ensures Mem() == Put(old(Mem()), oid, ReplayCell(old(Mem()).cells[oid], FillReceived(fill), ts))
    {
      ghost var c := AddFill(Mem().cells[oid], fill, ts);
      var full := Aggregate(oid, fill, ts);
      assert Mem() == Put(old(Mem()), oid, c) && full == FullyFilled(c.order.qty, c.order.filledQty);
      hide Mem, Put, Force, AddFill, FullyFilled;
      PutTwice(old(Mem()), oid, c, Force(c, FillEvent(c)));
      Advance(oid, if full then FullFill else PartialFill);
    }

    method ApplyLoggedEvent(e: Logged)
      requires Valid() && (e.event.SubmitIntent? || e.oid in orders)
      modifies this`ids, this`orders, this`fsms, this`fills, this`brokerIds
      ensures Valid() && Mem() == Reread(old(Mem()), e)
    {
      var oid := e.oid;
      OrdersAreCells(oid);
      hide Mem, Force, AddFill, FillEvent;
      match e.event {
        case SubmitIntent(order) =>
          ReadIntent(oid, order);
        case OrderAccepted(id) =>
          ReplaceAndAdvance(oid, SetAccepted(orders[oid], id, e.ts), Accept);
          RecordId(id, oid);
        case OrderRejected(reason) =>
          ReplaceAndAdvance(oid, orders[oid].(rejectionReason := Some(reason)), Reject);
        case FillReceived(fill) => ReadFill(oid, fill, e.ts);
        case OrderCancelled(_) => Advance(oid, OrderEvent.Cancel);
        case OrderExpired => Advance(oid, Expire);
        case CancelRequested(_) => PutSame(Mem(), oid);
        case ReconcileNoop => PutSame(Mem(), oid);
        case ReconcileRecovered => PutSame(Mem(), oid);
        case ReconcileAbandoned => PutSame(Mem(), oid);
      }
    }

    lemma OrdersAreCells(oid: OrderId)
      requires Valid()
      ensures oid in orders ==> Mem().cells[oid].order == orders[oid]
    {
    }

    method RecordId(id: BrokerId, oid: OrderId)
      requires Valid()
      modifies this`brokerIds
      ensures Valid() && Mem() == old(Mem()).(brokerIds := old(brokerIds)[id := oid])
      ensures old(brokerIds) == old(Mem()).brokerIds
    {
      brokerIds := brokerIds[id := oid];
    }

    static lemma ReadNext(events: seq<Logged>, i: nat)
      requires i < |events|
      ensures Replay(events[..i + 1]) == Reread(Replay(events[..i]), events[i])
    {
      hide Reread;
      assert events[..i + 1][..i] == events[..i];
    }

    static lemma NothingRead()
      ensures Replay([]) == EMPTY
    {
    }

    method ReplayLog()
      requires Valid() && Mem() == EMPTY && IntentFirst(store.Events())
      modifies this`ids, this`orders, this`fsms, this`fills, this`brokerIds
      ensures Valid() && Mem() == Replay(store.Events())
    {
      hide Replay, Reread;
      var events := store.IterAll();
      NothingRead();
      assert events[..0] == [];
      for i := 0 to |events|
        invariant Valid() && Mem() == Replay(events[..i])
      {
        assert events[i].event.SubmitIntent? || events[i].oid in Mem().cells;
        ReadNext(events, i);
        ApplyLoggedEvent(events[i]);
      }
      assert events[..|events|] == events;
    }

    /** One audit line; it changes no order. */
    method Audit(event: Event, oid: OrderId, now: Time)
      requires Valid() && oid in orders
      requires event.CancelRequested? || event.ReconcileNoop? || event.ReconcileRecovered? || event.ReconcileAbandoned?
      modifies store
      ensures Sys() == T.Exec(old(Sys()), [T.Log(Logged(now, oid, event))])
    {
      hide T.Exec;
      Append(oid, event, now);
      ghost var e := Logged(now, oid, event);
      CellWritten(old(orders), old(fsms), old(fills), oid, Cell(orders[oid], fsms[oid], fills[oid]));
      LoggedStep(old(Sys()), old(Mem()).cells[oid], e);
    }

    method CatchUpState(oid: OrderId, b: Status, now: Time) returns (advanced: bool)
      requires Valid() && oid in orders
      modifies this, store
      ensures Valid() && oid in orders
      ensures Sys() == T.Exec(old(Sys()), T.CatchUpState(old(Mem()), oid, b, now))
      ensures advanced || (b.state.BCanceled? || b.state.BRejected? || b.state.BExpired?) <==>
              T.CatchUpState(old(Mem()), oid, b, now) != []
              || (b.state.BCanceled? || b.state.BRejected? || b.state.BExpired?)
    {
      hide T.Exec;
      T.ExecNone(Sys());
      advanced := false;
      KeepsOrders(Sys(), T.CatchUpState(Mem(), oid, b, now));
      match b.state {
        case BCanceled => HandleCancellation(oid, now); advanced := true;
        case BRejected => HandleRejection(oid, b.rejectionReason.GetOr("broker rejected (recovered)"), now);
                          advanced := true;
        case BExpired => HandleExpiry(oid, now); advanced := true;
        case BFilled =>
          if !Terminal(orders[oid].state) {
            ForceCloseFilled(oid, now);
            T.ExecOne(old(Sys()), T.Close(oid, now));
            advanced := true;
          }
        case _ =>
      }
    }

    method CatchUpId(oid: OrderId, b: Status, now: Time) returns (advanced: bool)
      requires Valid() && oid in orders
      modifies this, store
      ensures Valid() && oid in orders
      ensures Sys() == T.Exec(old(Sys()), T.CatchUpId(old(Mem()), oid, b, now))
      ensures advanced == old(orders[oid]).brokerOrderId.None?
    {
      hide T.Exec;
      T.ExecNone(Sys());
      advanced := false;
      KeepsOrders(Sys(), T.CatchUpId(Mem(), oid, b, now));
      if orders[oid].brokerOrderId.None? {
        RecordAccepted(oid, b.brokerId, now);
        advanced := true;
      }
    }

    method CatchUpQty(oid: OrderId, b: Status, now: Time) returns (advanced: bool)
      requires Valid() && oid in orders
      modifies this, store
      ensures Valid() && oid in orders
      ensures Sys() == T.Exec(old(Sys()), T.CatchUpQty(old(Mem()), oid, b, now))
      ensures advanced == (T.CatchUpQty(old(Mem()), oid, b, now) != [])
    {
      hide T.Exec;
      T.ExecNone(Sys());
      advanced := false;
      KeepsOrders(Sys(), T.CatchUpQty(Mem(), oid, b, now));
      var local := orders[oid];
      var delta := b.filledQty - local.filledQty;
      if delta > 0.0 {
        var synthetic := Fill(Synthetic(local.terms.id, |fills[oid]|), local.terms.id, local.terms.agent,
                              local.terms.symbol,
                              local.terms.side, delta, b.avgFillPrice.GetOr(0.0), now, 0.0, b.state != BFilled);
        HandleFill(oid, synthetic, now);
        advanced := true;
      }
    }

    method CatchUpFromBroker(oid: OrderId, b: Status, now: Time)
      requires Valid() && oid in orders
      modifies this, store
      ensures Valid()
      ensures Sys() == T.Exec(old(Sys()), T.CatchUp(old(Sys()), oid, b, now))
    {
      hide T.Exec, T.CatchUpId, T.CatchUpQty, T.CatchUpState, Mem;
      ghost var s0 := Sys();
      CellIs(oid);
      var newId := CatchUpId(oid, b, now);
      ghost var s1 := Sys();
      var newQty := CatchUpQty(oid, b, now);
      ghost var s2 := Sys();
      var closes := CatchUpState(oid, b, now);
      var ended := b.state == BCanceled || b.state == BRejected || b.state == BExpired;
      var event := if newId || newQty || closes || ended then ReconcileRecovered else ReconcileNoop;
      Audit(event, oid, now);
      T.ExecConcat4(s0, T.CatchUpId(s0.mem, oid, b, now), T.CatchUpQty(s1.mem, oid, b, now),
                    T.CatchUpState(s2.mem, oid, b, now), [T.Log(Logged(now, oid, event))]);
    }

    /** Scripts never drop an order from memory. */
    static lemma {:induction false} KeepsOrders(s: T.Sys, script: seq<T.Micro>)
      ensures s.mem.cells.Keys <= T.Exec(s, script).mem.cells.Keys
    {
      if script != [] {
        KeepsOrders(s, script[..|script| - 1]);
      }
    }

    method ReconcileOne(oid: OrderId, now: Time)
      requires Wired() && oid in orders
      modifies this, store
      ensures Wired()
      ensures Sys() == T.Exec(old(Sys()), T.ReconcileOne(old(Sys()), oid, now))
    {
      hide T.Exec;
      T.ExecNone(Sys());
      if Terminal(orders[oid].state) {
        return;
      }
      ghost var s0 := Sys();
      var status := broker.FindOrderByClientId(oid);
      if status.None? {
        Audit(ReconcileAbandoned, oid, now);
        ghost var s1 := Sys();
        HandleRejection(oid, "abandoned_during_recovery", now);
        ghost var abandoned := [T.Log(Logged(now, oid, ReconcileAbandoned))];
        assert s1.mem == s0.mem by {
          T.ExecOne(s0, abandoned[0]);
          assert s1.mem.cells == s0.mem.cells;
        }
        T.ExecConcat(s0, abandoned, T.Finish(s1.mem, oid, OrderRejected("abandoned_during_recovery"), now));
      } else if T.Matches(orders[oid], status.value) {
        Audit(ReconcileNoop, oid, now);
      } else {
        CatchUpFromBroker(oid, status.value, now);
      }
    }

    /** One more order reconciled. */
    static lemma RecoverStep(s0: T.Sys, all: seq<OrderId>, i: nat, now: Time)
      requires i < |all|
      ensures var s1 := T.Exec(s0, T.ReconcileAll(s0, all[..i], now));
              && T.Exec(s0, T.ReconcileAll(s0, all[..i + 1], now)) == T.Exec(s1, T.ReconcileOne(s1, all[i], now))
              && s1.mem.cells.Keys <= T.Exec(s1, T.ReconcileOne(s1, all[i], now)).mem.cells.Keys
    {
      hide T.Exec, T.ReconcileOne;
      var first := T.ReconcileAll(s0, all[..i], now);
      var one := T.ReconcileOne(T.Exec(s0, first), all[i], now);
      assert all[..i + 1][..i] == all[..i];
      T.ExecConcat(s0, first, one);
      KeepsOrders(T.Exec(s0, first), one);
    }

    static lemma NothingReconciled(s: T.Sys, now: Time)
      ensures T.Exec(s, T.ReconcileAll(s, [], now)) == s
    {
    }

    method Recover(now: Time)
      requires Wired() && Mem() == EMPTY && IntentFirst(store.Events())
      modifies this, store
      ensures Wired()
      ensures Sys() == T.Exec(T.Restart(old(Sys())), T.Recover(T.Restart(old(Sys())), now))
    {
      hide T.Exec, T.ReconcileAll, T.ReconcileOne, Replay;
      ghost var s0 := T.Restart(Sys());
      ReplayLog();
      assert Sys() == s0;
      var all := ids;
      ReplayKnows(s0.log);
      NothingReconciled(s0, now);
      assert all[..0] == [];
      for i := 0 to |all|
        invariant Wired()
        invariant Sys() == T.Exec(s0, T.ReconcileAll(s0, all[..i], now))
        invariant forall oid :: oid in all ==> oid in orders
      {
        RecoverStep(s0, all, i, now);
        ghost var known := orders.Keys;
        assert Mem().cells.Keys == known;
        assert all[i] in all;
        ReconcileOne(all[i], now);
        assert known <= Mem().cells.Keys == orders.Keys;
      }
      assert all[..|all|] == all;
    }

    static lemma {:induction false} ReplayKnows(log: seq<Logged>)
      ensures forall oid :: oid in Replay(log).ids <==> oid in Replay(log).cells
    {
      if log != [] {
        ReplayKnows(log[..|log| - 1]);
      }
    }
  }

  class FakeBroker {
    var records: map<BrokerId, Record>
    var byClient: map<OrderId, BrokerId>
    var holdings: map<string, Holding>
    var cash: real
    var prices: map<string, real>
    var mode: FillMode
    var submitFailure: Option<Failure>
    var cancelFailure: Option<Failure>
    var nextId: nat
    var nextFill: nat
    var callback: OrderManager?

    constructor (mode: FillMode, startingCash: real)
      ensures View() == Book(map[], map[], map[], startingCash, map[], mode, None, None, 0, 0)
    {
      records, byClient, holdings, cash, prices := map[], map[], map[], startingCash, map[];
      this.mode, submitFailure, cancelFailure, nextId, nextFill, callback := mode, None, None, 0, 0, null;
    }

    function View(): Book
      reads this
    {
      Book(records, byClient, holdings, cash, prices, mode, submitFailure, cancelFailure, nextId, nextFill)
    }

    ghost predicate Ready()
      reads this, callback
    {
      callback != null && callback.broker == this && callback.Valid()
    }

    /** Deliver a notice to the registered order manager, in the same thread. */
    method Emit(n: Notice)
      requires Ready()
      modifies callback, callback.store
      ensures Ready() && callback == old(callback)
      ensures callback.Sys() == T.Exec(old(callback.Sys()), T.React(old(callback.Mem()), n))
    {
      hide T.Exec;
      callback.OnBrokerEvent(n);
    }

    method ApplyFillToAccount(symbol: string, side: Side, qty: real, price: real)
      modifies this`cash, this`holdings
      ensures cash == old(cash) - Signed(side, qty) * price
      ensures holdings == Store(old(holdings), symbol, Rebook(Lookup(old(holdings), symbol), Signed(side, qty), price))
    {
      var signed := if side == Buy then qty else -qty;
      cash := cash - signed * price;
      if symbol !in holdings {
        if signed == 0.0 {
          assert holdings - {symbol} == holdings;
          return;
        }
        holdings := holdings[symbol := Holding(signed, price, price)];
        return;
      }
      var existing := holdings[symbol];
      if existing.qty + signed == 0.0 {
        holdings := holdings - {symbol};
        return;
      }
      holdings := holdings[symbol := Holding(existing.qty + signed, EntryAfter(existing, signed, price), price)];
    }

    method RecordFill(id: BrokerId, qty: real, price: real, now: Time)
      requires Ready() && id in records
      modifies this, callback, callback.store
      ensures Ready() && callback == old(callback)
      ensures callback.Sys() == T.Exec(old(callback.Sys()), T.FillScript(old(callback.Sys()), id, qty, price, now))
    {
      hide T.Exec, T.React;
      ghost var s0 := callback.Sys();
      var r := records[id];
      var fill := Execute(id, qty, price, now);
      ghost var moved := [T.Move(View())];
      T.ExecOne(s0, moved[0]);
      var n := Notice(id, r.status.clientId, records[id].status.state, Some(fill), None, now);
      Emit(n);
      T.ExecConcat(s0, moved, T.React(s0.mem, n));
    }

    /** The broker's own side of a fill: the record, the cash and the holding. */
    method Execute(id: BrokerId, qty: real, price: real, now: Time) returns (fill: Fill)
      requires id in records
      modifies this`nextFill, this`records, this`cash, this`holdings
      ensures View() == Broker.RecordFill(old(View()), id, qty, price, now)
      ensures fill == MakeFill(old(View()), old(records[id]), qty, price, now)
    {
      var r := records[id];
      var filled := r.status.filledQty + qty;
      var full := filled >= r.status.qty;
      var state := if full then BFilled else BPartial;
      var status := r.status.(filledQty := filled, avgFillPrice := Some(NewAverage(r.status, qty, price)),
                              state := state, updatedAt := now);
      fill := Fill(VenueFill(nextFill), r.status.clientId, r.agent, r.status.symbol, r.status.side, qty, price,
                       now, 0.0, !full);
      nextFill := nextFill + 1;
      records := records[id := r.(status := status, fills := r.fills + [fill])];
      ApplyFillToAccount(r.status.symbol, r.status.side, qty, price);
    }

    /** Put a new record in the book and send its notice. */
    method Announce(order: Order, state: BrokerState, reason: Option<string>, now: Time)
      requires Ready()
      modifies this, callback, callback.store
      ensures Ready() && callback == old(callback)
      ensures var s := old(callback.Sys());
              callback.Sys() == T.Exec(s, [T.Move(Create(s.book, order, state, now))]
                + T.React(s.mem, Notice(BrokerId.Venue(s.book.nextId), order.terms.id, state, None, reason, now)))
    {
      hide T.Exec, T.React, Create;
      ghost var s0 := callback.Sys();
      var n := Notice(BrokerId.Venue(nextId), order.terms.id, state, None, reason, now);
      Register(order, state, now);
      ghost var moved := [T.Move(View())];
      T.ExecOne(s0, moved[0]);
      Emit(n);
      T.ExecConcat(s0, moved, T.React(s0.mem, n));
    }

    /** The fills the mode gives a new order. */
    method AutoFill(id: BrokerId, order: Order, now: Time)
      requires Ready() && id in records
      modifies this, callback, callback.store
      ensures Ready() && callback == old(callback)
      ensures callback.Sys() == T.Exec(old(callback.Sys()), T.AutoFillScript(old(callback.Sys()), id, order, now))
    {
      hide T.Exec, T.FillScript, PriceFor;
      T.ExecNone(callback.Sys());
      if mode == Instant {
        RecordFill(id, order.qty, PriceFor(View(), order.terms.symbol, order.terms.limitPrice), now);
      } else if mode == PartialThenHold {
        RecordFill(id, order.qty / 2.0, PriceFor(View(), order.terms.symbol, order.terms.limitPrice), now);
      }
    }

    static lemma CreatedUnder(b: Book, order: Order, now: Time)
      ensures BrokerId.Venue(b.nextId) in Create(b, order, BAccepted, now).records
    {
    }

    method SubmitOrder(order: Order, now: Time) returns (outcome: T.Outcome)
      requires Ready()
      modifies this, callback, callback.store
      ensures Ready() && callback == old(callback)
      ensures callback.Sys() == T.Exec(old(callback.Sys()), T.BrokerSubmit(old(callback.Sys()), order, now).0)
      ensures outcome == T.BrokerSubmit(old(callback.Sys()), order, now).1
    {
      hide T.Exec, T.React, T.AutoFillScript, Create;
      ghost var s0 := callback.Sys();
      T.ExecNone(s0);
      if submitFailure.Some? {
        var failure := submitFailure.value;
        submitFailure := None;
        T.ExecOne(s0, T.Move(View()));
        return match failure case Rejection(r) => T.Refused(r) case Unavailable => T.Lost;
      }
      if order.terms.id in byClient {
        return T.Placed(byClient[order.terms.id]);
      }
      var id := BrokerId.Venue(nextId);
      if mode == RejectAll {
        Announce(order, BRejected, Some(REJECT_REASON), now);
        return T.Refused(REJECT_REASON);
      }
      T.AcceptScriptCreates(s0, order, now);
      CreatedUnder(s0.book, order, now);
      Announce(order, BAccepted, None, now);
      ghost var s1 := callback.Sys();
      AutoFill(id, order, now);
      T.ExecConcat(s0, T.AcceptScript(s0, order, now), T.AutoFillScript(s1, id, order, now));
      return T.Placed(id);
    }

    /** Put a new record in the book under a fresh broker id. */
    method Register(order: Order, state: BrokerState, now: Time)
      modifies this`records, this`byClient, this`nextId
      ensures View() == Create(old(View()), order, state, now)
    {
      var id := BrokerId.Venue(nextId);
      byClient := byClient[order.terms.id := id];
      var status := Status(id, order.terms.id, order.terms.symbol, order.terms.side, order.qty, 0.0, None, state, now,
                           now,
                           if state == BRejected then Some(REJECT_REASON) else None);
      records := records[id := Record(status, [], order.terms.agent, order.terms.limitPrice)];
      nextId := nextId + 1;
    }

    method CancelOrder(id: BrokerId, now: Time) returns (outcome: T.Outcome)
      requires Ready()
      modifies this, callback, callback.store
      ensures Ready() && callback == old(callback)
      ensures callback.Sys() == T.Exec(old(callback.Sys()), T.BrokerCancel(old(callback.Sys()), id, now).0)
      ensures outcome == T.BrokerCancel(old(callback.Sys()), id, now).1
    {
      hide T.Exec;
      T.ExecNone(callback.Sys());
      ghost var s0 := callback.Sys();
      if cancelFailure.Some? {
        cancelFailure := None;
        T.ExecOne(s0, T.Move(View()));
        return T.Lost;
      }
      if id !in records {
        return T.Lost;
      }
      var r := records[id];
      if Done(r.status.state) {
        return T.NoChange;
      }
      records := records[id := r.(status := r.status.(state := BCanceled, updatedAt := now))];
      ghost var moved := [T.Move(View())];
      T.ExecOne(s0, moved[0]);
      assert View() == SetState(s0.book, id, BCanceled, None, now);
      Emit(Notice(id, r.status.clientId, BCanceled, None, None, now));
      T.ExecConcat(s0, moved, T.React(s0.mem, Notice(id, r.status.clientId, BCanceled, None, None, now)));
      return T.Placed(id);
    }

    method FindOrderByClientId(oid: OrderId) returns (status: Option<Status>)
      ensures status == if oid in byClient && byClient[oid] in records then Some(records[byClient[oid]].status)
                        else None
    {
      if oid !in byClient || byClient[oid] !in records {
        return None;
      }
      return Some(records[byClient[oid]].status);
    }

    // ── Knobs outside the protocol ─────────────────────────────────────────────

    /** force_full_fill (no quantity given) and force_partial_fill. */
    method ForceFill(oid: OrderId, qty: Option<real>, price: Option<real>, now: Time)
      requires Ready()
      modifies this, callback, callback.store
      ensures Ready() && callback == old(callback)
      ensures callback.Sys() == T.Exec(old(callback.Sys()), T.ForceFill(old(callback.Sys()), oid, qty, price, now))
    {
      hide T.Exec;
      T.ExecNone(callback.Sys());
      if oid !in byClient || byClient[oid] !in records {
        return;
      }
      var id := byClient[oid];
      var status := records[id].status;
      var remaining := status.qty - status.filledQty;
      if qty.None? && remaining <= 0.0 {
        return;
      }
      if qty.GetOr(remaining) > remaining {
        return;
      }
      RecordFill(id, qty.GetOr(remaining), price.GetOr(PriceFor(View(), status.symbol, None)), now);
    }

    method ForceReject(oid: OrderId, reason: string, now: Time)
      requires Ready()
      modifies this, callback, callback.store
      ensures Ready() && callback == old(callback)
      ensures callback.Sys() == T.Exec(old(callback.Sys()), T.ForceReject(old(callback.Sys()), oid, reason, now))
    {
      hide T.Exec;
      T.ExecNone(callback.Sys());
      if oid !in byClient || byClient[oid] !in records {
        return;
      }
      ghost var s0 := callback.Sys();
      var id := byClient[oid];
      var r := records[id];
      records := records[id := r.(status := r.status.(state := BRejected, rejectionReason := Some(reason),
                                                      updatedAt := now))];
      ghost var moved := [T.Move(View())];
      T.ExecOne(s0, moved[0]);
      assert View() == SetState(s0.book, id, BRejected, Some(reason), now);
      Emit(Notice(id, oid, BRejected, None, Some(reason), now));
      T.ExecConcat(s0, moved, T.React(s0.mem, Notice(id, oid, BRejected, None, Some(reason), now)));
    }
  }
}
