/**
 * The order manager and the broker together, as values. Every public call is a script of
 * micro steps: append an event to the log and apply it, or change the broker's book. A
 * crash may come between any two micro steps, so a script also lists the crash points.
 */
module Trading {
  import opened Common
  import opened Orders
  import opened OmsState
  import opened Broker

  datatype Sys = Sys(mem: Memory, log: seq<Logged>, book: Book)

  datatype Micro =
    | Log(e: Logged)
    | Close(oid: OrderId, ts: Time)      // force_close_filled: changes memory, logs nothing
    | Move(book: Book)                // the broker moves to this book

  function CloseCell(c: Cell, ts: Time): Cell {
    if Terminal(c.order.state) then c
    else Transition(c.(order := c.order.(qty := c.order.filledQty, filledAt := Some(ts))), FullFill)
  }

  function Step(s: Sys, m: Micro): Sys {
    match m
    case Log(e) => s.(mem := Live(s.mem, e), log := s.log + [PersistLogged(e)])
    case Close(oid, ts) =>
      if oid in s.mem.cells then s.(mem := Put(s.mem, oid, CloseCell(s.mem.cells[oid], ts))) else s
    case Move(b) => s.(book := b)
  }

  function Exec(s: Sys, script: seq<Micro>): Sys {
    if script == [] then s else Step(Exec(s, script[..|script| - 1]), script[|script| - 1])
  }

  lemma ExecNone(s: Sys)
    ensures Exec(s, []) == s
  {
  }

  lemma ExecOne(s: Sys, m: Micro)
    ensures Exec(s, [m]) == Step(s, m)
  {
    hide Step;
    assert [m][..0] == [];
    assert Exec(s, [m][..0]) == s;
  }

  lemma {:induction false} ExecConcat(s: Sys, a: seq<Micro>, b: seq<Micro>)
    ensures Exec(s, a + b) == Exec(Exec(s, a), b)
  {
    if b == [] {
      assert a + b == a;
    } else {
      var ab := a + b;
      assert ab[..|ab| - 1] == a + b[..|b| - 1];
      ExecConcat(s, a, b[..|b| - 1]);
    }
  }

  // ── The order manager's reaction to a broker notice (_on_broker_event) ────────

  function StateOf(m: Memory, oid: OrderId): OrderState {
    CellOf(m, oid).order.state
  }

  /** _record_accepted */
  function RecordAccepted(m: Memory, oid: OrderId, id: BrokerId, ts: Time): seq<Micro> {
    if CellOf(m, oid).order.brokerOrderId == Some(id) then [] else [Log(Logged(ts, oid, OrderAccepted(id)))]
  }

  /** The fill as the order manager books it: agent and symbol come from the order. */
  function Canonical(o: Order, f: Fill): Fill {
    f.(agent := o.terms.agent, symbol := o.terms.symbol)
  }

  /** _handle_fill */
  function HandleFill(m: Memory, oid: OrderId, f: Fill, ts: Time): seq<Micro> {
    [Log(Logged(ts, oid, FillReceived(Canonical(CellOf(m, oid).order, f))))]
  }

  /** _handle_cancellation, _handle_rejection, _handle_expiry: nothing once terminal. */
  function Finish(m: Memory, oid: OrderId, e: Event, ts: Time): seq<Micro> {
    if Terminal(StateOf(m, oid)) then [] else [Log(Logged(ts, oid, e))]
  }

  function React(m: Memory, n: Notice): seq<Micro> {
    if n.clientId !in m.cells then []
    else
      match n.state
      case BAccepted =>
        if n.clientId in m.brokerIds.Values then [] else RecordAccepted(m, n.clientId, n.brokerId, n.ts)
      case BPartial => if n.fill.None? then [] else HandleFill(m, n.clientId, n.fill.value, n.ts)
      case BFilled => if n.fill.None? then [] else HandleFill(m, n.clientId, n.fill.value, n.ts)
      case BCanceled => Finish(m, n.clientId, OrderCancelled(None), n.ts)
      case BRejected => Finish(m, n.clientId, OrderRejected(n.reason.GetOr("broker rejected")), n.ts)
      case BExpired => Finish(m, n.clientId, OrderExpired, n.ts)
      case BNew => []
      case BUnknown => []
  }

  // ── The broker's calls, each followed by the notice it sends ──────────────────

  /** _record_fill */
  function FillScript(s: Sys, id: BrokerId, qty: real, price: real, now: Time): seq<Micro>
    requires id in s.book.records
  {
    var book := RecordFill(s.book, id, qty, price, now);
    var r := book.records[id];
    var fill := MakeFill(s.book, s.book.records[id], qty, price, now);
    [Move(book)] + React(s.mem, Notice(id, r.status.clientId, r.status.state, Some(fill), None, now))
  }

  /** FakeBroker.submit_order up to the fills: the script and how it ends. */
  datatype Outcome = Placed(id: BrokerId) | Refused(reason: string) | Lost | WrongState | UnknownOrder | NoChange

  function AcceptScript(s: Sys, o: Order, now: Time): seq<Micro> {
    var id := BrokerId.Venue(s.book.nextId);
    [Move(Create(s.book, o, BAccepted, now))]
    + React(s.mem, Notice(id, o.terms.id, BAccepted, None, None, now))
  }

  function AutoFillScript(s: Sys, id: BrokerId, o: Order, now: Time): seq<Micro>
    requires id in s.book.records
  {
    match s.book.mode
    case Instant => FillScript(s, id, o.qty, PriceFor(s.book, o.terms.symbol, o.terms.limitPrice), now)
    case PartialThenHold => FillScript(s, id, o.qty / 2.0, PriceFor(s.book, o.terms.symbol, o.terms.limitPrice), now)
    case _ => []
  }

  lemma AcceptScriptCreates(s: Sys, o: Order, now: Time)
    ensures Exec(s, AcceptScript(s, o, now)).book == Create(s.book, o, BAccepted, now)
  {
    var first := [Move(Create(s.book, o, BAccepted, now))];
    var rest := React(s.mem, Notice(BrokerId.Venue(s.book.nextId), o.terms.id, BAccepted, None, None, now));
    ExecConcat(s, first, rest);
    ExecLogsOnly(Exec(s, first), rest);
  }

  predicate LogsOnly(script: seq<Micro>) {
    forall i :: 0 <= i < |script| ==> !script[i].Move?
  }

  lemma {:induction false} ExecLogsOnly(s: Sys, script: seq<Micro>)
    requires LogsOnly(script)
    ensures Exec(s, script).book == s.book
  {
    if script != [] {
      ExecLogsOnly(s, script[..|script| - 1]);
    }
  }

  function BrokerSubmit(s: Sys, o: Order, now: Time): (seq<Micro>, Outcome) {
    if s.book.submitFailure.Some? then
      ([Move(s.book.(submitFailure := None))],
       match s.book.submitFailure.value case Rejection(r) => Refused(r) case Unavailable => Lost)
    else if o.terms.id in s.book.byClient then
      ([], Placed(s.book.byClient[o.terms.id]))
    else if s.book.mode == RejectAll then
      ([Move(Create(s.book, o, BRejected, now))]
       + React(s.mem, Notice(BrokerId.Venue(s.book.nextId), o.terms.id, BRejected, None, Some(REJECT_REASON), now)),
       Refused(REJECT_REASON))
    else
      var accept := AcceptScript(s, o, now);
      AcceptScriptCreates(s, o, now);
      (accept + AutoFillScript(Exec(s, accept), BrokerId.Venue(s.book.nextId), o, now),
       Placed(BrokerId.Venue(s.book.nextId)))
  }

  /** The end of a submission: a refusal ends the order, a placement gives it its broker id. */
  function AfterSend(m: Memory, oid: OrderId, outcome: Outcome, now: Time): seq<Micro> {
    match outcome
    case Refused(r) => Finish(m, oid, OrderRejected(r), now)
    case Placed(id) => if id in m.brokerIds then [] else RecordAccepted(m, oid, id, now)
    case _ => []
  }

  /** OMS.submit_order */
  function SubmitCall(s: Sys, o: Order, now: Time): (seq<Micro>, Outcome) {
    if o.state != OrderState.Pending then ([], WrongState)
    else
      var intent := [Log(Logged(now, o.terms.id, SubmitIntent(o)))];
      var s1 := Exec(s, intent);
      var sent := BrokerSubmit(s1, o, now);
      var s2 := Exec(s1, sent.0);
      (intent + sent.0 + AfterSend(s2.mem, o.terms.id, sent.1, now), sent.1)
  }

  /** FakeBroker.cancel_order */
  function BrokerCancel(s: Sys, id: BrokerId, now: Time): (seq<Micro>, Outcome) {
    if s.book.cancelFailure.Some? then ([Move(s.book.(cancelFailure := None))], Lost)
    else if id !in s.book.records then ([], Lost)
    else if Done(s.book.records[id].status.state) then ([], NoChange)
    else
      var client := s.book.records[id].status.clientId;
      ([Move(SetState(s.book, id, BCanceled, None, now))]
       + React(s.mem, Notice(id, client, BCanceled, None, None, now)), Placed(id))
  }

  /** OMS.cancel_order */
  function CancelCall(s: Sys, oid: OrderId, now: Time): (seq<Micro>, Outcome) {
    if oid !in s.mem.cells then ([], UnknownOrder)
    else
      var o := s.mem.cells[oid].order;
      if Terminal(o.state) then ([], NoChange)
      else if o.brokerOrderId.None? then
        ([Log(Logged(now, oid, OrderCancelled(Some("cancel before broker accept"))))], NoChange)
      else
        var request := [Log(Logged(now, oid, CancelRequested(o.brokerOrderId.value)))];
        var sent := BrokerCancel(Exec(s, request), o.brokerOrderId.value, now);
        (request + sent.0, sent.1)
  }

  /** The knobs that act on an order the broker knows. */
  function ForceFill(s: Sys, oid: OrderId, qty: Option<real>, price: Option<real>, now: Time): seq<Micro> {
    if oid !in s.book.byClient || s.book.byClient[oid] !in s.book.records then []
    else
      var id := s.book.byClient[oid];
      var status := s.book.records[id].status;
      var remaining := status.qty - status.filledQty;
      var q := qty.GetOr(remaining);
      if q > remaining || (qty.None? && remaining <= 0.0) then []
      else FillScript(s, id, q, price.GetOr(PriceFor(s.book, status.symbol, None)), now)
  }

  function ForceReject(s: Sys, oid: OrderId, reason: string, now: Time): seq<Micro> {
    if oid !in s.book.byClient || s.book.byClient[oid] !in s.book.records then []
    else
      var id := s.book.byClient[oid];
      [Move(SetState(s.book, id, BRejected, Some(reason), now))]
      + React(s.mem, Notice(id, oid, BRejected, None, Some(reason), now))
  }

  // ── Restart ──────────────────────────────────────────────────────────────────

  /** The process dies: memory is lost, the log and the broker stay. */
  function Restart(s: Sys): Sys {
    s.(mem := Replay(s.log))
  }

  function LocalState(b: BrokerState): OrderState {
    match b
    case BNew => OrderState.Accepted
    case BAccepted => OrderState.Accepted
    case BPartial => OrderState.Partial
    case BFilled => OrderState.Filled
    case BCanceled => OrderState.Cancelled
    case BRejected => OrderState.Rejected
    case BExpired => OrderState.Expired
    case BUnknown => OrderState.Pending
  }

  predicate Matches(o: Order, b: Status) {
    o.brokerOrderId == Some(b.brokerId) && o.filledQty == b.filledQty && LocalState(b.state) == o.state
  }

  function SyntheticFill(c: Cell, b: Status, qty: real, ts: Time): Fill {
    Fill(Synthetic(c.order.terms.id, |c.fills|), c.order.terms.id, c.order.terms.agent, c.order.terms.symbol,
         c.order.terms.side, qty, b.avgFillPrice.GetOr(0.0), ts, 0.0, b.state != BFilled)
  }

  /** Last part of _catch_up_from_broker: the state the broker calls terminal. */
  function CatchUpState(m: Memory, oid: OrderId, b: Status, now: Time): seq<Micro> {
    match b.state
    case BCanceled => Finish(m, oid, OrderCancelled(None), now)
    case BRejected => Finish(m, oid, OrderRejected(b.rejectionReason.GetOr("broker rejected (recovered)")), now)
    case BExpired => Finish(m, oid, OrderExpired, now)
    case BFilled => if Terminal(StateOf(m, oid)) then [] else [Close(oid, now)]
    case _ => []
  }

  /** First part: an order without a broker id takes the broker's. */
  function CatchUpId(m: Memory, oid: OrderId, b: Status, now: Time): seq<Micro> {
    if CellOf(m, oid).order.brokerOrderId.None? then RecordAccepted(m, oid, b.brokerId, now) else []
  }

  /** Second part: one synthetic fill for the quantity the log is missing. */
  function CatchUpQty(m: Memory, oid: OrderId, b: Status, now: Time): seq<Micro> {
    var c := CellOf(m, oid);
    var delta := b.filledQty - c.order.filledQty;
    if delta > 0.0 then HandleFill(m, oid, SyntheticFill(c, b, delta, now), now) else []
  }

  /** _catch_up_from_broker */
  function CatchUp(s: Sys, oid: OrderId, b: Status, now: Time): seq<Micro> {
    var id := CatchUpId(s.mem, oid, b, now);
    var s1 := Exec(s, id);
    var qty := CatchUpQty(s1.mem, oid, b, now);
    var s2 := Exec(s1, qty);
    var state := CatchUpState(s2.mem, oid, b, now);
    var advanced := CellOf(s.mem, oid).order.brokerOrderId.None? || qty != [] || state != []
      || (b.state.BCanceled? || b.state.BRejected? || b.state.BExpired?);
    id + qty + state + [Log(Logged(now, oid, if advanced then ReconcileRecovered else ReconcileNoop))]
  }

  lemma ExecConcat4(s: Sys, a: seq<Micro>, b: seq<Micro>, c: seq<Micro>, d: seq<Micro>)
    ensures Exec(s, a + b + c + d) == Exec(Exec(Exec(Exec(s, a), b), c), d)
  {
    ExecConcat(s, a + b + c, d);
    ExecConcat(s, a + b, c);
    ExecConcat(s, a, b);
  }

  /** _reconcile_open_orders for one order. */
  function ReconcileOne(s: Sys, oid: OrderId, now: Time): seq<Micro> {
    if Terminal(StateOf(s.mem, oid)) then []
    else if oid !in s.book.byClient || s.book.byClient[oid] !in s.book.records then
      [Log(Logged(now, oid, ReconcileAbandoned))]
      + Finish(s.mem, oid, OrderRejected("abandoned_during_recovery"), now)
    else
      var b := s.book.records[s.book.byClient[oid]].status;
      if Matches(CellOf(s.mem, oid).order, b) then [Log(Logged(now, oid, ReconcileNoop))]
      else CatchUp(s, oid, b, now)
  }

  function ReconcileAll(s: Sys, ids: seq<OrderId>, now: Time): seq<Micro> {
    if ids == [] then []
    else
      var first := ReconcileAll(s, ids[..|ids| - 1], now);
      first + ReconcileOne(Exec(s, first), ids[|ids| - 1], now)
  }

  /** recover(), run on a restarted order manager. */
  function Recover(s: Sys, now: Time): seq<Micro> {
    ReconcileAll(s, s.mem.ids, now)
  }
}
