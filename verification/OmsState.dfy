/**
 * The order manager's memory and its event log (execution/oms.py).
 *
 * Memory is, per order, a snapshot, a state machine and the fills booked so far, and
 * a map from broker ids to orders. The log is a sequence of events. Memory can be
 * reached in two ways: `Live` is what the running program does when it logs an event,
 * `Replay` is what a restarted program does when it reads the event back.
 */
module OmsState {
  import opened Common
  import opened Orders

  const FILL_TOLERANCE: real := 0.000000001

  predicate FullyFilled(qty: real, filled: real) {
    qty - filled < FILL_TOLERANCE
  }

  datatype Event =
    | SubmitIntent(order: Order)
    | OrderAccepted(brokerId: BrokerId)
    | OrderRejected(reason: string)
    | FillReceived(fill: Fill)
    | CancelRequested(brokerId: BrokerId)
    | OrderCancelled(note: Option<string>)
    | OrderExpired
    | ReconcileNoop
    | ReconcileRecovered
    | ReconcileAbandoned

  datatype Logged = Logged(ts: Time, oid: OrderId, event: Event)

  datatype Cell = Cell(order: Order, fsm: Fsm, fills: seq<Fill>)

  datatype Memory = Memory(ids: seq<OrderId>, cells: map<OrderId, Cell>, brokerIds: map<BrokerId, OrderId>)

  const EMPTY := Memory([], map[], map[])

  function Put(m: Memory, oid: OrderId, c: Cell): Memory {
    m.(ids := if oid in m.cells then m.ids else m.ids + [oid], cells := m.cells[oid := c])
  }

  lemma PutSame(m: Memory, oid: OrderId)
    requires oid in m.cells
    ensures m.cells[oid := m.cells[oid]] == m.cells && Put(m, oid, m.cells[oid]) == m
  {
  }

  /** The order list and the order map hold the same orders under their own ids. */
  ghost predicate Tidy(m: Memory) {
    && NoDup(m.ids)
    && (forall oid :: oid in m.ids <==> oid in m.cells)
    && (forall oid :: oid in m.cells ==> m.cells[oid].order.terms.id == oid)
  }

  lemma PutKeepsTidy(m: Memory, oid: OrderId, c: Cell)
    requires Tidy(m) && c.order.terms.id == oid
    ensures Tidy(Put(m, oid, c))
    ensures forall i :: i in m.cells ==> i in Put(m, oid, c).cells
  {
    assert forall i :: i in m.ids + [oid] <==> i in m.ids || i == oid;
  }

  // ── What logging does to memory ──────────────────────────────────────────────

  /** Drive the machine; the snapshot follows only when there is an arc. */
  function Transition(c: Cell, e: OrderEvent): Cell {
    match Next(c.fsm.state, e)
    case None => c
    case Some(s) => c.(fsm := Fire(c.fsm, e), order := c.order.(state := s))
  }

  /** The average price after one more fill. The source divides by the new filled quantity. */
  function Blend(avg: Option<real>, filled: real, f: Fill): real {
    if avg.None? then f.price
    else if filled + f.qty == 0.0 then 0.0
    else (avg.value * filled + f.price * f.qty) / (filled + f.qty)
  }

  /** Book a fill in the snapshot. */
  function AddFill(c: Cell, f: Fill, ts: Time): Cell {
    var o := c.order;
    var filled := o.filledQty + f.qty;
    Cell(
      o.(filledQty := filled,
         filledAvgPrice := Some(Blend(o.filledAvgPrice, o.filledQty, f)),
         filledAt := if FullyFilled(o.qty, filled) then Some(ts) else o.filledAt),
      c.fsm,
      c.fills + [f])
  }

  function FillEvent(c: Cell): OrderEvent {
    if FullyFilled(c.order.qty, c.order.filledQty) then FullFill else PartialFill
  }

  function SetAccepted(o: Order, b: BrokerId, ts: Time): Order {
    o.(brokerOrderId := Some(b), submittedAt := Some(ts))
  }

  function LiveCell(c: Cell, e: Event, ts: Time): Cell {
    match e
    case SubmitIntent(o) => Transition(Cell(o, NEW_FSM, []), Submit)
    case OrderAccepted(b) => Transition(c.(order := SetAccepted(c.order, b, ts)), Accept)
    case OrderRejected(r) => Transition(c.(order := c.order.(rejectionReason := Some(r))), Reject)
    case FillReceived(f) => var d := AddFill(c, f, ts); Transition(d, FillEvent(d))
    case OrderCancelled(_) => Transition(c, Cancel)
    case OrderExpired => Transition(c, Expire)
    case _ => c
  }

  function LogBrokerId(m: Memory, e: Logged): map<BrokerId, OrderId> {
    if e.event.OrderAccepted? then m.brokerIds[e.event.brokerId := e.oid] else m.brokerIds
  }

  const NO_CELL := Cell(
    Order(Terms(0, 0, Haiku, "", Buy, Market, Simple, Day, 0, None, None, false), NOTHING_UNLOGGED,
          0.0, OrderState.Pending, None, None, None, 0.0, None, None),
    NEW_FSM, [])

  function CellOf(m: Memory, oid: OrderId): Cell {
    if oid in m.cells then m.cells[oid] else NO_CELL
  }

  /** The running program: memory after it has logged and applied an event. */
  function Live(m: Memory, e: Logged): Memory {
    Put(m, e.oid, LiveCell(CellOf(m, e.oid), e.event, e.ts)).(brokerIds := LogBrokerId(m, e))
  }

  /** The orders that are not in a terminal state, oldest first (list_open_orders). */
  function OpenOrders(m: Memory, ids: seq<OrderId>): seq<Order> {
    if ids == [] then []
    else
      var first, last := OpenOrders(m, ids[..|ids| - 1]), CellOf(m, ids[|ids| - 1]).order;
      if Terminal(last.state) then first else first + [last]
  }

  // ── What reading the log back does to memory ─────────────────────────────────

  /** The part of an order that survives the log; everything else takes its default. */
  function Persist(o: Order): Order {
    Order(o.terms, NOTHING_UNLOGGED, o.qty, o.state, None, None, None, 0.0, None, None)
  }

  function PersistEvent(e: Event): Event {
    if e.SubmitIntent? then SubmitIntent(Persist(e.order)) else e
  }

  function PersistLogged(e: Logged): Logged {
    e.(event := PersistEvent(e.event))
  }

  function PersistLog(log: seq<Logged>): seq<Logged> {
    seq(|log|, i requires 0 <= i < |log| => PersistLogged(log[i]))
  }

  /** Trigger the machine, then write the target into the snapshot come what may. */
  function Force(c: Cell, e: OrderEvent): Cell {
    c.(fsm := Fire(c.fsm, e), order := c.order.(state := Target(e)))
  }

  function ReplayCell(c: Cell, e: Event, ts: Time): Cell {
    match e
    case SubmitIntent(o) => Force(Cell(o, NEW_FSM, c.fills), Submit)
    case OrderAccepted(b) => Force(c.(order := SetAccepted(c.order, b, ts)), Accept)
    case OrderRejected(r) => Force(c.(order := c.order.(rejectionReason := Some(r))), Reject)
    case FillReceived(f) => var d := AddFill(c, f, ts); Force(d, FillEvent(d))
    case OrderCancelled(_) => Force(c, Cancel)
    case OrderExpired => Force(c, Expire)
    case _ => c
  }

  function Reread(m: Memory, e: Logged): Memory {
    Put(m, e.oid, ReplayCell(CellOf(m, e.oid), e.event, e.ts)).(brokerIds := LogBrokerId(m, e))
  }

  function Replay(log: seq<Logged>): Memory {
    if log == [] then EMPTY else Reread(Replay(log[..|log| - 1]), log[|log| - 1])
  }

  function RunLive(log: seq<Logged>): Memory {
    if log == [] then EMPTY else Live(RunLive(log[..|log| - 1]), log[|log| - 1])
  }

  // ── When the two agree ───────────────────────────────────────────────────────

  /** Forget what the log never stored. */
  function EraseCell(c: Cell): Cell {
    c.(order := c.order.(extra := NOTHING_UNLOGGED))
  }

  function Erase(m: Memory): Memory {
    m.(cells := map oid | oid in m.cells :: EraseCell(m.cells[oid]))
  }

  /** A freshly planned order: waiting, with nothing executed. */
  predicate FreshOrder(o: Order) {
    && o.state == OrderState.Pending
    && o.brokerOrderId.None? && o.submittedAt.None? && o.filledAt.None?
    && o.filledQty == 0.0 && o.filledAvgPrice.None? && o.rejectionReason.None?
  }

  /** The machine has an arc for the event, or already rests in the event's target. */
  predicate HasArc(s: OrderState, e: OrderEvent) {
    Next(s, e).Some? || s == Target(e)
  }

  /** The events after which a replayed order looks like the live one. */
  predicate LegalCell(c: Cell, e: Event, ts: Time) {
    match e
    case SubmitIntent(o) => FreshOrder(o.(state := OrderState.Pending)) && c.fills == []
    case OrderAccepted(_) => HasArc(c.order.state, Accept)
    case OrderRejected(_) => HasArc(c.order.state, Reject)
    case FillReceived(f) => HasArc(c.order.state, FillEvent(AddFill(c, f, ts)))
    case OrderCancelled(_) => HasArc(c.order.state, Cancel)
    case OrderExpired => HasArc(c.order.state, Expire)
    case _ => true
  }

  predicate Legal(m: Memory, e: Logged) {
    LegalCell(CellOf(m, e.oid), e.event, e.ts)
  }

  /** The program only logs about orders it knows, and only submits pending orders. */
  predicate Scoped(m: Memory, e: Logged) {
    if e.event.SubmitIntent? then e.event.order.state == OrderState.Pending else e.oid in m.cells
  }

  predicate ScopedLog(log: seq<Logged>) {
    forall k :: 0 <= k < |log| ==> Scoped(RunLive(log[..k]), log[k])
  }

  predicate LegalLog(log: seq<Logged>) {
    forall k :: 0 <= k < |log| ==> Legal(RunLive(log[..k]), log[k])
  }

  predicate Tracks(c: Cell) {
    c.order.state == c.fsm.state
  }

  predicate AllTrack(m: Memory) {
    forall oid :: oid in m.cells ==> Tracks(m.cells[oid])
  }

  /** The machine fires into the target of its event, so only a missing arc can matter. */
  lemma NextIsTarget(s: OrderState, e: OrderEvent)
    ensures Next(s, e).Some? ==> Next(s, e) == Some(Target(e))
  {
  }

  lemma LiveCellTracks(c: Cell, e: Event, ts: Time)
    requires e.SubmitIntent? ==> e.order.state == OrderState.Pending
    requires e.SubmitIntent? || Tracks(c)
    ensures Tracks(LiveCell(c, e, ts))
  {
  }

  /** Transition and Force meet exactly when the event is legal. */
  lemma ForceIsTransition(c: Cell, e: OrderEvent)
    requires Tracks(c)
    ensures Force(c, e) == Transition(c, e) <==> HasArc(c.order.state, e)
    ensures EraseCell(Force(c, e)) == Force(EraseCell(c), e)
    ensures EraseCell(Transition(c, e)) == Transition(EraseCell(c), e)
  {
    NextIsTarget(c.fsm.state, e);
  }

  lemma EraseForce(c: Cell, e: OrderEvent)
    requires Tracks(c)
    ensures Force(EraseCell(c), e) == EraseCell(Transition(c, e)) <==> HasArc(c.order.state, e)
  {
    ForceIsTransition(c, e);
    if Force(EraseCell(c), e) == EraseCell(Transition(c, e)) {
      assert Force(EraseCell(c), e).order.state == Transition(c, e).order.state;
    }
  }

  /** One event on one order: replay lands on the live order iff the event is legal. */
  lemma CellAgreesIffLegal(c: Cell, e: Event, ts: Time)
    requires Tracks(c)
    requires e.SubmitIntent? ==> e.order.state == OrderState.Pending
    ensures ReplayCell(EraseCell(c), PersistEvent(e), ts) == EraseCell(LiveCell(c, e, ts)) <==> LegalCell(c, e, ts)
  {
    match e {
      case SubmitIntent(o) =>
      case OrderAccepted(b) => EraseForce(c.(order := SetAccepted(c.order, b, ts)), Accept);
      case OrderRejected(r) => EraseForce(c.(order := c.order.(rejectionReason := Some(r))), Reject);
      case FillReceived(f) =>
        var d := AddFill(c, f, ts);
        assert EraseCell(d) == AddFill(EraseCell(c), f, ts);
        EraseForce(d, FillEvent(d));
      case OrderCancelled(_) => EraseForce(c, Cancel);
      case OrderExpired => EraseForce(c, Expire);
      case _ =>
    }
  }

  /** Two memories that differ in one order at most are equal exactly when that order is. */
  lemma OrdersTellApart(m: Memory, oid: OrderId, live: Cell, replayed: Cell, ids: map<BrokerId, OrderId>)
    ensures Put(Erase(m), oid, replayed).(brokerIds := ids) == Erase(Put(m, oid, live).(brokerIds := ids))
       <==> replayed == EraseCell(live)
  {
    hide EraseCell;
    var a, b := Put(Erase(m), oid, replayed).(brokerIds := ids), Erase(Put(m, oid, live).(brokerIds := ids));
    assert a.cells[oid] == replayed && b.cells[oid] == EraseCell(live);
    if replayed == EraseCell(live) {
      assert a.cells == b.cells;
    }
  }

  lemma StepAgreesIffLegal(m: Memory, e: Logged)
    requires AllTrack(m) && Scoped(m, e)
    ensures AllTrack(Live(m, e))
    ensures Reread(Erase(m), PersistLogged(e)) == Erase(Live(m, e)) <==> Legal(m, e)
  {
    var c := CellOf(m, e.oid);
    LiveCellTracks(c, e.event, e.ts);
    CellAgreesIffLegal(c, e.event, e.ts);
    assert CellOf(Erase(m), e.oid) == EraseCell(c);
    var live, replayed := LiveCell(c, e.event, e.ts), ReplayCell(EraseCell(c), PersistEvent(e.event), e.ts);
    OrdersTellApart(m, e.oid, live, replayed, LogBrokerId(m, e));
    hide LiveCell, ReplayCell, LegalCell, Put, Erase, EraseCell;
  }

  lemma {:induction false} LiveTracks(log: seq<Logged>)
    requires ScopedLog(log)
    ensures AllTrack(RunLive(log))
  {
    if log != [] {
      var init := log[..|log| - 1];
      assert forall k :: 0 <= k < |init| ==> init[..k] == log[..k];
      LiveTracks(init);
      StepAgreesIffLegal(RunLive(init), log[|log| - 1]);
    }
  }

  lemma PersistLogInit(log: seq<Logged>)
    requires log != []
    ensures PersistLog(log)[..|log| - 1] == PersistLog(log[..|log| - 1])
    ensures PersistLog(log)[|log| - 1] == PersistLogged(log[|log| - 1])
  {
  }

  /** Replaying a legal log gives back the live memory. */
  lemma {:induction false} LegalLogReplays(log: seq<Logged>)
    requires ScopedLog(log) && LegalLog(log)
    ensures Replay(PersistLog(log)) == Erase(RunLive(log))
  {
    if log == [] {
      assert Erase(EMPTY) == EMPTY;
    } else {
      var init := log[..|log| - 1];
      assert forall k :: 0 <= k < |init| ==> init[..k] == log[..k];
      LegalLogReplays(init);
      LiveTracks(init);
      StepAgreesIffLegal(RunLive(init), log[|log| - 1]);
      PersistLogInit(log);
    }
  }

  /** Every line is about an order whose intent came before it. */
  predicate IntentFirst(log: seq<Logged>) {
    forall k :: 0 <= k < |log| ==> log[k].event.SubmitIntent? || log[k].oid in Replay(log[..k]).cells
  }

  lemma {:induction false} ReplayKnowsTheSame(log: seq<Logged>)
    ensures Replay(PersistLog(log)).cells.Keys == RunLive(log).cells.Keys
  {
    if log != [] {
      ReplayKnowsTheSame(log[..|log| - 1]);
      PersistLogInit(log);
    }
  }

  /** What the running program logs can be read back, legal or not. */
  lemma ScopedLogIsReadable(log: seq<Logged>)
    requires ScopedLog(log)
    ensures IntentFirst(PersistLog(log))
  {
    forall k | 0 <= k < |log| ensures PersistLog(log)[..k] == PersistLog(log[..k]) {
    }
    forall k | 0 <= k < |log| ensures log[k].event.SubmitIntent? || log[k].oid in Replay(PersistLog(log)[..k]).cells {
      ReplayKnowsTheSame(log[..k]);
      assert Scoped(RunLive(log[..k]), log[k]);
    }
  }

  /** Replay agrees with the live memory after the first `k` appends. */
  predicate AgreesAt(log: seq<Logged>, k: nat)
    requires k <= |log|
  {
    Replay(PersistLog(log[..k])) == Erase(RunLive(log[..k]))
  }

  lemma ScopedPrefix(log: seq<Logged>, k: nat)
    requires k <= |log| && ScopedLog(log)
    ensures ScopedLog(log[..k])
    ensures LegalLog(log) ==> LegalLog(log[..k])
  {
    assert forall j :: 0 <= j < k ==> log[..k][..j] == log[..j] && log[..k][j] == log[j];
  }

  lemma AgreementNeedsLegality(log: seq<Logged>, k: nat)
    requires k < |log| && ScopedLog(log)
    requires AgreesAt(log, k) && AgreesAt(log, k + 1)
    ensures Legal(RunLive(log[..k]), log[k])
  {
    var next := log[..k + 1];
    assert next[..|next| - 1] == log[..k] && next[|next| - 1] == log[k];
    ScopedPrefix(log, k);
    LiveTracks(log[..k]);
    PersistLogInit(next);
    StepAgreesIffLegal(RunLive(log[..k]), log[k]);
  }

  /**
   * Stop after any number of log appends and restart: replay rebuilds memory at every
   * such point if and only if every event was legal when it was logged.
   */
  lemma ReplayRebuildsIffLegal(log: seq<Logged>)
    requires ScopedLog(log)
    ensures (forall k :: 0 <= k <= |log| ==> AgreesAt(log, k)) <==> LegalLog(log)
  {
    if LegalLog(log) {
      forall k | 0 <= k <= |log| ensures AgreesAt(log, k) {
        ScopedPrefix(log, k);
        LegalLogReplays(log[..k]);
      }
    }
    if forall k :: 0 <= k <= |log| ==> AgreesAt(log, k) {
      forall k | 0 <= k < |log| ensures Legal(RunLive(log[..k]), log[k]) {
        assert AgreesAt(log, k) && AgreesAt(log, k + 1);
        AgreementNeedsLegality(log, k);
      }
    }
  }

  /** Why the prefixes matter: a rejection without an arc separates the two memories. */
  lemma RejectionAfterPartialFillDiverges(c: Cell, reason: string, ts: Time)
    requires Tracks(c) && c.order.state == OrderState.Partial
    ensures LiveCell(c, OrderRejected(reason), ts).order.state == OrderState.Partial
    ensures ReplayCell(c, OrderRejected(reason), ts).order.state == OrderState.Rejected
    ensures !LegalCell(c, OrderRejected(reason), ts)
  {
  }

  // ── What every live memory satisfies ─────────────────────────────────────────

  function SumQty(fills: seq<Fill>): real {
    if fills == [] then 0.0 else SumQty(fills[..|fills| - 1]) + fills[|fills| - 1].qty
  }

  function SumNotional(fills: seq<Fill>): real {
    if fills == [] then 0.0
    else SumNotional(fills[..|fills| - 1]) + fills[|fills| - 1].price * fills[|fills| - 1].qty
  }

  predicate PositiveFills(fills: seq<Fill>) {
    forall i :: 0 <= i < |fills| ==> fills[i].qty > 0.0
  }

  lemma {:induction false} SumQtyPositive(fills: seq<Fill>)
    requires PositiveFills(fills)
    ensures SumQty(fills) >= 0.0
    ensures fills != [] ==> SumQty(fills) > 0.0
  {
    if fills != [] {
      SumQtyPositive(fills[..|fills| - 1]);
    }
  }

  /** The snapshot is the ledger of its fills and its state is where the machine walked to. */
  ghost predicate Sound(c: Cell) {
    && Tracks(c)
    && Walk(OrderState.Pending, c.fsm.history, c.fsm.state)
    && PositiveFills(c.fills)
    && c.order.filledQty == SumQty(c.fills)
    && (c.order.filledAvgPrice.None? <==> c.fills == [])
    && (c.fills != [] ==> c.order.filledAvgPrice.value * c.order.filledQty == SumNotional(c.fills))
  }

  ghost predicate AllSound(m: Memory) {
    forall oid :: oid in m.cells ==> Sound(m.cells[oid])
  }

  predicate SoundEvent(e: Event) {
    && (e.SubmitIntent? ==> FreshOrder(e.order))
    && (e.FillReceived? ==> e.fill.qty > 0.0)
  }

  lemma TransitionSound(c: Cell, e: OrderEvent)
    requires Sound(c)
    ensures Sound(Transition(c, e))
    ensures Terminal(c.order.state) ==> Transition(c, e) == c
  {
    FireWalks(c.fsm, e);
    hide Walk, SumQty, SumNotional;
  }

  lemma AddFillSound(c: Cell, f: Fill, ts: Time)
    requires Sound(c) && f.qty > 0.0
    ensures Sound(AddFill(c, f, ts))
  {
    var d := AddFill(c, f, ts);
    SumQtyPositive(c.fills);
    assert d.fills[..|d.fills| - 1] == c.fills;
    if c.fills == [] {
      assert SumNotional(d.fills) == f.price * f.qty;
    }
  }

  lemma IntentSound(c: Cell, o: Order, ts: Time)
    requires FreshOrder(o)
    ensures Sound(LiveCell(c, SubmitIntent(o), ts))
  {
    TransitionSound(Cell(o, NEW_FSM, []), Submit);
  }

  lemma AcceptanceSound(c: Cell, b: BrokerId, ts: Time)
    requires Sound(c)
    ensures var d := LiveCell(c, OrderAccepted(b), ts);
            Sound(d) && (Terminal(c.order.state) ==> d.order.state == c.order.state)
  {
    TransitionSound(c.(order := SetAccepted(c.order, b, ts)), Accept);
    hide Walk, SumQty, SumNotional, Transition;
  }

  lemma RejectionSound(c: Cell, reason: string, ts: Time)
    requires Sound(c)
    ensures var d := LiveCell(c, OrderRejected(reason), ts);
            Sound(d) && (Terminal(c.order.state) ==> d.order.state == c.order.state)
  {
    TransitionSound(c.(order := c.order.(rejectionReason := Some(reason))), Reject);
    hide Walk, SumQty, SumNotional, Transition;
  }

  lemma FillSound(c: Cell, f: Fill, ts: Time)
    requires Sound(c) && f.qty > 0.0
    ensures var d := LiveCell(c, FillReceived(f), ts);
            Sound(d) && (Terminal(c.order.state) ==> d.order.state == c.order.state)
  {
    AddFillSound(c, f, ts);
    var d := AddFill(c, f, ts);
    hide Sound;
    TransitionSound(d, FillEvent(d));
    hide Transition;
  }

  lemma OtherLineSound(c: Cell, e: Event, ts: Time)
    requires Sound(c) && !e.SubmitIntent? && !e.OrderAccepted? && !e.OrderRejected? && !e.FillReceived?
    ensures Sound(LiveCell(c, e, ts))
    ensures Terminal(c.order.state) ==> LiveCell(c, e, ts).order.state == c.order.state
  {
    TransitionSound(c, Cancel);
    TransitionSound(c, Expire);
    hide Sound, Transition;
  }

  /** Every event keeps an order sound, legal or not, and never leaves a terminal state. */
  lemma LiveCellSound(c: Cell, e: Event, ts: Time)
    requires SoundEvent(e)
    requires e.SubmitIntent? || Sound(c)
    ensures Sound(LiveCell(c, e, ts))
    ensures !e.SubmitIntent? && Terminal(c.order.state) ==> LiveCell(c, e, ts).order.state == c.order.state
  {
    hide LiveCell, Sound;
    match e {
      case SubmitIntent(o) => IntentSound(c, o, ts);
      case FillReceived(f) => FillSound(c, f, ts);
      case OrderRejected(r) => RejectionSound(c, r, ts);
      case OrderAccepted(b) => AcceptanceSound(c, b, ts);
      case _ => OtherLineSound(c, e, ts);
    }
  }

  /** The same for all orders over a whole run. */
  lemma {:induction false} EveryLiveMemoryIsSound(log: seq<Logged>)
    requires ScopedLog(log)
    requires forall k :: 0 <= k < |log| ==> SoundEvent(log[k].event)
    ensures AllSound(RunLive(log))
  {
    if log != [] {
      var init := log[..|log| - 1];
      assert forall k :: 0 <= k < |init| ==> init[..k] == log[..k];
      EveryLiveMemoryIsSound(init);
      var e := log[|log| - 1];
      LiveCellSound(CellOf(RunLive(init), e.oid), e.event, e.ts);
    }
  }
}
