/**
 * The broker's side: its vocabulary (execution/broker.py) and the state of the
 * in-memory broker (execution/fake_broker.py) with the atomic changes it makes.
 */
module Broker {
  import opened Common
  import opened Orders

  datatype BrokerState =
    | BNew | BAccepted | BPartial | BFilled | BCanceled | BRejected | BExpired | BUnknown

  datatype Status = Status(
    brokerId: BrokerId,
    clientId: OrderId,
    symbol: string,
    side: Side,
    qty: real,
    filledQty: real,
    avgFillPrice: Option<real>,
    state: BrokerState,
    submittedAt: Time,
    updatedAt: Time,
    rejectionReason: Option<string>)

  datatype Record = Record(status: Status, fills: seq<Fill>, agent: AgentId, limitPrice: Option<real>)

  datatype Holding = Holding(qty: real, avgEntry: real, current: real)

  datatype FillMode = Instant | Manual | RejectAll | PartialThenHold

  datatype Failure = Rejection(reason: string) | Unavailable

  datatype Notice = Notice(
    brokerId: BrokerId,
    clientId: OrderId,
    state: BrokerState,
    fill: Option<Fill>,
    reason: Option<string>,
    ts: Time)

  /** Broker ids are handed out from a counter, which stands for uuid4. */
  datatype Book = Book(
    records: map<BrokerId, Record>,
    byClient: map<OrderId, BrokerId>,
    holdings: map<string, Holding>,
    cash: real,
    prices: map<string, real>,
    mode: FillMode,
    submitFailure: Option<Failure>,
    cancelFailure: Option<Failure>,
    nextId: nat,
    nextFill: nat)

  const REJECT_REASON := "fake_broker REJECT mode"

  predicate Working(s: BrokerState) {
    s.BAccepted? || s.BPartial?
  }

  predicate Executed(s: BrokerState) {
    s.BPartial? || s.BFilled?
  }

  predicate Done(s: BrokerState) {
    s.BFilled? || s.BCanceled? || s.BRejected? || s.BExpired?
  }

  function PriceFor(b: Book, symbol: string, fallback: Option<real>): real {
    if symbol in b.prices then b.prices[symbol] else fallback.GetOr(100.0)
  }

  function Signed(side: Side, qty: real): real {
    if side == Buy then qty else -qty
  }

  function NewRecord(b: Book, o: Order, state: BrokerState, now: Time): Record {
    Record(
      Status(Venue(b.nextId), o.terms.id, o.terms.symbol, o.terms.side, o.qty, 0.0, None, state, now, now,
             if state == BRejected then Some(REJECT_REASON) else None),
      [], o.terms.agent, o.terms.limitPrice)
  }

  function Create(b: Book, o: Order, state: BrokerState, now: Time): Book {
    b.(records := b.records[Venue(b.nextId) := NewRecord(b, o, state, now)],
       byClient := b.byClient[o.terms.id := Venue(b.nextId)],
       nextId := b.nextId + 1)
  }

  function NewAverage(s: Status, qty: real, price: real): real {
    if s.avgFillPrice.None? then price
    else if s.filledQty + qty == 0.0 then 0.0
    else (s.avgFillPrice.value * s.filledQty + price * qty) / (s.filledQty + qty)
  }

  function FilledStatus(s: Status, qty: real, price: real, now: Time): Status {
    s.(filledQty := s.filledQty + qty,
       avgFillPrice := Some(NewAverage(s, qty, price)),
       state := if s.filledQty + qty >= s.qty then BFilled else BPartial,
       updatedAt := now)
  }

  function MakeFill(b: Book, r: Record, qty: real, price: real, now: Time): Fill {
    Fill(VenueFill(b.nextFill), r.status.clientId, r.agent, r.status.symbol, r.status.side, qty, price, now, 0.0,
         r.status.filledQty + qty < r.status.qty)
  }

  /** The entry price after a trade: it moves only when the position grows. */
  function EntryAfter(h: Holding, signed: real, price: real): real {
    if h.qty + signed != 0.0 && ((h.qty > 0.0 && signed > 0.0) || (h.qty < 0.0 && signed < 0.0)) then
      (h.avgEntry * h.qty + price * signed) / (h.qty + signed)
    else h.avgEntry
  }

  /** _apply_fill_to_account on one holding; a holding of zero is dropped. */
  function Rebook(h: Option<Holding>, signed: real, price: real): Option<Holding> {
    match h
    case None => if signed == 0.0 then None else Some(Holding(signed, price, price))
    case Some(was) =>
      if was.qty + signed == 0.0 then None
      else Some(Holding(was.qty + signed, EntryAfter(was, signed, price), price))
  }

  function Store<K, V>(m: map<K, V>, k: K, v: Option<V>): map<K, V> {
    if v.Some? then m[k := v.value] else m - {k}
  }

  function RecordFill(b: Book, id: BrokerId, qty: real, price: real, now: Time): Book
    requires id in b.records
  {
    var r := b.records[id];
    var signed := Signed(r.status.side, qty);
    var fill := MakeFill(b, r, qty, price, now);
    b.(records := b.records[id := r.(status := FilledStatus(r.status, qty, price, now), fills := r.fills + [fill])],
       holdings := Store(b.holdings, r.status.symbol, Rebook(Lookup(b.holdings, r.status.symbol), signed, price)),
       cash := b.cash - signed * price,
       nextFill := b.nextFill + 1)
  }

  function SetState(b: Book, id: BrokerId, state: BrokerState, reason: Option<string>, now: Time): Book
    requires id in b.records
  {
    var r := b.records[id];
    var s := r.status;
    var reason' := if reason.Some? then reason else s.rejectionReason;
    b.(records := b.records[id := r.(status := s.(state := state, rejectionReason := reason', updatedAt := now))])
  }

  /** The signed quantity held of a symbol. */
  function Held(b: Book, symbol: string): real {
    if symbol in b.holdings then b.holdings[symbol].qty else 0.0
  }

  /** What one client order has added to the holding of a symbol. */
  function Contribution(b: Book, oid: OrderId, symbol: string): real {
    if oid in b.byClient && b.byClient[oid] in b.records && b.records[b.byClient[oid]].status.symbol == symbol then
      Signed(b.records[b.byClient[oid]].status.side, b.records[b.byClient[oid]].status.filledQty)
    else 0.0
  }

  /** What some client orders together have added to the holding of a symbol. */
  function Contributions(b: Book, ids: seq<OrderId>, symbol: string): real {
    if ids == [] then 0.0
    else Contributions(b, ids[..|ids| - 1], symbol) + Contribution(b, ids[|ids| - 1], symbol)
  }

  lemma RebookAdds(b: Book, id: BrokerId, qty: real, price: real, now: Time, symbol: string)
    requires id in b.records
    ensures Held(RecordFill(b, id, qty, price, now), symbol)
         == Held(b, symbol)
         + (if symbol == b.records[id].status.symbol then Signed(b.records[id].status.side, qty) else 0.0)
  {
  }

  /** If one listed order changes its contribution, the total changes by the same amount. */
  lemma {:induction false} ContributionsShift(b: Book, c: Book, ids: seq<OrderId>, oid: OrderId, symbol: string)
    requires NoDup(ids)
    requires forall i :: i in ids && i != oid ==> Contribution(c, i, symbol) == Contribution(b, i, symbol)
    ensures Contributions(c, ids, symbol) - Contributions(b, ids, symbol)
         == if oid in ids then Contribution(c, oid, symbol) - Contribution(b, oid, symbol) else 0.0
  {
    if ids != [] {
      var init, last := ids[..|ids| - 1], ids[|ids| - 1];
      assert ids == init + [last];
      ContributionsShift(b, c, init, oid, symbol);
    }
  }
}
