/**
 * Crash safety of the order manager over the in-memory broker.
 *
 * `Behind` relates what the log knows of one order to what the broker knows: the log may
 * lag, but it never claims anything the broker has not done. Every micro step of every
 * script keeps all orders behind, so a crash at any point can be caught up: recovery
 * turns `Behind` into `InSync`.
 */
module Recovery {
  import opened Common
  import opened Orders
  import opened OmsState
  import opened Broker
  import opened Trading

  // ── One order on both sides ──────────────────────────────────────────────────

  function StatusOf(b: Book, oid: OrderId): Option<Status> {
    if oid in b.byClient && b.byClient[oid] in b.records then Some(b.records[b.byClient[oid]].status) else None
  }

  predicate GoodStatus(s: Status) {
    && s.qty > 0.0
    && match s.state
       case BAccepted => s.filledQty == 0.0
       case BPartial => 0.0 < s.filledQty < s.qty
       case BFilled => s.filledQty == s.qty
       case BCanceled => 0.0 <= s.filledQty <= s.qty
       case BRejected => s.filledQty == 0.0
       case _ => false
  }

  predicate OwnFills(c: Cell) {
    forall i :: 0 <= i < |c.fills| ==>
      c.fills[i].symbol == c.order.terms.symbol && c.fills[i].side == c.order.terms.side
  }

  /** The broker has no record: nothing was accepted and nothing was filled. */
  predicate NeverReached(c: Cell) {
    c.fills == [] && c.order.brokerOrderId.None?
    && (c.order.state.Submitted? || c.order.state.Cancelled? || c.order.state.Rejected?)
  }

  /** The broker id is one the order manager made up for a ghost order. */
  predicate GhostNumbered(o: Order) {
    o.brokerOrderId.Some? && !o.brokerOrderId.value.Venue?
  }

  /** A ghost order no broker knows: accepted on the spot, then booked in full or dropped without a fill. */
  predicate MadeUp(c: Cell) {
    && GhostNumbered(c.order)
    && (if c.order.state == Filled then c.fills != [] && c.order.filledQty == c.order.qty
        else c.fills == [] && (c.order.state.Accepted? || c.order.state.Rejected?))
  }

  predicate BehindRecord(c: Cell, s: Status) {
    && GoodStatus(s)
    && s.clientId == c.order.terms.id && s.symbol == c.order.terms.symbol && s.side == c.order.terms.side
    && s.qty == c.order.qty
    && c.order.filledQty <= s.filledQty
    && (c.order.brokerOrderId.None? || c.order.brokerOrderId == Some(s.brokerId))
    && match c.order.state
       case Submitted => c.order.brokerOrderId.None? && c.fills == []
       case Accepted => c.order.brokerOrderId.Some? && c.fills == []
       case Partial => c.order.brokerOrderId.Some? && c.fills != [] && !FullyFilled(c.order.qty, c.order.filledQty)
       case Filled => c.order.brokerOrderId.Some? && c.fills != [] && FullyFilled(c.order.qty, c.order.filledQty)
       case Cancelled => s.state == BCanceled && c.order.filledQty == s.filledQty
       case Rejected => s.state == BRejected
       case _ => false
  }

  ghost predicate Behind(c: Cell, s: Option<Status>) {
    Sound(c) && OwnFills(c) && if s.None? then NeverReached(c) || MadeUp(c) else BehindRecord(c, s.value)
  }

  predicate SameState(local: OrderState, broker: BrokerState) {
    match broker
    case BAccepted => local == Accepted
    case BPartial => (local.Partial? || local.Filled?)
    case BFilled => local == Filled
    case BCanceled => (local.Cancelled? || local.Filled?)
    case BRejected => local == OrderState.Rejected
    case _ => false
  }

  /** The same quantity, or a filled order short of it by less than the fill tolerance. */
  predicate SameQty(c: Cell, s: Status) {
    c.order.filledQty == s.filledQty
    || (c.order.state == Filled && 0.0 < s.filledQty - c.order.filledQty < FILL_TOLERANCE)
  }

  ghost predicate InSync(c: Cell, s: Option<Status>) {
    Behind(c, s) &&
    if s.Some? then SameState(c.order.state, s.value.state) && SameQty(c, s.value)
    else c.order.state != Accepted
  }

  lemma TerminalIsInSync(c: Cell, s: Option<Status>)
    requires Behind(c, s) && Terminal(c.order.state)
    ensures InSync(c, s)
  {
    SumQtyPositive(c.fills);
  }

  // ── The whole system ─────────────────────────────────────────────────────────

  /** Client ids and broker ids index the same records, and fresh broker ids are unused. */
  ghost predicate Indexed(b: Book) {
    && (forall oid :: oid in b.byClient ==> b.byClient[oid] in b.records)
    && (forall id :: id in b.records ==>
          && id.Venue? && id.n < b.nextId
          && b.records[id].status.brokerId == id
          && b.records[id].status.clientId in b.byClient
          && b.byClient[b.records[id].status.clientId] == id)
  }

  /** The two sides speak about the same orders under the same ids. */
  ghost predicate Linked(s: Sys) {
    && Tidy(s.mem)
    && (forall oid :: oid in s.book.byClient ==> oid in s.mem.cells)
    && Indexed(s.book)
    && (forall id :: id in s.mem.brokerIds ==> NumberLinked(s, id, s.mem.brokerIds[id]))
  }

  /** A broker id in memory: one of the broker's own for that order, or the made-up id of a ghost order. */
  predicate NumberLinked(s: Sys, id: BrokerId, oid: OrderId) {
    if id.Venue? then oid in s.book.byClient && s.book.byClient[oid] == id
    else oid in s.mem.cells && s.mem.cells[oid].order.brokerOrderId == Some(id)
  }

  /** An intent never starts a ghost order over, and a broker id is assigned once, to the order it belongs to. */
  predicate LinesUp(s: Sys, e: Logged) {
    && (e.event.SubmitIntent? ==> e.event.order.terms.id == e.oid && !GhostNumbered(CellOf(s.mem, e.oid).order))
    && (e.event.OrderAccepted? ==>
          && CellOf(s.mem, e.oid).order.brokerOrderId.None?
          && (e.event.brokerId.Venue? ==> e.oid in s.book.byClient && s.book.byClient[e.oid] == e.event.brokerId))
  }

  /** The log rebuilds memory. */
  predicate Rebuilt(s: Sys) {
    Replay(s.log) == Erase(s.mem)
  }

  /** The broker holds what its orders have filled. */
  ghost predicate Conserved(b: Book, ids: seq<OrderId>) {
    forall sym :: Held(b, sym) == Contributions(b, ids, sym)
  }

  ghost predicate AllBehind(s: Sys) {
    forall oid :: oid in s.mem.cells ==> Behind(s.mem.cells[oid], StatusOf(s.book, oid))
  }

  ghost predicate Mid(s: Sys) {
    Linked(s) && Rebuilt(s) && Conserved(s.book, s.mem.ids) && AllBehind(s)
  }

  ghost predicate Synced(s: Sys, done: set<OrderId>) {
    Mid(s) && forall oid :: oid in done && oid in s.mem.cells ==> InSync(s.mem.cells[oid], StatusOf(s.book, oid))
  }

  ghost predicate Settled(s: Sys) {
    Synced(s, s.mem.cells.Keys)
  }

  /** From s to t only one order moved. */
  ghost predicate OthersKept(s: Sys, t: Sys, oid: OrderId) {
    && s.mem.cells.Keys <= t.mem.cells.Keys <= s.mem.cells.Keys + {oid}
    && forall i :: i in s.mem.cells && i != oid ==>
         t.mem.cells[i] == s.mem.cells[i] && StatusOf(t.book, i) == StatusOf(s.book, i)
  }

  /** Every crash point of a script leaves all orders behind, and it moves one order only. */
  ghost predicate Safe(s: Sys, script: seq<Micro>, oid: OrderId) {
    forall j :: 0 <= j <= |script| ==> Mid(Exec(s, script[..j])) && OthersKept(s, Exec(s, script[..j]), oid)
  }

  lemma SafeEnd(s: Sys, script: seq<Micro>, oid: OrderId)
    requires Safe(s, script, oid)
    ensures Mid(Exec(s, script)) && OthersKept(s, Exec(s, script), oid)
  {
    assert script[..|script|] == script;
  }

  lemma KeptSelf(s: Sys, oid: OrderId)
    ensures OthersKept(s, s, oid)
  {
    hide StatusOf;
  }

  lemma SafeNone(s: Sys, oid: OrderId)
    requires Mid(s)
    ensures Safe(s, [], oid)
  {
    hide Mid;
    KeptSelf(s, oid);
    hide OthersKept;
  }

  lemma SafeOne(s: Sys, m: Micro, oid: OrderId)
    requires Mid(s) && Mid(Step(s, m)) && OthersKept(s, Step(s, m), oid)
    ensures Safe(s, [m], oid) && Exec(s, [m]) == Step(s, m)
  {
    KeptSelf(s, oid);
    ExecOne(s, m);
    ExecNone(s);
    hide Mid, Step, OthersKept, Exec;
    forall j | 0 <= j <= 1 ensures Mid(Exec(s, [m][..j])) && OthersKept(s, Exec(s, [m][..j]), oid) {
      assert [m][..j] == if j == 0 then [] else [m];
    }
  }

  lemma SafeConcat(s: Sys, a: seq<Micro>, b: seq<Micro>, oid: OrderId)
    requires Safe(s, a, oid) && Safe(Exec(s, a), b, oid)
    ensures Safe(s, a + b, oid) && Exec(s, a + b) == Exec(Exec(s, a), b)
  {
    hide Mid, Exec;
    ExecConcat(s, a, b);
    SafeEnd(s, a, oid);
    forall j | 0 <= j <= |a + b| ensures Mid(Exec(s, (a + b)[..j])) && OthersKept(s, Exec(s, (a + b)[..j]), oid) {
      if j <= |a| {
        assert (a + b)[..j] == a[..j];
      } else {
        var k := j - |a|;
        assert (a + b)[..j] == a + b[..k];
        ExecConcat(s, a, b[..k]);
        assert OthersKept(Exec(s, a), Exec(Exec(s, a), b[..k]), oid);
      }
    }
  }

  // ── One micro step at a time ─────────────────────────────────────────────────

  lemma LegalLineRebuilds(s: Sys, e: Logged)
    requires Rebuilt(s) && AllTrack(s.mem) && Scoped(s.mem, e) && Legal(s.mem, e)
    ensures Rebuilt(Step(s, Log(e)))
  {
    var log := s.log + [PersistLogged(e)];
    assert log[..|log| - 1] == s.log;
    StepAgreesIffLegal(s.mem, e);
    hide Legal, Reread, Live;
  }

  lemma AllTrackWhenBehind(s: Sys)
    requires AllBehind(s)
    ensures AllTrack(s.mem)
  {
    hide NeverReached, MadeUp, BehindRecord, StatusOf, Walk, OwnFills;
  }

  lemma LineNumbers(c: Cell, e: Event, ts: Time)
    ensures LiveCell(c, e, ts).order.terms == if e.SubmitIntent? then e.order.terms else c.order.terms
    ensures !e.SubmitIntent? ==>
              LiveCell(c, e, ts).order.brokerOrderId == if e.OrderAccepted? then Some(e.brokerId)
                                                        else c.order.brokerOrderId
  {
    hide Fire, Blend;
  }

  lemma LogKeepsLinked(s: Sys, e: Logged)
    requires Linked(s) && Scoped(s.mem, e) && LinesUp(s, e)
    ensures Linked(Step(s, Log(e)))
  {
    LineNumbers(CellOf(s.mem, e.oid), e.event, e.ts);
    PutKeepsTidy(s.mem, e.oid, LiveCell(CellOf(s.mem, e.oid), e.event, e.ts));
    LineKeepsNumbers(s, e);
    hide LiveCell, Put, NumberLinked;
  }

  lemma LineKeepsNumbers(s: Sys, e: Logged)
    requires Linked(s) && Scoped(s.mem, e) && LinesUp(s, e)
    ensures forall id :: id in LogBrokerId(s.mem, e) ==> NumberLinked(Step(s, Log(e)), id, LogBrokerId(s.mem, e)[id])
  {
    LineNumbers(CellOf(s.mem, e.oid), e.event, e.ts);
    hide LiveCell, Indexed;
    forall id | id in LogBrokerId(s.mem, e) ensures NumberLinked(Step(s, Log(e)), id, LogBrokerId(s.mem, e)[id]) {
      if id in s.mem.brokerIds {
        assert NumberLinked(s, id, s.mem.brokerIds[id]);
      }
    }
  }

  lemma ConservedWithNew(b: Book, ids: seq<OrderId>, oid: OrderId)
    requires Conserved(b, ids) && oid !in b.byClient
    ensures Conserved(b, ids + [oid])
  {
    assert (ids + [oid])[..|ids|] == ids;
  }

  lemma LogKeepsBehind(s: Sys, e: Logged)
    requires AllBehind(s) && Behind(LiveCell(CellOf(s.mem, e.oid), e.event, e.ts), StatusOf(s.book, e.oid))
    ensures AllBehind(Step(s, Log(e))) && OthersKept(s, Step(s, Log(e)), e.oid)
    ensures CellOf(Step(s, Log(e)).mem, e.oid) == LiveCell(CellOf(s.mem, e.oid), e.event, e.ts)
    ensures e.oid in Step(s, Log(e)).mem.cells && Step(s, Log(e)).book == s.book
  {
    hide LiveCell, Behind, StatusOf, LogBrokerId;
  }

  lemma LogKeepsConserved(s: Sys, e: Logged)
    requires Linked(s) && Conserved(s.book, s.mem.ids)
    ensures Conserved(s.book, Step(s, Log(e)).mem.ids)
  {
    hide LiveCell, LogBrokerId;
    if e.oid !in s.mem.cells {
      assert e.oid !in s.book.byClient;
      hide Linked;
      ConservedWithNew(s.book, s.mem.ids, e.oid);
    }
    hide Conserved;
  }

  /** Logging a legal event that leaves its order behind keeps the invariant. */
  lemma LogKeepsMid(s: Sys, e: Logged)
    requires Mid(s) && Scoped(s.mem, e) && Legal(s.mem, e)
    requires Behind(LiveCell(CellOf(s.mem, e.oid), e.event, e.ts), StatusOf(s.book, e.oid)) && LinesUp(s, e)
    ensures Mid(Step(s, Log(e))) && OthersKept(s, Step(s, Log(e)), e.oid)
    ensures CellOf(Step(s, Log(e)).mem, e.oid) == LiveCell(CellOf(s.mem, e.oid), e.event, e.ts)
    ensures e.oid in Step(s, Log(e)).mem.cells && Step(s, Log(e)).book == s.book
  {
    AllTrackWhenBehind(s);
    LegalLineRebuilds(s, e);
    LogKeepsLinked(s, e);
    LogKeepsConserved(s, e);
    LogKeepsBehind(s, e);
    hide LiveCell, Legal, Behind, Rebuilt, Linked, Conserved, AllBehind, Scoped, StatusOf, OthersKept, CellOf, LinesUp;
  }

  lemma MoveKeepsMid(s: Sys, b: Book)
    requires Mid(s) && Linked(s.(book := b)) && Conserved(b, s.mem.ids) && AllBehind(s.(book := b))
    ensures Mid(Step(s, Move(b)))
  {
    hide Linked, Conserved, AllBehind;
  }

  lemma ConservedShift(s: Sys, b: Book, oid: OrderId)
    requires NoDup(s.mem.ids) && oid in s.mem.ids && Conserved(s.book, s.mem.ids)
    requires forall i :: i in s.mem.ids && i != oid ==> StatusOf(b, i) == StatusOf(s.book, i)
    requires forall sym ::
               Held(b, sym) - Held(s.book, sym) == Contribution(b, oid, sym) - Contribution(s.book, oid, sym)
    ensures Conserved(b, s.mem.ids)
  {
    forall sym ensures Held(b, sym) == Contributions(b, s.mem.ids, sym) {
      forall i | i in s.mem.ids && i != oid ensures Contribution(b, i, sym) == Contribution(s.book, i, sym) {
        assert StatusOf(b, i) == StatusOf(s.book, i);
      }
      ContributionsShift(s.book, b, s.mem.ids, oid, sym);
    }
  }

  lemma CreateKeepsLinked(s: Sys, o: Order, state: BrokerState, now: Time)
    requires Linked(s) && o.terms.id in s.mem.cells && o.terms.id !in s.book.byClient
    ensures Linked(s.(book := Create(s.book, o, state, now)))
  {
    LinkedIsIndexed(s);
    CreateKeepsIndex(s.book, o, state, now);
    LinkedOverMore(s, Create(s.book, o, state, now), o.terms.id);
    hide *;
  }

  lemma LinkedOverMore(s: Sys, b: Book, oid: OrderId)
    requires Linked(s) && Indexed(b) && oid in s.mem.cells && oid !in s.book.byClient && oid in b.byClient
    requires b.byClient == s.book.byClient[oid := b.byClient[oid]]
    ensures Linked(s.(book := b))
  {
    hide Indexed;
  }

  lemma CreateKeepsIndex(b: Book, o: Order, state: BrokerState, now: Time)
    requires Indexed(b) && o.terms.id !in b.byClient
    ensures Indexed(Create(b, o, state, now))
  {
    assert BrokerId.Venue(b.nextId) !in b.records;
  }

  lemma CreateKeepsStatuses(s: Sys, o: Order, state: BrokerState, now: Time)
    requires Linked(s) && o.terms.id !in s.book.byClient
    ensures forall i :: i != o.terms.id ==> StatusOf(Create(s.book, o, state, now), i) == StatusOf(s.book, i)
    ensures StatusOf(Create(s.book, o, state, now), o.terms.id) == Some(NewRecord(s.book, o, state, now).status)
  {
    LinkedIsIndexed(s);
    hide *;
    CreateAddsOne(s.book, o, state, now);
  }

  lemma CreateAddsOne(b: Book, o: Order, state: BrokerState, now: Time)
    requires Indexed(b)
    ensures forall i :: i != o.terms.id ==> StatusOf(Create(b, o, state, now), i) == StatusOf(b, i)
    ensures StatusOf(Create(b, o, state, now), o.terms.id) == Some(NewRecord(b, o, state, now).status)
  {
    assert BrokerId.Venue(b.nextId) !in b.records;
    hide NewRecord;
  }

  lemma CreateHoldsNothing(b: Book, o: Order, state: BrokerState, now: Time)
    requires o.terms.id !in b.byClient
    ensures var c := Create(b, o, state, now);
            forall sym :: Held(c, sym) - Held(b, sym)
              == Contribution(c, o.terms.id, sym) - Contribution(b, o.terms.id, sym)
  {
  }

  lemma UnknownIsBehind(s: Sys, oid: OrderId)
    requires Mid(s) && oid in s.mem.cells && oid !in s.book.byClient
    ensures Behind(s.mem.cells[oid], None) && Linked(s) && s.mem.cells[oid].order.terms.id == oid
  {
    hide Rebuilt, Behind, Conserved, Indexed;
  }

  lemma NewIsBehind(c: Cell, b: Book, o: Order, state: BrokerState, now: Time)
    requires Behind(c, None) && c.order.state == Submitted && c.order.terms == o.terms && c.order.qty == o.qty
    requires o.terms.id == c.order.terms.id && o.qty > 0.0 && (state.BAccepted? || state.BRejected?)
    ensures Behind(c, Some(NewRecord(b, o, state, now).status))
  {
    hide Walk, SumNotional, OwnFills;
  }

  /** The book moved for one order only, and that order is behind the new book. */
  lemma OneOrderMoved(s: Sys, b: Book, oid: OrderId)
    requires Mid(s) && Linked(s.(book := b)) && oid in s.mem.cells && Behind(s.mem.cells[oid], StatusOf(b, oid))
    requires forall i :: i != oid ==> StatusOf(b, i) == StatusOf(s.book, i)
    requires forall sym ::
               Held(b, sym) - Held(s.book, sym) == Contribution(b, oid, sym) - Contribution(s.book, oid, sym)
    ensures Mid(Step(s, Move(b))) && OthersKept(s, Step(s, Move(b)), oid)
  {
    hide Rebuilt, Behind, StatusOf, Held, Contribution;
    MovedBehind(s, b, oid);
    hide AllBehind;
    ConservedShift(s, b, oid);
    hide Linked, Conserved;
    MoveKeepsMid(s, b);
    hide Mid;
  }

  lemma MovedBehind(s: Sys, b: Book, oid: OrderId)
    requires AllBehind(s) && oid in s.mem.cells && Behind(s.mem.cells[oid], StatusOf(b, oid))
    requires forall i :: i != oid ==> StatusOf(b, i) == StatusOf(s.book, i)
    ensures AllBehind(s.(book := b)) && OthersKept(s, Step(s, Move(b)), oid)
  {
    hide Behind, StatusOf;
  }

  /** A new record: the broker now knows an order that memory has submitted. */
  lemma CreateKeepsMid(s: Sys, o: Order, state: BrokerState, now: Time)
    requires Mid(s) && o.terms.id in s.mem.cells && o.terms.id !in s.book.byClient
    requires s.mem.cells[o.terms.id].order.terms == o.terms && s.mem.cells[o.terms.id].order.qty == o.qty
    requires s.mem.cells[o.terms.id].order.state == Submitted
    requires o.qty > 0.0 && (state.BAccepted? || state.BRejected?)
    ensures var t := Step(s, Move(Create(s.book, o, state, now)));
            Mid(t) && OthersKept(s, t, o.terms.id)
            && StatusOf(t.book, o.terms.id) == Some(NewRecord(s.book, o, state, now).status)
  {
    hide StatusOf, Mid, Behind, Linked, Create, NewRecord, Held, Contribution;
    var b := Create(s.book, o, state, now);
    var oid := o.terms.id;
    UnknownIsBehind(s, oid);
    CreateKeepsLinked(s, o, state, now);
    CreateKeepsStatuses(s, o, state, now);
    NewIsBehind(s.mem.cells[oid], s.book, o, state, now);
    CreateHoldsNothing(s.book, o, state, now);
    OneOrderMoved(s, b, oid);
  }

  /** Only the status of one record changed, and its order is still behind it. */
  ghost predicate Restated(b: Book, c: Book, oid: OrderId) {
    && oid in b.byClient && b.byClient[oid] in b.records
    && c.byClient == b.byClient && c.nextId == b.nextId
    && c.records.Keys == b.records.Keys
    && (forall id :: id in b.records && id != b.byClient[oid] ==> c.records[id] == b.records[id])
    && var u, v := b.records[b.byClient[oid]].status, c.records[b.byClient[oid]].status;
       v.clientId == u.clientId && v.brokerId == u.brokerId && v.symbol == u.symbol && v.side == u.side
       && v.qty == u.qty
  }

  lemma LinkedBack(s: Sys, i: OrderId)
    requires Mid(s) && i in s.book.byClient
    ensures i in s.mem.cells && s.book.byClient[i] in s.book.records
    ensures s.book.records[s.book.byClient[i]].status.clientId == i
    ensures s.book.records[s.book.byClient[i]].status.brokerId == s.book.byClient[i]
  {
    hide Rebuilt, Sound, Conserved, GoodStatus;
    assert Behind(s.mem.cells[i], StatusOf(s.book, i));
  }

  lemma RestateKeepsOthers(s: Sys, b: Book, oid: OrderId, i: OrderId)
    requires Mid(s) && Restated(s.book, b, oid) && i != oid
    ensures StatusOf(b, i) == StatusOf(s.book, i)
  {
    LinkedBack(s, oid);
    if i in s.book.byClient {
      LinkedBack(s, i);
      assert s.book.byClient[i] != s.book.byClient[oid];
    }
    hide Mid;
  }

  lemma RestateKeepsIndex(b: Book, c: Book, oid: OrderId)
    requires Indexed(b) && Restated(b, c, oid)
    ensures Indexed(c)
  {
    var own := b.byClient[oid];
    forall id | id in c.records
      ensures c.records[id].status.brokerId == b.records[id].status.brokerId
           && c.records[id].status.clientId == b.records[id].status.clientId
    {
      assert id != own ==> c.records[id] == b.records[id];
    }
  }

  lemma RestateKeepsLinked(s: Sys, b: Book, oid: OrderId)
    requires Linked(s) && Restated(s.book, b, oid)
    ensures Linked(s.(book := b))
  {
    LinkedIsIndexed(s);
    RestateKeepsIndex(s.book, b, oid);
    LinkedOverBook(s, b);
    hide *;
  }

  lemma LinkedIsIndexed(s: Sys)
    requires Linked(s)
    ensures Indexed(s.book)
  {
    hide Indexed;
  }

  lemma LinkedOverBook(s: Sys, b: Book)
    requires Linked(s) && Indexed(b) && b.byClient == s.book.byClient
    ensures Linked(s.(book := b))
  {
    hide Indexed;
  }

  lemma RestateKeepsMid(s: Sys, b: Book, oid: OrderId)
    requires Mid(s) && Restated(s.book, b, oid)
    requires oid in s.mem.cells && Behind(s.mem.cells[oid], StatusOf(b, oid))
    requires forall sym ::
               Held(b, sym) - Held(s.book, sym) == Contribution(b, oid, sym) - Contribution(s.book, oid, sym)
    ensures Mid(Step(s, Move(b))) && OthersKept(s, Step(s, Move(b)), oid)
  {
    hide Rebuilt, Behind, Contribution, Contributions, Held, StatusOf;
    forall i | i != oid ensures StatusOf(b, i) == StatusOf(s.book, i) {
      RestateKeepsOthers(s, b, oid, i);
    }
    RestateKeepsLinked(s, b, oid);
    hide Restated, Linked, Conserved, AllBehind;
    OneOrderMoved(s, b, oid);
  }

  lemma FillStaysBehind(c: Cell, u: Status, qty: real, price: real, now: Time)
    requires Behind(c, Some(u)) && Working(u.state) && 0.0 < qty <= u.qty - u.filledQty
    ensures Behind(c, Some(FilledStatus(u, qty, price, now)))
  {
    hide Sound, NewAverage, OwnFills;
  }

  lemma StatusIsBehind(s: Sys, oid: OrderId)
    requires Mid(s) && oid in s.book.byClient
    ensures oid in s.mem.cells && s.book.byClient[oid] in s.book.records
    ensures Behind(s.mem.cells[oid], Some(s.book.records[s.book.byClient[oid]].status))
    ensures StatusOf(s.book, oid) == Some(s.book.records[s.book.byClient[oid]].status)
  {
    hide Rebuilt, Behind, Conserved;
  }

  lemma FillRestates(b: Book, oid: OrderId, qty: real, price: real, now: Time)
    requires oid in b.byClient && b.byClient[oid] in b.records
    ensures var c := RecordFill(b, b.byClient[oid], qty, price, now);
            && Restated(b, c, oid)
            && StatusOf(c, oid) == Some(FilledStatus(b.records[b.byClient[oid]].status, qty, price, now))
            && forall sym :: Held(c, sym) - Held(b, sym) == Contribution(c, oid, sym) - Contribution(b, oid, sym)
  {
    var c := RecordFill(b, b.byClient[oid], qty, price, now);
    hide NewAverage, Rebook;
    forall sym ensures Held(c, sym) - Held(b, sym) == Contribution(c, oid, sym) - Contribution(b, oid, sym) {
      RebookAdds(b, b.byClient[oid], qty, price, now, sym);
    }
  }

  lemma SetStateRestates(b: Book, oid: OrderId, state: BrokerState, reason: Option<string>, now: Time)
    requires oid in b.byClient && b.byClient[oid] in b.records
    ensures var c := SetState(b, b.byClient[oid], state, reason, now);
            && Restated(b, c, oid)
            && StatusOf(c, oid) == Some(c.records[b.byClient[oid]].status)
            && forall sym :: Held(c, sym) - Held(b, sym) == Contribution(c, oid, sym) - Contribution(b, oid, sym)
  {
  }

  /** The record of an order can take a fill of this size. */
  predicate CanFill(b: Book, oid: OrderId, qty: real) {
    && oid in b.byClient && b.byClient[oid] in b.records
    && var u := b.records[b.byClient[oid]].status;
       Working(u.state) && 0.0 < qty <= u.qty - u.filledQty
  }

  /** Moving to this book keeps the invariant, moves one order only and leaves it this status. */
  ghost predicate MovesTo(s: Sys, b: Book, oid: OrderId, u: Status) {
    Mid(Step(s, Move(b))) && OthersKept(s, Step(s, Move(b)), oid) && StatusOf(b, oid) == Some(u)
  }

  lemma FillKeepsMid(s: Sys, oid: OrderId, qty: real, price: real, now: Time)
    requires Mid(s) && CanFill(s.book, oid, qty)
    ensures MovesTo(s, RecordFill(s.book, s.book.byClient[oid], qty, price, now), oid,
                    FilledStatus(s.book.records[s.book.byClient[oid]].status, qty, price, now))
  {
    var b := RecordFill(s.book, s.book.byClient[oid], qty, price, now);
    StatusIsBehind(s, oid);
    hide Mid, Behind, StatusOf;
    FillStaysBehind(s.mem.cells[oid], s.book.records[s.book.byClient[oid]].status, qty, price, now);
    FillRestates(s.book, oid, qty, price, now);
    hide RecordFill, FilledStatus, Restated, StatusOf, Contribution, Held;
    RestateKeepsMid(s, b, oid);
  }

  lemma SetStateStaysBehind(c: Cell, u: Status, v: Status)
    requires Behind(c, Some(u))
          && v == u.(state := v.state, rejectionReason := v.rejectionReason, updatedAt := v.updatedAt)
    requires (v.state == BCanceled && Working(u.state)) || (v.state == BRejected && u.state == BAccepted)
    ensures Behind(c, Some(v))
  {
    SumQtyPositive(c.fills);
    hide Walk, SumQty, SumNotional, OwnFills;
  }

  lemma SetStateKeepsMid(s: Sys, oid: OrderId, state: BrokerState, reason: Option<string>, now: Time)
    requires Mid(s) && oid in s.book.byClient && s.book.byClient[oid] in s.book.records
    requires var u := s.book.records[s.book.byClient[oid]].status;
             || (state == BCanceled && Working(u.state))
             || (state == BRejected && u.state == BAccepted)
    ensures var b := SetState(s.book, s.book.byClient[oid], state, reason, now);
            && Mid(Step(s, Move(b))) && OthersKept(s, Step(s, Move(b)), oid)
            && StatusOf(b, oid) == Some(b.records[s.book.byClient[oid]].status)
  {
    var b := SetState(s.book, s.book.byClient[oid], state, reason, now);
    StatusIsBehind(s, oid);
    hide Mid, Behind, StatusOf;
    SetStateStaysBehind(s.mem.cells[oid], s.book.records[s.book.byClient[oid]].status,
                        b.records[s.book.byClient[oid]].status);
    SetStateRestates(s.book, oid, state, reason, now);
    hide SetState, Restated, StatusOf, Contribution, Held;
    RestateKeepsMid(s, b, oid);
  }

  lemma KnobKeepsConserved(s: Sys, b: Book)
    requires Conserved(s.book, s.mem.ids) && NoDup(s.mem.ids)
    requires b.records == s.book.records && b.byClient == s.book.byClient && b.holdings == s.book.holdings
    ensures Conserved(b, s.mem.ids)
  {
    forall sym ensures Held(b, sym) == Contributions(b, s.mem.ids, sym) {
      assert forall i :: Contribution(b, i, sym) == Contribution(s.book, i, sym);
      hide Contribution;
      ContributionsShift(s.book, b, s.mem.ids, 0, sym);
    }
  }

  lemma KnobKeepsMid(s: Sys, b: Book)
    requires Mid(s)
    requires b.records == s.book.records && b.byClient == s.book.byClient && b.holdings == s.book.holdings
          && b.nextId == s.book.nextId
    ensures Mid(Step(s, Move(b))) && forall oid :: StatusOf(b, oid) == StatusOf(s.book, oid)
    ensures forall oid :: OthersKept(s, Step(s, Move(b)), oid)
  {
    hide Rebuilt, Behind;
    KnobKeepsConserved(s, b);
    LinkedIsIndexed(s);
    LinkedOverBook(s, b);
    hide Linked, Conserved;
    MoveKeepsMid(s, b);
  }
}
