/**
 * Every public call is crash safe, and recovery catches up from any crash.
 */
module CrashSafety {
  import opened Common
  import opened Orders
  import opened OmsState
  import opened Broker
  import opened Trading
  import opened Recovery

  // ── What one event does to one order and its record ──────────────────────────

  predicate GoodOrder(o: Order) {
    FreshOrder(o) && o.qty > 0.0
  }

  lemma IntentCell(c: Cell, o: Order, ts: Time)
    requires GoodOrder(o) && (c.fills == [])
    ensures var d := LiveCell(c, SubmitIntent(o), ts);
            && LegalCell(c, SubmitIntent(o), ts) && Behind(d, None)
            && d.order == o.(state := Submitted) && d.fills == []
  {
    LiveCellSound(c, SubmitIntent(o), ts);
    hide Walk, SumQty, SumNotional;
  }

  lemma AcceptCell(c: Cell, s: Status, ts: Time)
    requires Behind(c, Some(s)) && c.order.brokerOrderId.None? && c.order.state == Submitted
    ensures var d := LiveCell(c, OrderAccepted(s.brokerId), ts);
            LegalCell(c, OrderAccepted(s.brokerId), ts) && Behind(d, Some(s)) && d.order.state == Accepted
            && d.order.brokerOrderId.Some?
            && d.fills == c.fills && d.order.terms == c.order.terms
  {
    LiveCellSound(c, OrderAccepted(s.brokerId), ts);
    hide Walk, SumQty, SumNotional, Sound, GoodStatus;
  }

  /** A fill that does not run past the broker keeps the order behind; one that catches up syncs it. */
  lemma FillCell(c: Cell, s: Status, f: Fill, ts: Time)
    requires Behind(c, Some(s)) && (c.order.state.Accepted? || c.order.state.Partial? || c.order.state.Filled?)
          && c.order.brokerOrderId.Some?
    requires (s.state.BPartial? || s.state.BFilled? || s.state.BCanceled?)
    requires f.qty > 0.0 && c.order.filledQty + f.qty <= s.filledQty
    requires f.symbol == c.order.terms.symbol && f.side == c.order.terms.side
    ensures var d := LiveCell(c, FillReceived(f), ts);
            && LegalCell(c, FillReceived(f), ts) && Behind(d, Some(s))
            && d.order.filledQty == c.order.filledQty + f.qty
            && (d.order.state.Partial? || d.order.state.Filled?) && d.order.brokerOrderId.Some? && d.fills != []
            && (c.order.state == Filled ==> d.order.state == Filled)
            && (d.order.filledQty == s.filledQty || c.order.state == Filled ==> SameQty(d, s))
            && (d.order.filledQty == s.filledQty && Executed(s.state) ==> InSync(d, Some(s)))
            && (c.order.state == Filled && Executed(s.state) ==> InSync(d, Some(s)))
  {
    LiveCellSound(c, FillReceived(f), ts);
    FillShape(c, f, ts);
    hide LiveCell, LegalCell, Sound, BehindRecord, GoodStatus, InSync;
    FilledBehind(c, LiveCell(c, FillReceived(f), ts), s, f);
  }

  /** An accepted order with one more fill: still behind its record, and in sync once the quantity is the same. */
  lemma FilledBehind(c: Cell, d: Cell, s: Status, f: Fill)
    requires Behind(c, Some(s)) && (c.order.state.Accepted? || c.order.state.Partial? || c.order.state.Filled?)
    requires c.order.brokerOrderId.Some? && (s.state.BPartial? || s.state.BFilled? || s.state.BCanceled?)
    requires f.qty > 0.0 && c.order.filledQty + f.qty <= s.filledQty
    requires f.symbol == c.order.terms.symbol && f.side == c.order.terms.side
    requires Sound(d) && d.fills == c.fills + [f] && d.order.filledQty == c.order.filledQty + f.qty
    requires d.order.terms == c.order.terms && d.order.qty == c.order.qty
          && d.order.brokerOrderId == c.order.brokerOrderId
    requires d.order.state == if FullyFilled(c.order.qty, d.order.filledQty) then Filled else Partial
    ensures Behind(d, Some(s))
    ensures d.order.filledQty == s.filledQty || c.order.state == Filled ==> SameQty(d, s)
    ensures d.order.filledQty == s.filledQty && Executed(s.state) ==> InSync(d, Some(s))
    ensures c.order.state == Filled ==> d.order.state == Filled && (Executed(s.state) ==> InSync(d, Some(s)))
  {
    assert OwnFills(d) by {
      hide Sound, GoodStatus, FullyFilled;
    }
    hide Sound, OwnFills;
  }

  /** What a fill does to an accepted order. */
  lemma FillShape(c: Cell, f: Fill, ts: Time)
    requires Tracks(c) && (c.order.state.Accepted? || c.order.state.Partial? || c.order.state.Filled?)
    requires c.order.state == Filled ==> FullyFilled(c.order.qty, c.order.filledQty + f.qty)
    ensures LegalCell(c, FillReceived(f), ts)
    ensures var d := LiveCell(c, FillReceived(f), ts);
            && d.fills == c.fills + [f] && d.order.filledQty == c.order.filledQty + f.qty
            && d.order.terms == c.order.terms && d.order.qty == c.order.qty
            && d.order.brokerOrderId == c.order.brokerOrderId
            && d.order.state == if FullyFilled(c.order.qty, d.order.filledQty) then Filled else Partial
  {
    hide Blend;
  }

  lemma CancelCell(c: Cell, s: Status, note: Option<string>, ts: Time)
    requires Behind(c, Some(s)) && AtVenue(c.order.state) && s.state == BCanceled && c.order.filledQty == s.filledQty
    ensures var d := LiveCell(c, OrderCancelled(note), ts);
            LegalCell(c, OrderCancelled(note), ts) && InSync(d, Some(s)) && d.order.state == Cancelled
  {
    LiveCellSound(c, OrderCancelled(note), ts);
    hide Walk, SumQty, SumNotional, Sound;
  }

  lemma RejectCell(c: Cell, s: Status, reason: string, ts: Time)
    requires Behind(c, Some(s)) && (c.order.state.Submitted? || c.order.state.Accepted?) && s.state == BRejected
    ensures var d := LiveCell(c, OrderRejected(reason), ts);
            LegalCell(c, OrderRejected(reason), ts) && InSync(d, Some(s)) && d.order.state == OrderState.Rejected
  {
    SumQtyPositive(c.fills);
    LiveCellSound(c, OrderRejected(reason), ts);
    assert SumQty([]) == 0.0;
    hide Walk, SumNotional;
  }

  /** An order the broker never saw, a ghost order included, can be dropped locally. */
  lemma DropCell(c: Cell, e: Event, ts: Time)
    requires Behind(c, None) && (c.order.state.Submitted? || c.order.state.Accepted?)
    requires e.OrderRejected? || (e.OrderCancelled? && c.order.state == Submitted)
    ensures var d := LiveCell(c, e, ts);
            LegalCell(c, e, ts) && InSync(d, None) && Terminal(d.order.state) && d.fills == []
  {
    LiveCellSound(c, e, ts);
    var d := LiveCell(c, e, ts);
    assert (d.order.state.Cancelled? || d.order.state.Rejected?) && d.fills == []
        && d.order.brokerOrderId == c.order.brokerOrderId by {
      hide Sound;
    }
    hide LiveCell, Sound;
  }

  /** Lines that only leave a trace. */
  predicate AuditLine(e: Event) {
    e.ReconcileNoop? || e.ReconcileRecovered? || e.ReconcileAbandoned? || e.CancelRequested?
  }

  // ── Scripts of one log line ──────────────────────────────────────────────────

  lemma LogSafe(s: Sys, e: Logged)
    requires Mid(s) && Scoped(s.mem, e) && Legal(s.mem, e)
    requires Behind(LiveCell(CellOf(s.mem, e.oid), e.event, e.ts), StatusOf(s.book, e.oid)) && LinesUp(s, e)
    ensures Safe(s, [Log(e)], e.oid) && Mid(Exec(s, [Log(e)]))
    ensures e.oid in Exec(s, [Log(e)]).mem.cells
    ensures Exec(s, [Log(e)]).mem.cells[e.oid] == LiveCell(CellOf(s.mem, e.oid), e.event, e.ts)
    ensures Exec(s, [Log(e)]).book == s.book
  {
    LogKeepsMid(s, e);
    hide Mid, Behind, Legal, LiveCell, Step, OthersKept, StatusOf;
    SafeOne(s, Log(e), e.oid);
    hide Safe, Exec;
  }

  lemma AuditSafe(s: Sys, oid: OrderId, e: Event, ts: Time)
    requires Mid(s) && oid in s.mem.cells && AuditLine(e)
    ensures Safe(s, [Log(Logged(ts, oid, e))], oid)
    ensures var t := Exec(s, [Log(Logged(ts, oid, e))]);
            Mid(t) && t.book == s.book && oid in t.mem.cells && t.mem.cells[oid] == s.mem.cells[oid]
            && t.mem.brokerIds == s.mem.brokerIds
  {
    BehindAt(s, oid);
    AuditIsQuiet(s, Logged(ts, oid, e));
    hide *;
    LogSafe(s, Logged(ts, oid, e));
  }

  lemma AuditIsQuiet(s: Sys, e: Logged)
    requires e.oid in s.mem.cells && AuditLine(e.event)
    ensures Scoped(s.mem, e) && Legal(s.mem, e) && LinesUp(s, e)
    ensures LiveCell(CellOf(s.mem, e.oid), e.event, e.ts) == CellOf(s.mem, e.oid) == s.mem.cells[e.oid]
    ensures Exec(s, [Log(e)]).mem.brokerIds == s.mem.brokerIds
  {
    ExecOne(s, Log(e));
    hide Exec;
  }

  lemma BehindAt(s: Sys, oid: OrderId)
    requires Mid(s) && oid in s.mem.cells
    ensures Behind(s.mem.cells[oid], StatusOf(s.book, oid)) && s.mem.cells[oid].order.terms.id == oid
    ensures StatusOf(s.book, oid).Some? <==> oid in s.book.byClient
    ensures StatusOf(s.book, oid).Some? ==>
              s.book.byClient[oid] in s.book.records
              && StatusOf(s.book, oid) == Some(s.book.records[s.book.byClient[oid]].status)
              && StatusOf(s.book, oid).value.brokerId == s.book.byClient[oid]
              && StatusOf(s.book, oid).value.clientId == oid
  {
    if oid in s.book.byClient {
      LinkedBack(s, oid);
    }
    hide Rebuilt, Behind, Conserved;
  }

  lemma MoveSafe(s: Sys, b: Book, oid: OrderId)
    requires Mid(s) && Mid(Step(s, Move(b))) && OthersKept(s, Step(s, Move(b)), oid)
    ensures Safe(s, [Move(b)], oid)
    ensures var t := Exec(s, [Move(b)]); t == s.(book := b) && Mid(t)
  {
    hide Mid, OthersKept;
    SafeOne(s, Move(b), oid);
    hide Safe, Exec;
  }

  // ── Reactions ────────────────────────────────────────────────────────────────

  /** The broker moved; the fill notice brings the order back in sync. */
  lemma FillNoticeSafe(s: Sys, oid: OrderId, f: Fill, ts: Time)
    requires Mid(s) && oid in s.mem.cells && StatusOf(s.book, oid).Some?
    requires var c, u := s.mem.cells[oid], StatusOf(s.book, oid).value;
             && (c.order.state.Accepted? || c.order.state.Partial? || c.order.state.Filled?)
             && c.order.brokerOrderId.Some?
             && Executed(u.state) && f.qty > 0.0
             && f.side == c.order.terms.side
             && (c.order.filledQty + f.qty == u.filledQty
                 || (c.order.state == Filled && c.order.filledQty + f.qty <= u.filledQty))
    ensures var script := HandleFill(s.mem, oid, f, ts);
            && Safe(s, script, oid) && Mid(Exec(s, script)) && Exec(s, script).book == s.book
            && oid in Exec(s, script).mem.cells && InSync(Exec(s, script).mem.cells[oid], StatusOf(s.book, oid))
  {
    BehindAt(s, oid);
    hide Mid, Behind, StatusOf, Safe, Exec, InSync, LegalCell, LiveCell;
    var c := s.mem.cells[oid];
    FillCell(c, StatusOf(s.book, oid).value, Canonical(c.order, f), ts);
    LogSafe(s, Logged(ts, oid, FillReceived(Canonical(c.order, f))));
  }

  /** A fill at the broker, with its notice, keeps a synced order synced. */
  lemma FillSafe(s: Sys, oid: OrderId, qty: real, price: real, now: Time)
    requires Mid(s) && oid in s.mem.cells && StatusOf(s.book, oid).Some?
          && InSync(s.mem.cells[oid], StatusOf(s.book, oid))
    requires var u := StatusOf(s.book, oid).value; Working(u.state) && 0.0 < qty <= u.qty - u.filledQty
    ensures oid in s.book.byClient && s.book.byClient[oid] in s.book.records
    ensures var script := FillScript(s, s.book.byClient[oid], qty, price, now);
            && Safe(s, script, oid) && Mid(Exec(s, script))
            && oid in Exec(s, script).mem.cells
            && InSync(Exec(s, script).mem.cells[oid], StatusOf(Exec(s, script).book, oid))
  {
    hide Mid, Behind, StatusOf, Safe, Exec, InSync, RecordFill, HandleFill, OthersKept, MakeFill, FilledStatus,
         FillScript;
    BehindAt(s, oid);
    var id := s.book.byClient[oid];
    var u := StatusOf(s.book, oid).value;
    var fill := MakeFill(s.book, s.book.records[id], qty, price, now);
    FillMoves(s, oid, qty, price, now);
    SyncedFillFits(s.mem.cells[oid], u, qty, price, now);
    MadeFill(s.book, s.book.records[id], qty, price, now);
    FillNoticeSafe(s.(book := RecordFill(s.book, id, qty, price, now)), oid, fill, now);
    FillScriptShape(s, oid, qty, price, now);
    SafeConcat(s, [Move(RecordFill(s.book, id, qty, price, now))], HandleFill(s.mem, oid, fill, now), oid);
  }

  lemma MadeFill(b: Book, r: Record, qty: real, price: real, now: Time)
    ensures MakeFill(b, r, qty, price, now).qty == qty && MakeFill(b, r, qty, price, now).side == r.status.side
  {
  }

  lemma FillMoves(s: Sys, oid: OrderId, qty: real, price: real, now: Time)
    requires Mid(s) && StatusOf(s.book, oid).Some?
    requires var u := StatusOf(s.book, oid).value; Working(u.state) && 0.0 < qty <= u.qty - u.filledQty
    ensures oid in s.book.byClient && s.book.byClient[oid] in s.book.records
    ensures var b := RecordFill(s.book, s.book.byClient[oid], qty, price, now);
            && Safe(s, [Move(b)], oid) && Exec(s, [Move(b)]) == s.(book := b) && Mid(s.(book := b))
            && StatusOf(b, oid) == Some(FilledStatus(StatusOf(s.book, oid).value, qty, price, now))
  {
    FillKeepsMid(s, oid, qty, price, now);
    hide Mid, RecordFill, FilledStatus, Safe, Exec, OthersKept;
    MoveSafe(s, RecordFill(s.book, s.book.byClient[oid], qty, price, now), oid);
  }

  lemma FillScriptShape(s: Sys, oid: OrderId, qty: real, price: real, now: Time)
    requires oid in s.mem.cells && oid in s.book.byClient && s.book.byClient[oid] in s.book.records
    requires s.book.records[s.book.byClient[oid]].status.clientId == oid
    ensures FillScript(s, s.book.byClient[oid], qty, price, now)
         == [Move(RecordFill(s.book, s.book.byClient[oid], qty, price, now))]
            + HandleFill(s.mem, oid, MakeFill(s.book, s.book.records[s.book.byClient[oid]], qty, price, now), now)
  {
    hide HandleFill, MakeFill, NewAverage, Rebook;
  }

  lemma SyncedFillFits(c: Cell, u: Status, qty: real, price: real, now: Time)
    requires InSync(c, Some(u)) && Working(u.state) && 0.0 < qty <= u.qty - u.filledQty
    ensures var v := FilledStatus(u, qty, price, now);
            && (c.order.state.Accepted? || c.order.state.Partial? || c.order.state.Filled?)
            && c.order.brokerOrderId.Some? && Executed(v.state)
            && (c.order.filledQty + qty == v.filledQty
                || (c.order.state == Filled && c.order.filledQty + qty <= v.filledQty))
            && u.side == c.order.terms.side
  {
    hide Sound, NewAverage;
  }

  // ── The calls ────────────────────────────────────────────────────────────────

  lemma SettledAt(s: Sys, oid: OrderId)
    requires Settled(s) && oid in s.mem.cells
    ensures InSync(s.mem.cells[oid], StatusOf(s.book, oid))
  {
    hide Mid, InSync, StatusOf;
  }

  /** A safe script that ends with its order in sync keeps the system settled. */
  lemma SettledAfter(s: Sys, script: seq<Micro>, oid: OrderId)
    requires Settled(s) && Safe(s, script, oid)
    requires oid in Exec(s, script).mem.cells ==>
               InSync(Exec(s, script).mem.cells[oid], StatusOf(Exec(s, script).book, oid))
    ensures Settled(Exec(s, script))
  {
    SafeEnd(s, script, oid);
    hide Mid, InSync, StatusOf, Safe, Exec;
  }

  /** The broker has no order under this id, and it is not the id of a ghost order. */
  predicate NewToBroker(s: Sys, oid: OrderId) {
    oid !in s.book.byClient && !GhostNumbered(CellOf(s.mem, oid).order)
  }

  lemma IntentSafe(s: Sys, o: Order, now: Time)
    requires Mid(s) && GoodOrder(o) && NewToBroker(s, o.terms.id)
    ensures var script := [Log(Logged(now, o.terms.id, SubmitIntent(o)))];
            var t := Exec(s, script);
            && Safe(s, script, o.terms.id) && Mid(t) && t.book == s.book && o.terms.id in t.mem.cells
            && t.mem.cells[o.terms.id].order == o.(state := Submitted) && t.mem.cells[o.terms.id].fills == []
            && Behind(t.mem.cells[o.terms.id], None)
  {
    var oid := o.terms.id;
    if oid in s.mem.cells {
      BehindAt(s, oid);
    }
    assert CellOf(s.mem, oid).fills == [];
    IntentCell(CellOf(s.mem, oid), o, now);
    assert StatusOf(s.book, oid) == None;
    hide Mid, Behind, StatusOf, LiveCell, LegalCell, Safe, Exec;
    LogSafe(s, Logged(now, oid, SubmitIntent(o)));
  }

  /** The broker takes the order and its notice assigns the broker id. */
  lemma AcceptSafe(s: Sys, o: Order, now: Time)
    requires Mid(s) && o.terms.id in s.mem.cells && o.terms.id !in s.book.byClient
    requires s.mem.cells[o.terms.id].order == o.(state := Submitted) && GoodOrder(o)
          && s.mem.cells[o.terms.id].fills == []
    ensures var script := AcceptScript(s, o, now);
            var t := Exec(s, script);
            && Safe(s, script, o.terms.id) && Mid(t) && t.book == Create(s.book, o, BAccepted, now)
            && o.terms.id in t.mem.cells && InSync(t.mem.cells[o.terms.id], StatusOf(t.book, o.terms.id))
            && StatusOf(t.book, o.terms.id) == Some(NewRecord(s.book, o, BAccepted, now).status)
            && BrokerId.Venue(s.book.nextId) in t.mem.brokerIds
  {
    hide Mid, Safe, Exec, StatusOf, LiveCell, LegalCell, OthersKept, Behind, InSync, NewRecord, Create;
    var oid := o.terms.id;
    var id := BrokerId.Venue(s.book.nextId);
    var b := Create(s.book, o, BAccepted, now);
    var u := NewRecord(s.book, o, BAccepted, now).status;
    var e := Logged(now, oid, OrderAccepted(id));
    CreateMoves(s, o, BAccepted, now);
    var t := s.(book := b);
    BehindAt(t, oid);
    NewStatus(s.book, o, BAccepted, now);
    AcceptCell(t.mem.cells[oid], u, now);
    AcceptShape(s, o, now);
    LogSafe(t, e);
    SafeConcat(s, [Move(b)], [Log(e)], oid);
    AcceptedInSync(LiveCell(t.mem.cells[oid], e.event, now), u);
    AcceptMaps(t, e);
  }

  lemma NewStatus(b: Book, o: Order, state: BrokerState, now: Time)
    ensures var u := NewRecord(b, o, state, now).status; u.brokerId == BrokerId.Venue(b.nextId) && u.state == state
  {
  }

  lemma CreateMoves(s: Sys, o: Order, state: BrokerState, now: Time)
    requires Mid(s) && o.terms.id in s.mem.cells && o.terms.id !in s.book.byClient
    requires s.mem.cells[o.terms.id].order == o.(state := Submitted) && GoodOrder(o)
          && (state.BAccepted? || state.BRejected?)
    ensures var b := Create(s.book, o, state, now);
            && Safe(s, [Move(b)], o.terms.id) && Exec(s, [Move(b)]) == s.(book := b) && Mid(s.(book := b))
            && StatusOf(b, o.terms.id) == Some(NewRecord(s.book, o, state, now).status)
            && o.terms.id in b.byClient && b.byClient[o.terms.id] == BrokerId.Venue(s.book.nextId)
  {
    CreateKeepsMid(s, o, state, now);
    hide Mid, NewRecord, StatusOf, Safe, Exec, OthersKept;
    MoveSafe(s, Create(s.book, o, state, now), o.terms.id);
  }

  lemma AcceptShape(s: Sys, o: Order, now: Time)
    requires Mid(s) && o.terms.id in s.mem.cells && o.terms.id !in s.book.byClient
    requires s.mem.cells[o.terms.id].order.brokerOrderId.None?
    ensures AcceptScript(s, o, now)
         == [Move(Create(s.book, o, BAccepted, now))]
            + [Log(Logged(now, o.terms.id, OrderAccepted(BrokerId.Venue(s.book.nextId))))]
  {
    UnlinkedValues(s, o.terms.id);
    AcceptReacts(s.mem, o.terms.id, BrokerId.Venue(s.book.nextId), now);
    hide Mid, Create, React;
  }

  lemma AcceptReacts(m: Memory, oid: OrderId, id: BrokerId, ts: Time)
    requires oid in m.cells && oid !in m.brokerIds.Values && m.cells[oid].order.brokerOrderId.None?
    ensures React(m, Notice(id, oid, BAccepted, None, None, ts)) == [Log(Logged(ts, oid, OrderAccepted(id)))]
  {
    hide HandleFill, Finish;
  }

  lemma AcceptMaps(s: Sys, e: Logged)
    requires e.event.OrderAccepted?
    ensures e.event.brokerId in Exec(s, [Log(e)]).mem.brokerIds
  {
    hide LiveCell;
    ExecOne(s, Log(e));
  }

  lemma AcceptedInSync(c: Cell, u: Status)
    requires Behind(c, Some(u)) && c.order.state == Accepted && u.state == BAccepted && c.fills == []
    ensures InSync(c, Some(u))
  {
    assert SumQty([]) == 0.0;
    hide Walk, SumNotional;
  }

  lemma UnlinkedValues(s: Sys, oid: OrderId)
    requires Mid(s) && oid !in s.book.byClient && CellOf(s.mem, oid).order.brokerOrderId.None?
    ensures oid !in s.mem.brokerIds.Values && BrokerId.Venue(s.book.nextId) !in s.mem.brokerIds
  {
    hide Rebuilt, Conserved, AllBehind;
  }

  lemma {:induction false} BrokerIdsGrow(s: Sys, script: seq<Micro>)
    ensures s.mem.brokerIds.Keys <= Exec(s, script).mem.brokerIds.Keys
  {
    if script != [] {
      BrokerIdsGrow(s, script[..|script| - 1]);
    }
  }

  /** A submission the book refuses outright. */
  lemma RefusedSafe(s: Sys, o: Order, now: Time)
    requires Mid(s) && o.terms.id in s.mem.cells && o.terms.id !in s.book.byClient
    requires s.mem.cells[o.terms.id].order == o.(state := Submitted) && GoodOrder(o)
    ensures var n := Notice(BrokerId.Venue(s.book.nextId), o.terms.id, BRejected, None, Some(REJECT_REASON), now);
            var script := [Move(Create(s.book, o, BRejected, now))] + React(s.mem, n);
            var t := Exec(s, script);
            && Safe(s, script, o.terms.id) && Mid(t) && o.terms.id in t.mem.cells
            && InSync(t.mem.cells[o.terms.id], StatusOf(t.book, o.terms.id))
            && StateOf(t.mem, o.terms.id) == OrderState.Rejected
  {
    hide Mid, Safe, Exec, StatusOf, LiveCell, LegalCell, OthersKept, Behind, InSync, NewRecord, Create;
    var oid := o.terms.id;
    var b := Create(s.book, o, BRejected, now);
    CreateMoves(s, o, BRejected, now);
    var t := s.(book := b);
    BehindAt(t, oid);
    NewStatus(s.book, o, BRejected, now);
    var e := Logged(now, oid, OrderRejected(REJECT_REASON));
    RejectCell(t.mem.cells[oid], NewRecord(s.book, o, BRejected, now).status, REJECT_REASON, now);
    InSyncIsBehind(LiveCell(t.mem.cells[oid], e.event, now), StatusOf(b, oid));
    LogSafe(t, e);
    SafeConcat(s, [Move(b)], [Log(e)], oid);
  }

  lemma InSyncIsBehind(c: Cell, s: Option<Status>)
    requires InSync(c, s)
    ensures Behind(c, s)
  {
    hide Behind;
  }

  /** An order the broker lost or refused without a record stays droppable. */
  lemma NoRecordSafe(s: Sys, b: Book, oid: OrderId)
    requires Mid(s) && oid in s.mem.cells && oid !in s.book.byClient
    requires b == s.book.(submitFailure := b.submitFailure, cancelFailure := b.cancelFailure)
    ensures Safe(s, [Move(b)], oid) && Exec(s, [Move(b)]) == s.(book := b) && Mid(s.(book := b))
    ensures StatusOf(b, oid) == None && Behind(s.mem.cells[oid], None)
  {
    BehindAt(s, oid);
    hide Behind, Safe, Exec;
    KnobKeepsMid(s, b);
    hide Mid, OthersKept;
    MoveSafe(s, b, oid);
  }

  ghost predicate SubmitEnd(t: Sys, oid: OrderId, outcome: Outcome) {
    && Mid(t) && oid in t.mem.cells
    && match outcome
       case Refused(r) => InSync(t.mem.cells[oid], StatusOf(t.book, oid))
                          && (StateOf(t.mem, oid).Submitted? || StateOf(t.mem, oid).Rejected?)
                          && (StateOf(t.mem, oid) == Submitted ==> StatusOf(t.book, oid) == None)
       case Lost => InSync(t.mem.cells[oid], StatusOf(t.book, oid))
       case Placed(id) => InSync(t.mem.cells[oid], StatusOf(t.book, oid)) && id in t.mem.brokerIds
       case _ => false
  }

  lemma AcceptAndFillSafe(s: Sys, o: Order, now: Time)
    requires Mid(s) && o.terms.id in s.mem.cells && o.terms.id !in s.book.byClient
    requires s.mem.cells[o.terms.id].order == o.(state := Submitted) && GoodOrder(o)
          && s.mem.cells[o.terms.id].fills == []
    requires s.book.submitFailure.None? && s.book.mode != RejectAll
    ensures var (script, outcome) := BrokerSubmit(s, o, now);
            Safe(s, script, o.terms.id) && SubmitEnd(Exec(s, script), o.terms.id, outcome)
  {
    hide Mid, Safe, Exec, StatusOf, Behind, InSync, NewRecord, Create, AcceptScript, FillScript, StateOf, PriceFor;
    var oid := o.terms.id;
    var accept := AcceptScript(s, o, now);
    AcceptSafe(s, o, now);
    AcceptScriptCreates(s, o, now);
    var t := Exec(s, accept);
    NewStatus(s.book, o, BAccepted, now);
    NewStatusQty(s.book, o, now);
    CreatedMode(s.book, o, now);
    BehindAt(t, oid);
    var auto := AutoFillScript(t, BrokerId.Venue(s.book.nextId), o, now);
    if s.book.mode == Instant {
      FillSafe(t, oid, o.qty, PriceFor(t.book, o.terms.symbol, o.terms.limitPrice), now);
    } else if s.book.mode == PartialThenHold {
      FillSafe(t, oid, o.qty / 2.0, PriceFor(t.book, o.terms.symbol, o.terms.limitPrice), now);
    } else {
      SafeNone(t, oid);
      ExecNone(t);
    }
    SafeConcat(s, accept, auto, oid);
    BrokerIdsGrow(t, auto);
  }

  lemma NewStatusQty(b: Book, o: Order, now: Time)
    ensures var u := NewRecord(b, o, BAccepted, now).status; u.qty == o.qty && u.filledQty == 0.0
  {
  }

  lemma CreatedMode(b: Book, o: Order, now: Time)
    ensures var c := Create(b, o, BAccepted, now);
            c.mode == b.mode && o.terms.id in c.byClient && c.byClient[o.terms.id] == BrokerId.Venue(b.nextId)
  {
  }

  lemma BrokerSubmitSafe(s: Sys, o: Order, now: Time)
    requires Mid(s) && o.terms.id in s.mem.cells && o.terms.id !in s.book.byClient
    requires s.mem.cells[o.terms.id].order == o.(state := Submitted) && GoodOrder(o)
          && s.mem.cells[o.terms.id].fills == []
    ensures var (script, outcome) := BrokerSubmit(s, o, now);
            Safe(s, script, o.terms.id) && SubmitEnd(Exec(s, script), o.terms.id, outcome)
  {
    hide Mid, Safe, Exec, Behind, NewRecord, Create, AcceptScript, FillScript, AutoFillScript, GoodOrder, React;
    if s.book.submitFailure.Some? {
      NoRecordSafe(s, s.book.(submitFailure := None), o.terms.id);
    } else if s.book.mode == RejectAll {
      RefusedSafe(s, o, now);
    } else {
      AcceptAndFillSafe(s, o, now);
    }
  }

  lemma SubmitTailSafe(s: Sys, oid: OrderId, outcome: Outcome, now: Time)
    requires SubmitEnd(s, oid, outcome)
    ensures var tail := AfterSend(s.mem, oid, outcome, now);
            && Safe(s, tail, oid) && Mid(Exec(s, tail)) && oid in Exec(s, tail).mem.cells
            && InSync(Exec(s, tail).mem.cells[oid], StatusOf(Exec(s, tail).book, oid))
  {
    hide Mid, Safe, Exec, StatusOf, Behind, InSync, LiveCell, LegalCell;
    if outcome.Refused? && StateOf(s.mem, oid) == Submitted {
      BehindAt(s, oid);
      var e := Logged(now, oid, OrderRejected(outcome.reason));
      DropCell(s.mem.cells[oid], e.event, now);
      InSyncIsBehind(LiveCell(s.mem.cells[oid], e.event, now), None);
      LogSafe(s, e);
    } else {
      SafeNone(s, oid);
      ExecNone(s);
    }
  }

  lemma SubmitSafe(s: Sys, o: Order, now: Time)
    requires Settled(s) && (o.state == OrderState.Pending ==> GoodOrder(o) && NewToBroker(s, o.terms.id))
    ensures Safe(s, SubmitCall(s, o, now).0, o.terms.id) && Settled(Exec(s, SubmitCall(s, o, now).0))
  {
    hide Mid, Safe, Exec, StatusOf, Behind, InSync, GoodOrder, BrokerSubmit, AfterSend;
    var oid := o.terms.id;
    if o.state != OrderState.Pending {
      SafeNone(s, oid);
      ExecNone(s);
    } else {
      var intent := [Log(Logged(now, oid, SubmitIntent(o)))];
      IntentSafe(s, o, now);
      var s1 := Exec(s, intent);
      BrokerSubmitSafe(s1, o, now);
      var (send, outcome) := BrokerSubmit(s1, o, now);
      var s2 := Exec(s1, send);
      SafeConcat(s, intent, send, oid);
      SubmitTailSafe(s2, oid, outcome, now);
      var tail := AfterSend(s2.mem, oid, outcome, now);
      SafeConcat(s, intent + send, tail, oid);
      hide SubmitEnd;
      SettledAfter(s, intent + send + tail, oid);
    }
  }

  lemma SyncedStates(c: Cell, s: Option<Status>)
    requires InSync(c, s) && !Terminal(c.order.state)
    ensures c.order.brokerOrderId.None? ==> s.None? && c.order.state == Submitted
    ensures c.order.brokerOrderId.Some? ==>
              s.Some? && AtVenue(c.order.state) && Working(s.value.state)
              && c.order.brokerOrderId.value == s.value.brokerId && c.order.filledQty == s.value.filledQty
  {
    SumQtyPositive(c.fills);
    hide Walk, SumQty, SumNotional, OwnFills;
  }

  lemma SetStateKeeps(b: Book, id: BrokerId, state: BrokerState, reason: Option<string>, now: Time)
    requires id in b.records
    ensures var u, v := b.records[id].status, SetState(b, id, state, reason, now).records[id].status;
            v.state == state && v.filledQty == u.filledQty
  {
  }

  /** The broker ends an order; its notice ends it locally. */
  lemma EndNoticeSafe(s: Sys, oid: OrderId, state: BrokerState, reason: Option<string>, notice: Event, now: Time)
    requires Mid(s) && oid in s.mem.cells && InSync(s.mem.cells[oid], StatusOf(s.book, oid))
          && StatusOf(s.book, oid).Some?
    requires var u := StatusOf(s.book, oid).value;
             || (state == BCanceled && Working(u.state) && notice.OrderCancelled?)
             || (state == BRejected && u.state == BAccepted && notice.OrderRejected?)
    requires !Terminal(StateOf(s.mem, oid))
    ensures oid in s.book.byClient && s.book.byClient[oid] in s.book.records
    ensures var script := [Move(SetState(s.book, s.book.byClient[oid], state, reason, now))]
          + Finish(s.mem, oid, notice, now);
            var t := Exec(s, script);
            && Safe(s, script, oid) && Mid(t) && oid in t.mem.cells && InSync(t.mem.cells[oid], StatusOf(t.book, oid))
  {
    BehindAt(s, oid);
    hide Mid, Safe, Exec, StatusOf, Behind, InSync, LiveCell, LegalCell, OthersKept, SetState;
    var id := s.book.byClient[oid];
    var b := SetState(s.book, id, state, reason, now);
    SyncedStates(s.mem.cells[oid], StatusOf(s.book, oid));
    SetStateKeepsMid(s, oid, state, reason, now);
    SetStateKeeps(s.book, id, state, reason, now);
    MoveSafe(s, b, oid);
    var t := Exec(s, [Move(b)]);
    BehindAt(t, oid);
    var v := StatusOf(b, oid).value;
    if state == BCanceled {
      CancelCell(t.mem.cells[oid], v, notice.note, now);
    } else {
      RejectCell(t.mem.cells[oid], v, notice.reason, now);
    }
    var e := Logged(now, oid, notice);
    InSyncIsBehind(LiveCell(t.mem.cells[oid], notice, now), Some(v));
    LogSafe(t, e);
    SafeConcat(s, [Move(b)], [Log(e)], oid);
  }

  /** The broker's side of a cancel request. */
  lemma BrokerCancelSafe(s: Sys, oid: OrderId, now: Time)
    requires Settled(s) && oid in s.mem.cells && !Terminal(StateOf(s.mem, oid))
    requires s.mem.cells[oid].order.brokerOrderId.Some?
    ensures var script := BrokerCancel(s, s.mem.cells[oid].order.brokerOrderId.value, now).0;
            Safe(s, script, oid) && Settled(Exec(s, script))
  {
    hide Mid, Safe, Exec, StatusOf, Behind, InSync, OthersKept, SetState;
    SettledAt(s, oid);
    BehindAt(s, oid);
    SyncedStates(s.mem.cells[oid], StatusOf(s.book, oid));
    if s.book.cancelFailure.Some? {
      var b := s.book.(cancelFailure := None);
      KnobKeepsMid(s, b);
      MoveSafe(s, b, oid);
      SettledAfter(s, [Move(b)], oid);
    } else {
      EndNoticeSafe(s, oid, BCanceled, None, OrderCancelled(None), now);
      SettledAfter(s, BrokerCancel(s, s.book.byClient[oid], now).0, oid);
    }
  }

  lemma CancelSafe(s: Sys, oid: OrderId, now: Time)
    requires Settled(s)
    ensures Safe(s, CancelCall(s, oid, now).0, oid) && Settled(Exec(s, CancelCall(s, oid, now).0))
  {
    hide Mid, Safe, Exec, StatusOf, Behind, InSync, OthersKept, BrokerCancel, LiveCell, LegalCell;
    if oid !in s.mem.cells || Terminal(StateOf(s.mem, oid)) {
      SafeNone(s, oid);
      ExecNone(s);
    } else {
      SettledAt(s, oid);
      BehindAt(s, oid);
      SyncedStates(s.mem.cells[oid], StatusOf(s.book, oid));
      var o := s.mem.cells[oid].order;
      if o.brokerOrderId.None? {
        var e := Logged(now, oid, OrderCancelled(Some("cancel before broker accept")));
        DropCell(s.mem.cells[oid], e.event, now);
        InSyncIsBehind(LiveCell(s.mem.cells[oid], e.event, now), None);
        LogSafe(s, e);
        SettledAfter(s, [Log(e)], oid);
      } else {
        var e := Logged(now, oid, CancelRequested(o.brokerOrderId.value));
        AuditSafe(s, oid, e.event, now);
        var t := Exec(s, [Log(e)]);
        SettledAfter(s, [Log(e)], oid);
        BrokerCancelSafe(t, oid, now);
        var send := BrokerCancel(t, o.brokerOrderId.value, now).0;
        SafeConcat(s, [Log(e)], send, oid);
      }
    }
  }

  /** The knobs act on orders that are still working; a rejection only before any fill. */
  predicate FillKnobAllowed(s: Sys, oid: OrderId, qty: Option<real>) {
    StatusOf(s.book, oid).Some? ==>
      Working(StatusOf(s.book, oid).value.state) && (qty.Some? ==> qty.value > 0.0)
  }

  predicate RejectKnobAllowed(s: Sys, oid: OrderId) {
    StatusOf(s.book, oid).Some? ==> StatusOf(s.book, oid).value.state == BAccepted
  }

  lemma ForceFillSafe(s: Sys, oid: OrderId, qty: Option<real>, price: Option<real>, now: Time)
    requires Settled(s) && FillKnobAllowed(s, oid, qty)
    ensures Safe(s, ForceFill(s, oid, qty, price, now), oid) && Settled(Exec(s, ForceFill(s, oid, qty, price, now)))
  {
    hide Mid, Safe, Exec, Behind, InSync, OthersKept, FillScript, PriceFor;
    var script := ForceFill(s, oid, qty, price, now);
    if script == [] {
      SafeNone(s, oid);
      ExecNone(s);
    } else {
      KnownToMemory(s, oid);
      SettledAt(s, oid);
      BehindAt(s, oid);
      var u := StatusOf(s.book, oid).value;
      hide StatusOf;
      var q := qty.GetOr(u.qty - u.filledQty);
      FillSafe(s, oid, q, price.GetOr(PriceFor(s.book, u.symbol, None)), now);
      SettledAfter(s, script, oid);
    }
  }

  lemma KnownToMemory(s: Sys, oid: OrderId)
    requires Mid(s) && oid in s.book.byClient
    ensures oid in s.mem.cells
  {
    hide Rebuilt, AllBehind, Conserved, Indexed;
  }

  lemma ForceRejectSafe(s: Sys, oid: OrderId, reason: string, now: Time)
    requires Settled(s) && RejectKnobAllowed(s, oid)
    ensures Safe(s, ForceReject(s, oid, reason, now), oid) && Settled(Exec(s, ForceReject(s, oid, reason, now)))
  {
    hide Mid, Safe, Exec, Behind, InSync, OthersKept, SetState;
    if oid !in s.book.byClient || s.book.byClient[oid] !in s.book.records {
      SafeNone(s, oid);
      ExecNone(s);
    } else {
      KnownToMemory(s, oid);
      SettledAt(s, oid);
      BehindAt(s, oid);
      hide StatusOf;
      AcceptedIsOpen(s.mem.cells[oid], StatusOf(s.book, oid).value);
      EndNoticeSafe(s, oid, BRejected, Some(reason), OrderRejected(reason), now);
      SettledAfter(s, ForceReject(s, oid, reason, now), oid);
    }
  }

  lemma AcceptedIsOpen(c: Cell, u: Status)
    requires InSync(c, Some(u)) && u.state == BAccepted
    ensures c.order.state == Accepted
  {
    hide Behind;
  }
}
