/**
 * Whole runs of the order manager over the in-memory broker, with lost notices, reconciler passes and crashes anywhere.
 */
module Runs {
  import opened Common
  import opened Orders
  import opened OmsState
  import opened Broker
  import opened Trading
  import opened Recovery
  import opened CrashSafety
  import opened Restarts
  import opened Positions
  import opened Ghosts
  import opened Passes

  // ── What can happen ──────────────────────────────────────────────────────────

  /** What the broker does to one of its orders while no order manager is listening. */
  datatype Drift = DriftFill(oid: OrderId, qty: real, price: real) | DriftCancel(oid: OrderId)
      | DriftReject(oid: OrderId, reason: string)

  function Drifted(b: Book, d: Drift, now: Time): Book {
    match StatusOf(b, d.oid)
    case None => b
    case Some(u) =>
      match d
      case DriftFill(oid, qty, price) =>
        if Working(u.state) && 0.0 < qty <= u.qty - u.filledQty then RecordFill(b, b.byClient[oid], qty, price, now)
        else b
      case DriftCancel(oid) =>
        if Working(u.state) then SetState(b, b.byClient[oid], BCanceled, None, now) else b
      case DriftReject(oid, reason) =>
        if u.state == BAccepted then SetState(b, b.byClient[oid], BRejected, Some(reason), now) else b
  }

  function DriftAll(b: Book, ds: seq<Drift>, now: Time): Book {
    if ds == [] then b else Drifted(DriftAll(b, ds[..|ds| - 1], now), ds[|ds| - 1], now)
  }

  /**
   * A call, on the order manager, on the broker's knobs, or a pass of the reconciler after
   * the broker moved and its notices were lost.
   */
  datatype Call =
    | DoSubmit(order: Order)
    | DoCancel(oid: OrderId)
    | DoBookGhost(g: Ghost)        // adopt_orphan_position buys, book_fee_offset sells
    | DoReconcile(missed: seq<Drift>, at: Time, orphans: seq<string>, names: map<string, OrderId>, agent: AgentId,
                  tolerance: real)
    | DoForceFill(oid: OrderId, qty: Option<real>, price: Option<real>)
    | DoForceReject(oid: OrderId, reason: string)
    | DoConfigure(prices: map<string, real>, mode: FillMode, submitFailure: Option<Failure>,
                  cancelFailure: Option<Failure>)

  function Configured(b: Book, c: Call): Book
    requires c.DoConfigure?
  {
    b.(prices := c.prices, mode := c.mode, submitFailure := c.submitFailure, cancelFailure := c.cancelFailure)
  }

  /** The broker has moved and nobody has heard of it. */
  function Moved(s: Sys, missed: seq<Drift>, at: Time): Sys {
    s.(book := DriftAll(s.book, missed, at))
  }

  predicate NamesOrphans(b: Book, orphans: seq<string>, names: map<string, OrderId>) {
    forall symbol :: symbol in orphans ==> symbol in b.holdings && symbol in names
  }

  function Script(s: Sys, c: Call, now: Time): seq<Micro> {
    match c
    case DoSubmit(o) => SubmitCall(s, o, now).0
    case DoCancel(oid) => CancelCall(s, oid, now).0
    case DoBookGhost(g) => GhostScript(g, now)
    case DoReconcile(missed, at, orphans, names, agent, _) =>
      if NamesOrphans(DriftAll(s.book, missed, at), orphans, names) then
        [Move(DriftAll(s.book, missed, at))] + PassScript(Moved(s, missed, at), orphans, names, agent, now)
      else []
    case DoForceFill(oid, qty, price) => ForceFill(s, oid, qty, price, now)
    case DoForceReject(oid, reason) => ForceReject(s, oid, reason, now)
    case DoConfigure(_, _, _, _) => [Move(Configured(s.book, c))]
  }

  /**
   * What the caller must respect: a submitted order is freshly planned and its id is new
   * to the broker and no ghost order's; a ghost order has a new id and a positive quantity;
   * the knobs act on working orders, and reject only before any fill. Of what the broker
   * did unheard, a cancellation must not follow an unheard fill of the same order.
   */
  ghost predicate Allowed(s: Sys, c: Call) {
    match c
    case DoSubmit(o) => o.state == OrderState.Pending ==> GoodOrder(o) && NewToBroker(s, o.terms.id)
    case DoCancel(_) => true
    case DoBookGhost(g) => g.oid !in s.mem.cells && g.qty > 0.0
    case DoReconcile(missed, at, orphans, names, _, tolerance) =>
      NoneCancelledShort(Moved(s, missed, at)) && PassAdopts(Moved(s, missed, at), orphans, names, tolerance)
    case DoForceFill(oid, qty, _) => FillKnobAllowed(s, oid, qty)
    case DoForceReject(oid, _) => RejectKnobAllowed(s, oid)
    case DoConfigure(_, _, _, _) => true
  }

  /** The process dies after `cut` micro steps, the broker drifts, and a new process replays the log. */
  datatype Outage = Outage(cut: nat, drift: seq<Drift>, now: Time)

  function Die(s: Sys, script: seq<Micro>, o: Outage): Sys {
    var t := Exec(s, if o.cut < |script| then script[..o.cut] else script);
    Restart(t.(book := DriftAll(t.book, o.drift, o.now)))
  }

  /** Recovery may itself be cut short any number of times. */
  function DieAgain(s: Sys, outages: seq<Outage>): Sys {
    if outages == [] then s
    else
      var t := DieAgain(s, outages[..|outages| - 1]);
      var last := outages[|outages| - 1];
      Die(t, Recover(t, last.now), last)
  }

  function Recovered(s: Sys, now: Time): Sys {
    Exec(s, Recover(s, now))
  }

  datatype Act =
    | Ran(call: Call, now: Time)
    | Crashed(call: Call, now: Time, first: Outage, more: seq<Outage>, again: Time)

  function After(s: Sys, a: Act): Sys {
    match a
    case Ran(call, now) => Exec(s, Script(s, call, now))
    case Crashed(call, now, first, more, again) => Recovered(DieAgain(Die(s, Script(s, call, now), first), more), again)
  }

  function AfterAll(s: Sys, acts: seq<Act>): Sys {
    if acts == [] then s else After(AfterAll(s, acts[..|acts| - 1]), acts[|acts| - 1])
  }

  ghost predicate AllowedRun(s: Sys, acts: seq<Act>) {
    acts == [] || (AllowedRun(s, acts[..|acts| - 1]) && Allowed(AfterAll(s, acts[..|acts| - 1]), acts[|acts| - 1].call))
  }

  /** An empty log beside a broker that has seen no orders. */
  predicate Initial(s: Sys) {
    && s.mem == EMPTY && s.log == []
    && s.book.records == map[] && s.book.byClient == map[] && s.book.holdings == map[]
  }

  // ── The invariant over every run ─────────────────────────────────────────────

  lemma InitialIsSettled(s: Sys)
    requires Initial(s)
    ensures Settled(s)
  {
    assert Erase(EMPTY) == EMPTY;
  }

  lemma ConfigureSafe(s: Sys, c: Call)
    requires Settled(s) && c.DoConfigure?
    ensures AllMid(s, [Move(Configured(s.book, c))]) && Settled(Exec(s, [Move(Configured(s.book, c))]))
  {
    hide Mid, Safe, Exec, StatusOf, InSync, OthersKept;
    KnobKeepsMid(s, Configured(s.book, c));
    MoveSafe(s, Configured(s.book, c), 0);
    SafeIsAllMid(s, [Move(Configured(s.book, c))], 0);
  }

  lemma DriftedMid(s: Sys, d: Drift, now: Time)
    requires Mid(s)
    ensures Mid(s.(book := Drifted(s.book, d, now)))
  {
    if StatusOf(s.book, d.oid).Some? {
      KnownToMemory(s, d.oid);
      BehindAt(s, d.oid);
      hide Mid, Step, SetState, RecordFill, OthersKept, FilledStatus, Behind, StatusOf;
      DriftedOpen(s, d, now);
    }
    hide Mid;
  }

  lemma DriftedOpen(s: Sys, d: Drift, now: Time)
    requires Mid(s) && d.oid in s.book.byClient && s.book.byClient[d.oid] in s.book.records
    requires StatusOf(s.book, d.oid) == Some(s.book.records[s.book.byClient[d.oid]].status)
    ensures Mid(s.(book := Drifted(s.book, d, now)))
  {
    hide Mid, SetState, RecordFill, OthersKept, FilledStatus, Behind, StatusOf;
    var u := s.book.records[s.book.byClient[d.oid]].status;
    match d {
      case DriftFill(oid, qty, price) =>
        if Working(u.state) && 0.0 < qty <= u.qty - u.filledQty {
          FillKeepsMid(s, oid, qty, price, now);
        }
      case DriftCancel(oid) =>
        if Working(u.state) {
          SetStateKeepsMid(s, oid, BCanceled, None, now);
        }
      case DriftReject(oid, reason) =>
        if u.state == BAccepted {
          SetStateKeepsMid(s, oid, BRejected, Some(reason), now);
        }
    }
  }

  lemma {:induction false} DriftAllMid(s: Sys, ds: seq<Drift>, now: Time)
    requires Mid(s)
    ensures Mid(s.(book := DriftAll(s.book, ds, now)))
  {
    hide Mid, Drifted;
    if ds != [] {
      DriftAllMid(s, ds[..|ds| - 1], now);
      DriftedMid(s.(book := DriftAll(s.book, ds[..|ds| - 1], now)), ds[|ds| - 1], now);
    }
  }

  lemma DriftKeepsOrders(b: Book, d: Drift, now: Time, oid: OrderId)
    ensures StatusOf(Drifted(b, d, now), oid).Some? <==> StatusOf(b, oid).Some?
  {
    hide FilledStatus, Rebook, MakeFill;
  }

  lemma {:induction false} DriftAllKeepsOrders(b: Book, ds: seq<Drift>, now: Time, oid: OrderId)
    ensures StatusOf(DriftAll(b, ds, now), oid).Some? <==> StatusOf(b, oid).Some?
  {
    hide Drifted, StatusOf;
    if ds != [] {
      DriftAllKeepsOrders(b, ds[..|ds| - 1], now, oid);
      DriftKeepsOrders(DriftAll(b, ds[..|ds| - 1], now), ds[|ds| - 1], now, oid);
    }
  }

  lemma MovedListens(s: Sys, missed: seq<Drift>, at: Time)
    requires Settled(s)
    ensures Mid(Moved(s, missed, at)) && Listening(Moved(s, missed, at))
  {
    SettledListens(s);
    SettledIsMid(s);
    DriftAllMid(s, missed, at);
    hide Mid, Settled, StatusOf, DriftAll;
    forall oid ensures StatusOf(DriftAll(s.book, missed, at), oid).Some? <==> StatusOf(s.book, oid).Some? {
      DriftAllKeepsOrders(s.book, missed, at, oid);
    }
  }

  lemma MoveAllMid(s: Sys, b: Book)
    requires Mid(s) && Mid(s.(book := b))
    ensures AllMid(s, [Move(b)]) && Exec(s, [Move(b)]) == s.(book := b)
  {
    ExecOne(s, Move(b));
    ExecNone(s);
    hide Mid, Exec;
    forall j | 0 <= j <= 1 ensures Mid(Exec(s, [Move(b)][..j])) {
      assert [Move(b)][..j] == if j == 0 then [] else [Move(b)];
    }
  }

  /** A pass after missed notices, the notices and all. */
  lemma ReconcileSafe(s: Sys, c: Call, now: Time)
    requires Settled(s) && c.DoReconcile? && Allowed(s, c)
    ensures AllMid(s, Script(s, c, now)) && Settled(Exec(s, Script(s, c, now)))
  {
    hide Mid, Settled, Exec, AllMid, Listening, NoneCancelledShort, PassScript, DriftAll;
    SettledIsMid(s);
    MovedListens(s, c.missed, c.at);
    var t := Moved(s, c.missed, c.at);
    MoveAllMid(s, t.book);
    WholePassSafe(t, c.orphans, c.names, c.tolerance, c.agent, now);
    AllMidConcat(s, [Move(t.book)], PassScript(t, c.orphans, c.names, c.agent, now));
    ExecConcat(s, [Move(t.book)], PassScript(t, c.orphans, c.names, c.agent, now));
  }

  /** Every allowed call keeps the system settled, and any cut of it keeps the invariant. */
  lemma CallSafe(s: Sys, c: Call, now: Time)
    requires Settled(s) && Allowed(s, c)
    ensures AllMid(s, Script(s, c, now)) && Settled(Exec(s, Script(s, c, now)))
  {
    hide Settled, Safe, Exec, StatusOf, InSync, OthersKept, AllMid, SubmitCall, CancelCall, ForceFill, ForceReject,
         GoodOrder;
    hide FillKnobAllowed, RejectKnobAllowed, Mid, GhostScript, NewToBroker, PassScript, PassAdopts, NoneCancelledShort,
         DriftAll;
    match c {
      case DoSubmit(o) =>
        SubmitSafe(s, o, now);
        SafeIsAllMid(s, Script(s, c, now), o.terms.id);
      case DoCancel(oid) =>
        CancelSafe(s, oid, now);
        SafeIsAllMid(s, Script(s, c, now), oid);
      case DoBookGhost(g) =>
        GhostSafe(s, g, now);
        SafeIsAllMid(s, Script(s, c, now), g.oid);
      case DoReconcile(_, _, _, _, _, _) => ReconcileSafe(s, c, now);
      case DoForceFill(oid, qty, price) =>
        ForceFillSafe(s, oid, qty, price, now);
        SafeIsAllMid(s, Script(s, c, now), oid);
      case DoForceReject(oid, reason) =>
        ForceRejectSafe(s, oid, reason, now);
        SafeIsAllMid(s, Script(s, c, now), oid);
      case DoConfigure(_, _, _, _) => ConfigureSafe(s, c);
    }
  }

  lemma DieMid(s: Sys, script: seq<Micro>, o: Outage)
    requires AllMid(s, script)
    ensures Mid(Die(s, script, o))
  {
    hide Mid, Exec, Restart, DriftAll;
    var cut := if o.cut < |script| then script[..o.cut] else script;
    assert script[..|script|] == script;
    assert Mid(Exec(s, cut));
    var t := Exec(s, cut);
    DriftAllMid(t, o.drift, o.now);
    RestartKeepsMid(t.(book := DriftAll(t.book, o.drift, o.now)));
  }

  lemma RecoverSafe(s: Sys, now: Time)
    requires Mid(s)
    ensures AllMid(s, Recover(s, now)) && Caught(Recovered(s, now), s.mem.ids)
    ensures Recovered(s, now).book == s.book && Recovered(s, now).mem.cells.Keys == s.mem.cells.Keys
  {
    assert Linked(s);
    hide Mid, Exec, ReconcileAll, AllMid, Caught;
    ReconcileAllSafe(s, s.mem.ids, now);
  }

  lemma {:induction false} DieAgainMid(s: Sys, outages: seq<Outage>)
    requires Mid(s)
    ensures Mid(DieAgain(s, outages))
  {
    hide Mid, Exec, AllMid, Die;
    if outages != [] {
      var t, last := DieAgain(s, outages[..|outages| - 1]), outages[|outages| - 1];
      DieAgainMid(s, outages[..|outages| - 1]);
      RecoverSafe(t, last.now);
      DieMid(t, Recover(t, last.now), last);
    }
  }

  lemma RecoveredIsSettled(s: Sys, now: Time)
    requires Mid(s)
    ensures Settled(Recovered(s, now)) && Caught(Recovered(s, now), Recovered(s, now).mem.ids)
  {
    RecoverSafe(s, now);
    var t := Recovered(s, now);
    assert Linked(s) && Linked(t);
    hide Mid, InSync, StatusOf, Exec, Recovered;
    assert forall oid :: oid in t.mem.cells ==> oid in s.mem.ids;
  }

  lemma ActSettles(s: Sys, a: Act)
    requires Settled(s) && Allowed(s, a.call)
    ensures Settled(After(s, a))
    ensures a.Crashed? ==> Caught(After(s, a), After(s, a).mem.ids)
  {
    hide Settled, Mid, AllMid, Allowed, Script, Exec, Die, DieAgain, Recovered, Caught;
    CallSafe(s, a.call, a.now);
    if a.Crashed? {
      var script := Script(s, a.call, a.now);
      DieMid(s, script, a.first);
      DieAgainMid(Die(s, script, a.first), a.more);
      RecoveredIsSettled(DieAgain(Die(s, script, a.first), a.more), a.again);
    }
  }

  /** Every run of allowed calls, crashes included, stays settled. */
  lemma {:induction false} EveryRunSettles(s: Sys, acts: seq<Act>)
    requires Initial(s) && AllowedRun(s, acts)
    ensures Settled(AfterAll(s, acts))
  {
    hide Settled, After, Allowed;
    if acts == [] {
      InitialIsSettled(s);
    } else {
      EveryRunSettles(s, acts[..|acts| - 1]);
      ActSettles(AfterAll(s, acts[..|acts| - 1]), acts[|acts| - 1]);
    }
  }

  // ── The main theorem ─────────────────────────────────────────────────────────

  /** A ghost order booked in full. */
  predicate BookedGhost(c: Cell) {
    GhostNumbered(c.order) && c.order.state == Filled && SumQty(c.fills) == c.order.filledQty == c.order.qty
  }

  /** What a restarted order manager owes the broker about one order. */
  predicate Reconciled(c: Cell, b: Option<Status>) {
    match b
    case None => Terminal(c.order.state) && (c.fills == [] || BookedGhost(c))
    case Some(u) =>
      && (Done(u.state) ==> Terminal(c.order.state))
      && (u.state == BFilled ==> c.order.state == Filled)
      && (u.state == BRejected ==> c.order.state == OrderState.Rejected)
      && (u.state == BCanceled ==> (c.order.state.Cancelled? || c.order.state.Filled?))
      && c.order.filledQty == SumQty(c.fills)
      && (c.order.filledQty == u.filledQty
          || (c.order.state == Filled && 0.0 < u.filledQty - c.order.filledQty < FILL_TOLERANCE))
  }

  lemma CaughtUpIsReconciled(c: Cell, b: Option<Status>)
    requires CaughtUp(c, b)
    ensures Reconciled(c, b)
  {
    hide Walk, SumNotional, OwnFills;
  }

  lemma AllReconciled(t: Sys)
    requires Caught(t, t.mem.ids) && Linked(t)
    ensures forall oid :: oid in t.mem.cells ==> Reconciled(t.mem.cells[oid], StatusOf(t.book, oid))
  {
    hide Mid, CaughtUp, StatusOf, Reconciled, Indexed;
    forall oid | oid in t.mem.cells ensures Reconciled(t.mem.cells[oid], StatusOf(t.book, oid)) {
      assert oid in t.mem.ids;
      CaughtUpIsReconciled(t.mem.cells[oid], StatusOf(t.book, oid));
    }
  }

  lemma CaughtUpInFull(t: Sys, symbol: string)
    requires Settled(t) && Caught(t, t.mem.ids)
    ensures forall oid :: oid in t.book.byClient ==> oid in t.mem.cells
    ensures forall oid :: oid in t.mem.cells ==> Reconciled(t.mem.cells[oid], StatusOf(t.book, oid))
    ensures Replay(t.log) == Erase(t.mem)
    ensures Abs(Held(t.book, symbol) + AllInvented(t.mem, t.mem.ids, symbol) - Expected(t.mem, t.mem.ids, symbol))
              <= FILL_TOLERANCE * |t.mem.ids| as real
    ensures NoneShort(t) ==>
              Held(t.book, symbol) + AllInvented(t.mem, t.mem.ids, symbol) == Expected(t.mem, t.mem.ids, symbol)
  {
    assert Linked(t) && Rebuilt(t) by {
      hide Linked, Rebuilt, AllBehind, Conserved, InSync, StatusOf;
    }
    AllReconciled(t);
    FillsExplainHoldings(t, symbol);
    hide Settled, Caught, StatusOf, Held, Expected, Reconciled, NoneShort, Indexed, AllInvented, Replay, Erase, Tidy;
  }

  /**
   * Run any allowed history of calls, missed notices, reconciler passes and crashes,
   * start any allowed call and let the process die after any
   * number of its micro steps. Let the broker go on meanwhile, let recovery itself be cut
   * short any number of times, then let it finish. Every order is reconciled, no order
   * the broker knows is missing, the log still rebuilds memory, and the fills explain the
   * broker's positions and what the ghost orders booked: exactly, if no filled order is
   * short of its record.
   */
  lemma CrashAnywhereRecovers(s0: Sys, acts: seq<Act>, crash: Act, symbol: string)
    requires Initial(s0) && AllowedRun(s0, acts) && crash.Crashed? && Allowed(AfterAll(s0, acts), crash.call)
    ensures var t := After(AfterAll(s0, acts), crash);
            && (forall oid :: oid in t.book.byClient ==> oid in t.mem.cells)
            && (forall oid :: oid in t.mem.cells ==> Reconciled(t.mem.cells[oid], StatusOf(t.book, oid)))
            && Replay(t.log) == Erase(t.mem)
            && Abs(Held(t.book, symbol) + AllInvented(t.mem, t.mem.ids, symbol) - Expected(t.mem, t.mem.ids, symbol))
                 <= FILL_TOLERANCE * |t.mem.ids| as real
            && (NoneShort(t) ==>
                Held(t.book, symbol) + AllInvented(t.mem, t.mem.ids, symbol) == Expected(t.mem, t.mem.ids, symbol))
  {
    hide *;
    EveryRunSettles(s0, acts);
    ActSettles(AfterAll(s0, acts), crash);
    CaughtUpInFull(After(AfterAll(s0, acts), crash), symbol);
  }

  // ── Recovering twice ─────────────────────────────────────────────────────────

  predicate OnlyNoops(script: seq<Micro>) {
    forall i :: 0 <= i < |script| ==> script[i].Log? && script[i].e.event == ReconcileNoop
  }

  lemma CaughtUpMatches(c: Cell, b: Option<Status>)
    requires CaughtUp(c, b) && !Terminal(c.order.state)
    ensures b.Some? && Matches(c.order, b.value)
  {
    SyncedStates(c, b);
    hide Behind;
  }

  lemma NoopChangesNothing(s: Sys, oid: OrderId, now: Time)
    requires oid in s.mem.cells
    ensures var t := Exec(s, [Log(Logged(now, oid, ReconcileNoop))]); t.mem == s.mem && t.book == s.book
  {
    ExecOne(s, Log(Logged(now, oid, ReconcileNoop)));
    hide Exec;
    assert s.mem.cells[oid := s.mem.cells[oid]] == s.mem.cells;
  }

  lemma CaughtUpOneIsNoop(s: Sys, oid: OrderId, now: Time)
    requires Mid(s) && oid in s.mem.cells && CaughtUp(s.mem.cells[oid], StatusOf(s.book, oid))
    ensures var script := ReconcileOne(s, oid, now);
            OnlyNoops(script) && |script| <= 1 && Exec(s, script).mem == s.mem && Exec(s, script).book == s.book
  {
    hide Mid, Behind, StatusOf, CatchUp, Finish, CaughtUp, Matches, Exec;
    BehindAt(s, oid);
    if Terminal(s.mem.cells[oid].order.state) {
      ExecNone(s);
    } else {
      CaughtUpMatches(s.mem.cells[oid], StatusOf(s.book, oid));
      NoopChangesNothing(s, oid, now);
    }
  }

  lemma {:induction false} CaughtUpAllAreNoops(s: Sys, ids: seq<OrderId>, now: Time)
    requires Mid(s)
          && forall oid :: oid in ids ==> oid in s.mem.cells && CaughtUp(s.mem.cells[oid], StatusOf(s.book, oid))
    ensures var script := ReconcileAll(s, ids, now);
            && OnlyNoops(script) && |script| <= |ids| && Mid(Exec(s, script))
            && Exec(s, script).mem == s.mem && Exec(s, script).book == s.book
  {
    hide Mid, Exec, CaughtUp, StatusOf, ReconcileOne;
    if ids == [] {
      ExecNone(s);
    } else {
      var init, last := ids[..|ids| - 1], ids[|ids| - 1];
      CaughtUpAllAreNoops(s, init, now);
      var t := Exec(s, ReconcileAll(s, init, now));
      CaughtUpOneIsNoop(t, last, now);
      ReconcileOneSafe(t, last, now);
      ExecConcat(s, ReconcileAll(s, init, now), ReconcileOne(t, last, now));
    }
  }

  lemma EraseKeepsCaughtUp(c: Cell, b: Option<Status>)
    requires CaughtUp(c, b)
    ensures CaughtUp(EraseCell(c), b)
  {
    EraseKeepsBehind(c, b);
    hide Behind;
  }

  lemma RestartStaysCaught(s: Sys)
    requires Caught(s, s.mem.ids)
    ensures Mid(Restart(s)) && Restart(s).mem == Erase(s.mem) && Restart(s).book == s.book
    ensures Caught(Restart(s), s.mem.ids)
  {
    RestartKeepsMid(s);
    hide Mid, CaughtUp, StatusOf, EraseCell, Restart;
    forall oid | oid in s.mem.ids ensures CaughtUp(EraseCell(s.mem.cells[oid]), StatusOf(s.book, oid)) {
      EraseKeepsCaughtUp(s.mem.cells[oid], StatusOf(s.book, oid));
    }
  }

  /** Recovering a recovered system, the broker unchanged, only leaves audit lines. */
  lemma SecondRecoveryChangesNothing(s: Sys, now: Time)
    requires Caught(s, s.mem.ids)
    ensures var r := Restart(s);
            && OnlyNoops(Recover(r, now)) && |Recover(r, now)| <= |s.mem.ids|
            && Recovered(r, now).mem == r.mem == Erase(s.mem) && Recovered(r, now).book == s.book
  {
    hide Mid, Exec, ReconcileAll, CaughtUp, StatusOf, EraseCell, Restart;
    RestartStaysCaught(s);
    CaughtUpAllAreNoops(Restart(s), s.mem.ids, now);
  }
}
