/**
 * What one pass of the periodic reconciler does (execution/reconciler.py), as functions
 * of memory and of the broker's answers, and where repeated passes come to rest.
 */
module Reconciliation {
  import opened Common
  import opened Orders
  import opened OmsState
  import opened Broker
  import opened Trading
  import opened Recovery
  import opened CrashSafety
  import opened Positions
  import opened Ghosts

  // ── Orders ───────────────────────────────────────────────────────────────────

  /** The broker's answers by broker id; an id is missing when the query failed. */
  type Answers = map<BrokerId, Status>

  predicate RequiresUpdate(local: OrderState, broker: BrokerState) {
    !Terminal(local) && (Done(broker) || broker == BPartial)
  }

  /** The event sent to the order manager carries a fill only for a missing quantity. */
  function NoticeOf(u: Status, fill: Option<Fill>): Notice {
    Notice(u.brokerId, u.clientId, u.state, fill, None, u.updatedAt)
  }

  /** One open order against the broker's answer. */
  function CheckScript(m: Memory, o: Order, answers: Answers): seq<Micro> {
    if o.brokerOrderId.None? || o.brokerOrderId.value !in answers then []
    else
      var u := answers[o.brokerOrderId.value];
      var delta := u.filledQty - o.filledQty;
      if !RequiresUpdate(o.state, u.state) then []
      else if Executed(u.state) && delta > 0.0 then
        React(m, NoticeOf(u, Some(SyntheticFill(CellOf(m, o.terms.id), u, delta, u.updatedAt))))
      else if u.state == BFilled then [Close(o.terms.id, u.updatedAt)]
      else React(m, NoticeOf(u, None))
  }

  function OrderPass(s: Sys, open: seq<Order>, answers: Answers): seq<Micro> {
    if open == [] then []
    else
      var first := OrderPass(s, open[..|open| - 1], answers);
      first + CheckScript(Exec(s, first).mem, open[|open| - 1], answers)
  }

  /** What a pass makes of one order, given the broker's answer about it. */
  function CheckedCell(c: Cell, u: Status): Cell {
    var delta := u.filledQty - c.order.filledQty;
    if !RequiresUpdate(c.order.state, u.state) then c
    else
      match u.state
      case BPartial =>
        if delta > 0.0 then LiveCell(c, FillReceived(SyntheticFill(c, u, delta, u.updatedAt)), u.updatedAt) else c
      case BFilled =>
        if delta > 0.0 then LiveCell(c, FillReceived(SyntheticFill(c, u, delta, u.updatedAt)), u.updatedAt)
        else CloseCell(c, u.updatedAt)
      case BCanceled => LiveCell(c, OrderCancelled(None), u.updatedAt)
      case BRejected => LiveCell(c, OrderRejected("broker rejected"), u.updatedAt)
      case BExpired => LiveCell(c, OrderExpired, u.updatedAt)
      case _ => c
  }

  function Checked(c: Cell, answers: Answers): Cell {
    if c.order.brokerOrderId.None? || c.order.brokerOrderId.value !in answers then c
    else CheckedCell(c, answers[c.order.brokerOrderId.value])
  }

  /** Memory after a pass: every order is checked on its own. */
  function Passed(m: Memory, answers: Answers): Memory {
    m.(cells := map oid | oid in m.cells :: Checked(m.cells[oid], answers))
  }

  /** Asked about an open order, the broker answers about the order that carries the broker id. */
  predicate AnswersFit(m: Memory, answers: Answers) {
    forall oid :: oid in m.cells && !Terminal(m.cells[oid].order.state) && Answered(m.cells[oid], answers) ==>
      answers[m.cells[oid].order.brokerOrderId.value].clientId == oid
  }

  predicate Answered(c: Cell, answers: Answers) {
    c.order.brokerOrderId.Some? && c.order.brokerOrderId.value in answers
  }

  lemma CloseKeeps(c: Cell, ts: Time)
    ensures var d := CloseCell(c, ts);
            d.fills == c.fills && d.order.terms == c.order.terms && d.order.brokerOrderId == c.order.brokerOrderId
            && d.order.filledQty == c.order.filledQty
  {
  }

  lemma CheckedKeeps(c: Cell, answers: Answers)
    ensures Checked(c, answers).order.terms == c.order.terms
    ensures Checked(c, answers).order.brokerOrderId == c.order.brokerOrderId
    ensures Terminal(c.order.state) ==> Checked(c, answers) == c
  {
    hide Fire, Blend, CloseCell;
    if c.order.brokerOrderId.Some? && c.order.brokerOrderId.value in answers {
      CloseKeeps(c, answers[c.order.brokerOrderId.value].updatedAt);
    }
  }

  lemma LogChanges(s: Sys, e: Logged)
    requires e.oid in s.mem.cells && !e.event.OrderAccepted?
    ensures var t := Exec(s, [Log(e)]);
            t.book == s.book
            && t.mem == s.mem.(cells := s.mem.cells[e.oid := LiveCell(s.mem.cells[e.oid], e.event, e.ts)])
  {
    ExecOne(s, Log(e));
    hide Exec, LiveCell;
  }

  lemma CloseChanges(s: Sys, oid: OrderId, ts: Time)
    requires oid in s.mem.cells
    ensures var t := Exec(s, [Close(oid, ts)]);
            t.book == s.book && t.mem == s.mem.(cells := s.mem.cells[oid := CloseCell(s.mem.cells[oid], ts)])
  {
    ExecOne(s, Close(oid, ts));
    hide Exec, CloseCell;
  }

  /** The script of one check is the log lines that CheckedCell describes. */
  lemma CheckChangesOne(s: Sys, o: Order, answers: Answers)
    requires o.terms.id in s.mem.cells && s.mem.cells[o.terms.id].order == o && AnswersFit(s.mem, answers)
    requires !Terminal(o.state)
    ensures var t := Exec(s, CheckScript(s.mem, o, answers));
            && t.book == s.book
            && t.mem == s.mem.(cells := s.mem.cells[o.terms.id := Checked(s.mem.cells[o.terms.id], answers)])
  {
    hide Exec, LiveCell, CloseCell;
    var oid := o.terms.id;
    var c := s.mem.cells[oid];
    PutSame(s.mem, oid);
    ExecNone(s);
    if o.brokerOrderId.Some? && o.brokerOrderId.value in answers {
      var u := answers[o.brokerOrderId.value];
      assert u.clientId == oid;
      hide AnswersFit;
      var f := SyntheticFill(c, u, u.filledQty - o.filledQty, u.updatedAt);
      assert Canonical(o, f) == f;
      LogChanges(s, Logged(u.updatedAt, oid, FillReceived(f)));
      LogChanges(s, Logged(u.updatedAt, oid, OrderCancelled(None)));
      LogChanges(s, Logged(u.updatedAt, oid, OrderRejected("broker rejected")));
      LogChanges(s, Logged(u.updatedAt, oid, OrderExpired));
      CloseChanges(s, oid, u.updatedAt);
    }
  }

  /** Memory when only the listed orders have been checked. */
  function PassedSome(m: Memory, done: seq<Order>, answers: Answers): Memory {
    m.(cells := map oid | oid in m.cells ::
         if exists i :: 0 <= i < |done| && done[i].terms.id == oid then Checked(m.cells[oid], answers)
         else m.cells[oid])
  }

  ghost predicate OpenList(m: Memory, open: seq<Order>) {
    && (forall i :: 0 <= i < |open| ==> open[i].terms.id in m.cells && m.cells[open[i].terms.id].order == open[i])
    && (forall i, j :: 0 <= i < j < |open| ==> open[i].terms.id != open[j].terms.id)
  }

  predicate AllOpen(open: seq<Order>) {
    forall i :: 0 <= i < |open| ==> !Terminal(open[i].state)
  }

  lemma {:induction false} OpenOrdersAreOpen(m: Memory, ids: seq<OrderId>)
    ensures AllOpen(OpenOrders(m, ids))
  {
    if ids != [] {
      OpenOrdersAreOpen(m, ids[..|ids| - 1]);
    }
  }

  lemma PassedOneMore(m: Memory, open: seq<Order>, answers: Answers)
    requires open != [] && OpenList(m, open)
    ensures var init, o := open[..|open| - 1], open[|open| - 1];
            var n := PassedSome(m, init, answers);
            && n.cells[o.terms.id] == m.cells[o.terms.id]
            && PassedSome(m, open, answers) == n.(cells := n.cells[o.terms.id := Checked(m.cells[o.terms.id], answers)])
  {
    hide Checked;
    var init, o := open[..|open| - 1], open[|open| - 1];
    var n := PassedSome(m, init, answers);
    var whole, step := PassedSome(m, open, answers).cells, n.cells[o.terms.id := Checked(m.cells[o.terms.id], answers)];
    forall oid | oid in m.cells ensures whole[oid] == step[oid] {
      if exists i :: 0 <= i < |init| && init[i].terms.id == oid {
        var i :| 0 <= i < |init| && init[i].terms.id == oid;
        assert open[i].terms.id == oid;
      }
    }
    assert whole == step;
  }

  lemma PassedFits(m: Memory, done: seq<Order>, answers: Answers)
    requires AnswersFit(m, answers)
    ensures AnswersFit(PassedSome(m, done, answers), answers)
  {
    hide Checked;
    forall oid | oid in m.cells
      ensures Checked(m.cells[oid], answers).order.brokerOrderId == m.cells[oid].order.brokerOrderId
      ensures Terminal(m.cells[oid].order.state) ==> Checked(m.cells[oid], answers) == m.cells[oid]
    {
      CheckedKeeps(m.cells[oid], answers);
    }
  }

  lemma {:induction false} PassChangesListed(s: Sys, open: seq<Order>, answers: Answers)
    requires OpenList(s.mem, open) && AnswersFit(s.mem, answers) && AllOpen(open)
    ensures var t := Exec(s, OrderPass(s, open, answers));
            t.book == s.book && t.mem == PassedSome(s.mem, open, answers)
  {
    hide Exec, Checked, CheckScript, AnswersFit;
    if open == [] {
      ExecNone(s);
      assert PassedSome(s.mem, [], answers).cells == s.mem.cells;
    } else {
      var init, o := open[..|open| - 1], open[|open| - 1];
      PassChangesListed(s, init, answers);
      PassedOneMore(s.mem, open, answers);
      PassedFits(s.mem, init, answers);
      var first := OrderPass(s, init, answers);
      var t := Exec(s, first);
      hide PassedSome;
      CheckChangesOne(t, o, answers);
      ExecConcat(s, first, CheckScript(t.mem, o, answers));
    }
  }

  lemma {:induction false} OpenOrdersListed(m: Memory, ids: seq<OrderId>)
    requires NoDup(ids) && (forall oid :: oid in ids ==> oid in m.cells && m.cells[oid].order.terms.id == oid)
    ensures OpenList(m, OpenOrders(m, ids))
    ensures forall i :: 0 <= i < |OpenOrders(m, ids)| ==> OpenOrders(m, ids)[i].terms.id in ids
    ensures forall oid :: oid in ids && !Terminal(m.cells[oid].order.state) ==>
              exists i :: 0 <= i < |OpenOrders(m, ids)| && OpenOrders(m, ids)[i].terms.id == oid
  {
    hide Terminal;
    if ids != [] {
      var init, last := ids[..|ids| - 1], ids[|ids| - 1];
      assert ids == init + [last];
      OpenOrdersListed(m, init);
      var first, open := OpenOrders(m, init), OpenOrders(m, ids);
      assert first <= open;
      forall oid | oid in ids && !Terminal(m.cells[oid].order.state)
        ensures exists i :: 0 <= i < |open| && open[i].terms.id == oid
      {
        if oid == last {
          assert open[|open| - 1].terms.id == oid;
        } else {
          var i :| 0 <= i < |first| && first[i].terms.id == oid;
          assert open[i].terms.id == oid;
        }
      }
    }
  }

  /** The system after one order pass over all open orders. */
  function OrdersChecked(s: Sys, answers: Answers): Sys {
    Exec(s, OrderPass(s, OpenOrders(s.mem, s.mem.ids), answers))
  }

  /** A pass over the open orders checks every order independently of the others. */
  lemma PassIsPointwise(s: Sys, answers: Answers)
    requires Tidy(s.mem) && AnswersFit(s.mem, answers)
    ensures OrdersChecked(s, answers).mem == Passed(s.mem, answers) && OrdersChecked(s, answers).book == s.book
  {
    hide Exec, Checked, OpenOrders, OrderPass, AnswersFit, OpenList, AllOpen;
    var open := OpenOrders(s.mem, s.mem.ids);
    OpenOrdersListed(s.mem, s.mem.ids);
    OpenOrdersAreOpen(s.mem, s.mem.ids);
    PassChangesListed(s, open, answers);
    forall oid | oid in s.mem.cells
      ensures PassedSome(s.mem, open, answers).cells[oid] == Checked(s.mem.cells[oid], answers)
    {
      CheckedKeeps(s.mem.cells[oid], answers);
    }
    assert PassedSome(s.mem, open, answers).cells == Passed(s.mem, answers).cells;
  }

  /** Memory with the same orders under the same terms. */
  ghost predicate SameOrders(m: Memory, n: Memory) {
    && n.cells.Keys == m.cells.Keys && n.ids == m.ids
    && forall oid :: oid in m.cells ==> n.cells[oid].order.terms == m.cells[oid].order.terms
  }

  /** A step about an order that memory has, and no new intent. */
  predicate AboutKnown(m: Memory, step: Micro) {
    match step
    case Log(e) => !e.event.SubmitIntent? && e.oid in m.cells
    case Close(oid, _) => true
    case Move(_) => true
  }

  lemma StepAddsNoOrders(s: Sys, step: Micro)
    requires AboutKnown(s.mem, step)
    ensures SameOrders(s.mem, Step(s, step).mem)
  {
    hide LiveCell, CloseCell;
    match step {
      case Log(e) => LineNumbers(s.mem.cells[e.oid], e.event, e.ts);
      case Close(oid, ts) =>
        if oid in s.mem.cells {
          CloseKeeps(s.mem.cells[oid], ts);
        }
      case Move(_) =>
    }
  }

  lemma CheckAddsNoOrders(s: Sys, o: Order, answers: Answers)
    ensures SameOrders(s.mem, Exec(s, CheckScript(s.mem, o, answers)).mem)
  {
    var script := CheckScript(s.mem, o, answers);
    if script == [] {
      ExecNone(s);
    } else {
      assert script == [script[0]] && AboutKnown(s.mem, script[0]);
      ExecOne(s, script[0]);
      hide Exec, CheckScript, AboutKnown;
      StepAddsNoOrders(s, script[0]);
    }
  }

  /** An order pass adds no order. */
  lemma {:induction false} PassAddsNoOrders(s: Sys, open: seq<Order>, answers: Answers)
    ensures SameOrders(s.mem, Exec(s, OrderPass(s, open, answers)).mem)
  {
    hide Exec, CheckScript;
    if open == [] {
      ExecNone(s);
    } else {
      PassAddsNoOrders(s, open[..|open| - 1], answers);
      var first := OrderPass(s, open[..|open| - 1], answers);
      var t := Exec(s, first);
      CheckAddsNoOrders(t, open[|open| - 1], answers);
      ExecConcat(s, first, CheckScript(t.mem, open[|open| - 1], answers));
    }
  }

  // ── Two passes are enough ────────────────────────────────────────────────────

  /** A live order: sound, submitted, and accepted before it carries a broker id. */
  ghost predicate LiveOrder(c: Cell) {
    Sound(c) && Underway(c.order)
  }

  predicate Underway(o: Order) {
    o.state != OrderState.Pending && (o.brokerOrderId.Some? ==> o.state != Submitted)
  }

  lemma TransitionKeepsUnderway(c: Cell, e: OrderEvent)
    requires Tracks(c) && Underway(c.order)
    ensures Underway(Transition(c, e).order) && Transition(c, e).order.brokerOrderId == c.order.brokerOrderId
  {
  }

  lemma LineKeepsUnderway(c: Cell, e: Event, ts: Time)
    requires SoundEvent(e) && (e.SubmitIntent? || (Tracks(c) && Underway(c.order)))
    ensures Underway(LiveCell(c, e, ts).order)
    ensures !e.SubmitIntent? && !e.OrderAccepted? ==> LiveCell(c, e, ts).order.brokerOrderId == c.order.brokerOrderId
  {
    match e {
      case SubmitIntent(o) =>
      case OrderAccepted(b) =>
      case OrderRejected(r) => TransitionKeepsUnderway(c.(order := c.order.(rejectionReason := Some(r))), Reject);
      case FillReceived(f) =>
        var d := AddFill(c, f, ts);
        hide Blend;
        TransitionKeepsUnderway(d, FillEvent(d));
      case OrderCancelled(_) => TransitionKeepsUnderway(c, Cancel);
      case OrderExpired => TransitionKeepsUnderway(c, Expire);
      case _ =>
    }
  }

  /** Every event keeps an order live, and a new intent makes it so. */
  lemma LineKeepsLive(c: Cell, e: Event, ts: Time)
    requires SoundEvent(e) && (e.SubmitIntent? || LiveOrder(c))
    ensures LiveOrder(LiveCell(c, e, ts))
    ensures !e.SubmitIntent? && !e.OrderAccepted? ==> LiveCell(c, e, ts).order.brokerOrderId == c.order.brokerOrderId
  {
    hide LiveCell, Underway;
    LiveCellSound(c, e, ts);
    LineKeepsUnderway(c, e, ts);
    hide Walk, SumQty, SumNotional;
  }

  lemma CloseKeepsLive(c: Cell, ts: Time)
    requires LiveOrder(c)
    ensures LiveOrder(CloseCell(c, ts)) && CloseCell(c, ts).order.brokerOrderId == c.order.brokerOrderId
  {
    var d := c.(order := c.order.(qty := c.order.filledQty, filledAt := Some(ts)));
    assert Sound(d) && Underway(d.order) by {
      hide Walk, SumQty, SumNotional;
    }
    TransitionSound(d, FullFill);
    assert Tracks(d);
    hide Sound, Underway;
    TransitionKeepsUnderway(d, FullFill);
  }

  ghost predicate LiveMemory(m: Memory) {
    forall oid :: oid in m.cells ==> LiveOrder(m.cells[oid])
  }

  // ── What every reachable memory satisfies ────────────────────────────────────

  /** What the order manager may do next: log a sound line it may log, or force an order closed. */
  predicate GoodStep(m: Memory, step: Micro) {
    match step
    case Log(e) => Scoped(m, e) && SoundEvent(e.event) && (e.event.SubmitIntent? ==> e.event.order.terms.id == e.oid)
    case Close(_, _) => true
    case Move(_) => true
  }

  predicate GoodRun(s: Sys, script: seq<Micro>) {
    forall k :: 0 <= k < |script| ==> GoodStep(Exec(s, script[..k]).mem, script[k])
  }

  lemma StepKeepsLive(s: Sys, step: Micro)
    requires LiveMemory(s.mem) && Tidy(s.mem) && GoodStep(s.mem, step)
    ensures LiveMemory(Step(s, step).mem) && Tidy(Step(s, step).mem)
  {
    hide LiveOrder, LiveCell, CloseCell, SoundEvent;
    match step {
      case Log(e) =>
        LineKeepsLive(CellOf(s.mem, e.oid), e.event, e.ts);
        LineNumbers(CellOf(s.mem, e.oid), e.event, e.ts);
        PutKeepsTidy(s.mem, e.oid, LiveCell(CellOf(s.mem, e.oid), e.event, e.ts));
      case Close(oid, ts) =>
        if oid in s.mem.cells {
          CloseKeepsLive(s.mem.cells[oid], ts);
          CloseKeeps(s.mem.cells[oid], ts);
          PutKeepsTidy(s.mem, oid, CloseCell(s.mem.cells[oid], ts));
        }
      case Move(_) =>
    }
  }

  lemma GoodRunInit(s: Sys, script: seq<Micro>)
    requires script != [] && GoodRun(s, script)
    ensures var init := script[..|script| - 1];
            && GoodRun(s, init) && GoodStep(Exec(s, init).mem, script[|init|])
            && Exec(s, script) == Step(Exec(s, init), script[|init|])
  {
    hide GoodStep, Step;
    var init := script[..|script| - 1];
    assert forall k :: 0 <= k <= |init| ==> init[..k] == script[..k];
  }

  /**
   * Over every run, forced closes included: the snapshot state is the machine's, at the
   * end of a walk over arcs; the filled quantity is the sum of the fills, and the average
   * price times the quantity is their notional; each order sits once under its own id.
   */
  lemma {:induction false} EveryRunKeepsMemorySound(s: Sys, script: seq<Micro>)
    requires s.mem == EMPTY && GoodRun(s, script)
    ensures var m := Exec(s, script).mem; AllSound(m) && LiveMemory(m) && Tidy(m)
  {
    if script == [] {
      NothingIsSound();
      ExecNone(s);
    } else {
      var init := script[..|script| - 1];
      GoodRunInit(s, script);
      hide GoodRun, GoodStep, LiveMemory, AllSound, Tidy, Step, Exec;
      EveryRunKeepsMemorySound(s, init);
      StepKeepsLive(Exec(s, init), script[|init|]);
      LiveIsSound(Exec(s, script).mem);
    }
  }

  lemma NothingIsSound()
    ensures AllSound(EMPTY) && LiveMemory(EMPTY) && Tidy(EMPTY)
  {
  }

  lemma LiveIsSound(m: Memory)
    requires LiveMemory(m)
    ensures AllSound(m)
  {
    hide Sound, Underway;
  }

  /** The step submits this order (again). */
  predicate Submits(step: Micro, oid: OrderId) {
    step.Log? && step.e.event.SubmitIntent? && step.e.oid == oid
  }

  lemma StepKeepsTerminal(s: Sys, step: Micro, oid: OrderId)
    requires LiveMemory(s.mem) && GoodStep(s.mem, step) && !Submits(step, oid)
    requires oid in s.mem.cells && Terminal(s.mem.cells[oid].order.state)
    ensures oid in Step(s, step).mem.cells && Step(s, step).mem.cells[oid].order.state == s.mem.cells[oid].order.state
  {
    hide LiveCell, Fire, Sound, SoundEvent;
    if step.Log? && step.e.oid == oid {
      LiveCellSound(s.mem.cells[oid], step.e.event, step.e.ts);
    }
  }

  /** A terminal order stays in its state over the rest of the run, unless it is submitted again. */
  lemma {:induction false} TerminalIsAbsorbing(s: Sys, script: seq<Micro>, k: nat, oid: OrderId)
    requires s.mem == EMPTY && GoodRun(s, script) && k <= |script|
    requires var m := Exec(s, script[..k]).mem; oid in m.cells && Terminal(m.cells[oid].order.state)
    requires forall j :: k <= j < |script| ==> !Submits(script[j], oid)
    ensures var m := Exec(s, script).mem;
            oid in m.cells && m.cells[oid].order.state == Exec(s, script[..k]).mem.cells[oid].order.state
  {
    if k == |script| {
      assert script[..k] == script;
    } else {
      var init := script[..|script| - 1];
      assert init[..k] == script[..k];
      GoodRunInit(s, script);
      EveryRunKeepsMemorySound(s, init);
      hide GoodRun, GoodStep, AllSound, LiveMemory, Tidy, Step, Exec, Terminal;
      TerminalIsAbsorbing(s, init, k, oid);
      StepKeepsTerminal(Exec(s, init), script[|init|], oid);
    }
  }

  lemma CheckedIsLive(c: Cell, u: Status)
    requires LiveOrder(c) && c.order.brokerOrderId.Some?
    ensures LiveOrder(CheckedCell(c, u))
    ensures CheckedCell(c, u).order.brokerOrderId == c.order.brokerOrderId
  {
    hide LiveOrder, LiveCell, CloseCell;
    var delta := u.filledQty - c.order.filledQty;
    LineKeepsLive(c, OrderCancelled(None), u.updatedAt);
    LineKeepsLive(c, OrderRejected("broker rejected"), u.updatedAt);
    LineKeepsLive(c, OrderExpired, u.updatedAt);
    if delta > 0.0 {
      LineKeepsLive(c, FillReceived(SyntheticFill(c, u, delta, u.updatedAt)), u.updatedAt);
    }
    CloseKeepsLive(c, u.updatedAt);
  }

  /** After one pass the quantity is caught up; a FILLED order short of its own quantity is still open. */
  lemma OnceChecked(c: Cell, u: Status)
    requires LiveOrder(c) && c.order.brokerOrderId.Some? && !Terminal(c.order.state)
    ensures var d := CheckedCell(c, u);
            && (u.state == BFilled ==>
                u.filledQty <= d.order.filledQty && (d.order.state.Partial? || d.order.state.Filled?))
            && (u.state == BFilled && u.filledQty <= c.order.filledQty ==> d.order.state == Filled)
            && (u.state == BPartial ==> u.filledQty <= d.order.filledQty)
            && (Executed(u.state) && c.order.filledQty <= u.filledQty ==> d.order.filledQty == u.filledQty)
            && (c.order.filledQty >= u.filledQty ==> d.fills == c.fills && d.order.filledQty == c.order.filledQty)
            && ((u.state.BCanceled? || u.state.BExpired?) ==> Terminal(d.order.state) && d.fills == c.fills)
            && (u.state == BRejected ==>
                d.fills == c.fills && CheckedCell(d, u) == d && (Terminal(d.order.state) <==> c.order.state != Partial))
            && (!Done(u.state) && u.state != BPartial ==> d == c)
  {
    assert AtVenue(c.order.state) && Tracks(c);
    hide LiveOrder, Sound, Blend;
  }

  /**
   * Two passes over unchanged answers leave the order where a third pass leaves it too.
   * An order the broker calls filled is then filled locally, and its fills cover the
   * broker's quantity even when that is below the order's own.
   */
  lemma TwoChecksSettleOne(c: Cell, u: Status)
    requires LiveOrder(c) && c.order.brokerOrderId.Some?
    ensures var d := CheckedCell(CheckedCell(c, u), u);
            && CheckedCell(d, u) == d
            && (!Terminal(c.order.state) && u.state == BFilled ==>
                d.order.state == Filled && SumQty(d.fills) >= u.filledQty)
            && (!Terminal(c.order.state) && u.state == BFilled && c.order.filledQty <= u.filledQty ==>
                SumQty(d.fills) == u.filledQty)
  {
    CheckedIsLive(c, u);
    var d := CheckedCell(c, u);
    CheckedIsLive(d, u);
    if !Terminal(c.order.state) {
      OnceChecked(c, u);
      if !Terminal(d.order.state) {
        OnceChecked(d, u);
      }
    }
    hide CheckedCell, Walk, SumNotional;
    SettledCheck(CheckedCell(d, u), u);
    SettledCheck(d, u);
    SettledCheck(c, u);
  }

  lemma SettledCheck(c: Cell, u: Status)
    ensures Terminal(c.order.state) || (!Done(u.state) && u.state != BPartial) ==> CheckedCell(c, u) == c
    ensures u.state == BPartial && u.filledQty <= c.order.filledQty ==> CheckedCell(c, u) == c
  {
    hide LiveCell, CloseCell;
  }

  /** The order is open and the broker's answer is FILLED. */
  predicate ReportedFilled(c: Cell, answers: Answers) {
    !Terminal(c.order.state) && Answered(c, answers) && answers[c.order.brokerOrderId.value].state == BFilled
  }

  /** The order is filled locally and its fills cover the broker's quantity. */
  predicate Covered(c: Cell, answers: Answers) {
    Answered(c, answers) && c.order.state == Filled && SumQty(c.fills) >= answers[c.order.brokerOrderId.value].filledQty
  }

  lemma PassKeepsTidy(m: Memory, answers: Answers)
    requires Tidy(m) && AnswersFit(m, answers)
    ensures Tidy(Passed(m, answers)) && AnswersFit(Passed(m, answers), answers)
  {
    hide Checked;
    forall oid | oid in m.cells
      ensures Terminal(m.cells[oid].order.state) ==> Checked(m.cells[oid], answers) == m.cells[oid]
      ensures Checked(m.cells[oid], answers).order.brokerOrderId == m.cells[oid].order.brokerOrderId
      ensures Checked(m.cells[oid], answers).order.terms == m.cells[oid].order.terms
    {
      CheckedKeeps(m.cells[oid], answers);
    }
  }

  /** The whole pass, twice: a third pass changes no order and no fill. */
  lemma TwoPassesReachAFixpoint(s: Sys, answers: Answers)
    requires Tidy(s.mem) && AnswersFit(s.mem, answers) && LiveMemory(s.mem)
    ensures var s1 := OrdersChecked(s, answers);
            var s2 := OrdersChecked(s1, answers);
            var s3 := OrdersChecked(s2, answers);
            && s3.mem == s2.mem && s2.mem.cells.Keys == s.mem.cells.Keys
            && forall oid :: oid in s.mem.cells && ReportedFilled(s.mem.cells[oid], answers) ==>
                 Covered(s2.mem.cells[oid], answers)
  {
    hide OrdersChecked, LiveOrder, AnswersFit, Tidy, CheckedCell;
    var m1 := Passed(s.mem, answers);
    var m2 := Passed(m1, answers);
    PassKeepsTidy(s.mem, answers);
    PassKeepsTidy(m1, answers);
    PassIsPointwise(s, answers);
    PassIsPointwise(OrdersChecked(s, answers), answers);
    PassIsPointwise(OrdersChecked(OrdersChecked(s, answers), answers), answers);
    forall oid | oid in s.mem.cells
      ensures Checked(m2.cells[oid], answers) == m2.cells[oid]
      ensures ReportedFilled(s.mem.cells[oid], answers) ==> Covered(m2.cells[oid], answers)
    {
      var c := s.mem.cells[oid];
      if c.order.brokerOrderId.Some? && c.order.brokerOrderId.value in answers {
        var u := answers[c.order.brokerOrderId.value];
        CheckedIsLive(c, u);
        CheckedIsLive(CheckedCell(c, u), u);
        TwoChecksSettleOne(c, u);
      }
    }
    assert Passed(m2, answers).cells == m2.cells;
  }

  /** The same from any memory the order manager can reach. */
  lemma AnyRunSettlesInTwoPasses(s: Sys, script: seq<Micro>, answers: Answers)
    requires s.mem == EMPTY && GoodRun(s, script) && AnswersFit(Exec(s, script).mem, answers)
    ensures var t := Exec(s, script);
            var t2 := OrdersChecked(OrdersChecked(t, answers), answers);
            && OrdersChecked(t2, answers).mem == t2.mem && t2.mem.cells.Keys == t.mem.cells.Keys
            && forall oid :: oid in t.mem.cells && ReportedFilled(t.mem.cells[oid], answers) ==>
                 Covered(t2.mem.cells[oid], answers)
  {
    EveryRunKeepsMemorySound(s, script);
    hide *;
    TwoPassesReachAFixpoint(Exec(s, script), answers);
  }

  /**
   * Where the reconciler stops short. Two passes bring an open order's fills to the
   * broker's quantity if and only if nothing was missing, or something was and the broker
   * calls the order filled or partially filled: a fill missed on an order that then ended
   * otherwise is not made up, and a fill too many is never taken back.
   */
  lemma FillsCoverIffNotEndedShort(c: Cell, u: Status)
    requires LiveOrder(c) && c.order.brokerOrderId.Some? && !Terminal(c.order.state)
    ensures SumQty(CheckedCell(CheckedCell(c, u), u).fills) == u.filledQty
        <==> c.order.filledQty == u.filledQty || (c.order.filledQty < u.filledQty && Executed(u.state))
  {
    CheckedIsLive(c, u);
    var d := CheckedCell(c, u);
    CheckedIsLive(d, u);
    OnceChecked(c, u);
    if !Terminal(d.order.state) {
      OnceChecked(d, u);
    }
    SettledCheck(d, u);
    SettledCheck(c, u);
    hide CheckedCell, Walk, SumNotional;
  }

  /** An order the broker has ended ends locally, unless it is rejected after a partial fill. */
  lemma EndsIffArcExists(c: Cell, u: Status)
    requires LiveOrder(c) && c.order.brokerOrderId.Some? && !Terminal(c.order.state) && Done(u.state)
    ensures Terminal(CheckedCell(CheckedCell(c, u), u).order.state)
       <==> !(u.state == BRejected && c.order.state == Partial)
  {
    CheckedIsLive(c, u);
    var d := CheckedCell(c, u);
    OnceChecked(c, u);
    if !Terminal(d.order.state) {
      OnceChecked(d, u);
    }
    SettledCheck(d, u);
    hide CheckedCell, LiveOrder;
  }

  /** An order for two shares, accepted, and what the broker says of it. */
  const TWO_SHARES := Order(Terms(1, 1, Haiku, "AAPL", Buy, Market, Simple, Day, 0, None, None, false),
                            NOTHING_UNLOGGED,
                            2.0, OrderState.Pending, None, None, None, 0.0, None, None)

  function TwoSharesAccepted(): Cell {
    LiveCell(LiveCell(NO_CELL, SubmitIntent(TWO_SHARES), 0), OrderAccepted(Venue(0)), 0)
  }

  function OneShareFilled(): Cell {
    LiveCell(TwoSharesAccepted(), FillReceived(Fill(VenueFill(0), 1, Haiku, "AAPL", Buy, 1.0, 100.0, 0, 0.0, true)), 0)
  }

  function TwoSharesStatus(filled: real, state: BrokerState): Status {
    Status(Venue(0), 1, "AAPL", Buy, 2.0, filled, Some(100.0), state, 0, 0, None)
  }

  lemma TwoSharesAreLive()
    ensures var c := TwoSharesAccepted();
            && LiveOrder(c) && c.order.state == Accepted && c.order.brokerOrderId == Some(Venue(0))
            && c.order.filledQty == 0.0 && c.order.terms.id == 1
    ensures var c := OneShareFilled();
            LiveOrder(c) && c.order.state == Partial && c.order.brokerOrderId == Some(Venue(0))
  {
    var submitted := LiveCell(NO_CELL, SubmitIntent(TWO_SHARES), 0);
    var fill := Fill(VenueFill(0), 1, Haiku, "AAPL", Buy, 1.0, 100.0, 0, 0.0, true);
    LineKeepsLive(NO_CELL, SubmitIntent(TWO_SHARES), 0);
    LineKeepsLive(submitted, OrderAccepted(Venue(0)), 0);
    LineKeepsLive(TwoSharesAccepted(), FillReceived(fill), 0);
    hide LiveOrder;
    TwoSharesStates();
    hide LiveCell;
  }

  lemma TwoSharesStates()
    ensures var c := TwoSharesAccepted();
            && c.order.state == Accepted && c.order.brokerOrderId == Some(Venue(0))
            && c.order.filledQty == 0.0 && c.order.terms.id == 1
    ensures OneShareFilled().order.state == Partial && OneShareFilled().order.brokerOrderId == Some(Venue(0))
  {
    hide Blend;
  }

  /** One of two shares filled unseen, then the order was cancelled: two passes book nothing and end the order. */
  lemma FillMissedBeforeCancelStaysMissing()
    ensures var u := TwoSharesStatus(1.0, BCanceled);
            var d := CheckedCell(CheckedCell(TwoSharesAccepted(), u), u);
            LiveOrder(TwoSharesAccepted()) && d.order.state == Cancelled && SumQty(d.fills) == 0.0
  {
    TwoSharesAreLive();
    hide LiveOrder;
  }

  /** One of two shares filled, then the order was rejected: two passes leave the order open. */
  lemma RejectedAfterFillStaysOpen()
    ensures var u := TwoSharesStatus(1.0, BRejected);
            LiveOrder(OneShareFilled()) && CheckedCell(CheckedCell(OneShareFilled(), u), u).order.state == Partial
  {
    TwoSharesAreLive();
    var c, u := OneShareFilled(), TwoSharesStatus(1.0, BRejected);
    assert Tracks(c) by {
      hide Walk, SumQty, SumNotional, OneShareFilled;
    }
    hide CheckedCell, OneShareFilled, TwoSharesAccepted, LiveOrder;
    RejectionWithoutArc(c, u);
    RejectionWithoutArc(CheckedCell(c, u), u);
  }

  /** There is no arc from a partial fill to a rejection: the check leaves its reason and no more. */
  lemma RejectionWithoutArc(c: Cell, u: Status)
    requires Tracks(c) && c.order.state == Partial && u.state == BRejected
    ensures Tracks(CheckedCell(c, u)) && CheckedCell(c, u).order.state == Partial
  {
    hide Blend;
  }

  // ── Positions ────────────────────────────────────────────────────────────────

  const DOLLAR_TOLERANCE := 1.0

  datatype Verdict = Agrees | Orphan | Mismatch

  /** One symbol: the position our fills imply against the broker's holding. */
  function Judge(ours: real, theirs: Option<Holding>, tolerance: real): Verdict {
    var qty := if theirs.Some? then theirs.value.qty else 0.0;
    var price := if theirs.Some? then theirs.value.current else 0.0;
    var drift := Abs(ours - qty);
    if drift < tolerance && drift * price <= DOLLAR_TOLERANCE then Agrees
    else if ours == 0.0 && qty > 0.0 then Orphan
    else Mismatch
  }

  function JudgeSymbol(m: Memory, holdings: map<string, Holding>, tolerance: real, symbol: string): Verdict {
    Judge(Expected(m, m.ids, symbol), Lookup(holdings, symbol), tolerance)
  }

  /** The ghost order that adopts an orphan. */
  function Adoption(symbol: string, h: Holding, oid: OrderId, agent: AgentId): Ghost {
    Ghost.Ghost(oid, oid, Synthetic(oid, 0), Buy, symbol, h.qty, h.current, agent)
  }

  function AdoptAll(symbols: seq<string>, holdings: map<string, Holding>, names: map<string, OrderId>, agent: AgentId,
                    ts: Time): seq<Micro>
    requires forall symbol :: symbol in symbols ==> symbol in holdings && symbol in names
  {
    if symbols == [] then []
    else
      var last := symbols[|symbols| - 1];
      AdoptAll(symbols[..|symbols| - 1], holdings, names, agent, ts)
      + GhostScript(Adoption(last, holdings[last], names[last], agent), ts)
  }

  /** For each symbol whose adoption raises, how many of its three lines were written by then. */
  type Faults = map<string, nat>

  function Written(faults: Faults, symbol: string): (lines: nat)
    ensures lines <= 3
  {
    if symbol in faults && faults[symbol] < 3 then faults[symbol] else 3
  }

  /** The same with adoptions that raise: each writes its first lines, and the pass goes on. */
  function AdoptSome(symbols: seq<string>, holdings: map<string, Holding>, names: map<string, OrderId>, faults: Faults,
                     agent: AgentId, ts: Time): seq<Micro>
    requires forall symbol :: symbol in symbols ==> symbol in holdings && symbol in names
  {
    if symbols == [] then []
    else
      var last := symbols[|symbols| - 1];
      AdoptSome(symbols[..|symbols| - 1], holdings, names, faults, agent, ts)
      + GhostPart(Adoption(last, holdings[last], names[last], agent), ts, Written(faults, last))
  }

  /** If no adoption raises, all are adopted in full. */
  lemma {:induction false} NoFaultAdoptsAll(symbols: seq<string>, holdings: map<string, Holding>,
                                            names: map<string, OrderId>, faults: Faults, agent: AgentId, ts: Time)
    requires forall symbol :: symbol in symbols ==> symbol in holdings && symbol in names && symbol !in faults
    ensures AdoptSome(symbols, holdings, names, faults, agent, ts) == AdoptAll(symbols, holdings, names, agent, ts)
  {
    if symbols != [] {
      var last := symbols[|symbols| - 1];
      NoFaultAdoptsAll(symbols[..|symbols| - 1], holdings, names, faults, agent, ts);
      PartIsWhole(Adoption(last, holdings[last], names[last], agent), ts);
    }
  }

  lemma PartKeepsTidy(s: Sys, g: Ghost, ts: Time, lines: nat)
    requires lines <= 3 && g.oid !in s.mem.cells && Tidy(s.mem)
    ensures Tidy(Exec(s, GhostPart(g, ts, lines)).mem)
    ensures forall oid :: oid in Exec(s, GhostPart(g, ts, lines)).mem.cells ==> oid in s.mem.cells || oid == g.oid
  {
    GhostPrefix(s, g, ts, lines);
    WithGhostIsTidy(s.mem, g, ts, lines);
    hide Exec, GhostScript, WithGhost, Tidy, Rebuilt, AllTrack;
  }

  lemma WithGhostIsTidy(m: Memory, g: Ghost, ts: Time, lines: nat)
    requires lines <= 3 && g.oid !in m.cells && Tidy(m)
    ensures Tidy(WithGhost(m, g, ts, lines))
    ensures forall oid :: oid in WithGhost(m, g, ts, lines).cells ==> oid in m.cells || oid == g.oid
  {
    GhostCells(g, ts);
    hide GhostCell, Tidy;
    if lines > 0 {
      PutKeepsTidy(m, g.oid, GhostCell(g, ts, lines));
      SameListTidy(Put(m, g.oid, GhostCell(g, ts, lines)), WithGhost(m, g, ts, lines));
    }
  }

  lemma SameListTidy(m: Memory, n: Memory)
    requires Tidy(m) && n.ids == m.ids && n.cells == m.cells
    ensures Tidy(n)
  {
  }

  /** Adoptions that may raise keep the order list in order, and use no names but their own. */
  lemma {:induction false} AdoptSomeStaysTidy(s: Sys, symbols: seq<string>, holdings: map<string, Holding>,
                                              names: map<string, OrderId>, faults: Faults, agent: AgentId, ts: Time)
    requires Tidy(s.mem) && NewNames(s.mem, names) && NoDup(symbols)
    requires forall symbol :: symbol in symbols ==> symbol in holdings && symbol in names
    ensures var t := Exec(s, AdoptSome(symbols, holdings, names, faults, agent, ts));
            && Tidy(t.mem)
            && forall oid :: oid in t.mem.cells ==> oid in s.mem.cells || exists a :: a in symbols && names[a] == oid
  {
    hide Exec, GhostPart, Tidy;
    if symbols == [] {
      ExecNone(s);
    } else {
      var init, last := symbols[..|symbols| - 1], symbols[|symbols| - 1];
      assert symbols == init + [last];
      AdoptSomeStaysTidy(s, init, holdings, names, faults, agent, ts);
      var first := AdoptSome(init, holdings, names, faults, agent, ts);
      var g := Adoption(last, holdings[last], names[last], agent);
      var part := GhostPart(g, ts, Written(faults, last));
      ExecConcat(s, first, part);
      PartKeepsTidy(Exec(s, first), g, ts, Written(faults, last));
    }
  }

  /** Order ids not yet in use, one for each symbol that may need one. */
  ghost predicate NewNames(m: Memory, names: map<string, OrderId>) {
    && (forall a, b :: a in names && b in names && a != b ==> names[a] != names[b])
    && (forall a :: a in names ==> names[a] !in m.cells && names[a] !in m.ids)
  }

  lemma NamesStayNew(m: Memory, n: Memory, names: map<string, OrderId>)
    requires NewNames(m, names) && SameOrders(m, n)
    ensures NewNames(n, names)
  {
  }

  lemma GhostKeepsTidy(s: Sys, g: Ghost, ts: Time)
    requires g.oid !in s.mem.cells && Tidy(s.mem)
    ensures Tidy(Exec(s, GhostScript(g, ts)).mem)
  {
    hide Exec, GhostScript, Expected, Rebuilt, AllTrack;
    GhostClosesTheGap(s, g, ts);
    assert forall oid :: oid in s.mem.ids + [g.oid] <==> oid in s.mem.ids || oid == g.oid;
  }

  /** From s to t new orders were added, all over already, and no other order was touched. */
  ghost predicate OnlyEndedAdded(s: Memory, t: Memory) {
    && (forall oid :: oid in s.cells ==> oid in t.cells && t.cells[oid] == s.cells[oid])
    && (forall oid :: oid in t.cells && oid !in s.cells ==> Terminal(t.cells[oid].order.state))
  }

  /** Every id in use after an adoption was in use before or is the name of an adopted symbol. */
  ghost predicate OnlyNamed(m: Memory, n: Memory, symbols: seq<string>, names: map<string, OrderId>)
    requires forall symbol :: symbol in symbols ==> symbol in names
  {
    forall oid :: oid in n.cells || oid in n.ids ==>
      oid in m.cells || oid in m.ids || exists a :: a in symbols && names[a] == oid
  }

  /**
   * Adopting the listed symbols moves each to the broker's quantity and touches nothing
   * else; if the log rebuilt memory before, it still does.
   */
  lemma {:induction false} AdoptionClosesGaps(s: Sys, symbols: seq<string>, holdings: map<string, Holding>,
                                             names: map<string, OrderId>, agent: AgentId, ts: Time)
    requires NewNames(s.mem, names) && NoDup(symbols)
    requires forall symbol :: symbol in symbols ==> symbol in holdings && symbol in names
    ensures var t := Exec(s, AdoptAll(symbols, holdings, names, agent, ts));
            && t.book == s.book && OnlyNamed(s.mem, t.mem, symbols, names) && OnlyEndedAdded(s.mem, t.mem)
            && (Tidy(s.mem) ==> Tidy(t.mem))
            && (AllTrack(s.mem) ==> AllTrack(t.mem)) && (Rebuilt(s) && AllTrack(s.mem) ==> Rebuilt(t))
            && (forall symbol :: Expected(t.mem, t.mem.ids, symbol)
                  == Expected(s.mem, s.mem.ids, symbol) + (if symbol in symbols then holdings[symbol].qty else 0.0))
  {
    hide Exec, GhostScript, Rebuilt, Expected, AllTrack, Tidy, NewNames, GhostOrder, GhostFill;
    if symbols == [] {
      ExecNone(s);
    } else {
      var init, last := symbols[..|symbols| - 1], symbols[|symbols| - 1];
      assert symbols == init + [last];
      AdoptionClosesGaps(s, init, holdings, names, agent, ts);
      var first := AdoptAll(init, holdings, names, agent, ts);
      var g := Adoption(last, holdings[last], names[last], agent);
      var t := Exec(s, first);
      NextNameIsFree(s.mem, t.mem, init, names, last);
      GhostClosesTheGap(t, g, ts);
      if Tidy(t.mem) {
        GhostKeepsTidy(t, g, ts);
      }
      ExecConcat(s, first, GhostScript(g, ts));
    }
  }

  lemma NextNameIsFree(m: Memory, n: Memory, adopted: seq<string>, names: map<string, OrderId>, symbol: string)
    requires NewNames(m, names) && symbol in names && symbol !in adopted
    requires forall a :: a in adopted ==> a in names
    requires OnlyNamed(m, n, adopted, names)
    ensures names[symbol] !in n.cells && names[symbol] !in n.ids
  {
  }

  /** A symbol that was adopted agrees from then on; any other symbol is judged as before. */
  lemma AdoptedAgrees(ours: real, theirs: Option<Holding>, tolerance: real)
    requires tolerance > 0.0
    ensures Judge(ours, theirs, tolerance) == Orphan ==>
              ours == 0.0 && theirs.Some? && theirs.value.qty > 0.0
              && Judge(ours + theirs.value.qty, theirs, tolerance) == Agrees
  {
  }

  lemma AdoptionMoves(s: Sys, symbols: seq<string>, holdings: map<string, Holding>, names: map<string, OrderId>,
                      agent: AgentId, ts: Time, symbol: string)
    requires NewNames(s.mem, names) && NoDup(symbols)
    requires forall symbol :: symbol in symbols ==> symbol in holdings && symbol in names
    ensures var t := Exec(s, AdoptAll(symbols, holdings, names, agent, ts));
            && Expected(t.mem, t.mem.ids, symbol)
               == Expected(s.mem, s.mem.ids, symbol) + (if symbol in symbols then holdings[symbol].qty else 0.0)
            && OnlyEndedAdded(s.mem, t.mem) && (Tidy(s.mem) ==> Tidy(t.mem))
  {
    AdoptionClosesGaps(s, symbols, holdings, names, agent, ts);
    hide *;
  }

  /** Checked again against the same answer, an order books no further fill. */
  lemma CheckedTwiceBooksOnce(c: Cell, answers: Answers)
    ensures Checked(Checked(c, answers), answers).fills == Checked(c, answers).fills
  {
    CheckedKeeps(c, answers);
    hide CheckedCell;
    if Answered(c, answers) {
      var u := answers[c.order.brokerOrderId.value];
      CheckBooks(c, u);
      CheckBooks(CheckedCell(c, u), u);
    }
  }

  /** A check books a fill only for a missing quantity, and then the quantity is no longer missing. */
  lemma CheckBooks(c: Cell, u: Status)
    ensures var d := CheckedCell(c, u);
            || (d.fills == c.fills && d.order.filledQty == c.order.filledQty)
            || (RequiresUpdate(c.order.state, u.state) && Executed(u.state)
                && c.order.filledQty < u.filledQty == d.order.filledQty)
    ensures !RequiresUpdate(c.order.state, u.state) ==> CheckedCell(c, u) == c
    ensures u.filledQty <= c.order.filledQty ==> CheckedCell(c, u).fills == c.fills
    ensures RequiresUpdate(c.order.state, u.state) && Executed(u.state) && c.order.filledQty < u.filledQty ==>
              CheckedCell(c, u).order.filledQty == u.filledQty
  {
    hide Fire, Blend;
  }

  /** After an order pass and adoptions, a second pass over the same answers books no fill. */
  lemma SecondPassBooksNothing(m: Memory, adopted: Memory, answers: Answers, symbol: string)
    requires OnlyEndedAdded(Passed(m, answers), adopted)
    ensures var last := Passed(adopted, answers);
            Expected(last, last.ids, symbol) == Expected(adopted, adopted.ids, symbol)
  {
    hide Checked;
    var last := Passed(adopted, answers);
    forall oid ensures CellOf(last, oid).fills == CellOf(adopted, oid).fills {
      if oid in adopted.cells {
        CheckedKeeps(adopted.cells[oid], answers);
        if oid in m.cells {
          assert adopted.cells[oid] == Checked(m.cells[oid], answers);
          CheckedTwiceBooksOnce(m.cells[oid], answers);
        }
      }
    }
    ExpectedOfOthers(adopted, last, adopted.ids, symbol);
  }

  lemma AdoptedFits(m: Memory, adopted: Memory, answers: Answers)
    requires AnswersFit(m, answers) && OnlyEndedAdded(m, adopted)
    ensures AnswersFit(adopted, answers)
  {
  }

  /** The system after a whole pass: the open orders checked, then the orphans adopted. */
  function PassDone(s: Sys, answers: Answers, orphans: seq<string>, holdings: map<string, Holding>,
                    names: map<string, OrderId>, agent: AgentId, ts: Time): Sys
    requires forall symbol :: symbol in orphans ==> symbol in holdings && symbol in names
  {
    Exec(OrdersChecked(s, answers), AdoptAll(orphans, holdings, names, agent, ts))
  }

  /**
   * One whole pass: check the open orders, then adopt every orphan, in any order. The next
   * pass checks the orders again, against the same answers; then no symbol is an orphan,
   * and exactly those mismatch that mismatched before.
   */
  lemma NextPassAdoptsNothing(s: Sys, answers: Answers, orphans: seq<string>, holdings: map<string, Holding>,
                              names: map<string, OrderId>, agent: AgentId, ts: Time, tolerance: real, symbol: string)
    requires Tidy(s.mem) && AnswersFit(s.mem, answers) && NewNames(s.mem, names) && NoDup(orphans) && tolerance > 0.0
    requires forall symbol :: symbol in orphans ==> symbol in holdings && symbol in names
    requires forall symbol ::
               symbol in orphans <==> JudgeSymbol(OrdersChecked(s, answers).mem, holdings, tolerance, symbol) == Orphan
    ensures var m1 := OrdersChecked(s, answers).mem;
            var m2 := OrdersChecked(PassDone(s, answers, orphans, holdings, names, agent, ts), answers).mem;
            && JudgeSymbol(m2, holdings, tolerance, symbol) != Orphan
            && (JudgeSymbol(m2, holdings, tolerance, symbol) == Mismatch
                <==> JudgeSymbol(m1, holdings, tolerance, symbol) == Mismatch)
            && (symbol in orphans ==> Expected(m2, m2.ids, symbol) == holdings[symbol].qty)
  {
    hide Exec, AdoptAll, Tidy, AnswersFit, Expected, Judge, NewNames, OrdersChecked, Passed, OnlyEndedAdded, SameOrders;
    var s1 := OrdersChecked(s, answers);
    PassIsPointwise(s, answers);
    PassKeepsTidy(s.mem, answers);
    CheckedNamesStayNew(s, answers, names);
    AdoptionMoves(s1, orphans, holdings, names, agent, ts, symbol);
    var s2 := PassDone(s, answers, orphans, holdings, names, agent, ts);
    AdoptedFits(s1.mem, s2.mem, answers);
    PassIsPointwise(s2, answers);
    SecondPassBooksNothing(s.mem, s2.mem, answers, symbol);
    AdoptedAgrees(Expected(s1.mem, s1.mem.ids, symbol), Lookup(holdings, symbol), tolerance);
  }

  lemma SameOrdersStayTidy(m: Memory, n: Memory)
    requires Tidy(m) && SameOrders(m, n)
    ensures Tidy(n)
  {
  }

  lemma CheckedStaysTidy(s: Sys, answers: Answers)
    requires Tidy(s.mem)
    ensures Tidy(OrdersChecked(s, answers).mem)
  {
    hide Exec, OrderPass, OpenOrders;
    PassAddsNoOrders(s, OpenOrders(s.mem, s.mem.ids), answers);
    SameOrdersStayTidy(s.mem, OrdersChecked(s, answers).mem);
  }

  lemma CheckedNamesStayNew(s: Sys, answers: Answers, names: map<string, OrderId>)
    requires NewNames(s.mem, names)
    ensures NewNames(OrdersChecked(s, answers).mem, names)
  {
    hide Exec, OrderPass, OpenOrders;
    PassAddsNoOrders(s, OpenOrders(s.mem, s.mem.ids), answers);
    NamesStayNew(s.mem, OrdersChecked(s, answers).mem, names);
  }
}
