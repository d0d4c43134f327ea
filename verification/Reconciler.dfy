/**
 * The periodic reconciler (execution/reconciler.py). What the broker answers in a pass is
 * an input; `None` for the positions stands for a failed query.
 */
module Reconciler {
  import opened Common
  import opened Orders
  import opened OmsState
  import opened Broker
  import opened Ghosts
  import opened KillSwitch
  import opened Reconciliation
  import T = Trading
  import opened Positions
  import opened Oms

  class ReconcilerLoop {
    const oms: OrderManager
    const kill: KillSwitchEngine
    const tolerance: real
    const orphanAgent: AgentId
    var alerted: set<string>          // symbols already paged for in the current outage
    var pages: seq<string>            // break events published so far
    var lastKillState: HaltState
    var stateEvents: seq<HaltState>   // kill-state changes published so far

    constructor (oms: OrderManager, kill: KillSwitchEngine, tolerance: real, orphanAgent: AgentId)
      ensures this.oms == oms && this.kill == kill && this.tolerance == tolerance && this.orphanAgent == orphanAgent
      ensures alerted == {} && pages == [] && lastKillState == kill.state && stateEvents == []
    {
      this.oms, this.kill, this.tolerance, this.orphanAgent := oms, kill, tolerance, orphanAgent;
      alerted, pages, lastKillState, stateEvents := {}, [], kill.state, [];
    }

    // ── Orders ─────────────────────────────────────────────────────────────────

    static predicate NeedsUpdate(o: Order, answers: Answers) {
      && o.brokerOrderId.Some? && o.brokerOrderId.value in answers
      && RequiresUpdate(o.state, answers[o.brokerOrderId.value].state)
    }

    static function Updates(open: seq<Order>, answers: Answers): nat {
      if open == [] then 0
      else
        Updates(open[..|open| - 1], answers) + (if NeedsUpdate(open[|open| - 1], answers) then 1 else 0)
    }

    /** What is sent to the order manager about an order that needs an update. */
    static lemma UpdateShape(m: Memory, order: Order, answers: Answers)
      requires NeedsUpdate(order, answers)
      ensures var u := answers[order.brokerOrderId.value];
              var delta := u.filledQty - order.filledQty;
              CheckScript(m, order, answers) ==
                if Executed(u.state) && delta > 0.0 then
                  T.React(m, NoticeOf(u, Some(T.SyntheticFill(CellOf(m, order.terms.id), u, delta, u.updatedAt))))
                else if u.state == BFilled then [T.Close(order.terms.id, u.updatedAt)]
                else T.React(m, NoticeOf(u, None))
    {
      hide T.React, T.SyntheticFill, CellOf;
    }

    /** One open order whose status the broker reports differently. */
    method UpdateOrder(order: Order, status: Status, ghost answers: Answers)
      requires oms.Valid() && order.terms.id in oms.orders
      requires NeedsUpdate(order, answers) && status == answers[order.brokerOrderId.value]
      modifies oms, oms.store
      ensures oms.Valid()
      ensures oms.Sys() == T.Exec(old(oms.Sys()), CheckScript(old(oms.Mem()), order, answers))
    {
      UpdateShape(oms.Mem(), order, answers);
      hide T.Exec, T.React, CheckScript, T.Step;
      var fill: Option<Fill> := None;
      var delta := status.filledQty - order.filledQty;
      var executed := status.state == BPartial || status.state == BFilled;
      if executed && delta > 0.0 {
        fill := Some(MakeUp(order.terms.id, status, delta));
      } else if executed && status.state == BFilled && delta <= 0.0 {
        T.ExecOne(oms.Sys(), T.Close(order.terms.id, status.updatedAt));
        oms.ForceCloseFilled(order.terms.id, status.updatedAt);
        return;
      }
      oms.OnBrokerEvent(Notice(status.brokerId, status.clientId, status.state, fill, None, status.updatedAt));
    }

    /** The fill made up for a quantity the order manager has not heard of. */
    function MakeUp(oid: OrderId, status: Status, delta: real): (fill: Fill)
      requires oms.Valid() && oid in oms.orders
      reads oms
      ensures fill == T.SyntheticFill(CellOf(oms.Mem(), oid), status, delta, status.updatedAt)
    {
      var own := oms.orders[oid];
      Fill(Synthetic(own.terms.id, |oms.fills[oid]|), own.terms.id, own.terms.agent, own.terms.symbol,
           own.terms.side, delta, status.avgFillPrice.GetOr(0.0), status.updatedAt, 0.0, status.state != BFilled)
    }

    /** One open order; the answer says whether it was updated. */
    method CheckOrder(order: Order, answers: Answers) returns (updated: nat)
      requires oms.Valid() && order.terms.id in oms.orders
      modifies oms, oms.store
      ensures oms.Valid() && oms.orders.Keys == old(oms.orders.Keys)
      ensures oms.Sys() == T.Exec(old(oms.Sys()), CheckScript(old(oms.Mem()), order, answers))
      ensures updated == if NeedsUpdate(order, answers) then 1 else 0
    {
      hide T.Exec, OrderManager.Mem, OrderManager.Sys;
      CheckAddsNoOrders(oms.Sys(), order, answers);
      T.ExecNone(oms.Sys());
      updated := 0;
      if order.brokerOrderId.Some? && order.brokerOrderId.value in answers {
        var status := answers[order.brokerOrderId.value];
        if RequiresUpdate(order.state, status.state) {
          hide CheckScript;
          UpdateOrder(order, status, answers);
          updated := 1;
        }
      }
      assert oms.Mem().cells.Keys == oms.orders.Keys;
    }

    method ReconcileOrders(open: seq<Order>, answers: Answers) returns (updated: nat)
      requires oms.Valid() && forall i :: 0 <= i < |open| ==> open[i].terms.id in oms.orders
      modifies oms, oms.store
      ensures oms.Valid()
      ensures oms.Sys() == T.Exec(old(oms.Sys()), OrderPass(old(oms.Sys()), open, answers))
      ensures updated == Updates(open, answers)
    {
      hide T.Exec, CheckScript, OrderManager.Mem, OrderManager.Sys, NeedsUpdate;
      ghost var s0 := oms.Sys();
      T.ExecNone(s0);
      updated := 0;
      for i := 0 to |open|
        invariant oms.Valid() && oms.orders.Keys == old(oms.orders.Keys)
        invariant oms.Sys() == T.Exec(s0, OrderPass(s0, open[..i], answers))
        invariant updated == Updates(open[..i], answers)
      {
        assert open[..i + 1][..i] == open[..i];
        T.ExecConcat(s0, OrderPass(s0, open[..i], answers), CheckScript(oms.Sys().mem, open[i], answers));
        var more := CheckOrder(open[i], answers);
        updated := updated + more;
      }
      assert open[..|open|] == open;
    }

    // ── Positions ──────────────────────────────────────────────────────────────

    /** The net position of every symbol that has one. */
    method ComputeExpectedPositions() returns (positions: map<string, real>)
      requires oms.Valid() && forall oid :: oid in oms.ids ==> oid in oms.orders
      ensures forall symbol :: symbol in positions <==> Expected(oms.Mem(), oms.ids, symbol) != 0.0
      ensures forall symbol :: symbol in positions ==> positions[symbol] == Expected(oms.Mem(), oms.ids, symbol)
    {
      var net: map<string, real> := map[];
      for i := 0 to |oms.ids|
        invariant forall symbol :: ValueOr(net, symbol, 0.0) == Expected(oms.Mem(), oms.ids[..i], symbol)
      {
        var fills := oms.fills[oms.ids[i]];
        ghost var start := net;
        for j := 0 to |fills|
          invariant forall symbol ::
                      ValueOr(net, symbol, 0.0) == ValueOr(start, symbol, 0.0) + Booked(fills[..j], symbol)
        {
          var fill := fills[j];
          var sign := if fill.side == Buy then 1.0 else -1.0;
          ghost var before := net;
          net := net[fill.symbol := ValueOr(net, fill.symbol, 0.0) + sign * fill.qty];
          assert fills[..j + 1][..j] == fills[..j];
          ghost var moved := Signed(fill.side, fill.qty);
          assert forall symbol ::
                   ValueOr(net, symbol, 0.0)
                   == ValueOr(before, symbol, 0.0) + (if symbol == fill.symbol then moved else 0.0);
        }
        assert fills[..|fills|] == fills;
        assert oms.ids[..i + 1][..i] == oms.ids[..i];
      }
      assert oms.ids[..|oms.ids|] == oms.ids;
      positions := map symbol | symbol in net && net[symbol] != 0.0 :: net[symbol];
      assert forall symbol :: ValueOr(net, symbol, 0.0) == Expected(oms.Mem(), oms.ids, symbol);
    }

    /** Write one orphan back as a ghost order; `lines` is how far that gets before it raises, three if it does not. */
    method Adopt(symbol: string, h: Holding, oid: OrderId, ts: Time, lines: nat)
      requires oms.Valid() && oid !in oms.orders && lines <= 3
      modifies oms, oms.store
      ensures oms.Valid() && oms.orders.Keys <= old(oms.orders.Keys) + {oid}
      ensures oms.Sys() == T.Exec(old(oms.Sys()), GhostPart(Adoption(symbol, h, oid, orphanAgent), ts, lines))
    {
      hide GhostPart, T.Exec;
      GhostKnown(oms.Sys(), Adoption(symbol, h, oid, orphanAgent), ts, lines);
      assert oms.Mem().cells.Keys == oms.orders.Keys;
      oms.AdoptOrphanPosition(oid, oid, Synthetic(oid, 0), symbol, h.qty, h.current, orphanAgent, ts, lines);
      assert oms.Mem().cells.Keys == oms.orders.Keys;
    }

    /** A symbol counts as a mismatch if it mismatches, or if adopting it raised. */
    predicate Counts(m: Memory, holdings: map<string, Holding>, faults: Faults, symbol: string) {
      var verdict := JudgeSymbol(m, holdings, tolerance, symbol);
      verdict == Mismatch || (verdict == Orphan && symbol in faults)
    }

    /** The symbols seen so far, split into mismatches and orphans. */
    ghost predicate Collected(m: Memory, holdings: map<string, Holding>, faults: Faults, seen: set<string>,
                              found: seq<string>, adopted: seq<string>) {
      && NoDup(found) && NoDup(adopted)
      && (forall symbol :: symbol in found <==> symbol in seen && Counts(m, holdings, faults, symbol))
      && (forall symbol ::
          symbol in adopted <==> symbol in seen && JudgeSymbol(m, holdings, tolerance, symbol) == Orphan)
    }

    lemma CollectedNone(m: Memory, holdings: map<string, Holding>, faults: Faults)
      ensures Collected(m, holdings, faults, {}, [], [])
    {
    }

    lemma CollectedOneMore(m: Memory, holdings: map<string, Holding>, faults: Faults, all: set<string>,
                           todo: set<string>, found: seq<string>, adopted: seq<string>, symbol: string)
      requires symbol in todo && todo <= all && Collected(m, holdings, faults, all - todo, found, adopted)
      ensures var verdict := JudgeSymbol(m, holdings, tolerance, symbol);
              && symbol !in adopted
              && Collected(m, holdings, faults, all - (todo - {symbol}),
                           if Counts(m, holdings, faults, symbol) then found + [symbol] else found,
                           if verdict == Orphan then adopted + [symbol] else adopted)
    {
      hide JudgeSymbol, Counts;
    }

    lemma CollectedAll(m: Memory, holdings: map<string, Holding>, faults: Faults, expected: map<string, real>,
                       found: seq<string>, adopted: seq<string>)
      requires tolerance > 0.0 && Collected(m, holdings, faults, expected.Keys + holdings.Keys, found, adopted)
      requires forall symbol :: symbol in expected <==> Expected(m, m.ids, symbol) != 0.0
      ensures NoDup(found) && NoDup(adopted)
      ensures forall symbol :: symbol in found <==> Counts(m, holdings, faults, symbol)
      ensures forall symbol :: symbol in adopted <==> JudgeSymbol(m, holdings, tolerance, symbol) == Orphan
    {
      hide Expected;
    }

    /** The named symbols have been adopted since s0, as far as that went; the names of the others are still unused. */
    ghost predicate Adopting(s0: T.Sys, s1: T.Sys, adopted: seq<string>, holdings: map<string, Holding>,
                             names: map<string, OrderId>, faults: Faults, ts: Time)
    {
      && (forall symbol :: symbol in adopted ==> symbol in holdings && symbol in names)
      && (forall symbol :: symbol in names && symbol !in adopted ==> names[symbol] !in s1.mem.cells)
      && (forall a, b :: a in names && b in names && a != b ==> names[a] != names[b])
      && s1 == T.Exec(s0, AdoptSome(adopted, holdings, names, faults, orphanAgent, ts))
    }

    lemma NothingAdopted(s0: T.Sys, holdings: map<string, Holding>, names: map<string, OrderId>, faults: Faults,
                         ts: Time)
      requires NewNames(s0.mem, names)
      ensures Adopting(s0, s0, [], holdings, names, faults, ts)
    {
      T.ExecNone(s0);
      hide T.Exec;
    }

    /** Compare every symbol, adopt the orphans and collect the rest, with those whose adoption raised. */
    method CompareAll(holdings: map<string, Holding>, names: map<string, OrderId>, faults: Faults, ts: Time)
      returns (found: seq<string>, ghost adopted: seq<string>)
      requires oms.Valid() && tolerance > 0.0
      requires forall oid :: oid in oms.ids ==> oid in oms.orders
      requires NewNames(oms.Mem(), names) && forall symbol :: symbol in holdings ==> symbol in names
      modifies oms, oms.store
      ensures oms.Valid() && NoDup(found) && NoDup(adopted)
      ensures forall symbol :: symbol in found <==> Counts(old(oms.Mem()), holdings, faults, symbol)
      ensures forall symbol :: symbol in adopted <==> JudgeSymbol(old(oms.Mem()), holdings, tolerance, symbol) == Orphan
      ensures Adopting(old(oms.Sys()), oms.Sys(), adopted, holdings, names, faults, ts)
    {
      hide JudgeSymbol, T.Exec, Expected, Collected, Adopting, OrderManager.Mem, OrderManager.Sys, NewNames, Judge;
      var expected := ComputeExpectedPositions();
      ghost var s0 := oms.Sys();
      CollectedNone(s0.mem, holdings, faults);
      NothingAdopted(s0, holdings, names, faults, ts);
      var all := expected.Keys + holdings.Keys;
      var todo := all;
      found, adopted := [], [];
      assert all - todo == {};
      while todo != {}
        invariant oms.Valid() && todo <= all
        invariant Collected(s0.mem, holdings, faults, all - todo, found, adopted)
        invariant Adopting(s0, oms.Sys(), adopted, holdings, names, faults, ts)
        decreases |todo|
      {
        var symbol :| symbol in todo;
        CollectedOneMore(s0.mem, holdings, faults, all, todo, found, adopted, symbol);
        todo := todo - {symbol};
        var verdict := Compare(expected, holdings, symbol);
        JudgedByNet(s0.mem, expected, holdings, symbol);
        if verdict == Orphan {
          AdoptNext(s0, adopted, symbol, holdings, names, faults, ts);
          adopted := adopted + [symbol];
          if symbol in faults {
            found := found + [symbol];
          }
        } else if verdict == Mismatch {
          found := found + [symbol];
        }
      }
      assert all - todo == all;
      CollectedAll(s0.mem, holdings, faults, expected, found, adopted);
    }

    lemma JudgedByNet(m: Memory, expected: map<string, real>, holdings: map<string, Holding>, symbol: string)
      requires symbol in expected <==> Expected(m, m.ids, symbol) != 0.0
      requires symbol in expected ==> expected[symbol] == Expected(m, m.ids, symbol)
      ensures Judge(ValueOr(expected, symbol, 0.0), Lookup(holdings, symbol), tolerance)
           == JudgeSymbol(m, holdings, tolerance, symbol)
    {
    }

    method Compare(expected: map<string, real>, holdings: map<string, Holding>, symbol: string)
      returns (verdict: Verdict)
      ensures verdict == Judge(ValueOr(expected, symbol, 0.0), Lookup(holdings, symbol), tolerance)
      ensures verdict == Orphan ==> symbol in holdings
    {
      var ours := ValueOr(expected, symbol, 0.0);
      var qty := if symbol in holdings then holdings[symbol].qty else 0.0;
      var price := if symbol in holdings then holdings[symbol].current else 0.0;
      var qtyDrift := Abs(ours - qty);
      var dollarDrift := qtyDrift * price;
      if qtyDrift < tolerance && dollarDrift <= DOLLAR_TOLERANCE {
        return Agrees;
      }
      if ours == 0.0 && qty > 0.0 {
        return Orphan;
      }
      return Mismatch;
    }

    /** Adopt one more orphan after those already adopted in this pass. */
    method AdoptNext(ghost s0: T.Sys, ghost adopted: seq<string>, symbol: string, holdings: map<string, Holding>,
                     names: map<string, OrderId>, faults: Faults, ts: Time)
      requires oms.Valid() && symbol in holdings && symbol in names && symbol !in adopted
      requires Adopting(s0, oms.Sys(), adopted, holdings, names, faults, ts)
      modifies oms, oms.store
      ensures oms.Valid() && Adopting(s0, oms.Sys(), adopted + [symbol], holdings, names, faults, ts)
    {
      hide T.Exec, GhostPart, OrderManager.Mem, OrderManager.Sys, Written;
      var lines := Written(faults, symbol);
      Adopt(symbol, holdings[symbol], names[symbol], ts, lines);
      ghost var g := Adoption(symbol, holdings[symbol], names[symbol], orphanAgent);
      T.ExecConcat(s0, AdoptSome(adopted, holdings, names, faults, orphanAgent, ts), GhostPart(g, ts, lines));
      ghost var more := adopted + [symbol];
      assert more[..|more| - 1] == adopted;
    }

    /** The mismatches a pass pages for: the first five at most. */
    static function FirstFive(found: seq<string>): seq<string> {
      found[..if |found| < 5 then |found| else 5]
    }

    /**
     * Paging reached the first `upto` of the first five mismatches: each of them not paged
     * for before is, and the symbols that agree again are forgotten. It stops short only at
     * a symbol whose adoption raised, which has no details to page.
     */
    static ghost predicate Paged(found: seq<string>, faults: set<string>, upto: nat, alerted0: set<string>,
                                 pages0: seq<string>, alerted: set<string>, pages: seq<string>)
    {
      var first := FirstFive(found);
      && upto <= |first| && (upto < |first| ==> first[upto] in faults && first[upto] !in alerted0)
      && (forall i :: 0 <= i < upto && first[i] in faults ==> first[i] in alerted0)
      && pages0 <= pages && NoDup(pages[|pages0|..])
      && (forall symbol :: symbol in pages[|pages0|..] <==> symbol in first[..upto] && symbol !in alerted0)
      && (forall symbol ::
          symbol in alerted <==> (symbol in alerted0 && symbol in found) || symbol in pages[|pages0|..])
    }

    /** Page for the mismatches, each once per outage and at most the first five in a pass. */
    method Page(found: seq<string>, faults: set<string>) returns (ghost upto: nat)
      requires NoDup(found)
      modifies this`alerted, this`pages
      ensures Paged(found, faults, upto, old(alerted), old(pages), alerted, pages)
    {
      var kept := set symbol | symbol in alerted && symbol in found;
      alerted := kept;
      var first := FirstFive(found);
      var i := 0;
      while i < |first| && (first[i] in alerted || first[i] !in faults)
        invariant i <= |first| && alerted <= old(alerted) + (set symbol | symbol in first[..i])
        invariant forall j :: 0 <= j < i && first[j] in faults ==> first[j] in old(alerted)
        invariant old(pages) <= pages && NoDup(pages[|old(pages)|..])
        invariant forall symbol :: symbol in pages[|old(pages)|..] <==> symbol in first[..i] && symbol !in old(alerted)
        invariant forall symbol :: symbol in alerted <==> symbol in kept || symbol in pages[|old(pages)|..]
      {
        assert forall symbol :: symbol in first[..i + 1] <==> symbol in first[..i] || symbol == first[i];
        assert first[i] !in first[..i];
        if first[i] !in alerted {
          ghost var before := pages;
          pages := pages + [first[i]];
          assert pages[|old(pages)|..] == before[|old(pages)|..] + [first[i]];
          alerted := alerted + {first[i]};
        }
        i := i + 1;
      }
      upto := i;
    }

    /**
     * The mismatches and the orphans of a position check, each once; a symbol whose
     * adoption raised is both. A failed query has none.
     */
    ghost predicate Judged(m: Memory, positions: Option<map<string, Holding>>, names: map<string, OrderId>,
                           faults: Faults, found: seq<string>, adopted: seq<string>)
    {
      && NoDup(found) && NoDup(adopted)
      && (positions.None? ==> found == [] && adopted == [])
      && (positions.Some? ==> forall symbol :: symbol in found <==> Counts(m, positions.value, faults, symbol))
      && (positions.Some? ==>
          forall symbol :: symbol in adopted <==> JudgeSymbol(m, positions.value, tolerance, symbol) == Orphan)
      && (positions.Some? ==> forall symbol :: symbol in adopted ==> symbol in positions.value && symbol in names)
    }

    /** The system after a position check: every orphan adopted, as far as that went, and nothing else touched. */
    ghost function AfterAdoption(s: T.Sys, positions: Option<map<string, Holding>>, names: map<string, OrderId>,
                                 faults: Faults, adopted: seq<string>, ts: Time): T.Sys
      requires positions.Some? ==> forall symbol :: symbol in adopted ==> symbol in positions.value && symbol in names
    {
      match positions
      case None => s
      case Some(holdings) => T.Exec(s, AdoptSome(adopted, holdings, names, faults, orphanAgent, ts))
    }

    /** `faults` are the adoptions that raise in this pass. */
    method ReconcilePositions(positions: Option<map<string, Holding>>, names: map<string, OrderId>, faults: Faults,
                              ts: Time)
      returns (mismatches: nat, tripped: bool, ghost found: seq<string>, ghost adopted: seq<string>, ghost upto: nat)
      requires oms.Valid() && tolerance > 0.0
      requires forall oid :: oid in oms.ids ==> oid in oms.orders
      requires NewNames(oms.Mem(), names)
            && (positions.Some? ==> forall symbol :: symbol in positions.value ==> symbol in names)
      modifies this`alerted, this`pages, oms, oms.store, kill`state
      ensures oms.Valid() && mismatches == |found| && tripped == (found != [])
      ensures Judged(old(oms.Mem()), positions, names, faults, found, adopted)
      ensures oms.Sys() == AfterAdoption(old(oms.Sys()), positions, names, faults, adopted, ts)
      ensures kill.state == if tripped then ReconciliationBreak else old(kill.state)
      ensures positions.Some? ==> Paged(found, faults.Keys, upto, old(alerted), old(pages), alerted, pages)
      ensures positions.None? ==> alerted == old(alerted) && pages == old(pages)
    {
      ghost var s0 := oms.Sys();
      hide Paged, Judged, AfterAdoption, Adopting, Counts, JudgeSymbol, T.Exec, OrderManager.Mem, OrderManager.Sys,
           NewNames;
      if positions.None? {
        NothingJudged(s0, names, faults, ts);
        return 0, false, [], [], 0;
      }
      var wrong, orphans := CompareAll(positions.value, names, faults, ts);
      AdoptedAfter(s0, oms.Sys(), positions.value, names, faults, wrong, orphans, ts);
      if wrong != [] {
        kill.TripReconciliationBreak();
      }
      upto := Page(wrong, faults.Keys);
      return |wrong|, wrong != [], wrong, orphans, upto;
    }

    lemma NothingJudged(s: T.Sys, names: map<string, OrderId>, faults: Faults, ts: Time)
      ensures Judged(s.mem, None, names, faults, [], []) && AfterAdoption(s, None, names, faults, [], ts) == s
    {
    }

    lemma AdoptedAfter(s0: T.Sys, s1: T.Sys, holdings: map<string, Holding>, names: map<string, OrderId>,
                       faults: Faults, found: seq<string>, adopted: seq<string>, ts: Time)
      requires NoDup(found) && NoDup(adopted) && Adopting(s0, s1, adopted, holdings, names, faults, ts)
      requires forall symbol :: symbol in found <==> Counts(s0.mem, holdings, faults, symbol)
      requires forall symbol :: symbol in adopted <==> JudgeSymbol(s0.mem, holdings, tolerance, symbol) == Orphan
      ensures Judged(s0.mem, Some(holdings), names, faults, found, adopted)
      ensures s1 == AfterAdoption(s0, Some(holdings), names, faults, adopted, ts)
    {
      hide Counts, JudgeSymbol, T.Exec, AdoptSome;
    }

    // ── A pass ─────────────────────────────────────────────────────────────────

    /**
     * One pass: check the open orders, then the positions. `found` and `adopted` are the
     * mismatches and the orphans after the order pass.
     */
    method ReconcileOnce(ts: int, answers: Answers, positions: Option<map<string, Holding>>,
                         names: map<string, OrderId>, faults: Faults)
      returns (checked: nat, updated: nat, mismatches: nat, tripped: bool, ghost found: seq<string>,
               ghost adopted: seq<string>, ghost upto: nat)
      requires oms.Valid() && Tidy(oms.Mem()) && tolerance > 0.0
      requires NewNames(oms.Mem(), names)
            && (positions.Some? ==> forall symbol :: symbol in positions.value ==> symbol in names)
      modifies this, oms, oms.store, kill`state
      ensures oms.Valid() && Tidy(oms.Mem())
      ensures var open := OpenOrders(old(oms.Mem()), old(oms.ids));
              var mid := OrdersChecked(old(oms.Sys()), answers);
              && checked == |open| && updated == Updates(open, answers) && mismatches == |found|
              && tripped == (found != [])
              && Judged(mid.mem, positions, names, faults, found, adopted)
              && oms.Sys() == AfterAdoption(mid, positions, names, faults, adopted, ts)
              && (kill.state == ReconciliationBreak <==> Broken(mid.mem, positions, faults))
      ensures positions.Some? ==> Paged(found, faults.Keys, upto, old(alerted), old(pages), alerted, pages)
      ensures lastKillState == kill.state
      ensures stateEvents == old(stateEvents) + (if kill.state == old(lastKillState) then [] else [kill.state])
    {
      hide OrderPass, OpenOrders, T.Exec, Broken, NewNames, OpenList, OrderManager.Mem, OrderManager.Sys, Updates,
           Paged, Judged, AfterAdoption;
      var _ := kill.CheckHeartbeat(ts);
      ghost var s0 := oms.Sys();
      var open := oms.ListOpenOrders();
      OpenOrdersListed(s0.mem, s0.mem.ids);
      PassAddsNoOrders(s0, open, answers);
      updated := ReconcileOrders(open, answers);
      NamesStayNew(s0.mem, oms.Mem(), names);
      CheckedStaysTidy(s0, answers);
      assert oms.Sys() == OrdersChecked(s0, answers);
      ghost var mid := oms.Sys();
      mismatches, tripped, found, adopted, upto := SettleBreak(positions, names, faults, ts);
      AdoptionStaysTidy(mid, positions, names, faults, found, adopted, ts);
      PublishState();
      checked := |open|;
    }

    lemma AdoptionStaysTidy(s: T.Sys, positions: Option<map<string, Holding>>, names: map<string, OrderId>,
                            faults: Faults, found: seq<string>, adopted: seq<string>, ts: Time)
      requires Tidy(s.mem) && NewNames(s.mem, names) && Judged(s.mem, positions, names, faults, found, adopted)
      ensures Tidy(AfterAdoption(s, positions, names, faults, adopted, ts).mem)
    {
      hide T.Exec, AdoptSome, Tidy, NewNames, JudgeSymbol, Counts;
      if positions.Some? {
        AdoptSomeStaysTidy(s, adopted, positions.value, names, faults, orphanAgent, ts);
      }
    }

    /**
     * Two passes in a row over the same answers and the same positions, no adoption
     * raising: the second adopts nothing, finds the mismatches of the first and no others,
     * and judges the break the same.
     */
    lemma SecondPassAdoptsNothing(s: T.Sys, answers: Answers, positions: Option<map<string, Holding>>, ts: Time,
                                  names: map<string, OrderId>, found: seq<string>, adopted: seq<string>,
                                  namesAgain: map<string, OrderId>, foundAgain: seq<string>, adoptedAgain: seq<string>)
      requires Tidy(s.mem) && AnswersFit(s.mem, answers) && NewNames(s.mem, names) && tolerance > 0.0
      requires Judged(OrdersChecked(s, answers).mem, positions, names, map[], found, adopted)
      requires var done := AfterAdoption(OrdersChecked(s, answers), positions, names, map[], adopted, ts);
               Judged(OrdersChecked(done, answers).mem, positions, namesAgain, map[], foundAgain, adoptedAgain)
      ensures adoptedAgain == []
           && (forall symbol :: symbol in foundAgain <==> symbol in found) && |foundAgain| == |found|
      ensures Broken(OrdersChecked(AfterAdoption(OrdersChecked(s, answers), positions, names, map[], adopted, ts),
                                   answers).mem, positions, map[])
         <==> Broken(OrdersChecked(s, answers).mem, positions, map[])
    {
      var m1 := OrdersChecked(s, answers).mem;
      var m2 := OrdersChecked(AfterAdoption(OrdersChecked(s, answers), positions, names, map[], adopted, ts),
                              answers).mem;
      BrokenIffFound(m1, positions, names, map[], found, adopted);
      BrokenIffFound(m2, positions, namesAgain, map[], foundAgain, adoptedAgain);
      if positions.Some? {
        hide OrdersChecked, T.Exec, AdoptAll, AdoptSome, Tidy, AnswersFit, NewNames, JudgeSymbol, Broken;
        NoFaultAdoptsAll(adopted, positions.value, names, map[], orphanAgent, ts);
        forall symbol
          ensures JudgeSymbol(m2, positions.value, tolerance, symbol) != Orphan
          ensures JudgeSymbol(m2, positions.value, tolerance, symbol) == Mismatch
             <==> JudgeSymbol(m1, positions.value, tolerance, symbol) == Mismatch
        {
          NextPassAdoptsNothing(s, answers, adopted, positions.value, names, orphanAgent, ts, tolerance, symbol);
        }
        SetOfDistinct(adoptedAgain);
        assert (set symbol | symbol in adoptedAgain) == {};
        SameElementsSameLength(found, foundAgain);
      }
      hide *;
    }

    static lemma {:induction false} SetOfDistinct(symbols: seq<string>)
      requires NoDup(symbols)
      ensures |set symbol | symbol in symbols| == |symbols|
    {
      if symbols != [] {
        var init, last := symbols[..|symbols| - 1], symbols[|symbols| - 1];
        assert symbols == init + [last];
        SetOfDistinct(init);
        assert (set symbol | symbol in symbols) == (set symbol | symbol in init) + {last};
      }
    }

    static lemma SameElementsSameLength(a: seq<string>, b: seq<string>)
      requires NoDup(a) && NoDup(b) && forall symbol :: symbol in a <==> symbol in b
      ensures |a| == |b|
    {
      SetOfDistinct(a);
      SetOfDistinct(b);
      assert (set symbol | symbol in a) == (set symbol | symbol in b);
    }

    /**
     * A position the broker does not report has no price, so the one-dollar check cannot
     * fail: it is found as a mismatch exactly from the share tolerance on, whatever it is
     * worth, and is never adopted.
     */
    lemma UnreportedFoundIffLarge(m: Memory, holdings: map<string, Holding>, names: map<string, OrderId>,
                                  faults: Faults, found: seq<string>, adopted: seq<string>)
      requires Judged(m, Some(holdings), names, faults, found, adopted) && tolerance > 0.0
      ensures forall symbol :: symbol !in holdings ==>
                symbol !in adopted && (symbol in found <==> Abs(Expected(m, m.ids, symbol)) >= tolerance)
    {
      hide Expected;
      forall symbol | symbol !in holdings
        ensures symbol !in adopted && (symbol in found <==> Abs(Expected(m, m.ids, symbol)) >= tolerance)
      {
        assert symbol in found <==> Counts(m, holdings, faults, symbol);
      }
    }

    /**
     * Five thousandths of a coin worth sixty thousand dollars, below a share tolerance of
     * one hundredth: with the broker reporting none it agrees, three hundred dollars
     * apart; had the broker reported the symbol with nothing in it, it would mismatch.
     */
    static lemma UnreportedCoinGoesUnnoticed()
      ensures var g := Ghost.Ghost(1, 1, Synthetic(1, 0), Buy, "BTCUSD", 0.005, 60000.0, Haiku);
              var m := WithGhost(EMPTY, g, 0, 3);
              && Expected(m, m.ids, "BTCUSD") == 0.005
              && JudgeSymbol(m, map[], 0.01, "BTCUSD") == Agrees
              && JudgeSymbol(m, map["BTCUSD" := Holding(0.0, 60000.0, 60000.0)], 0.01, "BTCUSD") == Mismatch
    {
      var g := Ghost.Ghost(1, 1, Synthetic(1, 0), Buy, "BTCUSD", 0.005, 60000.0, Haiku);
      ExpectedWithGhost(EMPTY, g, 0, "BTCUSD");
      hide WithGhost, Expected;
      assert Expected(EMPTY, EMPTY.ids, "BTCUSD") == 0.0 by {
        NothingExpected("BTCUSD");
      }
    }

    static lemma NothingExpected(symbol: string)
      ensures Expected(EMPTY, EMPTY.ids, symbol) == 0.0
    {
    }

    /** Some symbol of a successful position query mismatches, or its adoption raised. */
    ghost predicate Broken(m: Memory, positions: Option<map<string, Holding>>, faults: Faults) {
      positions.Some? && exists symbol :: Counts(m, positions.value, faults, symbol)
    }

    lemma BrokenIffFound(m: Memory, positions: Option<map<string, Holding>>, names: map<string, OrderId>,
                         faults: Faults, found: seq<string>, adopted: seq<string>)
      requires Judged(m, positions, names, faults, found, adopted)
      ensures Broken(m, positions, faults) <==> found != []
    {
      hide JudgeSymbol, Counts;
      if found != [] {
        assert found[0] in found;
      }
    }

    /** The position check sets the break, and a check without mismatches clears it. */
    method SettleBreak(positions: Option<map<string, Holding>>, names: map<string, OrderId>, faults: Faults, ts: Time)
      returns (mismatches: nat, tripped: bool, ghost found: seq<string>, ghost adopted: seq<string>, ghost upto: nat)
      requires oms.Valid() && tolerance > 0.0
      requires forall oid :: oid in oms.ids ==> oid in oms.orders
      requires NewNames(oms.Mem(), names)
            && (positions.Some? ==> forall symbol :: symbol in positions.value ==> symbol in names)
      modifies this`alerted, this`pages, oms, oms.store, kill`state
      ensures oms.Valid() && mismatches == |found| && tripped == (found != [])
      ensures Judged(old(oms.Mem()), positions, names, faults, found, adopted)
      ensures oms.Sys() == AfterAdoption(old(oms.Sys()), positions, names, faults, adopted, ts)
      ensures kill.state == ReconciliationBreak <==> Broken(old(oms.Mem()), positions, faults)
      ensures positions.Some? ==> Paged(found, faults.Keys, upto, old(alerted), old(pages), alerted, pages)
    {
      hide T.Exec, AdoptSome, JudgeSymbol, Judged, AfterAdoption, Paged, Broken;
      ghost var m := oms.Mem();
      mismatches, tripped, found, adopted, upto := ReconcilePositions(positions, names, faults, ts);
      BrokenIffFound(m, positions, names, faults, found, adopted);
      if mismatches == 0 {
        kill.ClearReconciliationBreak();
      }
    }

    method PublishState()
      modifies this`lastKillState, this`stateEvents
      ensures lastKillState == kill.state
      ensures stateEvents == old(stateEvents) + (if kill.state == old(lastKillState) then [] else [kill.state])
    {
      if kill.state != lastKillState {
        stateEvents := stateEvents + [kill.state];
        lastKillState := kill.state;
      }
    }
  }
}
