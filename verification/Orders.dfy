/**
 * Orders, fills and the order life cycle (core/types.py, core/state_machine.py).
 *
 * Decimals are exact reals, instants are integers, and a UUID is an opaque token:
 * an order id is a natural number, a broker order id says who issued it.
 */
module Orders {
  import opened Common

  type OrderId = nat
  type Time = int

  datatype BrokerId = Venue(n: nat) | Ghost(of: OrderId) | GhostFee(of: OrderId)

  /** A fill id is issued by the broker, or made up by the OMS for a fill it synthesises. */
  datatype FillId = VenueFill(n: nat) | Synthetic(order: OrderId, n: nat)

  datatype Side = Buy | Sell

  datatype AgentId = Haiku | Sonnet | Opus | Manager

  datatype OrderState =
    | Pending | Submitted | Accepted | Partial
    | Filled | Cancelled | Rejected | Expired

  datatype OrderEvent = Submit | Accept | PartialFill | FullFill | Cancel | Reject | Expire

  datatype OrderType = Market | Limit | Stop | StopLimit | TrailingStop

  datatype OrderClass = Simple | Bracket | Oco | Oto | Mleg

  datatype TimeInForce = Day | Gtc | Opg | Cls | Ioc | Fok

  datatype Leg = Leg(symbol: string, side: Side, ratio: int)

  /** The fields of an order that nothing changes after it is created. */
  datatype Terms = Terms(
    id: OrderId,
    intentId: nat,
    agent: AgentId,
    symbol: string,
    side: Side,
    orderType: OrderType,
    orderClass: OrderClass,
    tif: TimeInForce,
    createdAt: Time,
    limitPrice: Option<real>,
    stopPrice: Option<real>,
    isLetf: bool)

  /** The fields that the event log does not store. */
  datatype Unlogged = Unlogged(trailPercent: Option<real>, legs: seq<Leg>, letfEntryDate: Option<int>)

  const NOTHING_UNLOGGED := Unlogged(None, [], None)

  datatype Order = Order(
    terms: Terms,
    extra: Unlogged,
    qty: real,
    state: OrderState,
    brokerOrderId: Option<BrokerId>,
    submittedAt: Option<Time>,
    filledAt: Option<Time>,
    filledQty: real,
    filledAvgPrice: Option<real>,
    rejectionReason: Option<string>)

  datatype Fill = Fill(
    id: FillId,
    order: OrderId,
    agent: AgentId,
    symbol: string,
    side: Side,
    qty: real,
    price: real,
    timestamp: Time,
    commission: real,
    isPartial: bool)

  /** Accepted by the broker and not over. */
  predicate AtVenue(s: OrderState) {
    s.Accepted? || s.Partial?
  }

  predicate Terminal(s: OrderState) {
    s.Filled? || s.Cancelled? || s.Rejected? || s.Expired?
  }

  /** The arc table of build_order_fsm. */
  function Next(s: OrderState, e: OrderEvent): Option<OrderState> {
    match (s, e)
    case (Pending, Submit) => Some(Submitted)
    case (Submitted, Accept) => Some(Accepted)
    case (Accepted, PartialFill) => Some(Partial)
    case (Accepted, FullFill) => Some(Filled)
    case (Partial, FullFill) => Some(Filled)
    case (Partial, PartialFill) => Some(Partial)
    case (Submitted, Cancel) => Some(Cancelled)
    case (Accepted, Cancel) => Some(Cancelled)
    case (Partial, Cancel) => Some(Cancelled)
    case (Pending, Reject) => Some(Rejected)
    case (Submitted, Reject) => Some(Rejected)
    case (Accepted, Reject) => Some(Rejected)
    case (Accepted, Expire) => Some(Expired)
    case (Partial, Expire) => Some(Expired)
    case _ => None
  }

  /** The state every arc of an event leads to, whatever the state it leaves. */
  function Target(e: OrderEvent): OrderState {
    match e
    case Submit => Submitted
    case Accept => Accepted
    case PartialFill => Partial
    case FullFill => Filled
    case Cancel => Cancelled
    case Reject => Rejected
    case Expire => Expired
  }

  datatype Hop = Hop(from: OrderState, event: OrderEvent, to: OrderState)

  /** A state machine seen as a value: where it is and how it got there. */
  datatype Fsm = Fsm(state: OrderState, history: seq<Hop>)

  const NEW_FSM := Fsm(Pending, [])

  /** One trigger: an event without an arc changes nothing. */
  function Fire(f: Fsm, e: OrderEvent): Fsm {
    match Next(f.state, e)
    case None => f
    case Some(s) => Fsm(s, f.history + [Hop(f.state, e, s)])
  }

  /** The history is a walk over arcs that starts at `from` and ends at `to`. */
  ghost predicate Walk(from: OrderState, history: seq<Hop>, to: OrderState) {
    if history == [] then from == to
    else
      var last := history[|history| - 1];
      && last.to == to
      && Next(last.from, last.event) == Some(to)
      && Walk(from, history[..|history| - 1], last.from)
  }

  lemma FireWalks(f: Fsm, e: OrderEvent)
    requires Walk(Pending, f.history, f.state)
    ensures Walk(Pending, Fire(f, e).history, Fire(f, e).state)
  {
    var g := Fire(f, e);
    if g != f {
      assert g.history[..|g.history| - 1] == f.history;
    }
  }

  /** Where a life cycle stands on the ladder; every arc but PARTIAL to PARTIAL climbs. */
  function Height(s: OrderState): nat {
    match s
    case Pending => 0
    case Submitted => 1
    case Accepted => 2
    case Partial => 3
    case _ => 4
  }

  /** No walk goes back down, and a walk cannot leave a terminal state. */
  lemma {:induction false} WalkClimbs(from: OrderState, history: seq<Hop>, to: OrderState)
    requires Walk(from, history, to)
    ensures Height(from) <= Height(to)
    ensures Terminal(from) ==> history == [] && to == from
    ensures from != to || history == [] || from == Partial
  {
    if history != [] {
      var last := history[|history| - 1];
      WalkClimbs(from, history[..|history| - 1], last.from);
    }
  }

  /**
   * The state machine as the program runs it: a table built from a list of arcs
   * (a repeated arc is an error), a current state and a history. A history entry
   * without an event is a forced reset. An arc may name a guard, asked when the arc is
   * tried, and an action, performed before the state moves.
   */
  datatype Arc<S, E> = Arc(from: S, event: E, to: S, guard: Option<nat> := None, action: Option<nat> := None)

  function Table<S(==), E(==)>(arcs: seq<Arc<S, E>>): map<(S, E), Arc<S, E>> {
    if arcs == [] then map[]
    else
      var last := arcs[|arcs| - 1];
      Table(arcs[..|arcs| - 1])[(last.from, last.event) := last]
  }

  class StateMachine<S(==), E(==)> {
    var state: S
    var history: seq<(S, Option<E>, S)>
    var performed: seq<nat>          // the actions performed so far
    const table: map<(S, E), Arc<S, E>>

    constructor (initial: S, table: map<(S, E), Arc<S, E>>)
      ensures state == initial && history == [] && performed == [] && this.table == table
    {
      this.state, this.history, this.performed := initial, [], [];
      this.table := table;
    }

    /** There is an arc from here, and its guard, if it has one, lets it pass. */
    predicate CanTrigger(event: E, passes: nat -> bool)
      reads this
    {
      (state, event) in table && (table[(state, event)].guard.None? || passes(table[(state, event)].guard.value))
    }

    /** `passes` is what each guard answers now. */
    method Trigger(event: E, passes: nat -> bool) returns (ok: bool)
      modifies this
      ensures ok == old(CanTrigger(event, passes))
      ensures !ok ==> state == old(state) && history == old(history) && performed == old(performed)
      ensures ok ==>
                var arc := table[(old(state), event)];
                && state == arc.to && history == old(history) + [(old(state), Some(event), arc.to)]
                && performed == old(performed) + (if arc.action.Some? then [arc.action.value] else [])
    {
      if (state, event) !in table {
        return false;
      }
      var arc := table[(state, event)];
      if arc.guard.Some? && !passes(arc.guard.value) {
        return false;
      }
      if arc.action.Some? {
        performed := performed + [arc.action.value];
      }
      var oldState := state;
      state := arc.to;
      history := history + [(oldState, Some(event), arc.to)];
      return true;
    }

    method Reset(target: S)
      modifies this
      ensures state == target && history == old(history) + [(old(state), None, target)] && performed == old(performed)
    {
      history := history + [(state, None, target)];
      state := target;
    }
  }

  const ORDER_ARCS: seq<Arc<OrderState, OrderEvent>> := [
    Arc(Pending, Submit, Submitted),
    Arc(Submitted, Accept, Accepted),
    Arc(Accepted, PartialFill, Partial),
    Arc(Accepted, FullFill, Filled),
    Arc(Partial, FullFill, Filled),
    Arc(Partial, PartialFill, Partial),
    Arc(Submitted, Cancel, Cancelled),
    Arc(Accepted, Cancel, Cancelled),
    Arc(Partial, Cancel, Cancelled),
    Arc(Pending, Reject, Rejected),
    Arc(Submitted, Reject, Rejected),
    Arc(Accepted, Reject, Rejected),
    Arc(Accepted, Expire, Expired),
    Arc(Partial, Expire, Expired)
  ]

  /** Wiring a machine: a second arc for the same state and event is an error. */
  method Wire<S(==), E(==)>(initial: S, arcs: seq<Arc<S, E>>) returns (m: Option<StateMachine<S, E>>)
    ensures m.None?
       <==> exists i, j :: 0 <= i < j < |arcs| && (arcs[i].from, arcs[i].event) == (arcs[j].from, arcs[j].event)
    ensures m.Some? ==>
              fresh(m.value) && m.value.state == initial && m.value.history == [] && m.value.table == Table(arcs)
  {
    var built: map<(S, E), Arc<S, E>> := map[];
    for i := 0 to |arcs|
      invariant built == Table(arcs[..i])
      invariant forall k :: k in built <==> exists j :: 0 <= j < i && (arcs[j].from, arcs[j].event) == k
      invariant forall j, k :: 0 <= j < k < i ==> (arcs[j].from, arcs[j].event) != (arcs[k].from, arcs[k].event)
    {
      assert arcs[..i + 1][..i] == arcs[..i];
      var key := (arcs[i].from, arcs[i].event);
      if key in built {
        return None;
      }
      built := built[key := arcs[i]];
      assert forall k :: k in built <==> k == key || exists j :: 0 <= j < i && (arcs[j].from, arcs[j].event) == k;
    }
    assert arcs[..|arcs|] == arcs;
    var machine := new StateMachine(initial, built);
    return Some(machine);
  }

  /** A table whose arcs all follow Next holds exactly the listed arcs. */
  lemma {:induction false} TableFollowsNext(arcs: seq<Arc<OrderState, OrderEvent>>, s: OrderState, e: OrderEvent)
    requires forall i :: 0 <= i < |arcs| ==> Next(arcs[i].from, arcs[i].event) == Some(arcs[i].to)
    ensures (s, e) in Table(arcs) <==> exists i :: 0 <= i < |arcs| && arcs[i].from == s && arcs[i].event == e
    ensures (s, e) in Table(arcs) ==> Next(s, e) == Some(Table(arcs)[(s, e)].to)
  {
    if arcs != [] {
      var init := arcs[..|arcs| - 1];
      TableFollowsNext(init, s, e);
      if (s, e) in Table(init) {
        var i :| 0 <= i < |init| && init[i].from == s && init[i].event == e;
        assert arcs[i].from == s && arcs[i].event == e;
      }
    }
  }

  /** Arcs without guards and actions make a table without them. */
  lemma {:induction false} PlainArcs(arcs: seq<Arc<OrderState, OrderEvent>>, s: OrderState, e: OrderEvent)
    requires forall i :: 0 <= i < |arcs| ==> arcs[i].guard.None? && arcs[i].action.None?
    ensures (s, e) in Table(arcs) ==> Table(arcs)[(s, e)].guard.None? && Table(arcs)[(s, e)].action.None?
  {
    if arcs != [] {
      PlainArcs(arcs[..|arcs| - 1], s, e);
    }
  }

  /** Where an arc stands in the list. */
  function ArcIndex(s: OrderState, e: OrderEvent): (i: nat)
    requires Next(s, e).Some?
    ensures i < |ORDER_ARCS| && ORDER_ARCS[i].from == s && ORDER_ARCS[i].event == e
  {
    if s == Pending then (if e == Submit then 0 else 9)
    else if s == Submitted then (if e == Accept then 1 else if e == Cancel then 6 else 10)
    else if s == Accepted then
      (if e == PartialFill then 2
       else if e == FullFill then 3
       else if e == Cancel then 7
       else if e == Reject then 11
       else 12)
    else (if e == FullFill then 4 else if e == PartialFill then 5 else if e == Cancel then 8 else 13)
  }

  /** A machine wired from the order arcs moves exactly as Next says. */
  lemma OrderTableIsNext(s: OrderState, e: OrderEvent)
    ensures (s, e) in Table(ORDER_ARCS) <==> Next(s, e).Some?
    ensures (s, e) in Table(ORDER_ARCS) ==>
              Next(s, e) == Some(Table(ORDER_ARCS)[(s, e)].to) && Table(ORDER_ARCS)[(s, e)].guard.None?
              && Table(ORDER_ARCS)[(s, e)].action.None?
  {
    PlainArcs(ORDER_ARCS, s, e);
    TableFollowsNext(ORDER_ARCS, s, e);
    if Next(s, e).Some? {
      var i := ArcIndex(s, e);
    }
  }
}
