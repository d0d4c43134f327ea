/**
 * The append-only event store and its JSON encoding (execution/oms_store.py,
 * and the serialisers at the end of execution/oms.py).
 */
module OmsStore {
  import opened Common
  import opened Orders
  import opened OmsState

  /** Keys of a payload dictionary; the three marks are the encoder's own. */
  datatype Key =
    | DecimalMark | DatetimeMark | UuidMark
    | Id | IntentId | OrderKey | Agent | Symbol | SideKey | Qty | Type | Class | Tif | State
    | CreatedAt | LimitPrice | StopPrice | IsLetf
    | Price | Timestamp | Commission | IsPartial
    | BrokerOrderId | Reason | BrokerState | DeltaQty

  /** A printed scalar. The printers and parsers of the source are taken as inverse. */
  datatype Text =
    | Plain(text: string) | OfDecimal(d: real) | OfTime(t: Time) | OfUuid(u: nat)
    | OfFillId(f: FillId) | OfBrokerId(b: BrokerId)
    | OfAgent(a: AgentId) | OfSide(s: Side) | OfType(ty: OrderType) | OfClass(cl: OrderClass)
    | OfTif(tif: TimeInForce) | OfState(st: OrderState)

  /** A payload value. A string enumeration is a string to the encoder. */
  datatype Value =
    | Null | Bool(b: bool) | Str(s: Text)
    | Decimal(d: real) | Datetime(t: Time) | Uuid(u: Text)
    | Dict(m: map<Key, Value>)

  datatype Json = JNull | JBool(b: bool) | JStr(s: Text) | JObject(m: map<Key, Json>)

  /** json.dumps with _Encoder. */
  function Encode(v: Value): Json {
    match v
    case Null => JNull
    case Bool(b) => JBool(b)
    case Str(s) => JStr(s)
    case Decimal(d) => JObject(map[DecimalMark := JStr(OfDecimal(d))])
    case Datetime(t) => JObject(map[DatetimeMark := JStr(OfTime(t))])
    case Uuid(u) => JObject(map[UuidMark := JStr(u)])
    case Dict(m) => JObject(map k | k in m :: Encode(m[k]))
  }

  predicate IsUuidText(t: Text) {
    t.OfUuid? || t.OfFillId?
  }

  /** _decode_hook, run on a dictionary whose values are already decoded; None when it raises. */
  function Hook(m: map<Key, Value>): Option<Value> {
    if DecimalMark in m then
      if m[DecimalMark].Str? && m[DecimalMark].s.OfDecimal? then Some(Decimal(m[DecimalMark].s.d)) else None
    else if DatetimeMark in m then
      if m[DatetimeMark].Str? && m[DatetimeMark].s.OfTime? then Some(Datetime(m[DatetimeMark].s.t)) else None
    else if UuidMark in m then
      if m[UuidMark].Str? && IsUuidText(m[UuidMark].s) then Some(Uuid(m[UuidMark].s)) else None
    else Some(Dict(m))
  }

  /** json.loads with _decode_hook: inner objects first. */
  function Decode(j: Json): Option<Value> {
    match j
    case JNull => Some(Null)
    case JBool(b) => Some(Bool(b))
    case JStr(s) => Some(Str(s))
    case JObject(m) =>
      Finish(map k | k in m :: Decode(m[k]))
  }

  /** An object whose members are decoded: one failed member fails it. */
  function Finish(inner: map<Key, Option<Value>>): Option<Value> {
    if exists k :: k in inner && inner[k].None? then None
    else Hook(map k | k in inner :: inner[k].GetOr(Null))
  }

  predicate Marked(m: map<Key, Value>) {
    DecimalMark in m || DatetimeMark in m || UuidMark in m
  }

  /** No dictionary inside uses the encoder's own keys, and every uuid prints as one. */
  predicate Clean(v: Value) {
    && (v.Uuid? ==> IsUuidText(v.u))
    && (v.Dict? ==> !Marked(v.m) && forall k :: k in v.m ==> Clean(v.m[k]))
  }

  /** A value survives the store exactly when it is clean. */
  lemma {:induction false} RoundTripIffClean(v: Value)
    ensures Decode(Encode(v)) == Some(v) <==> Clean(v)
  {
    match v {
      case Null =>
      case Bool(_) =>
      case Str(_) =>
      case Decimal(d) => MarkRoundTrip(DecimalMark, OfDecimal(d));
      case Datetime(t) => MarkRoundTrip(DatetimeMark, OfTime(t));
      case Uuid(u) => MarkRoundTrip(UuidMark, u);
      case Dict(m) =>
        var j := map k | k in m :: Encode(m[k]);
        var inner := map k | k in j :: Decode(j[k]);
        assert Decode(Encode(v)) == Finish(inner);
        forall k | k in m ensures inner[k] == Some(m[k]) <==> Clean(m[k]) {
          RoundTripIffClean(m[k]);
        }
        DictFinishes(m, inner);
    }
  }

  lemma DictFinishes(m: map<Key, Value>, inner: map<Key, Option<Value>>)
    requires inner.Keys == m.Keys
    ensures Finish(inner) == Some(Dict(m)) <==> !Marked(m) && forall k :: k in m ==> inner[k] == Some(m[k])
  {
    var out := map k | k in inner :: inner[k].GetOr(Null);
    assert out.Keys == m.Keys;
    if forall k :: k in m ==> inner[k] == Some(m[k]) {
      assert out == m;
    }
    if Finish(inner) == Some(Dict(m)) {
      assert out == m;
      assert forall k :: k in m ==> inner[k] == Some(out[k]);
    }
  }

  lemma MarkRoundTrip(k: Key, t: Text)
    ensures Decode(JObject(map[k := JStr(t)])) == Hook(map[k := Str(t)])
  {
    MarkDecodes(k, t);
    MarkFinishes(k, t);
    hide *;
  }

  lemma MarkDecodes(k: Key, t: Text)
    ensures Decode(JObject(map[k := JStr(t)])) == Finish(map[k := Some(Str(t))])
  {
    hide Finish;
    var m := map[k := JStr(t)];
    assert (map x | x in m :: Decode(m[x])) == map[k := Some(Str(t))];
  }

  lemma MarkFinishes(k: Key, t: Text)
    ensures Finish(map[k := Some(Str(t))]) == Hook(map[k := Str(t)])
  {
    hide Hook;
    var inner := map[k := Some(Str(t))];
    assert (map x | x in inner :: inner[x].GetOr(Null)) == map[k := Str(t)];
  }

  // ── Payloads ─────────────────────────────────────────────────────────────────

  function OfOption(d: Option<real>): Value {
    match d case None => Null case Some(x) => Decimal(x)
  }

  /** _serialize_order: legs, trailing percent and entry date are not written. */
  function SerializeOrder(o: Order): Value {
    Dict(map[
      Id := Uuid(OfUuid(o.terms.id)),
      IntentId := Uuid(OfUuid(o.terms.intentId)),
      Agent := Str(OfAgent(o.terms.agent)),
      Symbol := Str(Plain(o.terms.symbol)),
      SideKey := Str(OfSide(o.terms.side)),
      Qty := Decimal(o.qty),
      Type := Str(OfType(o.terms.orderType)),
      Class := Str(OfClass(o.terms.orderClass)),
      Tif := Str(OfTif(o.terms.tif)),
      State := Str(OfState(o.state)),
      CreatedAt := Datetime(o.terms.createdAt),
      LimitPrice := OfOption(o.terms.limitPrice),
      StopPrice := OfOption(o.terms.stopPrice),
      IsLetf := Bool(o.terms.isLetf)])
  }

  function SerializeFill(f: Fill): Value {
    Dict(map[
      Id := Uuid(OfFillId(f.id)),
      OrderKey := Uuid(OfUuid(f.order)),
      Agent := Str(OfAgent(f.agent)),
      Symbol := Str(Plain(f.symbol)),
      SideKey := Str(OfSide(f.side)),
      Qty := Decimal(f.qty),
      Price := Decimal(f.price),
      Timestamp := Datetime(f.timestamp),
      Commission := Decimal(f.commission),
      IsPartial := Bool(f.isPartial)])
  }

  // Readers of one field; each falls back to a default where the source would raise.
  function Field(v: Value, k: Key): Value {
    if v.Dict? && k in v.m then v.m[k] else Null
  }
  function AsReal(v: Value): real { if v.Decimal? then v.d else 0.0 }
  function AsOption(v: Value): Option<real> { if v.Decimal? then Some(v.d) else None }
  function AsTime(v: Value): Time { if v.Datetime? then v.t else 0 }
  function AsBool(v: Value): bool { if v.Bool? then v.b else false }
  function AsText(v: Value): Text { if v.Str? then v.s else Plain("") }
  function AsUuid(v: Value): nat { if v.Uuid? && v.u.OfUuid? then v.u.u else 0 }
  function AsFillId(v: Value): FillId { if v.Uuid? && v.u.OfFillId? then v.u.f else VenueFill(0) }
  function AsAgent(t: Text): AgentId { if t.OfAgent? then t.a else Haiku }
  function AsSide(t: Text): Side { if t.OfSide? then t.s else Buy }
  function AsType(t: Text): OrderType { if t.OfType? then t.ty else Market }
  function AsClass(t: Text): OrderClass { if t.OfClass? then t.cl else Simple }
  function AsTif(t: Text): TimeInForce { if t.OfTif? then t.tif else Day }
  function AsState(t: Text): OrderState { if t.OfState? then t.st else OrderState.Pending }
  function AsPlain(t: Text): string { if t.Plain? then t.text else "" }
  function AsBrokerId(t: Text): BrokerId { if t.OfBrokerId? then t.b else Venue(0) }

  function DeserializeOrder(v: Value): Order {
    Order(
      Terms(AsUuid(Field(v, Id)), AsUuid(Field(v, IntentId)), AsAgent(AsText(Field(v, Agent))),
            AsPlain(AsText(Field(v, Symbol))), AsSide(AsText(Field(v, SideKey))),
            AsType(AsText(Field(v, Type))), AsClass(AsText(Field(v, Class))), AsTif(AsText(Field(v, Tif))),
            AsTime(Field(v, CreatedAt)), AsOption(Field(v, LimitPrice)), AsOption(Field(v, StopPrice)),
            AsBool(Field(v, IsLetf))),
      NOTHING_UNLOGGED, AsReal(Field(v, Qty)), AsState(AsText(Field(v, State))),
      None, None, None, 0.0, None, None)
  }

  function DeserializeFill(v: Value): Fill {
    Fill(AsFillId(Field(v, Id)), AsUuid(Field(v, OrderKey)), AsAgent(AsText(Field(v, Agent))),
         AsPlain(AsText(Field(v, Symbol))), AsSide(AsText(Field(v, SideKey))),
         AsReal(Field(v, Qty)), AsReal(Field(v, Price)), AsTime(Field(v, Timestamp)),
         AsReal(Field(v, Commission)), AsBool(Field(v, IsPartial)))
  }

  datatype Kind =
    | KSubmitIntent | KAccepted | KRejected | KFill | KCancelRequested | KCancelled | KExpired
    | KNoop | KRecovered | KAbandoned

  function KindOf(e: Event): Kind {
    match e
    case SubmitIntent(_) => KSubmitIntent
    case OrderAccepted(_) => KAccepted
    case OrderRejected(_) => KRejected
    case FillReceived(_) => KFill
    case CancelRequested(_) => KCancelRequested
    case OrderCancelled(_) => KCancelled
    case OrderExpired => KExpired
    case ReconcileNoop => KNoop
    case ReconcileRecovered => KRecovered
    case ReconcileAbandoned => KAbandoned
  }

  function Payload(e: Event): Value {
    match e
    case SubmitIntent(o) => SerializeOrder(o)
    case OrderAccepted(b) => Dict(map[BrokerOrderId := Str(OfBrokerId(b))])
    case OrderRejected(r) => Dict(map[Reason := Str(Plain(r))])
    case FillReceived(f) => SerializeFill(f)
    case CancelRequested(b) => Dict(map[BrokerOrderId := Str(OfBrokerId(b))])
    case OrderCancelled(r) => if r.Some? then Dict(map[Reason := Str(Plain(r.value))]) else Dict(map[])
    case _ => Dict(map[])
  }

  /** The event a row stands for when the log is read back. */
  function Interpret(k: Kind, p: Value): Event {
    match k
    case KSubmitIntent => SubmitIntent(DeserializeOrder(p))
    case KAccepted => OrderAccepted(AsBrokerId(AsText(Field(p, BrokerOrderId))))
    case KRejected => OrderRejected(AsPlain(AsText(Field(p, Reason))))
    case KFill => FillReceived(DeserializeFill(p))
    case KCancelRequested => CancelRequested(AsBrokerId(AsText(Field(p, BrokerOrderId))))
    case KCancelled => OrderCancelled(if Field(p, Reason).Str? then Some(AsPlain(Field(p, Reason).s)) else None)
    case KExpired => OrderExpired
    case KNoop => ReconcileNoop
    case KRecovered => ReconcileRecovered
    case KAbandoned => ReconcileAbandoned
  }

  datatype Row = Row(ts: Text, kind: Kind, orderId: Text, payload: Json)

  function RowOf(e: Logged): Row {
    Row(OfTime(e.ts), KindOf(e.event), OfUuid(e.oid), Encode(Payload(e.event)))
  }

  /** One row read back by iter_all and interpreted by _apply_logged_event. */
  function ReadRow(r: Row): Logged {
    Logged(
      if r.ts.OfTime? then r.ts.t else 0,
      if r.orderId.OfUuid? then r.orderId.u else 0,
      Interpret(r.kind, Decode(r.payload).GetOr(Null)))
  }

  lemma PayloadsAreClean(e: Event)
    ensures Clean(Payload(e))
  {
    hide SerializeOrder, SerializeFill;
    match e {
      case SubmitIntent(o) => OrderIsClean(o);
      case FillReceived(f) => FillIsClean(f);
      case _ =>
    }
  }

  /** A scalar that prints. */
  predicate Scalar(v: Value) {
    !v.Dict? && Clean(v)
  }

  lemma ScalarsAreClean(m: map<Key, Value>)
    requires !Marked(m) && forall k :: k in m ==> Scalar(m[k])
    ensures Clean(Dict(m))
  {
  }

  lemma OrderIsClean(o: Order)
    ensures Clean(SerializeOrder(o))
  {
    var m := SerializeOrder(o).m;
    assert !Marked(m) && forall k :: k in m ==> Scalar(m[k]);
    hide SerializeOrder, Scalar, Marked;
    ScalarsAreClean(m);
  }

  lemma FillIsClean(f: Fill)
    ensures Clean(SerializeFill(f))
  {
    var m := SerializeFill(f).m;
    assert !Marked(m) && forall k :: k in m ==> Scalar(m[k]);
    hide SerializeFill, Scalar, Marked;
    ScalarsAreClean(m);
  }

  lemma OrderSurvives(o: Order)
    ensures DeserializeOrder(SerializeOrder(o)) == Persist(o)
  {
    OrderFields(o);
    MoreOrderFields(o);
    hide SerializeOrder, Field;
  }

  lemma OrderFields(o: Order)
    ensures var v := SerializeOrder(o);
            && Field(v, Id) == Uuid(OfUuid(o.terms.id)) && Field(v, IntentId) == Uuid(OfUuid(o.terms.intentId))
            && Field(v, Agent) == Str(OfAgent(o.terms.agent)) && Field(v, Symbol) == Str(Plain(o.terms.symbol))
            && Field(v, SideKey) == Str(OfSide(o.terms.side)) && Field(v, Qty) == Decimal(o.qty)
            && Field(v, State) == Str(OfState(o.state))
  {
    hide OfOption;
  }

  lemma MoreOrderFields(o: Order)
    ensures var v := SerializeOrder(o);
            && Field(v, Type) == Str(OfType(o.terms.orderType)) && Field(v, Class) == Str(OfClass(o.terms.orderClass))
            && Field(v, Tif) == Str(OfTif(o.terms.tif)) && Field(v, IsLetf) == Bool(o.terms.isLetf)
            && Field(v, CreatedAt) == Datetime(o.terms.createdAt)
            && Field(v, LimitPrice) == OfOption(o.terms.limitPrice)
            && Field(v, StopPrice) == OfOption(o.terms.stopPrice)
  {
    hide OfOption;
  }

  lemma FillSurvives(f: Fill)
    ensures DeserializeFill(SerializeFill(f)) == f
  {
  }

  lemma EventSurvives(e: Event)
    ensures Interpret(KindOf(e), Payload(e)) == PersistEvent(e)
  {
    hide SerializeOrder, DeserializeOrder, SerializeFill, DeserializeFill, Persist;
    match e {
      case SubmitIntent(o) => OrderSurvives(o);
      case FillReceived(f) => FillSurvives(f);
      case _ =>
    }
  }

  /** Writing an event and reading it back loses exactly the unlogged part of an order. */
  lemma RowRoundTrip(e: Logged)
    ensures ReadRow(RowOf(e)) == PersistLogged(e)
  {
    var p := Payload(e.event);
    PayloadsAreClean(e.event);
    RoundTripIffClean(p);
    EventSurvives(e.event);
    assert Decode(RowOf(e).payload) == Some(p);
  }

  /**
   * Dictionaries that carry the decimal tag themselves: one comes back as a number, with its
   * other keys gone, one not at all.
   */
  lemma TaggedDictionariesAreLost()
    ensures Decode(Encode(Dict(map[DecimalMark := Str(OfDecimal(1.0)), Reason := Str(Plain("kept"))])))
         == Some(Decimal(1.0))
    ensures Decode(Encode(Dict(map[DecimalMark := Null, Reason := Str(Plain("kept"))]))) == None
  {
    TaggedDecode(Str(OfDecimal(1.0)));
    TaggedDecode(Null);
  }

  lemma TaggedDecode(v: Value)
    requires v.Null? || v.Str?
    ensures var d := Decode(Encode(Dict(map[DecimalMark := v, Reason := Str(Plain("kept"))])));
            d == if v.Str? && v.s.OfDecimal? then Some(Decimal(v.s.d)) else None
  {
    var m := map[DecimalMark := v, Reason := Str(Plain("kept"))];
    var j := map k | k in m :: Encode(m[k]);
    var inner := map k | k in j :: Decode(j[k]);
    assert inner[DecimalMark] == Some(v) && inner[Reason] == Some(Str(Plain("kept")));
    assert Decode(Encode(Dict(m))) == Finish(inner);
    assert (map k | k in inner :: inner[k].GetOr(Null))[DecimalMark] == v;
  }

  /** The order has nothing in the fields the log never stores. */
  predicate FullyLogged(o: Order) {
    && o.extra == NOTHING_UNLOGGED
    && o.brokerOrderId.None? && o.submittedAt.None? && o.filledAt.None?
    && o.filledQty == 0.0 && o.filledAvgPrice.None? && o.rejectionReason.None?
  }

  /** An event comes back as it was written exactly when its order carries no unlogged field. */
  lemma RowIsLosslessIff(e: Logged)
    ensures ReadRow(RowOf(e)) == e <==> (e.event.SubmitIntent? ==> FullyLogged(e.event.order))
  {
    hide ReadRow, RowOf;
    RowRoundTrip(e);
  }

  function ReadRows(rows: seq<Row>): seq<Logged> {
    seq(|rows|, i requires 0 <= i < |rows| => ReadRow(rows[i]))
  }

  /** The append-only table: rows are only ever added at the end. */
  class EventStore {
    var rows: seq<Row>

    constructor ()
      ensures rows == []
    {
      rows := [];
    }

    method Append(kind: Kind, oid: OrderId, payload: Value, ts: Time) returns (position: nat)
      modifies this
      ensures rows == old(rows) + [Row(OfTime(ts), kind, OfUuid(oid), Encode(payload))]
      ensures position == |rows|
    {
      rows := rows + [Row(OfTime(ts), kind, OfUuid(oid), Encode(payload))];
      position := |rows|;
    }

    /** The log as recovery reads it. */
    function Events(): seq<Logged>
      reads this
    {
      ReadRows(rows)
    }

    method IterAll() returns (events: seq<Logged>)
      ensures events == Events()
    {
      events := [];
      for i := 0 to |rows|
        invariant events == ReadRows(rows[..i])
      {
        events := events + [ReadRow(rows[i])];
      }
      assert rows[..|rows|] == rows;
    }
  }
}
