/**
 * The daily profit and loss of each agent (ops/attribution.py, compute_daily_pnl):
 * realized profit from the fill log plus unrealized profit from the lot ledger.
 */
module DailyPnl {
  import opened Common
  import opened Orders
  import opened Lots
  import opened Attribution
  import opened LedgerAgreement

  datatype Breakdown = Breakdown(realized: real, unrealized: real, total: real, openLots: nat, closedLots: nat)

  /** The still-open part of a lot at its mark; nothing if closed or without a mark. */
  function LotUnrealized(lot: Lot, mark: Option<real>): real {
    if lot.isClosed || lot.remaining <= 0.0 || mark.None? then 0.0 else (mark.value - lot.entryPrice) * lot.remaining
  }

  function LotsUnrealized(lots: seq<Lot>, agent: AgentId, marks: map<string, real>): real {
    if lots == [] then 0.0
    else
      var last := lots[|lots| - 1];
      LotsUnrealized(lots[..|lots| - 1], agent, marks)
      + (if last.agent == agent then LotUnrealized(last, Lookup(marks, last.symbol)) else 0.0)
  }

  function CountLots(lots: seq<Lot>, agent: AgentId, closed: bool): nat {
    if lots == [] then 0
    else
      var last := lots[|lots| - 1];
      CountLots(lots[..|lots| - 1], agent, closed) + (if last.agent == agent && last.isClosed == closed then 1 else 0)
  }

  const SLEEVES: set<AgentId> := {Haiku, Sonnet, Opus}

  // ── The two computations as the program runs them ────────────────────────────

  lemma SaleEnds(q: seq<Entry>, want: real, price: real)
    requires want <= 0.0 || q == []
    ensures Match(q, want) == (q, want) && Gain(q, want, price) == 0.0
  {
  }

  lemma SaleStops(q: seq<Entry>, want: real, price: real)
    requires want > 0.0 && q != [] && q[0].qty > want
    ensures Match(q, want) == ([Entry(q[0].qty - want, q[0].price)] + q[1..], 0.0)
  {
  }

  /** Match one sale against a queue, front first. */
  method MatchSale(queue: seq<Entry>, want: real, price: real) returns (q: seq<Entry>, gain: real)
    ensures q == Match(queue, want).0 && gain == Gain(queue, want, price)
  {
    hide Match, Gain, Worth;
    q, gain := queue, 0.0;
    var left := want;
    while left > 0.0 && q != []
      invariant Match(queue, want) == Match(q, left)
      invariant Gain(queue, want, price) == gain + Gain(q, left, price)
      decreases |q|, if left > 0.0 then 1 else 0
    {
      SaleUnfolds(q, left, price, 0.0);
      var front := q[0];
      var consume := Min(front.qty, left);
      gain := gain + (price - front.price) * consume;
      if front.qty - consume <= 0.0 {
        q := q[1..];
      } else {
        SaleStops(q, left, price);
        q := [Entry(front.qty - consume, front.price)] + q[1..];
        SaleEnds(q, 0.0, price);
      }
      left := left - consume;
    }
    SaleEnds(q, left, price);
  }

  lemma AttributeEffect(b: Books, f: Fill)
    ensures forall k :: QueueOf(Attribute(b, f), k) == if KeyOf(f) == k then Queued(QueueOf(b, k), f) else QueueOf(b, k)
    ensures forall agent :: RealizedOf(Attribute(b, f), agent)
                         == RealizedOf(b, agent) + (if f.agent == agent then GainOf(QueueOf(b, KeyOf(f)), f) else 0.0)
  {
    hide Queued, GainOf;
  }

  method RealizedByAgent(fills: seq<Fill>) returns (realized: map<AgentId, real>)
    ensures forall agent :: ValueOr(realized, agent, 0.0) == RealizedOf(BooksAfter(fills), agent)
  {
    hide Attribute, QueueOf, RealizedOf;
    var queues: map<Key, seq<Entry>> := map[];
    realized := map[];
    NothingAttributed(fills);
    for i := 0 to |fills|
      invariant forall k :: ValueOr(queues, k, []) == QueueOf(BooksAfter(fills[..i]), k)
      invariant forall agent :: ValueOr(realized, agent, 0.0) == RealizedOf(BooksAfter(fills[..i]), agent)
    {
      assert fills[..i + 1][..i] == fills[..i];
      var f := fills[i];
      AttributeEffect(BooksAfter(fills[..i]), f);
      var q := ValueOr(queues, KeyOf(f), []);
      if f.side == Buy {
        queues := queues[KeyOf(f) := q + [Entry(f.qty, f.price)]];
      } else {
        var rest, gain := MatchSale(q, f.qty, f.price);
        queues := queues[KeyOf(f) := rest];
        realized := realized[f.agent := ValueOr(realized, f.agent, 0.0) + gain];
      }
    }
    assert fills[..|fills|] == fills;
  }

  lemma NothingAttributed(fills: seq<Fill>)
    ensures forall k :: QueueOf(BooksAfter(fills[..0]), k) == []
    ensures forall agent :: RealizedOf(BooksAfter(fills[..0]), agent) == 0.0
  {
  }

  /** A breakdown that has counted these lots for an agent, its total still open. */
  ghost predicate Counted(b: Breakdown, realized: real, lots: seq<Lot>, agent: AgentId, marks: map<string, real>) {
    && b.realized == realized && b.unrealized == LotsUnrealized(lots, agent, marks)
    && b.openLots == CountLots(lots, agent, false) && b.closedLots == CountLots(lots, agent, true)
  }

  function CountLot(b: Breakdown, lot: Lot, marks: map<string, real>): Breakdown {
    b.(unrealized := b.unrealized + LotUnrealized(lot, Lookup(marks, lot.symbol)),
       openLots := if lot.isClosed then b.openLots else b.openLots + 1,
       closedLots := if lot.isClosed then b.closedLots + 1 else b.closedLots)
  }

  lemma CountedOneMore(b: Breakdown, realized: real, lots: seq<Lot>, i: nat, agent: AgentId, marks: map<string, real>)
    requires i < |lots| && Counted(b, realized, lots[..i], agent, marks)
    ensures Counted(if lots[i].agent == agent then CountLot(b, lots[i], marks) else b, realized, lots[..i + 1], agent,
                    marks)
  {
    assert lots[..i + 1][..i] == lots[..i];
    hide LotUnrealized;
  }

  method ComputeDailyPnl(lots: seq<Lot>, fills: seq<Fill>, marks: map<string, real>)
    returns (out: map<AgentId, Breakdown>)
    ensures out.Keys == SLEEVES
    ensures forall agent :: agent in SLEEVES ==>
              Counted(out[agent], RealizedOf(BooksAfter(fills), agent), lots, agent, marks)
              && out[agent].total == out[agent].realized + out[agent].unrealized
  {
    var realized := RealizedByAgent(fills);
    out := map[Haiku := Breakdown(ValueOr(realized, Haiku, 0.0), 0.0, 0.0, 0, 0),
               Sonnet := Breakdown(ValueOr(realized, Sonnet, 0.0), 0.0, 0.0, 0, 0),
               Opus := Breakdown(ValueOr(realized, Opus, 0.0), 0.0, 0.0, 0, 0)];
    for i := 0 to |lots|
      invariant out.Keys == SLEEVES
      invariant forall agent :: agent in SLEEVES ==>
                  Counted(out[agent], RealizedOf(BooksAfter(fills), agent), lots[..i], agent, marks)
    {
      forall agent | agent in SLEEVES
        ensures Counted(if lots[i].agent == agent then CountLot(out[agent], lots[i], marks) else out[agent],
                        RealizedOf(BooksAfter(fills), agent), lots[..i + 1], agent, marks)
      {
        CountedOneMore(out[agent], RealizedOf(BooksAfter(fills), agent), lots, i, agent, marks);
      }
      hide Counted, CountLot;
      var lot := lots[i];
      if lot.agent in out {
        out := out[lot.agent := CountLot(out[lot.agent], lot, marks)];
      }
    }
    assert lots[..|lots|] == lots;
    out := Totalled(out);
  }

  /** Close every sleeve's breakdown with its total. */
  method Totalled(counted: map<AgentId, Breakdown>) returns (out: map<AgentId, Breakdown>)
    requires counted.Keys == SLEEVES
    ensures out.Keys == SLEEVES
    ensures forall agent :: agent in SLEEVES ==>
              out[agent] == counted[agent].(total := counted[agent].realized + counted[agent].unrealized)
  {
    var h, s, o := counted[Haiku], counted[Sonnet], counted[Opus];
    out := map[Haiku := h.(total := h.realized + h.unrealized),
               Sonnet := s.(total := s.realized + s.unrealized),
               Opus := o.(total := o.realized + o.unrealized)];
  }

  // ── The identity for the reported total ──────────────────────────────────────

  ghost predicate LotsCovered(lots: seq<Lot>, agent: AgentId, symbols: seq<string>) {
    forall i :: 0 <= i < |lots| && lots[i].agent == agent ==> lots[i].symbol in symbols
  }

  lemma BookKeepsCovered(l: Ledger, f: Fill, agent: AgentId, symbols: seq<string>)
    requires SoundLots(l.lots) && f.qty > 0.0 && NormalizeSymbol(f.symbol) == f.symbol
    requires LotsCovered(l.lots, agent, symbols) && (f.agent == agent ==> f.symbol in symbols)
    ensures LotsCovered(Book(l, f, Fifo).lots, agent, symbols)
  {
    if f.side == Sell && f.id !in l.booked {
      SaleConsumes(l.lots, f.agent, NormalizeSymbol(f.symbol), f.qty, f, Fifo);
      hide Consumed, SaleOrder, PrefixSold, SumAt;
    }
  }

  lemma NothingToCover(agent: AgentId, symbols: seq<string>)
    ensures LotsCovered([], agent, symbols)
  {
  }

  lemma {:induction false} LedgerIsCovered(fills: seq<Fill>, agent: AgentId, symbols: seq<string>)
    requires GoodLog(fills) && Covers(symbols, fills, agent)
    ensures LotsCovered(LedgerAfter(fills).lots, agent, symbols)
  {
    hide Book, LotsCovered;
    if fills == [] {
      NothingToCover(agent, symbols);
    } else {
      var init, f := fills[..|fills| - 1], fills[|fills| - 1];
      LedgerIsCovered(init, agent, symbols);
      LedgerIsDated(init);
      BookKeepsCovered(LedgerAfter(init), f, agent, symbols);
    }
  }

  function Marks(marks: map<string, real>): string -> real {
    s => Lookup(marks, s).GetOr(0.0)
  }

  function QueueWorth(lots: seq<Lot>, agent: AgentId, marks: map<string, real>): string -> real {
    s => Worth(OpenQueue(lots, Key(agent, s)), Marks(marks)(s))
  }

  lemma QueueWorthStep(lots: seq<Lot>, agent: AgentId, marks: map<string, real>, s: string)
    requires lots != [] && SoundLot(lots[|lots| - 1])
    ensures var last := lots[|lots| - 1];
            var own := last.agent == agent && last.symbol == s && !last.isClosed;
            QueueWorth(lots, agent, marks)(s) - QueueWorth(lots[..|lots| - 1], agent, marks)(s)
            == (if own then (Marks(marks)(s) - last.entryPrice) * last.remaining else 0.0)
  {
    var init, last := lots[..|lots| - 1], lots[|lots| - 1];
    var k := Key(agent, s);
    var was, now := OpenQueue(init, k), OpenQueue(lots, k);
    if Candidate(last, agent, s) {
      var c := Candidates(init, agent, s);
      assert now == was + [Entry(last.remaining, last.entryPrice)];
      WorthAppend(was, Entry(last.remaining, last.entryPrice), Marks(marks)(s));
    } else {
      assert now == was;
    }
  }

  lemma NothingWorth(agent: AgentId, s: string, mark: real)
    ensures Worth(OpenQueue([], Key(agent, s)), mark) == 0.0
  {
    assert Candidates([], agent, s) == [];
    assert OpenQueue([], Key(agent, s)) == [];
  }

  lemma ZeroSum(symbols: seq<string>, agent: AgentId, marks: map<string, real>)
    ensures SumOver(symbols, QueueWorth([], agent, marks)) == 0.0
  {
    forall s ensures QueueWorth([], agent, marks)(s) == 0.0 {
      NothingWorth(agent, s, Marks(marks)(s));
    }
    SumOverZero(symbols, QueueWorth([], agent, marks));
  }

  /** Marking the lots one by one is marking the queues symbol by symbol. */
  lemma {:induction false} LotsAreQueues(lots: seq<Lot>, agent: AgentId, symbols: seq<string>, marks: map<string, real>)
    requires NoDup(symbols) && SoundLots(lots) && LotsCovered(lots, agent, symbols)
          && forall s :: s in symbols ==> s in marks
    ensures LotsUnrealized(lots, agent, marks) == SumOver(symbols, QueueWorth(lots, agent, marks))
  {
    hide QueueWorth, SumOver, Worth, OpenQueue;
    if lots == [] {
      ZeroSum(symbols, agent, marks);
    } else {
      var init, last := lots[..|lots| - 1], lots[|lots| - 1];
      LotsAreQueues(init, agent, symbols, marks);
      forall s ensures s != last.symbol ==> QueueWorth(lots, agent, marks)(s) == QueueWorth(init, agent, marks)(s) {
        QueueWorthStep(lots, agent, marks, s);
      }
      QueueWorthStep(lots, agent, marks, last.symbol);
      SumOverShift(symbols, QueueWorth(lots, agent, marks), QueueWorth(init, agent, marks), last.symbol);
    }
  }

  /**
   * Over a log of clean fills, and with a mark for every symbol the agent traded, the
   * reported total is the cash the agent took out plus its net position at the marks.
   */
  lemma ReportedTotalIsCashPlusPosition(fills: seq<Fill>, agent: AgentId, symbols: seq<string>,
                                        marks: map<string, real>)
    requires GoodLog(fills) && Covers(symbols, fills, agent) && (forall s :: s in symbols ==> s in marks)
    requires forall n :: 0 <= n < |fills| ==> CleanAt(fills, n)
    ensures RealizedOf(BooksAfter(fills), agent) + LotsUnrealized(LedgerAfter(fills).lots, agent, marks)
         == SumOver(symbols, CashPlusPosition(fills, agent, Marks(marks)))
  {
    hide SumOver, RealizedOf, BooksAfter, LotsUnrealized, LedgerAfter, CleanAt, Worth, OpenQueue, QueueAfter, Cash, Net,
         Marks;
    var lots := LedgerAfter(fills).lots;
    LedgerIsDated(fills);
    LedgerIsCovered(fills, agent, symbols);
    LotsAreQueues(lots, agent, symbols, marks);
    AgentProfitIsCashPlusPosition(fills, agent, symbols, Marks(marks));
    CleanPrefixAgrees(fills, |fills|);
    assert fills[..|fills|] == fills;
    SumOverSame(symbols, QueueWorth(lots, agent, marks), QueuedWorth(fills, agent, Marks(marks)));
  }

  /** The same in plain sums over the fills, for an agent that never oversold. */
  lemma ReportedTotalIsCashFlowPlusPosition(fills: seq<Fill>, agent: AgentId, symbols: seq<string>,
                                            marks: map<string, real>)
    requires GoodLog(fills) && Covers(symbols, fills, agent) && (forall s :: s in symbols ==> s in marks)
    requires (forall n :: 0 <= n < |fills| ==> CleanAt(fills, n)) && NeverOversold(fills, agent, symbols)
    ensures RealizedOf(BooksAfter(fills), agent) + LotsUnrealized(LedgerAfter(fills).lots, agent, marks)
         == SumOver(symbols, FlowPlusPosition(fills, agent, Marks(marks)))
  {
    assert PositiveQuantities(fills);
    hide SumOver, RealizedOf, BooksAfter, LotsUnrealized, LedgerAfter, CleanAt, GoodLog, Covers, NeverOversold,
         PositiveQuantities, Marks;
    ReportedTotalIsCashPlusPosition(fills, agent, symbols, marks);
    PlainIsMatched(fills, agent, symbols, Marks(marks));
  }
}
