/**
 * Per-agent profit and loss (ops/attribution.py). Realized profit is matched from the
 * fill log with a queue of purchases per agent and symbol, independently of the lot
 * ledger; here the two are compared.
 */
module Attribution {
  import opened Common
  import opened Orders

  datatype Entry = Entry(qty: real, price: real)

  datatype Key = Key(agent: AgentId, symbol: string)

  function KeyOf(f: Fill): Key {
    Key(f.agent, f.symbol)
  }

  // ── Matching a sale against a queue of purchases ─────────────────────────────

  /** Consume from the front: the queue left and the quantity nothing matched. */
  function Match(q: seq<Entry>, want: real): (seq<Entry>, real) {
    if want <= 0.0 || q == [] then (q, want)
    else
      var consume := Min(q[0].qty, want);
      if q[0].qty - consume <= 0.0 then Match(q[1..], want - consume)
      else ([Entry(q[0].qty - consume, q[0].price)] + q[1..], want - consume)
  }

  /** The profit a sale realizes on what it matches. */
  function Gain(q: seq<Entry>, want: real, price: real): real {
    if want <= 0.0 || q == [] then 0.0
    else
      var consume := Min(q[0].qty, want);
      (price - q[0].price) * consume + (if q[0].qty - consume <= 0.0 then Gain(q[1..], want - consume, price) else 0.0)
  }

  /** Profit on paper if everything queued were sold at a mark. */
  function Worth(q: seq<Entry>, mark: real): real {
    if q == [] then 0.0 else (mark - q[0].price) * q[0].qty + Worth(q[1..], mark)
  }

  function Total(q: seq<Entry>): real {
    if q == [] then 0.0 else q[0].qty + Total(q[1..])
  }

  predicate Positive(q: seq<Entry>) {
    forall i :: 0 <= i < |q| ==> q[i].qty > 0.0
  }

  /** What a quantity makes between two prices. */
  function Spread(high: real, low: real, qty: real): real {
    (high - low) * qty
  }

  lemma Distribute(x: real, a: real, b: real)
    ensures x * (a + b) == x * a + x * b && x * (a - b) == x * a - x * b && x * -b == -(x * b)
    ensures (a - b) * x == a * x - b * x && -a * x == -(a * x)
  {
  }

  lemma SpreadAdds(high: real, low: real, qty: real, more: real)
    ensures Spread(high, low, qty + more) == Spread(high, low, qty) + Spread(high, low, more)
  {
    Distribute(high - low, qty, more);
  }

  lemma SpreadSplits(high: real, mid: real, low: real, qty: real)
    ensures Spread(high, low, qty) == Spread(high, mid, qty) + Spread(mid, low, qty)
  {
  }

  lemma WorthUnfolds(q: seq<Entry>, mark: real)
    requires q != []
    ensures Worth(q, mark) == Spread(mark, q[0].price, q[0].qty) + Worth(q[1..], mark)
  {
  }

  /** A sale that sells out the front entry, or lowers it, one step unfolded. */
  lemma SaleUnfolds(q: seq<Entry>, want: real, price: real, mark: real)
    requires want > 0.0 && q != []
    ensures q[0].qty <= want ==>
              && Match(q, want) == Match(q[1..], want - q[0].qty)
              && Gain(q, want, price) == Spread(price, q[0].price, q[0].qty) + Gain(q[1..], want - q[0].qty, price)
    ensures q[0].qty > want ==>
              && Match(q, want).1 == 0.0
              && Gain(q, want, price) == Spread(price, q[0].price, want)
              && Worth(Match(q, want).0, mark) == Spread(mark, q[0].price, q[0].qty - want) + Worth(q[1..], mark)
  {
    if q[0].qty <= want {
      hide Worth;
      assert Min(q[0].qty, want) == q[0].qty;
    } else {
      var rest := [Entry(q[0].qty - want, q[0].price)] + q[1..];
      assert rest[1..] == q[1..] && Min(q[0].qty, want) == want;
      assert Match(q, want) == (rest, 0.0);
      WorthUnfolds(rest, mark);
      hide Worth, Match;
    }
  }

  lemma {:induction false} SaleMakesSpread(q: seq<Entry>, want: real, price: real, mark: real)
    ensures var (rest, left) := Match(q, want);
            Gain(q, want, price) + Worth(rest, mark) == Worth(q, mark) + Spread(price, mark, want - left)
  {
    if want > 0.0 && q != [] {
      WorthUnfolds(q, mark);
      SaleUnfolds(q, want, price, mark);
      hide *;
      var e, left := q[0], Match(q, want).1;
      if e.qty <= want {
        SaleMakesSpread(q[1..], want - e.qty, price, mark);
        SpreadSplits(price, mark, e.price, e.qty);
        SpreadAdds(price, mark, e.qty, want - e.qty - left);
        assert e.qty + (want - e.qty - left) == want - left;
      } else {
        SpreadSplits(price, mark, e.price, want);
        SpreadAdds(mark, e.price, want, e.qty - want);
        assert want + (e.qty - want) == e.qty && want - left == want;
      }
    } else {
      assert Match(q, want) == (q, want) && Gain(q, want, price) == 0.0 && Spread(price, mark, 0.0) == 0.0;
      hide *;
      assert want - Match(q, want).1 == 0.0;
    }
  }

  /** Selling moves worth from paper to realized, plus the sale's margin over the mark. */
  lemma {:induction false} SaleConservesWorth(q: seq<Entry>, want: real, price: real, mark: real)
    ensures var (rest, left) := Match(q, want);
            Gain(q, want, price) + Worth(rest, mark) == Worth(q, mark) + (price - mark) * (want - left)
  {
    SaleMakesSpread(q, want, price, mark);
    hide Gain, Worth, Match;
  }

  lemma {:induction false} MatchTakes(q: seq<Entry>, want: real)
    requires Positive(q) && want >= 0.0
    ensures var (rest, left) := Match(q, want);
            && Positive(rest) && 0.0 <= left <= want
            && Total(rest) == Total(q) - (want - left)
            && (left > 0.0 ==> rest == []) && (want <= Total(q) ==> left == 0.0) && (want > Total(q) ==> rest == [])
  {
    if q == [] {
    } else if want > 0.0 {
      var consume := Min(q[0].qty, want);
      TotalPositive(q[1..]);
      if q[0].qty - consume <= 0.0 {
        MatchTakes(q[1..], want - consume);
      } else {
        var rest := [Entry(q[0].qty - consume, q[0].price)] + q[1..];
        assert rest[1..] == q[1..];
      }
    } else {
      TotalPositive(q);
    }
  }

  lemma {:induction false} TotalPositive(q: seq<Entry>)
    requires Positive(q)
    ensures Total(q) >= 0.0 && (q != [] ==> Total(q) > 0.0)
  {
    if q != [] {
      TotalPositive(q[1..]);
    }
  }

  // ── The whole fill log ───────────────────────────────────────────────────────

  datatype Books = Books(queues: map<Key, seq<Entry>>, realized: map<AgentId, real>)

  function QueueOf(b: Books, k: Key): seq<Entry> {
    ValueOr(b.queues, k, [])
  }

  function RealizedOf(b: Books, agent: AgentId): real {
    ValueOr(b.realized, agent, 0.0)
  }

  /** One fill's effect on its own queue. */
  function Queued(q: seq<Entry>, f: Fill): seq<Entry> {
    if f.side == Buy then q + [Entry(f.qty, f.price)] else Match(q, f.qty).0
  }

  function GainOf(q: seq<Entry>, f: Fill): real {
    if f.side == Buy then 0.0 else Gain(q, f.qty, f.price)
  }

  function Attribute(b: Books, f: Fill): Books {
    var q := QueueOf(b, KeyOf(f));
    Books(b.queues[KeyOf(f) := Queued(q, f)], b.realized[f.agent := RealizedOf(b, f.agent) + GainOf(q, f)])
  }

  function BooksAfter(fills: seq<Fill>): Books {
    if fills == [] then Books(map[], map[]) else Attribute(BooksAfter(fills[..|fills| - 1]), fills[|fills| - 1])
  }

  /** The purchases still queued for one key. */
  function QueueAfter(fills: seq<Fill>, k: Key): seq<Entry> {
    QueueOf(BooksAfter(fills), k)
  }

  // ── The accounting identity ──────────────────────────────────────────────────

  /** What a fill matched of its own quantity; a purchase always counts in full. */
  function Matched(q: seq<Entry>, f: Fill): real {
    if f.side == Buy then f.qty else f.qty - Match(q, f.qty).1
  }

  /** What a fill takes out in cash, over its matched quantity. */
  function CashOf(q: seq<Entry>, f: Fill): real {
    if f.side == Buy then -f.price * f.qty else f.price * Matched(q, f)
  }

  /** What a fill adds to the position. */
  function NetOf(q: seq<Entry>, f: Fill): real {
    if f.side == Buy then f.qty else -Matched(q, f)
  }

  /** Sale proceeds less purchase cost for one key, over the matched quantities. */
  function Cash(fills: seq<Fill>, k: Key): real {
    if fills == [] then 0.0
    else
      var init, f := fills[..|fills| - 1], fills[|fills| - 1];
      Cash(init, k) + (if KeyOf(f) == k then CashOf(QueueAfter(init, k), f) else 0.0)
  }

  /** Quantity bought less quantity matched by sales. */
  function Net(fills: seq<Fill>, k: Key): real {
    if fills == [] then 0.0
    else
      var init, f := fills[..|fills| - 1], fills[|fills| - 1];
      Net(init, k) + (if KeyOf(f) == k then NetOf(QueueAfter(init, k), f) else 0.0)
  }

  /** The part of an agent's realized profit that one symbol earned. */
  function RealizedFor(fills: seq<Fill>, k: Key): real {
    if fills == [] then 0.0
    else
      var init, f := fills[..|fills| - 1], fills[|fills| - 1];
      RealizedFor(init, k) + (if KeyOf(f) == k then GainOf(QueueAfter(init, k), f) else 0.0)
  }

  lemma {:induction false} WorthAppend(q: seq<Entry>, e: Entry, mark: real)
    ensures Worth(q + [e], mark) == Worth(q, mark) + (mark - e.price) * e.qty
  {
    if q == [] {
      assert (q + [e])[1..] == [];
    } else {
      assert (q + [e])[1..] == q[1..] + [e];
      WorthAppend(q[1..], e, mark);
    }
  }

  lemma QueueStep(fills: seq<Fill>, k: Key)
    requires fills != []
    ensures var init, f := fills[..|fills| - 1], fills[|fills| - 1];
            QueueAfter(fills, k) == if KeyOf(f) == k then Queued(QueueAfter(init, k), f) else QueueAfter(init, k)
  {
    hide Queued, GainOf;
  }

  lemma FillConserves(q: seq<Entry>, f: Fill, mark: real)
    ensures GainOf(q, f) + Worth(Queued(q, f), mark) == Worth(q, mark) + CashOf(q, f) + mark * NetOf(q, f)
  {
    hide Match, Worth, Gain;
    if f.side == Buy {
      WorthAppend(q, Entry(f.qty, f.price), mark);
      Distribute(f.qty, mark, f.price);
    } else {
      SaleConservesWorth(q, f.qty, f.price, mark);
      Distribute(Matched(q, f), f.price, mark);
      Distribute(mark, 0.0, Matched(q, f));
    }
  }

  /** For any mark: realized profit plus paper profit is cash taken out plus the marked position. */
  lemma {:induction false} ProfitIsCashPlusPosition(fills: seq<Fill>, k: Key, mark: real)
    ensures RealizedFor(fills, k) + Worth(QueueAfter(fills, k), mark) == Cash(fills, k) + mark * Net(fills, k)
  {
    hide CashOf, NetOf, GainOf, Queued, QueueAfter, Worth;
    if fills == [] {
      NothingYet(k, mark);
    } else {
      var init, f := fills[..|fills| - 1], fills[|fills| - 1];
      ProfitIsCashPlusPosition(init, k, mark);
      QueueStep(fills, k);
      var q := QueueAfter(init, k);
      FillConserves(q, f, mark);
      Distribute(mark, Net(init, k), NetOf(q, f));
    }
  }

  lemma NothingYet(k: Key, mark: real)
    ensures Worth(QueueAfter([], k), mark) == 0.0
  {
  }

  /** Without overselling, a sale matches all of its quantity. */
  lemma CoveredSaleMatchesAll(q: seq<Entry>, f: Fill)
    requires Positive(q) && f.qty >= 0.0
    ensures f.side == Buy || f.qty <= Total(q) <==> f.side == Buy || Matched(q, f) == f.qty
  {
    MatchTakes(q, f.qty);
  }

  // ── The identity in plain sums over the fills ────────────────────────────────

  /** Quantity bought less quantity sold. */
  function Position(fills: seq<Fill>, k: Key): real {
    if fills == [] then 0.0
    else
      var f := fills[|fills| - 1];
      Position(fills[..|fills| - 1], k) + (if KeyOf(f) != k then 0.0 else if f.side == Buy then f.qty else -f.qty)
  }

  /** Sale proceeds less purchase cost. */
  function CashFlow(fills: seq<Fill>, k: Key): real {
    if fills == [] then 0.0
    else
      var f := fills[|fills| - 1];
      CashFlow(fills[..|fills| - 1], k)
      + (if KeyOf(f) != k then 0.0 else if f.side == Buy then -f.price * f.qty else f.price * f.qty)
  }

  /** What is held when a sale takes no more than there is. */
  function Available(fills: seq<Fill>, k: Key): real {
    if fills == [] then 0.0
    else
      var f, held := fills[|fills| - 1], Available(fills[..|fills| - 1], k);
      if KeyOf(f) != k then held else if f.side == Buy then held + f.qty else held - Min(f.qty, held)
  }

  /** The same proceeds less cost, a sale counted for no more than was held. */
  function CoveredCashFlow(fills: seq<Fill>, k: Key): real {
    if fills == [] then 0.0
    else
      var init, f := fills[..|fills| - 1], fills[|fills| - 1];
      CoveredCashFlow(init, k)
      + (if KeyOf(f) != k then 0.0
         else if f.side == Buy then -f.price * f.qty
         else f.price * Min(f.qty, Available(init, k)))
  }

  predicate PositiveQuantities(fills: seq<Fill>) {
    forall i :: 0 <= i < |fills| ==> fills[i].qty > 0.0
  }

  /** No sale is larger than what was bought and not yet sold. */
  predicate NoOversell(fills: seq<Fill>, k: Key) {
    forall n :: 0 <= n < |fills| && KeyOf(fills[n]) == k && fills[n].side == Sell ==>
      fills[n].qty <= Position(fills[..n], k)
  }

  /** One fill: the queue holds what is available, and a sale matches what is available of it. */
  lemma FillKeepsTotal(q: seq<Entry>, f: Fill)
    requires Positive(q) && f.qty > 0.0
    ensures Positive(Queued(q, f)) && Matched(q, f) == if f.side == Buy then f.qty else Min(f.qty, Total(q))
    ensures Total(Queued(q, f)) == if f.side == Buy then Total(q) + f.qty else Total(q) - Min(f.qty, Total(q))
  {
    if f.side == Buy {
      TotalAppend(q, Entry(f.qty, f.price));
    } else {
      MatchTakes(q, f.qty);
      TotalPositive(q);
    }
  }

  lemma {:induction false} TotalAppend(q: seq<Entry>, e: Entry)
    ensures Total(q + [e]) == Total(q) + e.qty
  {
    if q == [] {
      assert (q + [e])[1..] == [];
    } else {
      assert (q + [e])[1..] == q[1..] + [e];
      TotalAppend(q[1..], e);
    }
  }

  /** The queue's total is what is available, by counting alone. */
  lemma {:induction false} QueueHoldsAvailable(fills: seq<Fill>, k: Key)
    requires PositiveQuantities(fills)
    ensures Positive(QueueAfter(fills, k)) && Total(QueueAfter(fills, k)) == Available(fills, k) >= 0.0
  {
    hide QueueAfter, Queued, Matched;
    if fills == [] {
      EmptyQueue(k);
    } else {
      var init := fills[..|fills| - 1];
      QueueHoldsAvailable(init, k);
      QueueStep(fills, k);
      FillKeepsTotal(QueueAfter(init, k), fills[|fills| - 1]);
    }
    TotalPositive(QueueAfter(fills, k));
  }

  lemma EmptyQueue(k: Key)
    ensures QueueAfter([], k) == []
  {
  }

  /** What the matching counts as cash and position is what counting alone gives. */
  lemma {:induction false} MatchedIsCovered(fills: seq<Fill>, k: Key)
    requires PositiveQuantities(fills)
    ensures Cash(fills, k) == CoveredCashFlow(fills, k) && Net(fills, k) == Available(fills, k)
  {
    hide QueueAfter, CashOf, NetOf;
    if fills != [] {
      var init, f := fills[..|fills| - 1], fills[|fills| - 1];
      MatchedIsCovered(init, k);
      QueueHoldsAvailable(init, k);
      FillIsCovered(QueueAfter(init, k), f);
    }
  }

  lemma FillIsCovered(q: seq<Entry>, f: Fill)
    requires Positive(q) && f.qty > 0.0
    ensures CashOf(q, f) == if f.side == Buy then -f.price * f.qty else f.price * Min(f.qty, Total(q))
    ensures NetOf(q, f) == if f.side == Buy then f.qty else -Min(f.qty, Total(q))
  {
    hide Matched, Queued, Min, Total, Positive;
    FillKeepsTotal(q, f);
  }

  lemma LastIsCovered(fills: seq<Fill>, k: Key)
    requires fills != [] && NoOversell(fills, k)
    ensures var init, f := fills[..|fills| - 1], fills[|fills| - 1];
            NoOversell(init, k) && (KeyOf(f) == k && f.side == Sell ==> f.qty <= Position(init, k))
  {
    hide Position;
    var init := fills[..|fills| - 1];
    assert forall n :: 0 <= n < |init| ==> init[..n] == fills[..n];
  }

  /** Without overselling nothing is cut off: the covered sums are the plain sums. */
  lemma {:induction false} CoveredIsPlain(fills: seq<Fill>, k: Key)
    requires NoOversell(fills, k)
    ensures CoveredCashFlow(fills, k) == CashFlow(fills, k) && Available(fills, k) == Position(fills, k)
  {
    hide NoOversell, Min;
    if fills != [] {
      var init, f := fills[..|fills| - 1], fills[|fills| - 1];
      LastIsCovered(fills, k);
      CoveredIsPlain(init, k);
      if KeyOf(f) == k && f.side == Sell {
        SmallerFirst(f.qty, Available(init, k));
      }
    }
  }

  lemma SmallerFirst(x: real, y: real)
    requires x <= y
    ensures Min(x, y) == x
  {
  }

  /**
   * For any mark and any log: realized profit plus paper profit is sale proceeds less
   * purchase cost plus the marked position, a sale counted for no more than was held.
   * Without overselling these are the plain sums over the fills.
   */
  lemma ProfitIsCashFlowPlusPosition(fills: seq<Fill>, k: Key, mark: real)
    requires PositiveQuantities(fills)
    ensures RealizedFor(fills, k) + Worth(QueueAfter(fills, k), mark)
         == CoveredCashFlow(fills, k) + mark * Available(fills, k)
    ensures NoOversell(fills, k) ==>
              RealizedFor(fills, k) + Worth(QueueAfter(fills, k), mark)
              == CashFlow(fills, k) + mark * Position(fills, k)
  {
    hide RealizedFor, Worth, QueueAfter, Cash, Net, NoOversell;
    ProfitIsCashPlusPosition(fills, k, mark);
    MatchedIsCovered(fills, k);
    if NoOversell(fills, k) {
      CoveredIsPlain(fills, k);
    }
  }

  function SumOver(symbols: seq<string>, g: string -> real): real {
    if symbols == [] then 0.0 else SumOver(symbols[..|symbols| - 1], g) + g(symbols[|symbols| - 1])
  }

  lemma {:induction false} SumOverShift(symbols: seq<string>, g: string -> real, h: string -> real, s: string)
    requires NoDup(symbols) && forall x :: x in symbols && x != s ==> g(x) == h(x)
    ensures SumOver(symbols, g) - SumOver(symbols, h) == if s in symbols then g(s) - h(s) else 0.0
  {
    if symbols != [] {
      var init, last := symbols[..|symbols| - 1], symbols[|symbols| - 1];
      assert symbols == init + [last];
      SumOverShift(init, g, h, s);
    }
  }

  lemma {:induction false} SumOverAdd(symbols: seq<string>, g: string -> real, h: string -> real, t: string -> real)
    requires forall x :: x in symbols ==> t(x) == g(x) + h(x)
    ensures SumOver(symbols, t) == SumOver(symbols, g) + SumOver(symbols, h)
  {
    if symbols != [] {
      SumOverAdd(symbols[..|symbols| - 1], g, h, t);
    }
  }

  lemma {:induction false} SumOverZero(symbols: seq<string>, g: string -> real)
    requires forall x :: x in symbols ==> g(x) == 0.0
    ensures SumOver(symbols, g) == 0.0
  {
    if symbols != [] {
      SumOverZero(symbols[..|symbols| - 1], g);
    }
  }

  /** The listed symbols, each once, cover every symbol the agent has traded. */
  ghost predicate Covers(symbols: seq<string>, fills: seq<Fill>, agent: AgentId) {
    NoDup(symbols) && forall i :: 0 <= i < |fills| && fills[i].agent == agent ==> fills[i].symbol in symbols
  }

  /** What an agent realized is the sum over its symbols. */
  lemma {:induction false} RealizedIsSumOverSymbols(fills: seq<Fill>, agent: AgentId, symbols: seq<string>)
    requires Covers(symbols, fills, agent)
    ensures RealizedOf(BooksAfter(fills), agent) == SumOver(symbols, s => RealizedFor(fills, Key(agent, s)))
  {
    var now := s => RealizedFor(fills, Key(agent, s));
    if fills == [] {
      SumOverZero(symbols, now);
    } else {
      var init, f := fills[..|fills| - 1], fills[|fills| - 1];
      RealizedIsSumOverSymbols(init, agent, symbols);
      var was := s => RealizedFor(init, Key(agent, s));
      SumOverShift(symbols, now, was, f.symbol);
      if f.agent == agent {
        assert f.symbol in symbols;
      }
    }
  }

  /** Per symbol: what an agent's queue is worth on paper, and its cash plus its marked position. */
  function QueuedWorth(fills: seq<Fill>, agent: AgentId, mark: string -> real): string -> real {
    s => Worth(QueueAfter(fills, Key(agent, s)), mark(s))
  }

  function CashPlusPosition(fills: seq<Fill>, agent: AgentId, mark: string -> real): string -> real {
    s => Cash(fills, Key(agent, s)) + mark(s) * Net(fills, Key(agent, s))
  }

  /** The identity for a whole agent, over all the symbols it traded. */
  lemma AgentProfitIsCashPlusPosition(fills: seq<Fill>, agent: AgentId, symbols: seq<string>, mark: string -> real)
    requires Covers(symbols, fills, agent)
    ensures RealizedOf(BooksAfter(fills), agent) + SumOver(symbols, QueuedWorth(fills, agent, mark))
         == SumOver(symbols, CashPlusPosition(fills, agent, mark))
  {
    hide RealizedFor, Worth, QueueAfter, Cash, Net, SumOver, BooksAfter, RealizedOf;
    RealizedIsSumOverSymbols(fills, agent, symbols);
    var realized := s => RealizedFor(fills, Key(agent, s));
    forall s | s in symbols
      ensures CashPlusPosition(fills, agent, mark)(s) == realized(s) + QueuedWorth(fills, agent, mark)(s)
    {
      ProfitIsCashPlusPosition(fills, Key(agent, s), mark(s));
    }
    SumOverAdd(symbols, realized, QueuedWorth(fills, agent, mark), CashPlusPosition(fills, agent, mark));
  }

  lemma {:induction false} SumOverSame(symbols: seq<string>, g: string -> real, h: string -> real)
    requires forall x :: x in symbols ==> g(x) == h(x)
    ensures SumOver(symbols, g) == SumOver(symbols, h)
  {
    if symbols != [] {
      SumOverSame(symbols[..|symbols| - 1], g, h);
    }
  }

  /** Per symbol: proceeds less cost plus the marked position, in plain sums. */
  function FlowPlusPosition(fills: seq<Fill>, agent: AgentId, mark: string -> real): string -> real {
    s => CashFlow(fills, Key(agent, s)) + mark(s) * Position(fills, Key(agent, s))
  }

  ghost predicate NeverOversold(fills: seq<Fill>, agent: AgentId, symbols: seq<string>) {
    forall s :: s in symbols ==> NoOversell(fills, Key(agent, s))
  }

  lemma PlainIsMatched(fills: seq<Fill>, agent: AgentId, symbols: seq<string>, mark: string -> real)
    requires PositiveQuantities(fills) && NeverOversold(fills, agent, symbols)
    ensures SumOver(symbols, CashPlusPosition(fills, agent, mark))
         == SumOver(symbols, FlowPlusPosition(fills, agent, mark))
  {
    hide Cash, Net, CashFlow, Position, NoOversell, SumOver;
    forall s | s in symbols ensures CashPlusPosition(fills, agent, mark)(s) == FlowPlusPosition(fills, agent, mark)(s) {
      MatchedIsCovered(fills, Key(agent, s));
      CoveredIsPlain(fills, Key(agent, s));
    }
    SumOverSame(symbols, CashPlusPosition(fills, agent, mark), FlowPlusPosition(fills, agent, mark));
  }

  /** A whole agent that never oversold: its profit is its proceeds less its cost plus its marked positions. */
  lemma AgentProfitIsCashFlowPlusPosition(fills: seq<Fill>, agent: AgentId, symbols: seq<string>, mark: string -> real)
    requires Covers(symbols, fills, agent) && PositiveQuantities(fills) && NeverOversold(fills, agent, symbols)
    ensures RealizedOf(BooksAfter(fills), agent) + SumOver(symbols, QueuedWorth(fills, agent, mark))
         == SumOver(symbols, FlowPlusPosition(fills, agent, mark))
  {
    hide SumOver, BooksAfter, RealizedOf, Covers, NeverOversold, PositiveQuantities;
    AgentProfitIsCashPlusPosition(fills, agent, symbols, mark);
    PlainIsMatched(fills, agent, symbols, mark);
  }
}
