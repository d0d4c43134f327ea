/**
 * The tax lot ledger (execution/lots.py): one lot for each BUY fill, consumed first in
 * first out or last in first out by SELL fills. Lots are kept in the order they were
 * opened, and a lot's position in that order stands for its id.
 */
module Lots {
  import opened Common
  import opened Orders

  const DUST_NOTIONAL_USD := 0.01
  const SECONDS_PER_DAY := 86400

  datatype LotMethod = Fifo | Lifo

  datatype Exit = Exit(fill: FillId, date: int, price: real)

  datatype Lot = Lot(
    agent: AgentId,
    symbol: string,
    qty: real,
    entryPrice: real,
    entryDate: int,
    entryFill: FillId,
    remaining: real,
    exit: Option<Exit>,
    isClosed: bool)

  datatype Ledger = Ledger(lots: seq<Lot>, booked: set<FillId>)

  const EMPTY_LEDGER := Ledger([], {})

  function DateOf(ts: Time): int {
    ts / SECONDS_PER_DAY
  }

  /** The canonical form of a symbol has no slash. */
  function NormalizeSymbol(symbol: string): string {
    if symbol == "" then ""
    else NormalizeSymbol(symbol[..|symbol| - 1]) + (if symbol[|symbol| - 1] == '/' then "" else [symbol[|symbol| - 1]])
  }

  predicate Canonical(symbol: string) {
    forall j :: 0 <= j < |symbol| ==> symbol[j] != '/'
  }

  lemma {:induction false} NormalizeIsCanonical(symbol: string)
    ensures Canonical(NormalizeSymbol(symbol))
    ensures Canonical(symbol) ==> NormalizeSymbol(symbol) == symbol
  {
    if symbol != "" {
      NormalizeIsCanonical(symbol[..|symbol| - 1]);
      assert symbol == symbol[..|symbol| - 1] + [symbol[|symbol| - 1]];
    }
  }

  lemma NormalizeTwice(symbol: string)
    ensures NormalizeSymbol(NormalizeSymbol(symbol)) == NormalizeSymbol(symbol)
  {
    NormalizeIsCanonical(symbol);
    NormalizeIsCanonical(NormalizeSymbol(symbol));
  }

  function NewLot(f: Fill): Lot {
    Lot(f.agent, NormalizeSymbol(f.symbol), f.qty, f.price, DateOf(f.timestamp), f.id, f.qty, None, false)
  }

  // ── Which lots a sale may touch, and in which order ──────────────────────────

  predicate Candidate(lot: Lot, agent: AgentId, symbol: string) {
    lot.agent == agent && lot.symbol == symbol && !lot.isClosed && lot.remaining > 0.0
  }

  predicate InRange(lots: seq<Lot>, order: seq<nat>) {
    forall i :: 0 <= i < |order| ==> order[i] < |lots|
  }

  /** Positions of the candidates, oldest booking first. */
  function Candidates(lots: seq<Lot>, agent: AgentId, symbol: string): (r: seq<nat>)
    ensures InRange(lots, r)
  {
    if lots == [] then []
    else
      var init := Candidates(lots[..|lots| - 1], agent, symbol);
      if Candidate(lots[|lots| - 1], agent, symbol) then init + [|lots| - 1] else init
  }

  lemma {:induction false} CandidateFacts(lots: seq<Lot>, agent: AgentId, symbol: string)
    ensures var r := Candidates(lots, agent, symbol);
            && (forall i, j :: 0 <= i < j < |r| ==> r[i] < r[j])
            && (forall k: nat :: k in r <==> k < |lots| && Candidate(lots[k], agent, symbol))
  {
    hide Candidate;
    if lots != [] {
      CandidateFacts(lots[..|lots| - 1], agent, symbol);
    }
  }

  /** Whether a lot of date a stands strictly before one of date b; equal dates keep their order. */
  predicate Earlier(a: int, b: int, how: LotMethod) {
    if how == Fifo then a < b else a > b
  }

  /** Put a position behind every lot that does not come strictly after it. */
  function Insert(lots: seq<Lot>, order: seq<nat>, k: nat, how: LotMethod): (r: seq<nat>)
    requires InRange(lots, order) && k < |lots|
    ensures InRange(lots, r)
    ensures forall x :: x in r <==> x in order || x == k
  {
    if order == [] || !Earlier(lots[k].entryDate, lots[order[|order| - 1]].entryDate, how) then order + [k]
    else Insert(lots, order[..|order| - 1], k, how) + [order[|order| - 1]]
  }

  /** A stable sort by entry date: what Python's sort does with the date as its key. */
  function SortByDate(lots: seq<Lot>, order: seq<nat>, how: LotMethod): (r: seq<nat>)
    requires InRange(lots, order)
    ensures InRange(lots, r)
  {
    if order == [] then []
    else Insert(lots, SortByDate(lots, order[..|order| - 1], how), order[|order| - 1], how)
  }

  /** By date, and oldest booking first within a date, for either method. */
  predicate Before(lots: seq<Lot>, a: nat, b: nat, how: LotMethod)
    requires a < |lots| && b < |lots|
  {
    Earlier(lots[a].entryDate, lots[b].entryDate, how) || (lots[a].entryDate == lots[b].entryDate && a < b)
  }

  predicate InMethodOrder(lots: seq<Lot>, order: seq<nat>, how: LotMethod)
    requires InRange(lots, order)
  {
    forall i, j :: 0 <= i < j < |order| ==> Before(lots, order[i], order[j], how)
  }

  lemma {:induction false} InsertSorted(lots: seq<Lot>, order: seq<nat>, k: nat, how: LotMethod)
    requires InRange(lots, order) && k < |lots| && InMethodOrder(lots, order, how)
    requires forall i :: 0 <= i < |order| ==> order[i] < k
    ensures InMethodOrder(lots, Insert(lots, order, k, how), how)
  {
    if order != [] && Earlier(lots[k].entryDate, lots[order[|order| - 1]].entryDate, how) {
      var init, last := order[..|order| - 1], order[|order| - 1];
      InsertSorted(lots, init, k, how);
      var r := Insert(lots, init, k, how);
      forall i | 0 <= i < |r| ensures Before(lots, r[i], last, how) {
        assert r[i] in r;
        assert r[i] == k || r[i] in init;
      }
    } else {
      forall i | 0 <= i < |order| ensures Before(lots, order[i], k, how) {
        if i < |order| - 1 {
          assert Before(lots, order[i], order[|order| - 1], how);
        }
      }
    }
  }

  lemma {:induction false} InsertKeeps(lots: seq<Lot>, order: seq<nat>, k: nat, how: LotMethod)
    requires InRange(lots, order) && k < |lots|
    ensures multiset(Insert(lots, order, k, how)) == multiset(order) + multiset{k}
  {
    if order != [] && Earlier(lots[k].entryDate, lots[order[|order| - 1]].entryDate, how) {
      var init, last := order[..|order| - 1], order[|order| - 1];
      assert order == init + [last];
      InsertKeeps(lots, init, k, how);
    }
  }

  lemma {:induction false} SortSorts(lots: seq<Lot>, order: seq<nat>, how: LotMethod)
    requires InRange(lots, order) && forall i, j :: 0 <= i < j < |order| ==> order[i] < order[j]
    ensures InMethodOrder(lots, SortByDate(lots, order, how), how)
    ensures multiset(SortByDate(lots, order, how)) == multiset(order)
  {
    if order != [] {
      var init, last := order[..|order| - 1], order[|order| - 1];
      assert order == init + [last];
      SortSorts(lots, init, how);
      var sorted := SortByDate(lots, init, how);
      forall i | 0 <= i < |sorted| ensures sorted[i] < last {
        assert sorted[i] in multiset(sorted);
        assert sorted[i] in init;
      }
      InsertSorted(lots, sorted, last, how);
      InsertKeeps(lots, sorted, last, how);
    }
  }

  function SaleOrder(lots: seq<Lot>, agent: AgentId, symbol: string, how: LotMethod): (r: seq<nat>)
    ensures InRange(lots, r)
  {
    SortByDate(lots, Candidates(lots, agent, symbol), how)
  }

  // ── Consuming lots ───────────────────────────────────────────────────────────

  /** What is left of a lot; a sub-cent sliver is dust and becomes nothing. */
  function Leave(rest: real, price: real): real {
    if rest > 0.0 && price > 0.0 && rest * price < DUST_NOTIONAL_USD then 0.0 else rest
  }

  function ConsumeLot(lot: Lot, want: real, f: Fill): Lot {
    var rest := Leave(lot.remaining - Min(lot.remaining, want), f.price);
    var closed := rest == 0.0;
    lot.(remaining := rest, isClosed := closed,
         exit := if closed then Some(Exit(f.id, DateOf(f.timestamp), f.price)) else lot.exit)
  }

  /** The lots and the quantity still to close, after visiting the positions in order. */
  function Consumed(lots: seq<Lot>, order: seq<nat>, want: real, f: Fill): (r: (seq<Lot>, real))
    requires InRange(lots, order)
    ensures |r.0| == |lots|
  {
    if order == [] then (lots, want)
    else
      var (done, left) := Consumed(lots, order[..|order| - 1], want, f);
      var k := order[|order| - 1];
      if left <= 0.0 then (done, left)
      else (done[k := ConsumeLot(done[k], left, f)], left - Min(done[k].remaining, left))
  }

  /** The remaining quantity at some positions. */
  function SumAt(lots: seq<Lot>, order: seq<nat>): real
    requires InRange(lots, order)
  {
    if order == [] then 0.0 else SumAt(lots, order[..|order| - 1]) + lots[order[|order| - 1]].remaining
  }

  datatype Closing = Closed(lots: seq<Lot>) | Shortfall

  /** close_lots */
  function CloseLots(lots: seq<Lot>, agent: AgentId, symbol: string, qty: real, f: Fill, how: LotMethod): Closing {
    var order := SaleOrder(lots, agent, NormalizeSymbol(symbol), how);
    if qty > SumAt(lots, order) then Shortfall else Closed(Consumed(lots, order, qty, f).0)
  }

  /** book_fill: a shortfall is swallowed, and the fill counts as booked all the same. */
  function Book(l: Ledger, f: Fill, how: LotMethod): Ledger {
    if f.id in l.booked then l
    else
      var booked := l.booked + {f.id};
      if f.side == Buy then Ledger(l.lots + [NewLot(f)], booked)
      else
        match CloseLots(l.lots, f.agent, f.symbol, f.qty, f, how)
        case Shortfall => Ledger(l.lots, booked)
        case Closed(lots) => Ledger(lots, booked)
  }

  function BookAll(l: Ledger, fills: seq<Fill>, how: LotMethod): Ledger {
    if fills == [] then l else Book(BookAll(l, fills[..|fills| - 1], how), fills[|fills| - 1], how)
  }

  // ── What a sale does ─────────────────────────────────────────────────────────

  /** The open quantity of one agent in one symbol (total_open_qty). */
  function OpenQty(lots: seq<Lot>, agent: AgentId, symbol: string): real {
    if lots == [] then 0.0
    else
      var last := lots[|lots| - 1];
      OpenQty(lots[..|lots| - 1], agent, symbol) + OpenPart(last, agent, symbol)
  }

  function OpenPart(lot: Lot, agent: AgentId, symbol: string): real {
    if lot.agent == agent && lot.symbol == symbol && !lot.isClosed then lot.remaining else 0.0
  }

  /** Closed exactly when nothing remains, and never more left than was bought. */
  predicate SoundLot(lot: Lot) {
    0.0 <= lot.remaining <= lot.qty && (lot.isClosed <==> lot.remaining == 0.0)
  }

  predicate SoundLots(lots: seq<Lot>) {
    forall k :: 0 <= k < |lots| ==> SoundLot(lots[k])
  }

  predicate NoRepeats(order: seq<nat>) {
    forall i, j :: 0 <= i < j < |order| ==> order[i] != order[j]
  }

  /** Only the consumed quantity, the closed flag and the exit may change, and only downwards. */
  predicate OnlyConsumed(before: Lot, now: Lot) {
    && now == before.(remaining := now.remaining, isClosed := now.isClosed, exit := now.exit)
    && now.remaining <= before.remaining
  }

  /** Which lots have changed after the first i positions: a prefix, all but its last sold out. */
  ghost predicate PrefixSold(lots: seq<Lot>, now: seq<Lot>, order: seq<nat>, i: nat, left: real)
    requires i <= |order| && InRange(lots, order) && |now| == |lots|
  {
    && SoundLots(now)
    && (forall k :: 0 <= k < |lots| ==> OnlyConsumed(lots[k], now[k]))
    && (forall k :: 0 <= k < |lots| && k !in order[..i] ==> now[k] == lots[k])
    && (forall h, j :: 0 <= h < j < i && now[order[j]] != lots[order[j]] ==> now[order[h]].remaining == 0.0)
    && (left > 0.0 ==> forall j :: 0 <= j < i ==> now[order[j]].remaining == 0.0)
  }

  /** What a sale took beyond the quantity sold: the dust of one lot at most. */
  ghost predicate QtySold(lots: seq<Lot>, now: seq<Lot>, order: seq<nat>, want: real, left: real, price: real)
    requires InRange(lots, order) && |now| == |lots|
  {
    && 0.0 <= left <= want
    && var sliver := SumAt(lots, order) - SumAt(now, order) - (want - left);
       && sliver >= 0.0 && (left > 0.0 ==> sliver == 0.0)
       && (sliver > 0.0 ==> price > 0.0 && sliver * price < DUST_NOTIONAL_USD)
  }

  lemma {:induction false} SumAtOthers(a: seq<Lot>, b: seq<Lot>, order: seq<nat>)
    requires InRange(a, order) && InRange(b, order)
          && forall i :: 0 <= i < |order| ==> a[order[i]].remaining == b[order[i]].remaining
    ensures SumAt(a, order) == SumAt(b, order)
  {
    if order != [] {
      SumAtOthers(a, b, order[..|order| - 1]);
    }
  }

  lemma ConsumeLotSells(lot: Lot, want: real, f: Fill)
    requires SoundLot(lot) && want > 0.0
    ensures var after := ConsumeLot(lot, want, f);
            var left := want - Min(lot.remaining, want);
            && SoundLot(after) && OnlyConsumed(lot, after) && left >= 0.0
            && (left > 0.0 ==> after.remaining == 0.0)
            && var sliver := lot.remaining - after.remaining - (want - left);
               && sliver >= 0.0 && (left > 0.0 ==> sliver == 0.0)
               && (sliver > 0.0 ==> f.price > 0.0 && sliver * f.price < DUST_NOTIONAL_USD)
  {
  }

  lemma SellNext(lots: seq<Lot>, now: seq<Lot>, order: seq<nat>, i: nat, left: real, lot: Lot, rest: real)
    requires SoundLots(lots) && InRange(lots, order) && NoRepeats(order) && i < |order| && |now| == |lots|
    requires PrefixSold(lots, now, order, i, left) && left > 0.0 && rest >= 0.0
    requires SoundLot(lot) && OnlyConsumed(now[order[i]], lot) && (rest > 0.0 ==> lot.remaining == 0.0)
    ensures PrefixSold(lots, now[order[i] := lot], order, i + 1, rest)
  {
    var k := order[i];
    assert k !in order[..i];
    assert forall x :: x in order[..i + 1] <==> x in order[..i] || x == k;
    assert OnlyConsumed(lots[k], lot);
    hide SoundLot, OnlyConsumed;
  }

  lemma SkipNext(lots: seq<Lot>, now: seq<Lot>, order: seq<nat>, i: nat, left: real)
    requires SoundLots(lots) && InRange(lots, order) && NoRepeats(order) && i < |order| && |now| == |lots|
    requires PrefixSold(lots, now, order, i, left) && left <= 0.0
    ensures PrefixSold(lots, now, order, i + 1, left)
  {
    var k := order[i];
    assert k !in order[..i];
    assert forall x :: x in order[..i + 1] <==> x in order[..i] || x == k;
    hide SoundLot, OnlyConsumed;
  }

  lemma {:induction false} SoldPrefix(lots: seq<Lot>, order: seq<nat>, i: nat, want: real, f: Fill)
    requires SoundLots(lots) && InRange(lots, order) && NoRepeats(order) && i <= |order| && want >= 0.0
    ensures var (now, left) := Consumed(lots, order[..i], want, f);
            PrefixSold(lots, now, order, i, left) && 0.0 <= left <= want
  {
    if i == 0 {
      assert order[..0] == [];
    } else {
      hide PrefixSold, ConsumeLot, SoundLots, SoundLot, OnlyConsumed;
      SoldPrefix(lots, order, i - 1, want, f);
      assert order[..i][..i - 1] == order[..i - 1];
      var (now, left) := Consumed(lots, order[..i - 1], want, f);
      NotYetSold(lots, now, order, i - 1, left);
      if left > 0.0 {
        var k := order[i - 1];
        ConsumeLotSells(now[k], left, f);
        SellNext(lots, now, order, i - 1, left, ConsumeLot(now[k], left, f), left - Min(now[k].remaining, left));
      } else {
        SkipNext(lots, now, order, i - 1, left);
      }
    }
  }

  lemma NotYetSold(lots: seq<Lot>, now: seq<Lot>, order: seq<nat>, i: nat, left: real)
    requires InRange(lots, order) && i < |order| && |now| == |lots| && NoRepeats(order)
    requires PrefixSold(lots, now, order, i, left)
    ensures now[order[i]] == lots[order[i]] && SoundLot(now[order[i]])
  {
    assert order[i] !in order[..i];
    hide OnlyConsumed, SoundLot;
  }

  lemma SumAtUpdate(lots: seq<Lot>, order: seq<nat>, k: nat, lot: Lot)
    requires InRange(lots, order) && k < |lots| && k !in order
    ensures SumAt(lots[k := lot], order) == SumAt(lots, order)
  {
    SumAtOthers(lots, lots[k := lot], order);
  }

  lemma {:induction false} SoldQty(lots: seq<Lot>, order: seq<nat>, want: real, f: Fill)
    requires SoundLots(lots) && InRange(lots, order) && NoRepeats(order) && want >= 0.0
    ensures var (now, left) := Consumed(lots, order, want, f);
            QtySold(lots, now, order, want, left, f.price)
  {
    hide PrefixSold, ConsumeLot, SoundLots, SoundLot, OnlyConsumed;
    if order != [] {
      var init, k := order[..|order| - 1], order[|order| - 1];
      SoldQty(lots, init, want, f);
      SoldPrefix(lots, order, |init|, want, f);
      var (now, left) := Consumed(lots, init, want, f);
      NotYetSold(lots, now, order, |init|, left);
      if left > 0.0 {
        ConsumeLotSells(now[k], left, f);
        SumAtUpdate(now, init, k, ConsumeLot(now[k], left, f));
      }
    }
  }

  lemma {:induction false} InsertSums(lots: seq<Lot>, order: seq<nat>, k: nat, how: LotMethod)
    requires InRange(lots, order) && k < |lots|
    ensures SumAt(lots, Insert(lots, order, k, how)) == SumAt(lots, order) + lots[k].remaining
  {
    if order != [] && Earlier(lots[k].entryDate, lots[order[|order| - 1]].entryDate, how) {
      InsertSums(lots, order[..|order| - 1], k, how);
      var r := Insert(lots, order[..|order| - 1], k, how);
      assert (r + [order[|order| - 1]])[..|r|] == r;
    } else {
      assert (order + [k])[..|order|] == order;
    }
  }

  lemma {:induction false} SortSums(lots: seq<Lot>, now: seq<Lot>, order: seq<nat>, how: LotMethod)
    requires InRange(lots, order) && |now| == |lots|
    requires forall k :: 0 <= k < |lots| ==> now[k].entryDate == lots[k].entryDate
    ensures SumAt(now, SortByDate(lots, order, how)) == SumAt(now, order)
  {
    if order != [] {
      var init := order[..|order| - 1];
      SortSums(lots, now, init, how);
      InsertSame(lots, now, SortByDate(lots, init, how), order[|order| - 1], how);
      InsertSums(now, SortByDate(lots, init, how), order[|order| - 1], how);
    }
  }

  lemma {:induction false} InsertSame(lots: seq<Lot>, now: seq<Lot>, order: seq<nat>, k: nat, how: LotMethod)
    requires InRange(lots, order) && k < |lots| && |now| == |lots|
    requires forall k :: 0 <= k < |lots| ==> now[k].entryDate == lots[k].entryDate
    ensures Insert(now, order, k, how) == Insert(lots, order, k, how)
  {
    if order != [] {
      InsertSame(lots, now, order[..|order| - 1], k, how);
    }
  }

  /** Lots consumed only among the candidates: what is open afterwards is what remains at them. */
  ghost predicate ConsumedAmong(lots: seq<Lot>, now: seq<Lot>, agent: AgentId, symbol: string) {
    && |now| == |lots| && SoundLots(lots) && SoundLots(now)
    && (forall k :: 0 <= k < |lots| ==> OnlyConsumed(lots[k], now[k]))
    && (forall k :: 0 <= k < |lots| && !Candidate(lots[k], agent, symbol) ==> now[k] == lots[k])
  }

  lemma OpenAtCandidates(before: Lot, now: Lot, agent: AgentId, symbol: string)
    requires SoundLot(before) && SoundLot(now) && OnlyConsumed(before, now)
    requires !Candidate(before, agent, symbol) ==> now == before
    ensures OpenPart(now, agent, symbol) == if Candidate(before, agent, symbol) then now.remaining else 0.0
  {
  }

  lemma CandidatesStep(lots: seq<Lot>, agent: AgentId, symbol: string, n: nat)
    requires n < |lots|
    ensures var init := Candidates(lots[..n], agent, symbol);
            Candidates(lots[..n + 1], agent, symbol) == if Candidate(lots[n], agent, symbol) then init + [n] else init
  {
    assert lots[..n + 1][..n] == lots[..n];
    hide Candidate;
  }

  lemma OpenQtyStep(lots: seq<Lot>, agent: AgentId, symbol: string, n: nat)
    requires n < |lots|
    ensures OpenQty(lots[..n + 1], agent, symbol)
         == OpenQty(lots[..n], agent, symbol) + OpenPart(lots[n], agent, symbol)
  {
    assert lots[..n + 1][..n] == lots[..n];
  }

  lemma SumAtStep(lots: seq<Lot>, order: seq<nat>, k: nat)
    requires InRange(lots, order) && k < |lots|
    ensures SumAt(lots, order + [k]) == SumAt(lots, order) + lots[k].remaining
  {
    assert (order + [k])[..|order|] == order;
  }

  lemma CandidatesInRange(lots: seq<Lot>, agent: AgentId, symbol: string, n: nat)
    requires n <= |lots|
    ensures InRange(lots, Candidates(lots[..n], agent, symbol))
  {
  }

  lemma NothingOpen(lots: seq<Lot>, now: seq<Lot>, agent: AgentId, symbol: string)
    ensures Candidates(lots[..0], agent, symbol) == [] && OpenQty(now[..0], agent, symbol) == 0.0
         && SumAt(now, []) == 0.0
  {
  }

  lemma OpenAtPosition(lots: seq<Lot>, now: seq<Lot>, agent: AgentId, symbol: string, k: nat)
    requires ConsumedAmong(lots, now, agent, symbol) && k < |lots|
    ensures OpenPart(now[k], agent, symbol) == if Candidate(lots[k], agent, symbol) then now[k].remaining else 0.0
  {
    OpenAtCandidates(lots[k], now[k], agent, symbol);
    hide OpenPart, Candidate;
  }

  lemma {:induction false} OpenIsSumAtPrefix(lots: seq<Lot>, now: seq<Lot>, agent: AgentId, symbol: string, n: nat)
    requires ConsumedAmong(lots, now, agent, symbol) && |now| == |lots| && n <= |lots|
    ensures InRange(now, Candidates(lots[..n], agent, symbol))
    ensures OpenQty(now[..n], agent, symbol) == SumAt(now, Candidates(lots[..n], agent, symbol))
  {
    hide ConsumedAmong, Candidate, OpenPart, Candidates, OpenQty, SumAt;
    CandidatesInRange(lots, agent, symbol, n);
    if n == 0 {
      NothingOpen(lots, now, agent, symbol);
    } else {
      OpenIsSumAtPrefix(lots, now, agent, symbol, n - 1);
      OpenAtPosition(lots, now, agent, symbol, n - 1);
      CandidatesStep(lots, agent, symbol, n - 1);
      OpenQtyStep(now, agent, symbol, n - 1);
      SumAtStep(now, Candidates(lots[..n - 1], agent, symbol), n - 1);
    }
  }

  lemma OpenIsSumAt(lots: seq<Lot>, now: seq<Lot>, agent: AgentId, symbol: string)
    requires ConsumedAmong(lots, now, agent, symbol)
    ensures OpenQty(now, agent, symbol) == SumAt(now, Candidates(lots, agent, symbol))
  {
    OpenIsSumAtPrefix(lots, now, agent, symbol, |lots|);
    assert lots[..|lots|] == lots && now[..|lots|] == now;
  }

  lemma {:induction false} OtherKeysKept(lots: seq<Lot>, now: seq<Lot>, agent: AgentId, symbol: string, a: AgentId,
                                         s: string)
    requires ConsumedAmong(lots, now, agent, symbol) && (a != agent || s != symbol)
    ensures OpenQty(now, a, s) == OpenQty(lots, a, s)
  {
    if lots != [] {
      OtherKeysKept(lots[..|lots| - 1], now[..|lots| - 1], agent, symbol, a, s);
    }
  }

  lemma SaleOrderFacts(lots: seq<Lot>, agent: AgentId, symbol: string, how: LotMethod)
    ensures var order := SaleOrder(lots, agent, symbol, how);
            && InMethodOrder(lots, order, how) && NoRepeats(order)
            && (forall k: nat :: k in order <==> k < |lots| && Candidate(lots[k], agent, symbol))
  {
    var c, order := Candidates(lots, agent, symbol), SaleOrder(lots, agent, symbol, how);
    CandidateFacts(lots, agent, symbol);
    SortSorts(lots, c, how);
    forall k: nat ensures k in order <==> k < |lots| && Candidate(lots[k], agent, symbol) {
      assert k in order <==> k in multiset(order);
      assert k in multiset(order) <==> k in c;
    }
    forall i, j | 0 <= i < j < |order| ensures order[i] != order[j] {
      assert Before(lots, order[i], order[j], how);
    }
  }

  /** The lots of a sale: what it may touch, and how much of it. */
  lemma SaleAvailable(lots: seq<Lot>, agent: AgentId, symbol: string, how: LotMethod)
    requires SoundLots(lots)
    ensures SumAt(lots, SaleOrder(lots, agent, symbol, how)) == OpenQty(lots, agent, symbol)
    ensures OpenQty(lots, agent, symbol) >= 0.0
  {
    OpenIsSumAt(lots, lots, agent, symbol);
    SortSums(lots, lots, Candidates(lots, agent, symbol), how);
    SumAtPositive(lots, Candidates(lots, agent, symbol));
  }

  lemma {:induction false} SumAtPositive(lots: seq<Lot>, order: seq<nat>)
    requires SoundLots(lots) && InRange(lots, order)
    ensures SumAt(lots, order) >= 0.0
  {
    if order != [] {
      SumAtPositive(lots, order[..|order| - 1]);
    }
  }

  lemma {:induction false} NothingWanted(lots: seq<Lot>, order: seq<nat>, want: real, f: Fill)
    requires InRange(lots, order) && want <= 0.0
    ensures Consumed(lots, order, want, f) == (lots, want)
  {
    if order != [] {
      NothingWanted(lots, order[..|order| - 1], want, f);
    }
  }

  /** A sale succeeds exactly when enough is open; a sale of nothing changes nothing. */
  lemma SaleSucceedsIffCovered(lots: seq<Lot>, agent: AgentId, symbol: string, qty: real, f: Fill, how: LotMethod)
    requires SoundLots(lots)
    ensures CloseLots(lots, agent, symbol, qty, f, how).Closed?
       <==> qty <= OpenQty(lots, agent, NormalizeSymbol(symbol))
    ensures qty <= 0.0 ==> CloseLots(lots, agent, symbol, qty, f, how) == Closed(lots)
  {
    SaleAvailable(lots, agent, NormalizeSymbol(symbol), how);
    if qty <= 0.0 {
      NothingWanted(lots, SaleOrder(lots, agent, NormalizeSymbol(symbol), how), qty, f);
    }
  }

  /** The lots a sale changes are the first ones in method order, and all but the last of them are sold out. */
  ghost predicate TakesPrefix(lots: seq<Lot>, now: seq<Lot>, agent: AgentId, symbol: string, how: LotMethod)
    requires |now| == |lots|
  {
    && (forall k :: 0 <= k < |lots| && now[k] != lots[k] ==> Candidate(lots[k], agent, symbol))
    && (forall h, k ::
          0 <= h < |lots| && 0 <= k < |lots| && Candidate(lots[h], agent, symbol) && Before(lots, h, k, how)
          && now[k] != lots[k] ==>
            now[h].remaining == 0.0)
  }

  lemma PrefixIsTaken(lots: seq<Lot>, now: seq<Lot>, left: real, agent: AgentId, symbol: string, how: LotMethod)
    requires var order := SaleOrder(lots, agent, symbol, how);
             |now| == |lots| && PrefixSold(lots, now, order, |order|, left)
    ensures TakesPrefix(lots, now, agent, symbol, how)
  {
    SaleOrderFacts(lots, agent, symbol, how);
    var order := SaleOrder(lots, agent, symbol, how);
    assert order[..|order|] == order;
    forall h, k | 0 <= h < |lots| && 0 <= k < |lots| && Candidate(lots[h], agent, symbol) && Before(lots, h, k, how)
      && now[k] != lots[k]
      ensures now[h].remaining == 0.0
    {
      assert h in order && k in order;
      var i :| 0 <= i < |order| && order[i] == h;
      var j :| 0 <= j < |order| && order[j] == k;
      assert i < j;
    }
  }

  /** What a sale took beyond the quantity sold: dust at most. */
  predicate OnlyDust(sliver: real, price: real) {
    sliver >= 0.0 && (sliver > 0.0 ==> price > 0.0 && sliver * price < DUST_NOTIONAL_USD)
  }

  /**
   * A covered sale: it takes a prefix of the open lots in method order, lowers the open
   * quantity by what was sold plus the dust of at most one lot, keeps every lot's record
   * of its purchase and every other position, and leaves no lot half closed.
   */
  ghost predicate SoldFrom(lots: seq<Lot>, now: seq<Lot>, agent: AgentId, symbol: string, qty: real, price: real,
                           how: LotMethod) {
    && |now| == |lots| && SoundLots(now) && (forall k :: 0 <= k < |lots| ==> OnlyConsumed(lots[k], now[k]))
    && TakesPrefix(lots, now, agent, symbol, how)
    && OnlyDust(OpenQty(lots, agent, symbol) - OpenQty(now, agent, symbol) - qty, price)
    && (forall a, s :: a != agent || s != symbol ==> OpenQty(now, a, s) == OpenQty(lots, a, s))
  }

  lemma SaleTakesAPrefix(lots: seq<Lot>, agent: AgentId, symbol: string, qty: real, f: Fill, how: LotMethod)
    requires SoundLots(lots) && 0.0 <= qty <= OpenQty(lots, agent, NormalizeSymbol(symbol))
    ensures var r := CloseLots(lots, agent, symbol, qty, f, how);
            r.Closed? && SoldFrom(lots, r.lots, agent, NormalizeSymbol(symbol), qty, f.price, how)
  {
    var sym := NormalizeSymbol(symbol);
    hide Consumed, SaleOrder, PrefixSold, OnlyDust, OpenQty, SoldFrom, ConsumedAmong, TakesPrefix, SoundLots, NoRepeats,
         SumAt, NormalizeSymbol;
    var order := SaleOrder(lots, agent, sym, how);
    SaleAvailable(lots, agent, sym, how);
    var (now, left) := Consumed(lots, order, qty, f);
    SaleConsumes(lots, agent, sym, qty, f, how);
    SaleQty(lots, agent, sym, qty, f, how);
    PrefixIsTaken(lots, now, left, agent, sym, how);
    SoldFromParts(lots, now, agent, sym, qty, f.price, how);
  }

  lemma SoldFromParts(lots: seq<Lot>, now: seq<Lot>, agent: AgentId, symbol: string, qty: real, price: real,
                      how: LotMethod)
    requires ConsumedAmong(lots, now, agent, symbol) && TakesPrefix(lots, now, agent, symbol, how)
    requires OnlyDust(OpenQty(lots, agent, symbol) - OpenQty(now, agent, symbol) - qty, price)
    ensures SoldFrom(lots, now, agent, symbol, qty, price, how)
  {
    forall a, s | a != agent || s != symbol ensures OpenQty(now, a, s) == OpenQty(lots, a, s) {
      OtherKeysKept(lots, now, agent, symbol, a, s);
    }
    hide OnlyDust, OpenQty, TakesPrefix, OnlyConsumed;
  }

  /** Visiting the whole sale order: a prefix is sold, among the candidates only. */
  lemma SaleConsumes(lots: seq<Lot>, agent: AgentId, symbol: string, qty: real, f: Fill, how: LotMethod)
    requires SoundLots(lots) && qty >= 0.0
    ensures var order := SaleOrder(lots, agent, symbol, how);
            var (now, left) := Consumed(lots, order, qty, f);
            && |now| == |lots| && 0.0 <= left <= qty && NoRepeats(order)
            && PrefixSold(lots, now, order, |order|, left) && ConsumedAmong(lots, now, agent, symbol)
  {
    var order := SaleOrder(lots, agent, symbol, how);
    SaleOrderFacts(lots, agent, symbol, how);
    assert order[..|order|] == order;
    hide InMethodOrder, SaleOrder, PrefixSold, ConsumedAmong, SoundLots;
    SoldPrefix(lots, order, |order|, qty, f);
    var (now, left) := Consumed(lots, order, qty, f);
    AmongCandidates(lots, now, left, agent, symbol, how);
  }

  lemma SaleQty(lots: seq<Lot>, agent: AgentId, symbol: string, qty: real, f: Fill, how: LotMethod)
    requires SoundLots(lots) && 0.0 <= qty <= OpenQty(lots, agent, symbol)
    ensures var now := Consumed(lots, SaleOrder(lots, agent, symbol, how), qty, f).0;
            OnlyDust(OpenQty(lots, agent, symbol) - OpenQty(now, agent, symbol) - qty, f.price)
  {
    var order := SaleOrder(lots, agent, symbol, how);
    hide SaleOrder, OpenQty, SumAt, Consumed, SoundLots, ConsumedAmong, PrefixSold, Candidates;
    var (now, left) := Consumed(lots, order, qty, f);
    SaleAvailable(lots, agent, symbol, how);
    SaleConsumes(lots, agent, symbol, qty, f, how);
    SoldQty(lots, order, qty, f);
    OpenAfterSale(lots, now, agent, symbol, how);
    if left > 0.0 {
      SoldOutAfter(lots, now, order, left);
    }
  }

  lemma OpenAfterSale(lots: seq<Lot>, now: seq<Lot>, agent: AgentId, symbol: string, how: LotMethod)
    requires ConsumedAmong(lots, now, agent, symbol)
    ensures OpenQty(now, agent, symbol) == SumAt(now, SaleOrder(lots, agent, symbol, how))
  {
    OpenIsSumAt(lots, now, agent, symbol);
    SortSums(lots, now, Candidates(lots, agent, symbol), how);
  }

  lemma SoldOutAfter(lots: seq<Lot>, now: seq<Lot>, order: seq<nat>, left: real)
    requires InRange(lots, order) && |now| == |lots| && PrefixSold(lots, now, order, |order|, left) && left > 0.0
    ensures SumAt(now, order) == 0.0
  {
    SoldOut(now, order);
  }

  lemma {:induction false} SoldOut(lots: seq<Lot>, order: seq<nat>)
    requires InRange(lots, order) && forall j :: 0 <= j < |order| ==> lots[order[j]].remaining == 0.0
    ensures SumAt(lots, order) == 0.0
  {
    if order != [] {
      SoldOut(lots, order[..|order| - 1]);
    }
  }

  lemma AmongCandidates(lots: seq<Lot>, now: seq<Lot>, left: real, agent: AgentId, symbol: string, how: LotMethod)
    requires var order := SaleOrder(lots, agent, symbol, how);
             |now| == |lots| && PrefixSold(lots, now, order, |order|, left)
    requires SoundLots(lots)
    ensures ConsumedAmong(lots, now, agent, symbol)
  {
    SaleOrderFacts(lots, agent, symbol, how);
    var order := SaleOrder(lots, agent, symbol, how);
    assert order[..|order|] == order;
  }

  // ── Booking a list of fills ──────────────────────────────────────────────────

  /** The fills whose id has not appeared earlier in the list. */
  function FirstOnly(fills: seq<Fill>): seq<Fill> {
    if fills == [] then []
    else
      var init, last := fills[..|fills| - 1], fills[|fills| - 1];
      if Listed(init, last.id) then FirstOnly(init) else FirstOnly(init) + [last]
  }

  predicate Listed(fills: seq<Fill>, id: FillId) {
    exists i :: 0 <= i < |fills| && fills[i].id == id
  }

  lemma ListedLast(fills: seq<Fill>, id: FillId)
    requires fills != []
    ensures Listed(fills, id) <==> Listed(fills[..|fills| - 1], id) || fills[|fills| - 1].id == id
  {
    var init, last := fills[..|fills| - 1], fills[|fills| - 1];
    if Listed(init, id) {
      var i :| 0 <= i < |init| && init[i].id == id;
      assert fills[i].id == id;
    }
    if last.id == id {
      assert fills[|init|].id == id;
    }
  }

  lemma BookMarks(l: Ledger, f: Fill, how: LotMethod)
    ensures Book(l, f, how).booked == l.booked + {f.id}
  {
  }

  lemma {:induction false} BookedIds(l: Ledger, fills: seq<Fill>, how: LotMethod, id: FillId)
    ensures id in BookAll(l, fills, how).booked <==> id in l.booked || Listed(fills, id)
  {
    hide Book, Listed;
    if fills == [] {
      assert !Listed([], id) by {
        NoneListed(id);
      }
    } else {
      BookedIds(l, fills[..|fills| - 1], how, id);
      ListedLast(fills, id);
      BookMarks(BookAll(l, fills[..|fills| - 1], how), fills[|fills| - 1], how);
    }
  }

  lemma NoneListed(id: FillId)
    ensures !Listed([], id)
  {
  }

  /** Booking a list with repeats is booking each id once. */
  lemma {:induction false} RepeatsAreBookedOnce(l: Ledger, fills: seq<Fill>, how: LotMethod)
    ensures BookAll(l, fills, how) == BookAll(l, FirstOnly(fills), how)
  {
    if fills != [] {
      var init, last := fills[..|fills| - 1], fills[|fills| - 1];
      RepeatsAreBookedOnce(l, init, how);
      if Listed(init, last.id) {
        BookedIds(l, init, how, last.id);
      } else {
        assert FirstOnly(fills)[..|FirstOnly(init)|] == FirstOnly(init);
      }
    }
  }

  /** A positive purchase keeps the ledger sound, and so does any sale. */
  lemma BookKeepsSound(l: Ledger, f: Fill, how: LotMethod)
    requires SoundLots(l.lots) && f.qty > 0.0
    ensures SoundLots(Book(l, f, how).lots)
  {
    if f.id !in l.booked && f.side == Sell {
      SaleSucceedsIffCovered(l.lots, f.agent, f.symbol, f.qty, f, how);
      if f.qty <= OpenQty(l.lots, f.agent, NormalizeSymbol(f.symbol)) {
        SaleTakesAPrefix(l.lots, f.agent, f.symbol, f.qty, f, how);
      }
    }
  }
}
