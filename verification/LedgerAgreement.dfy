/**
 * The lot ledger and the attribution queues read the same fills. They hold the same open
 * purchases at every point of a log exactly when every sale in it is clean.
 */
module LedgerAgreement {
  import opened Common
  import opened Orders
  import opened Lots
  import opened Attribution

  // ── The ledger's open lots as a queue ────────────────────────────────────────

  function EntriesAt(lots: seq<Lot>, order: seq<nat>): (r: seq<Entry>)
    requires InRange(lots, order)
    ensures |r| == |order|
  {
    seq(|order|, i requires 0 <= i < |order| => Entry(lots[order[i]].remaining, lots[order[i]].entryPrice))
  }

  function OpenQueue(lots: seq<Lot>, k: Key): seq<Entry> {
    EntriesAt(lots, Candidates(lots, k.agent, k.symbol))
  }

  /** What the ledger makes of a queue in a sale: like Match, but dust is dropped. */
  function Snapped(q: seq<Entry>, want: real, price: real): seq<Entry> {
    if want <= 0.0 || q == [] then q
    else
      var consume := Min(q[0].qty, want);
      var rest := Leave(q[0].qty - consume, price);
      if rest == 0.0 then Snapped(q[1..], want - consume, price) else [Entry(rest, q[0].price)] + q[1..]
  }

  /** One fill's effect on the ledger's queue of its key; a shortfall has none. */
  function LedgerQueued(q: seq<Entry>, f: Fill): seq<Entry> {
    if f.side == Buy then q + [Entry(f.qty, f.price)]
    else if f.qty > Total(q) then q
    else Snapped(q, f.qty, f.price)
  }

  // ── When the two effects coincide ────────────────────────────────────────────

  /** What is left of the purchase a sale stops in; zero if it stops between two. */
  function PartLeft(q: seq<Entry>, want: real): real {
    if want <= 0.0 || q == [] then 0.0
    else if q[0].qty <= want then PartLeft(q[1..], want - q[0].qty)
    else q[0].qty - want
  }

  /** A sale is clean if it is covered and leaves no dust behind, or if nothing at all is open. */
  predicate Clean(q: seq<Entry>, f: Fill) {
    f.side == Buy || q == [] || (f.qty <= Total(q) && Leave(PartLeft(q, f.qty), f.price) == PartLeft(q, f.qty))
  }

  lemma {:induction false} SnappedIsMatchIffNoDust(q: seq<Entry>, want: real, price: real)
    requires Positive(q) && want >= 0.0
    ensures Snapped(q, want, price) == Match(q, want).0 <==> Leave(PartLeft(q, want), price) == PartLeft(q, want)
  {
    if want > 0.0 && q != [] {
      if q[0].qty <= want {
        SnappedIsMatchIffNoDust(q[1..], want - q[0].qty, price);
      } else {
        var part := q[0].qty - want;
        assert Match(q, want).0 == [Entry(part, q[0].price)] + q[1..];
        if Leave(part, price) == 0.0 {
          assert Snapped(q, want, price) == Snapped(q[1..], 0.0, price) == q[1..];
        } else {
          assert Snapped(q, want, price) == [Entry(part, q[0].price)] + q[1..];
        }
      }
    }
  }

  lemma CleanIffSameEffect(q: seq<Entry>, f: Fill)
    requires Positive(q) && f.qty > 0.0
    ensures LedgerQueued(q, f) == Queued(q, f) <==> Clean(q, f)
  {
    if f.side == Sell {
      MatchTakes(q, f.qty);
      TotalPositive(q);
      if f.qty <= Total(q) {
        SnappedIsMatchIffNoDust(q, f.qty, f.price);
      }
      assert Total([]) == 0.0;
    }
  }

  // ── The ledger's effect on the queue ─────────────────────────────────────────

  predicate Ascending(order: seq<nat>) {
    forall i, j :: 0 <= i < j < |order| ==> order[i] < order[j]
  }

  lemma {:induction false} SameCandidacy(lots: seq<Lot>, now: seq<Lot>, k: Key)
    requires |now| == |lots|
    requires forall i :: 0 <= i < |lots| ==>
               Candidate(now[i], k.agent, k.symbol) == Candidate(lots[i], k.agent, k.symbol)
    ensures Candidates(now, k.agent, k.symbol) == Candidates(lots, k.agent, k.symbol)
  {
    hide Candidate;
    if lots != [] {
      SameCandidacy(lots[..|lots| - 1], now[..|lots| - 1], k);
    }
  }

  lemma {:induction false} FirstCandidateGone(lots: seq<Lot>, k: Key, lot: Lot)
    requires Candidates(lots, k.agent, k.symbol) != [] && !Candidate(lot, k.agent, k.symbol)
    ensures var c := Candidates(lots, k.agent, k.symbol); Candidates(lots[c[0] := lot], k.agent, k.symbol) == c[1..]
  {
    hide Candidate;
    var c := Candidates(lots, k.agent, k.symbol);
    var n := |lots| - 1;
    var init := lots[..n];
    var now := lots[c[0] := lot];
    if Candidates(init, k.agent, k.symbol) == [] {
      assert now[..n] == init;
    } else {
      FirstCandidateGone(init, k, lot);
      assert now[..n] == init[c[0] := lot];
    }
  }

  lemma {:induction false} ConsumedFront(lots: seq<Lot>, order: seq<nat>, want: real, f: Fill)
    requires InRange(lots, order) && order != [] && want > 0.0
    ensures var k := order[0];
            Consumed(lots, order, want, f)
            == Consumed(lots[k := ConsumeLot(lots[k], want, f)], order[1..], want - Min(lots[k].remaining, want), f)
  {
    hide ConsumeLot;
    var k := order[0];
    var init := order[..|order| - 1];
    if init == [] {
      assert order[1..] == [];
      assert Consumed(lots, init, want, f) == (lots, want);
    } else {
      ConsumedFront(lots, init, want, f);
      assert order[1..][..|order| - 2] == init[1..];
    }
  }

  /** The first candidate is sold out and has gone. */
  lemma FirstSoldOut(lots: seq<Lot>, k: Key, lot: Lot)
    requires var c := Candidates(lots, k.agent, k.symbol);
             c != [] && OnlyConsumed(lots[c[0]], lot) && lot.remaining == 0.0
    ensures var c := Candidates(lots, k.agent, k.symbol);
            var now := lots[c[0] := lot];
            Candidates(now, k.agent, k.symbol) == c[1..] && OpenQueue(now, k) == OpenQueue(lots, k)[1..]
  {
    var c := Candidates(lots, k.agent, k.symbol);
    assert !Candidate(lot, k.agent, k.symbol);
    CandidateFacts(lots, k.agent, k.symbol);
    hide OnlyConsumed, Candidate, Candidates;
    FirstCandidateGone(lots, k, lot);
  }

  /** The sale stopped in the first candidate, which stays first with less in it. */
  lemma FirstLowered(lots: seq<Lot>, k: Key, lot: Lot)
    requires var c := Candidates(lots, k.agent, k.symbol);
             c != [] && OnlyConsumed(lots[c[0]], lot) && SoundLot(lot) && lot.remaining > 0.0
    ensures var c := Candidates(lots, k.agent, k.symbol);
            var now := lots[c[0] := lot];
            && Candidates(now, k.agent, k.symbol) == c
            && OpenQueue(now, k) == [Entry(lot.remaining, lots[c[0]].entryPrice)] + OpenQueue(lots, k)[1..]
  {
    var c := Candidates(lots, k.agent, k.symbol);
    CandidateFacts(lots, k.agent, k.symbol);
    var now := lots[c[0] := lot];
    assert c[0] in c;
    assert Candidate(lots[c[0]], k.agent, k.symbol) && Candidate(lot, k.agent, k.symbol);
    assert lot.entryPrice == lots[c[0]].entryPrice;
    hide OnlyConsumed, Candidate, Candidates, SoundLot;
    SameCandidacy(lots, now, k);
  }

  lemma SoundUpdate(lots: seq<Lot>, k: nat, lot: Lot)
    requires SoundLots(lots) && k < |lots| && SoundLot(lot)
    ensures SoundLots(lots[k := lot])
  {
  }

  /** Visiting the open lots oldest first does to the queue what Snapped says. */
  lemma {:induction false} LedgerSells(lots: seq<Lot>, k: Key, want: real, f: Fill)
    requires SoundLots(lots) && want >= 0.0
    ensures OpenQueue(Consumed(lots, Candidates(lots, k.agent, k.symbol), want, f).0, k)
         == Snapped(OpenQueue(lots, k), want, f.price)
    decreases |Candidates(lots, k.agent, k.symbol)|
  {
    hide SoundLots, ConsumeLot, Candidates, Consumed, Leave, SoundLot, OnlyConsumed, Candidate;
    var c := Candidates(lots, k.agent, k.symbol);
    if want == 0.0 {
      NothingWanted(lots, c, want, f);
    } else if c == [] {
      NothingListed(lots, want, f);
    } else {
      FrontEntry(lots, k, want, f);
      var lot := ConsumeLot(lots[c[0]], want, f);
      var now := lots[c[0] := lot];
      var left := want - Min(lots[c[0]].remaining, want);
      SoundAt(lots, c[0]);
      ConsumeLotSells(lots[c[0]], want, f);
      SoundUpdate(lots, c[0], lot);
      ConsumedFront(lots, c, want, f);
      if lot.remaining == 0.0 {
        FirstSoldOut(lots, k, lot);
        LedgerSells(now, k, left, f);
      } else {
        SoundRemains(lot);
        FirstLowered(lots, k, lot);
        NothingWanted(now, c[1..], left, f);
      }
    }
  }

  lemma NothingListed(lots: seq<Lot>, want: real, f: Fill)
    ensures Consumed(lots, [], want, f).0 == lots
  {
  }

  lemma SoundAt(lots: seq<Lot>, i: nat)
    requires SoundLots(lots) && i < |lots|
    ensures SoundLot(lots[i])
  {
  }

  lemma SoundRemains(lot: Lot)
    requires SoundLot(lot) && lot.remaining != 0.0
    ensures lot.remaining > 0.0
  {
  }

  lemma FrontEntry(lots: seq<Lot>, k: Key, want: real, f: Fill)
    requires Candidates(lots, k.agent, k.symbol) != [] && want > 0.0
    ensures var c := Candidates(lots, k.agent, k.symbol);
            var q := OpenQueue(lots, k);
            && q != [] && q[0] == Entry(lots[c[0]].remaining, lots[c[0]].entryPrice)
            && ConsumeLot(lots[c[0]], want, f).remaining == Leave(q[0].qty - Min(q[0].qty, want), f.price)
  {
  }

  // ── One booked fill ──────────────────────────────────────────────────────────

  predicate DatesRise(lots: seq<Lot>) {
    forall i, j :: 0 <= i <= j < |lots| ==> lots[i].entryDate <= lots[j].entryDate
  }

  lemma {:induction false} FifoKeepsBookingOrder(lots: seq<Lot>, order: seq<nat>)
    requires InRange(lots, order) && Ascending(order) && DatesRise(lots)
    ensures SortByDate(lots, order, Fifo) == order
  {
    if order != [] {
      var init, last := order[..|order| - 1], order[|order| - 1];
      FifoKeepsBookingOrder(lots, init);
      if init != [] {
        assert lots[init[|init| - 1]].entryDate <= lots[last].entryDate;
      }
    }
  }

  lemma {:induction false} TotalIsSumAt(lots: seq<Lot>, order: seq<nat>)
    requires InRange(lots, order)
    ensures Total(EntriesAt(lots, order)) == SumAt(lots, order)
  {
    if order != [] {
      var init, last := order[..|order| - 1], order[|order| - 1];
      TotalIsSumAt(lots, init);
      assert EntriesAt(lots, order) == EntriesAt(lots, init) + [Entry(lots[last].remaining, lots[last].entryPrice)];
      TotalAppend(EntriesAt(lots, init), Entry(lots[last].remaining, lots[last].entryPrice));
    }
  }

  lemma FifoOrder(lots: seq<Lot>, k: Key)
    requires DatesRise(lots)
    ensures SaleOrder(lots, k.agent, k.symbol, Fifo) == Candidates(lots, k.agent, k.symbol)
    ensures SumAt(lots, Candidates(lots, k.agent, k.symbol)) == Total(OpenQueue(lots, k))
  {
    CandidateFacts(lots, k.agent, k.symbol);
    FifoKeepsBookingOrder(lots, Candidates(lots, k.agent, k.symbol));
    TotalIsSumAt(lots, Candidates(lots, k.agent, k.symbol));
  }

  lemma QueueIsPositive(lots: seq<Lot>, k: Key)
    ensures Positive(OpenQueue(lots, k))
  {
    var c := Candidates(lots, k.agent, k.symbol);
    CandidateFacts(lots, k.agent, k.symbol);
    assert forall i :: 0 <= i < |c| ==> c[i] in c;
  }

  lemma OtherCandidacy(lots: seq<Lot>, now: seq<Lot>, k: Key, other: Key, i: nat)
    requires ConsumedAmong(lots, now, k.agent, k.symbol) && k != other && i < |lots|
    ensures Candidate(now[i], other.agent, other.symbol) == Candidate(lots[i], other.agent, other.symbol)
    ensures Candidate(lots[i], other.agent, other.symbol) ==> now[i] == lots[i]
  {
    assert OnlyConsumed(lots[i], now[i]);
    hide SoundLots, SoundLot;
  }

  /** Selling from one key leaves the queues of the others alone. */
  lemma OtherQueueKept(lots: seq<Lot>, now: seq<Lot>, k: Key, other: Key)
    requires ConsumedAmong(lots, now, k.agent, k.symbol) && |now| == |lots| && k != other
    ensures OpenQueue(now, other) == OpenQueue(lots, other)
  {
    hide ConsumedAmong, Candidate, Candidates;
    forall i | 0 <= i < |lots|
      ensures Candidate(now[i], other.agent, other.symbol) == Candidate(lots[i], other.agent, other.symbol)
    {
      OtherCandidacy(lots, now, k, other, i);
    }
    SameCandidacy(lots, now, other);
    var c := Candidates(lots, other.agent, other.symbol);
    CandidateFacts(lots, other.agent, other.symbol);
    forall i | 0 <= i < |c| ensures now[c[i]] == lots[c[i]] {
      assert c[i] in c;
      OtherCandidacy(lots, now, k, other, c[i]);
    }
  }

  lemma BoughtQueue(lots: seq<Lot>, f: Fill, k: Key)
    requires NormalizeSymbol(f.symbol) == f.symbol && f.qty > 0.0
    ensures OpenQueue(lots + [NewLot(f)], k) == if KeyOf(f) == k then OpenQueue(lots, k) + [Entry(f.qty, f.price)]
                                                else OpenQueue(lots, k)
  {
    assert (lots + [NewLot(f)])[..|lots|] == lots;
  }

  /** A fill the ledger has not seen does to the queue of its key what LedgerQueued says. */
  lemma LedgerStep(l: Ledger, f: Fill, k: Key)
    requires SoundLots(l.lots) && DatesRise(l.lots) && f.id !in l.booked && f.qty > 0.0
          && NormalizeSymbol(f.symbol) == f.symbol
    ensures OpenQueue(Book(l, f, Fifo).lots, k)
         == if KeyOf(f) == k then LedgerQueued(OpenQueue(l.lots, k), f) else OpenQueue(l.lots, k)
  {
    hide SoundLots, DatesRise, OpenQueue, Candidates, Consumed, SaleOrder, Snapped, Total, SumAt, ConsumedAmong,
         PrefixSold;
    if f.side == Buy {
      BoughtQueue(l.lots, f, k);
    } else {
      FifoOrder(l.lots, KeyOf(f));
      LedgerSells(l.lots, KeyOf(f), f.qty, f);
      SaleConsumes(l.lots, f.agent, f.symbol, f.qty, f, Fifo);
      if KeyOf(f) != k {
        OtherQueueKept(l.lots, Consumed(l.lots, SaleOrder(l.lots, f.agent, f.symbol, Fifo), f.qty, f).0, KeyOf(f), k);
      }
    }
  }

  // ── Whole logs ───────────────────────────────────────────────────────────────

  /** A log of positive fills with fresh ids, canonical symbols and rising dates. */
  predicate GoodLog(fills: seq<Fill>) {
    && (forall i :: 0 <= i < |fills| ==> fills[i].qty > 0.0 && NormalizeSymbol(fills[i].symbol) == fills[i].symbol)
    && (forall i, j :: 0 <= i < j < |fills| ==>
        fills[i].id != fills[j].id && DateOf(fills[i].timestamp) <= DateOf(fills[j].timestamp))
  }

  function LedgerAfter(fills: seq<Fill>): Ledger {
    BookAll(EMPTY_LEDGER, fills, Fifo)
  }

  predicate DatedBy(lots: seq<Lot>, date: int) {
    forall i :: 0 <= i < |lots| ==> lots[i].entryDate <= date
  }

  lemma BookDates(l: Ledger, f: Fill)
    requires SoundLots(l.lots) && DatesRise(l.lots) && DatedBy(l.lots, DateOf(f.timestamp)) && f.qty > 0.0
    ensures DatesRise(Book(l, f, Fifo).lots) && DatedBy(Book(l, f, Fifo).lots, DateOf(f.timestamp))
  {
    hide NormalizeSymbol;
    if f.side == Sell && f.id !in l.booked {
      var sym := NormalizeSymbol(f.symbol);
      SaleConsumes(l.lots, f.agent, sym, f.qty, f, Fifo);
      ConsumedKeepsDates(l.lots, Consumed(l.lots, SaleOrder(l.lots, f.agent, sym, Fifo), f.qty, f).0, f.agent, sym,
                         DateOf(f.timestamp));
      hide Consumed, SaleOrder, PrefixSold, SumAt, ConsumedAmong, DatesRise, DatedBy, DateOf, SoundLots;
    }
  }

  lemma ConsumedKeepsDates(lots: seq<Lot>, now: seq<Lot>, agent: AgentId, symbol: string, date: int)
    requires ConsumedAmong(lots, now, agent, symbol) && DatesRise(lots) && DatedBy(lots, date)
    ensures DatesRise(now) && DatedBy(now, date)
  {
    hide SoundLots;
  }

  lemma {:induction false} LedgerIsDated(fills: seq<Fill>)
    requires GoodLog(fills)
    ensures SoundLots(LedgerAfter(fills).lots) && DatesRise(LedgerAfter(fills).lots)
    ensures fills != [] ==> DatedBy(LedgerAfter(fills).lots, DateOf(fills[|fills| - 1].timestamp))
    ensures forall id :: id in LedgerAfter(fills).booked <==> exists i :: 0 <= i < |fills| && fills[i].id == id
  {
    hide Book;
    if fills != [] {
      var init, f := fills[..|fills| - 1], fills[|fills| - 1];
      LedgerIsDated(init);
      BookKeepsSound(LedgerAfter(init), f, Fifo);
      BookDates(LedgerAfter(init), f);
    }
    forall id ensures id in LedgerAfter(fills).booked <==> exists i :: 0 <= i < |fills| && fills[i].id == id {
      BookedIds(EMPTY_LEDGER, fills, Fifo, id);
    }
  }

  /** Both sides agree on every key after the first n fills. */
  ghost predicate AgreeAfter(fills: seq<Fill>, n: nat)
    requires n <= |fills|
  {
    forall k :: QueueAfter(fills[..n], k) == OpenQueue(LedgerAfter(fills[..n]).lots, k)
  }

  predicate CleanAt(fills: seq<Fill>, n: nat)
    requires n < |fills|
  {
    Clean(OpenQueue(LedgerAfter(fills[..n]).lots, KeyOf(fills[n])), fills[n])
  }

  /** One more fill, seen from one key: agreement is kept unless the fill is its own and not clean. */
  lemma AgreementStepAt(fills: seq<Fill>, n: nat, k: Key)
    requires GoodLog(fills) && n < |fills| && QueueAfter(fills[..n], k) == OpenQueue(LedgerAfter(fills[..n]).lots, k)
    ensures QueueAfter(fills[..n + 1], k) == OpenQueue(LedgerAfter(fills[..n + 1]).lots, k)
       <==> (KeyOf(fills[n]) == k ==> CleanAt(fills, n))
  {
    hide Clean, LedgerQueued, Queued, OpenQueue, Book, SoundLots, DatesRise, QueueAfter, BooksAfter;
    var before, now, f := fills[..n], fills[..n + 1], fills[n];
    assert now[..|now| - 1] == before && now[|now| - 1] == f;
    assert GoodLog(before);
    LedgerIsDated(before);
    assert f.id !in LedgerAfter(before).booked;
    QueueIsPositive(LedgerAfter(before).lots, k);
    CleanIffSameEffect(OpenQueue(LedgerAfter(before).lots, k), f);
    QueueStep(now, k);
    LedgerStep(LedgerAfter(before), f, k);
  }

  /** From agreement, one more fill keeps it if and only if the fill is clean. */
  lemma AgreementStep(fills: seq<Fill>, n: nat)
    requires GoodLog(fills) && n < |fills| && AgreeAfter(fills, n)
    ensures AgreeAfter(fills, n + 1) <==> CleanAt(fills, n)
  {
    hide CleanAt, OpenQueue, QueueAfter, LedgerAfter, GoodLog;
    AgreementStepAt(fills, n, KeyOf(fills[n]));
    if CleanAt(fills, n) {
      var now := fills[..n + 1];
      forall k ensures QueueAfter(now, k) == OpenQueue(LedgerAfter(now).lots, k) {
        AgreementStepAt(fills, n, k);
      }
    }
  }

  lemma NothingBooked(fills: seq<Fill>)
    ensures AgreeAfter(fills, 0)
  {
    assert fills[..0] == [];
  }

  lemma {:induction false} CleanPrefixAgrees(fills: seq<Fill>, n: nat)
    requires GoodLog(fills) && n <= |fills| && forall i :: 0 <= i < n ==> CleanAt(fills, i)
    ensures AgreeAfter(fills, n)
  {
    hide AgreeAfter, CleanAt;
    if n == 0 {
      NothingBooked(fills);
    } else {
      CleanPrefixAgrees(fills, n - 1);
      AgreementStep(fills, n - 1);
    }
  }

  /**
   * The ledger's open lots and the attribution's queued purchases are the same, entry for
   * entry, for every agent and symbol and after every fill, if and only if every sale in
   * the log is clean when it is booked.
   */
  lemma BooksAgreeIffClean(fills: seq<Fill>)
    requires GoodLog(fills)
    ensures (forall n :: 0 <= n <= |fills| ==> AgreeAfter(fills, n))
       <==> (forall n :: 0 <= n < |fills| ==> CleanAt(fills, n))
  {
    hide AgreeAfter, CleanAt;
    if forall n :: 0 <= n < |fills| ==> CleanAt(fills, n) {
      forall n | 0 <= n <= |fills| ensures AgreeAfter(fills, n) {
        CleanPrefixAgrees(fills, n);
      }
    }
    if forall n :: 0 <= n <= |fills| ==> AgreeAfter(fills, n) {
      forall n | 0 <= n < |fills| ensures CleanAt(fills, n) {
        assert AgreeAfter(fills, n) && AgreeAfter(fills, n + 1);
        AgreementStep(fills, n);
      }
    }
  }

  // ── Two logs on which the books part ─────────────────────────────────────────

  /** A purchase and a sale of the same symbol: what both books make of them. */
  lemma BuyThenSell(buy: Fill, sell: Fill)
    requires GoodLog([buy, sell]) && KeyOf(sell) == KeyOf(buy) && buy.side == Buy && sell.side == Sell
    ensures OpenQueue(LedgerAfter([buy, sell]).lots, KeyOf(buy)) == LedgerQueued([Entry(buy.qty, buy.price)], sell)
    ensures QueueAfter([buy, sell], KeyOf(buy)) == Queued([Entry(buy.qty, buy.price)], sell)
  {
    var k := KeyOf(buy);
    var one, two := [buy], [buy, sell];
    assert two[..1] == one && one[..0] == [];
    assert GoodLog(one) by {
      assert one[0] == two[0];
    }
    LedgerIsDated([]);
    LedgerIsDated(one);
    assert LedgerAfter([]) == EMPTY_LEDGER && QueueAfter([], k) == [];
    assert sell.id !in LedgerAfter(one).booked by {
      assert two[0].id != two[1].id;
      BookMarks(EMPTY_LEDGER, buy, Fifo);
    }
    NothingOpen(k);
    hide LedgerQueued, Queued, OpenQueue, Book, SoundLots, DatesRise, QueueAfter, BooksAfter;
    LedgerStep(EMPTY_LEDGER, buy, k);
    QueueStep(one, k);
    LedgerStep(LedgerAfter(one), sell, k);
    QueueStep(two, k);
    FirstPurchase(buy);
  }

  lemma NothingOpen(k: Key)
    ensures OpenQueue(EMPTY_LEDGER.lots, k) == []
  {
    assert Candidates([], k.agent, k.symbol) == [];
  }

  lemma FirstPurchase(buy: Fill)
    requires buy.side == Buy
    ensures LedgerQueued([], buy) == Queued([], buy) == [Entry(buy.qty, buy.price)]
  {
    assert [] + [Entry(buy.qty, buy.price)] == [Entry(buy.qty, buy.price)];
  }

  function SampleFill(n: nat, side: Side, qty: real): Fill {
    Fill(VenueFill(n), n, Haiku, "AAPL", side, qty, 100.0, 0, 0.0, false)
  }

  lemma SampleLogIsGood(qty: real)
    requires qty > 0.0
    ensures GoodLog([SampleFill(0, Buy, 1.0), SampleFill(1, Sell, qty)])
  {
    NormalizeIsCanonical("AAPL");
    hide NormalizeSymbol;
  }

  /** Buy one share at 100 and sell all but half a cent's worth: the ledger drops the sliver, the queue keeps it. */
  lemma SliverPartsTheBooks()
    ensures var fills := [SampleFill(0, Buy, 1.0), SampleFill(1, Sell, 0.99995)];
            && GoodLog(fills)
            && OpenQueue(LedgerAfter(fills).lots, Key(Haiku, "AAPL")) == []
            && QueueAfter(fills, Key(Haiku, "AAPL")) == [Entry(0.00005, 100.0)]
  {
    var buy, sell := SampleFill(0, Buy, 1.0), SampleFill(1, Sell, 0.99995);
    SampleLogIsGood(0.99995);
    BuyThenSell(buy, sell);
    hide GoodLog, OpenQueue, LedgerAfter, QueueAfter;
    var q := [Entry(1.0, 100.0)];
    assert q[1..] == [] && Total(q) == 1.0;
    assert Match(q, 0.99995).0 == [Entry(0.00005, 100.0)] + q[1..];
  }

  /** Buy one share and sell two: the ledger refuses the sale, the queue is emptied. */
  lemma OversellPartsTheBooks()
    ensures var fills := [SampleFill(0, Buy, 1.0), SampleFill(1, Sell, 2.0)];
            && GoodLog(fills)
            && OpenQueue(LedgerAfter(fills).lots, Key(Haiku, "AAPL")) == [Entry(1.0, 100.0)]
            && QueueAfter(fills, Key(Haiku, "AAPL")) == []
  {
    var buy, sell := SampleFill(0, Buy, 1.0), SampleFill(1, Sell, 2.0);
    SampleLogIsGood(2.0);
    BuyThenSell(buy, sell);
    hide GoodLog, OpenQueue, LedgerAfter, QueueAfter;
    var q := [Entry(1.0, 100.0)];
    assert q[1..] == [] && Total(q) == 1.0;
    assert Match(q, 2.0).0 == [];
  }
}
