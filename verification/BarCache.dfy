/**
 * The daily bar cache and the market data wrapper that fills its gaps (data/bar_cache.py).
 * Times of day are dropped: a request asks for whole days.
 */
module BarCache {
  import opened Common
  import opened Market

  // ── One symbol ───────────────────────────────────────────────────────────────

  predicate IsLast(h: map<int, Bar>, last: Option<int>) {
    match last
    case None => h == map[]
    case Some(d) => d in h && forall e :: e in h ==> e <= d
  }

  /** The first day a symbol still needs, looking only at its last cached day. */
  function GapStart(last: Option<int>, start: int, end: int, today: int): int {
    match last
    case None => start
    case Some(d) => if d >= Least(end, today - 1) then today else d + 1
  }

  /**
   * A cached symbol agrees with upstream, is contiguous from `lo` to its last day, and
   * holds nothing dated today or later.
   */
  predicate Coherent(h: map<int, Bar>, u: map<int, Bar>, lo: int, today: int) {
    && (forall d :: d in h ==> d in u && h[d] == u[d] && lo <= d < today)
    && (forall d, e :: d in u && e in h && lo <= d <= e ==> d in h)
  }

  /** The stored history after a write of upstream's bars from `gap` to `end`, today's excluded. */
  ghost predicate WrittenTo(h: map<int, Bar>, now: map<int, Bar>, u: map<int, Bar>, gap: int, end: int, today: int) {
    && (forall d :: d in u && gap <= d <= end && d < today ==> d in now && now[d] == u[d])
    && (forall d :: d in h && !(d in u && gap <= d <= end && d < today) ==> d in now && now[d] == h[d])
    && (forall d :: d in now ==> d in h || (d in u && gap <= d <= end && d < today))
  }

  /** Where the covered span of a symbol starts after a write. */
  function Lower(h: map<int, Bar>, lo: int, gap: int): int {
    if h == map[] then gap else Least(lo, gap)
  }

  /** A write from no later than the day after the last cached day leaves no hole. */
  lemma WriteKeepsCoherent(h: map<int, Bar>, now: map<int, Bar>, u: map<int, Bar>, lo: int, last: Option<int>, gap: int,
                           start: int, end: int, today: int)
    requires Coherent(h, u, lo, today) && IsLast(h, last) && WrittenTo(h, now, u, gap, end, today)
    requires gap <= GapStart(last, start, end, today)
    requires h != map[] ==> lo <= start <= end
    ensures Coherent(now, u, Lower(h, lo, gap), today)
  {
    forall d, e | d in u && e in now && Lower(h, lo, gap) <= d <= e ensures d in now {
      assert e in h || (e in u && gap <= e <= end && e < today);
    }
  }

  /** A cached day before the gap is upstream's, and one of upstream's is cached exactly from the covered start on. */
  lemma CachedBeforeGap(h: map<int, Bar>, u: map<int, Bar>, lo: int, last: Option<int>, gap: int, start: int, end: int,
                        today: int, d: int)
    requires Coherent(h, u, lo, today) && IsLast(h, last)
    requires gap <= GapStart(last, start, end, today) && start <= d <= end && d < gap
    ensures d in h ==> d in u && h[d] == u[d]
    ensures d in u ==> (d in h <==> lo <= d)
  {
  }

  /** Upstream has no bar in the requested range before both the covered start and the gap. */
  predicate NoneMissed(u: map<int, Bar>, lo: int, gap: int, start: int, end: int) {
    forall d :: d in u && start <= d <= end ==> lo <= d || gap <= d
  }

  /** Cached bars overwritten by fresh ones: on every day of the range, upstream's, exactly if none was missed. */
  lemma MergeIsExactIff(h: map<int, Bar>, u: map<int, Bar>, lo: int, last: Option<int>, gap: int, start: int, end: int,
                        today: int, seen: map<int, Bar>, merged: map<int, Bar>)
    requires Filed(h) && Filed(u) && Coherent(h, u, lo, today) && IsLast(h, last)
          && gap <= GapStart(last, start, end, today)
    requires WrittenTo(map[], seen, h, start, end, end + 1) && WrittenTo(seen, merged, u, gap, end, end + 1)
    ensures BarsIn(merged, start, end) == BarsIn(u, start, end) <==> NoneMissed(u, lo, gap, start, end)
  {
    WrittenIsFiled(map[], seen, h, start, end, end + 1);
    WrittenIsFiled(seen, merged, u, gap, end, end + 1);
    SameBarsIff(merged, u, start, end);
    forall d | start <= d <= end
      ensures d in merged ==> d in u && merged[d] == u[d]
      ensures d in u ==> (d in merged <==> lo <= d || gap <= d)
    {
      if d < gap {
        CachedBeforeGap(h, u, lo, last, gap, start, end, today, d);
      }
    }
  }

  lemma WrittenIsFiled(h: map<int, Bar>, now: map<int, Bar>, u: map<int, Bar>, gap: int, end: int, today: int)
    requires Filed(h) && Filed(u) && WrittenTo(h, now, u, gap, end, today)
    ensures Filed(now)
  {
  }

  /** Without a gap before the end, the cache alone is exact if and only if nothing was missed. */
  lemma CacheIsExactIff(h: map<int, Bar>, u: map<int, Bar>, lo: int, last: Option<int>, gap: int, start: int, end: int,
                        today: int)
    requires Filed(h) && Filed(u) && Coherent(h, u, lo, today) && IsLast(h, last)
    requires gap <= GapStart(last, start, end, today) && gap > end
    ensures BarsIn(h, start, end) == BarsIn(u, start, end) <==> NoneMissed(u, lo, gap, start, end)
  {
    SameBarsIff(h, u, start, end);
    forall d | start <= d <= end
      ensures d in h ==> d in u && h[d] == u[d]
      ensures d in u ==> (d in h <==> lo <= d)
    {
      CachedBeforeGap(h, u, lo, last, gap, start, end, today, d);
    }
  }

  /** The past does not change: what was cached stays coherent as upstream grows. */
  ghost predicate PastKept(u: map<int, Bar>, v: map<int, Bar>, today: int) {
    forall d :: d < today ==> (d in u <==> d in v) && (d in u && d in v ==> u[d] == v[d])
  }

  lemma TimePasses(h: map<int, Bar>, u: map<int, Bar>, v: map<int, Bar>, lo: int, today: int, later: int)
    requires Coherent(h, u, lo, today) && PastKept(u, v, today) && today <= later
    ensures Coherent(h, v, lo, later)
  {
  }

  /** A history with bars put in one after the other, those dated today or later left out. */
  function Upserted(h: map<int, Bar>, bars: seq<Bar>, today: int): map<int, Bar> {
    if bars == [] then h
    else
      var init, b := Upserted(h, bars[..|bars| - 1], today), bars[|bars| - 1];
      if b.date < today then init[b.date := b] else init
  }

  lemma WriteOneMore(h: map<int, Bar>, before: map<int, Bar>, now: map<int, Bar>, u: map<int, Bar>, gap: int, end: int,
                     today: int)
    requires WrittenTo(h, before, u, gap, end - 1, today) && gap <= end
    requires now == if end in u && end < today then before[end := u[end]] else before
    ensures WrittenTo(h, now, u, gap, end, today)
  {
  }

  lemma UpsertLast(h: map<int, Bar>, u: map<int, Bar>, gap: int, end: int, today: int)
    requires Filed(u) && gap <= end
    ensures var before := Upserted(h, BarsIn(u, gap, end - 1), today);
            Upserted(h, BarsIn(u, gap, end), today) == if end in u && end < today then before[end := u[end]] else before
  {
    var bars := BarsIn(u, gap, end);
    if end in u {
      assert bars[..|bars| - 1] == BarsIn(u, gap, end - 1);
      assert bars[|bars| - 1] == u[end] && u[end].date == end;
    } else {
      assert bars == BarsIn(u, gap, end - 1);
    }
  }

  /** Upserting upstream's own bars of a range is exactly the write above. */
  lemma {:induction false} UpsertWrites(h: map<int, Bar>, u: map<int, Bar>, gap: int, end: int, today: int)
    requires Filed(u)
    ensures WrittenTo(h, Upserted(h, BarsIn(u, gap, end), today), u, gap, end, today)
    decreases end - gap
  {
    if gap <= end {
      hide Upserted, BarsIn, WrittenTo, Filed;
      UpsertWrites(h, u, gap, end - 1, today);
      UpsertLast(h, u, gap, end, today);
      WriteOneMore(h, Upserted(h, BarsIn(u, gap, end - 1), today), Upserted(h, BarsIn(u, gap, end), today), u, gap, end,
                   today);
    }
  }

  lemma SomeDay(days: set<int>)
    ensures days == {} || exists d: int :: d in days
  {
    if forall d: int :: d !in days {
      assert days == {};
    }
  }

  // ── The store ────────────────────────────────────────────────────────────────

  function HistoryOf(rows: map<string, map<int, Bar>>, symbol: string): map<int, Bar> {
    ValueOr(rows, symbol, map[])
  }

  class Store {
    var rows: map<string, map<int, Bar>>

    constructor ()
      ensures rows == map[]
    {
      rows := map[];
    }

    /** Cached bars of a range, oldest first; a symbol without any gets an empty list. */
    method ReadRange(symbols: seq<string>, start: int, end: int) returns (out: map<string, seq<Bar>>)
      ensures forall s :: s in out <==> s in symbols
      ensures forall s :: s in symbols ==> out[s] == BarsIn(HistoryOf(rows, s), start, end)
    {
      out := map[];
      for i := 0 to |symbols|
        invariant forall s :: s in out <==> s in symbols[..i]
        invariant forall s :: s in out ==> out[s] == BarsIn(HistoryOf(rows, s), start, end)
      {
        assert forall s :: s in symbols[..i + 1] <==> s in symbols[..i] || s == symbols[i];
        out := out[symbols[i] := BarsIn(HistoryOf(rows, symbols[i]), start, end)];
      }
      assert symbols[..|symbols|] == symbols;
    }

    /** The latest cached day of one symbol. */
    method LastCachedDate(symbol: string) returns (last: Option<int>)
      ensures IsLast(HistoryOf(rows, symbol), last)
    {
      var h := HistoryOf(rows, symbol);
      var todo: set<int> := h.Keys;
      last := None;
      while todo != {}
        invariant todo <= h.Keys
        invariant last.None? ==> todo == h.Keys
        invariant last.Some? ==> last.value in h
        invariant last.Some? ==> forall e :: e in h && e !in todo ==> e <= last.value
        decreases |todo|
      {
        SomeDay(todo);
        var d: int :| d in todo;
        todo := todo - {d};
        if last.None? || d > last.value {
          last := Some(d);
        }
      }
      if last.None? {
        assert h.Keys == {};
      }
    }

    /** Upsert one symbol's bars, skipping those dated today or later. */
    method Write(symbol: string, bars: seq<Bar>, today: int)
      modifies this
      ensures forall s :: s != symbol ==> HistoryOf(rows, s) == HistoryOf(old(rows), s)
      ensures HistoryOf(rows, symbol) == Upserted(HistoryOf(old(rows), symbol), bars, today)
      ensures rows.Keys == old(rows.Keys) + {symbol}
    {
      var h := HistoryOf(rows, symbol);
      for i := 0 to |bars|
        invariant h == Upserted(HistoryOf(rows, symbol), bars[..i], today)
      {
        assert bars[..i + 1][..i] == bars[..i];
        if bars[i].date < today {
          h := h[bars[i].date := bars[i]];
        }
      }
      assert bars[..|bars|] == bars;
      rows := rows[symbol := h];
    }
  }

  // ── The wrapper ──────────────────────────────────────────────────────────────

  /** Writing the same bars again changes nothing more. */
  lemma WriteTwice(h: map<int, Bar>, mid: map<int, Bar>, now: map<int, Bar>, u: map<int, Bar>, gap: int, end: int,
                   today: int)
    requires WrittenTo(h, mid, u, gap, end, today) && WrittenTo(mid, now, u, gap, end, today)
    ensures WrittenTo(h, now, u, gap, end, today)
  {
  }

  /** Every cached symbol is filed by date and coherent with upstream, from a day of its own. */
  ghost predicate AllCoherent(rows: map<string, map<int, Bar>>, upstream: map<string, map<int, Bar>>,
                              lo: map<string, int>, today: int) {
    forall s :: s in rows ==> s in lo && Filed(rows[s]) && Coherent(rows[s], HistoryOf(upstream, s), lo[s], today)
  }

  /** Each requested symbol's covered span starts no later than the request. */
  ghost predicate SpansReach(rows: map<string, map<int, Bar>>, lo: map<string, int>, symbols: seq<string>, start: int) {
    forall s :: s in symbols && s in rows && s in lo && rows[s] != map[] ==> lo[s] <= start
  }

  ghost predicate AllFiled(upstream: map<string, map<int, Bar>>) {
    forall s :: s in upstream ==> Filed(upstream[s])
  }

  /** The last cached day of each requested symbol, and a gap no later than any of them needs. */
  ghost predicate GapFits(rows: map<string, map<int, Bar>>, symbols: seq<string>, lasts: map<string, Option<int>>,
                          gap: int, start: int, end: int, today: int) {
    forall s :: s in symbols ==>
      s in lasts && IsLast(HistoryOf(rows, s), lasts[s]) && gap <= GapStart(lasts[s], start, end, today)
  }

  /** Some requested symbol needs upstream from that very day on. */
  ghost predicate GapNeeded(symbols: seq<string>, lasts: map<string, Option<int>>, gap: int, start: int, end: int,
                            today: int) {
    exists s :: s in symbols && s in lasts && gap == GapStart(lasts[s], start, end, today)
  }

  /** The earliest day upstream is needed from, whatever the last cached days are called. */
  ghost predicate IsEarliestGap(rows: map<string, map<int, Bar>>, symbols: seq<string>, gap: int, start: int, end: int,
                                today: int) {
    && (forall s, last :: s in symbols && IsLast(HistoryOf(rows, s), last) ==> gap <= GapStart(last, start, end, today))
    && (exists s, last :: s in symbols && IsLast(HistoryOf(rows, s), last) && gap == GapStart(last, start, end, today))
  }

  lemma FittedGapIsEarliest(rows: map<string, map<int, Bar>>, symbols: seq<string>, lasts: map<string, Option<int>>,
                            gap: int, start: int, end: int, today: int)
    requires GapFits(rows, symbols, lasts, gap, start, end, today) && GapNeeded(symbols, lasts, gap, start, end, today)
    ensures IsEarliestGap(rows, symbols, gap, start, end, today)
  {
    hide GapStart, IsLast, HistoryOf;
    forall s, last | s in symbols && IsLast(HistoryOf(rows, s), last) ensures gap <= GapStart(last, start, end, today) {
      LastIsUnique(HistoryOf(rows, s), lasts[s], last);
    }
    var s :| s in symbols && s in lasts && gap == GapStart(lasts[s], start, end, today);
    assert IsLast(HistoryOf(rows, s), lasts[s]);
  }

  lemma LastIsUnique(h: map<int, Bar>, one: Option<int>, other: Option<int>)
    requires IsLast(h, one) && IsLast(h, other)
    ensures one == other
  {
  }

  /** One more symbol looked at: the gap so far is the least, and one of the symbols needs it. */
  lemma GapAdvances(rows: map<string, map<int, Bar>>, done: seq<string>, s: string, lasts: map<string, Option<int>>,
                    gap: int, last: Option<int>, start: int, end: int, today: int)
    requires lasts.Keys == (set t | t in done) && IsLast(HistoryOf(rows, s), last)
    requires GapFits(rows, done, lasts, gap, start, end, today) && GapNeeded(done, lasts, gap, start, end, today)
    ensures var next, least := lasts[s := last], Least(gap, GapStart(last, start, end, today));
            && next.Keys == (set t | t in done + [s])
            && GapFits(rows, done + [s], next, least, start, end, today)
            && GapNeeded(done + [s], next, least, start, end, today)
  {
    hide GapStart, IsLast;
    var next := lasts[s := last];
    if s in lasts {
      LastIsUnique(HistoryOf(rows, s), lasts[s], last);
    }
    assert s in done + [s] && s in next;
    var t :| t in done && t in lasts && gap == GapStart(lasts[t], start, end, today);
    assert t in done + [s] && t in next && next[t] == lasts[t];
  }

  /** The rows after keeping a fetch: the requested symbols are written, the others untouched. */
  ghost predicate Kept(rows: map<string, map<int, Bar>>, now: map<string, map<int, Bar>>,
                       upstream: map<string, map<int, Bar>>, symbols: seq<string>, gap: int, end: int, today: int)
  {
    && (forall s :: s in now ==> s in rows || s in symbols)
    && (forall s :: s in symbols ==>
        WrittenTo(HistoryOf(rows, s), HistoryOf(now, s), HistoryOf(upstream, s), gap, end, today))
    && (forall s :: s !in symbols ==> HistoryOf(now, s) == HistoryOf(rows, s))
  }

  function NewLower(rows: map<string, map<int, Bar>>, lo: map<string, int>, symbols: seq<string>, gap: int,
                    s: string): int {
    var h := HistoryOf(rows, s);
    if s in symbols then Lower(h, if s in lo then lo[s] else gap, gap) else if s in lo then lo[s] else gap
  }

  /** Keeping a fetch keeps every symbol coherent. */
  lemma KeptCoherent(rows: map<string, map<int, Bar>>, now: map<string, map<int, Bar>>,
                     upstream: map<string, map<int, Bar>>, lo: map<string, int>, symbols: seq<string>,
                     lasts: map<string, Option<int>>, gap: int, start: int, end: int, today: int, s: string)
    requires AllCoherent(rows, upstream, lo, today) && AllFiled(upstream) && SpansReach(rows, lo, symbols, start)
          && start <= end
    requires Kept(rows, now, upstream, symbols, gap, end, today)
          && GapFits(rows, symbols, lasts, gap, start, end, today)
    requires s in now
    ensures Filed(now[s]) && Coherent(now[s], HistoryOf(upstream, s), NewLower(rows, lo, symbols, gap, s), today)
  {
    var h, u := HistoryOf(rows, s), HistoryOf(upstream, s);
    assert HistoryOf(now, s) == now[s];
    if s in symbols {
      hide WrittenTo, Coherent, Filed, GapStart, IsLast;
      EmptyIsCoherent(u, gap, today);
      WrittenIsFiled(h, now[s], u, gap, end, today);
      WriteKeepsCoherent(h, now[s], u, if s in lo then lo[s] else gap, lasts[s], gap, start, end, today);
    }
  }

  lemma EmptyIsCoherent(u: map<int, Bar>, lo: int, today: int)
    ensures Coherent(map[], u, lo, today) && Filed(map[])
  {
  }

  class CachedMarketData {
    const store: Store

    constructor (store: Store)
      ensures this.store == store
    {
      this.store := store;
    }

    /** The earliest day any of the symbols still needs. */
    method EarliestGap(symbols: seq<string>, start: int, end: int, today: int)
      returns (gap: int, ghost lasts: map<string, Option<int>>)
      requires symbols != []
      ensures IsEarliestGap(store.rows, symbols, gap, start, end, today)
      ensures GapFits(store.rows, symbols, lasts, gap, start, end, today)
    {
      hide GapStart, IsLast, HistoryOf;
      var last := store.LastCachedDate(symbols[0]);
      gap := GapStart(last, start, end, today);
      lasts := map[symbols[0] := last];
      assert symbols[..1] == [symbols[0]] && symbols[0] in lasts;
      for i := 1 to |symbols|
        invariant lasts.Keys == (set t | t in symbols[..i])
        invariant GapFits(store.rows, symbols[..i], lasts, gap, start, end, today)
               && GapNeeded(symbols[..i], lasts, gap, start, end, today)
      {
        hide GapFits, GapNeeded, IsEarliestGap;
        last := store.LastCachedDate(symbols[i]);
        GapAdvances(store.rows, symbols[..i], symbols[i], lasts, gap, last, start, end, today);
        assert symbols[..i + 1] == symbols[..i] + [symbols[i]];
        gap := Least(gap, GapStart(last, start, end, today));
        lasts := lasts[symbols[i] := last];
      }
      assert symbols[..|symbols|] == symbols;
      FittedGapIsEarliest(store.rows, symbols, lasts, gap, start, end, today);
    }

    /** Keep what upstream sent, except the bars dated today or later. */
    method Keep(symbols: seq<string>, upstream: map<string, map<int, Bar>>, gap: int, end: int, today: int)
      requires AllFiled(upstream)
      modifies store
      ensures Kept(old(store.rows), store.rows, upstream, symbols, gap, end, today)
    {
      ghost var before := store.rows;
      assert symbols[..0] == [];
      for i := 0 to |symbols|
        invariant Kept(before, store.rows, upstream, symbols[..i], gap, end, today)
      {
        var s := symbols[i];
        ghost var mid := store.rows;
        assert forall t :: t in symbols[..i + 1] <==> t in symbols[..i] || t == s;
        store.Write(s, BarsIn(HistoryOf(upstream, s), gap, end), today);
        KeepOne(before, mid, store.rows, upstream, symbols[..i], s, gap, end, today);
        assert symbols[..i + 1] == symbols[..i] + [s];
      }
      assert symbols[..|symbols|] == symbols;
    }

    static lemma KeepOne(before: map<string, map<int, Bar>>, mid: map<string, map<int, Bar>>,
                         now: map<string, map<int, Bar>>, upstream: map<string, map<int, Bar>>, done: seq<string>,
                         s: string, gap: int, end: int, today: int)
      requires AllFiled(upstream) && Kept(before, mid, upstream, done, gap, end, today)
      requires (forall t :: t in now ==> t in mid || t == s)
            && (forall t :: t != s ==> HistoryOf(now, t) == HistoryOf(mid, t))
      requires HistoryOf(now, s) == Upserted(HistoryOf(mid, s), BarsIn(HistoryOf(upstream, s), gap, end), today)
      ensures Kept(before, now, upstream, done + [s], gap, end, today)
    {
      hide WrittenTo, Upserted, BarsIn;
      assert forall t :: t in done + [s] <==> t in done || t == s;
      UpsertWrites(HistoryOf(mid, s), HistoryOf(upstream, s), gap, end, today);
      if s in done {
        WriteTwice(HistoryOf(before, s), HistoryOf(mid, s), HistoryOf(now, s), HistoryOf(upstream, s), gap, end, today);
      }
    }

    /** One symbol's answer: cached bars, overwritten by recent ones, cut to the range and sorted. */
    method MergeOne(cached: seq<Bar>, recent: seq<Bar>, start: int, end: int) returns (bars: seq<Bar>)
      requires forall b :: b in cached + recent ==> b.date <= end
      ensures bars == BarsIn(Upserted(Upserted(map[], cached, end + 1), recent, end + 1), start, end)
    {
      var seen: map<int, Bar> := map[];
      for i := 0 to |cached|
        invariant seen == Upserted(map[], cached[..i], end + 1)
      {
        assert cached[..i + 1][..i] == cached[..i];
        assert cached[i] in cached + recent;
        seen := seen[cached[i].date := cached[i]];
      }
      assert cached[..|cached|] == cached;
      for i := 0 to |recent|
        invariant seen == Upserted(Upserted(map[], cached, end + 1), recent[..i], end + 1)
      {
        assert recent[..i + 1][..i] == recent[..i];
        assert recent[i] in cached + recent;
        seen := seen[recent[i].date := recent[i]];
      }
      assert recent[..|recent|] == recent;
      bars := BarsIn(seen, start, end);
    }

    static function Merged(h: map<int, Bar>, u: map<int, Bar>, gap: int, start: int, end: int): seq<Bar> {
      BarsIn(Upserted(Upserted(map[], BarsIn(h, start, end), end + 1), BarsIn(u, gap, end), end + 1), start, end)
    }

    /** Where a symbol's covered span starts; an uncached symbol covers nothing before the request. */
    static function CoveredFrom(lo: map<string, int>, s: string, start: int): int {
      ValueOr(lo, s, start)
    }

    /**
     * The answer for a symbol that was coherent when its cached bars were read is exact if and
     * only if nothing was missed.
     */
    static lemma AnswerIsExactIff(rows: map<string, map<int, Bar>>, upstream: map<string, map<int, Bar>>,
                                  lo: map<string, int>, symbols: seq<string>, lasts: map<string, Option<int>>,
                                  s: string, gap: int, start: int, end: int, today: int)
      requires AllCoherent(rows, upstream, lo, today) && AllFiled(upstream)
      requires GapFits(rows, symbols, lasts, gap, start, end, today) && s in symbols
      ensures var h, u, from := HistoryOf(rows, s), HistoryOf(upstream, s), CoveredFrom(lo, s, start);
              && (Merged(h, u, gap, start, end) == BarsIn(u, start, end) <==> NoneMissed(u, from, gap, start, end))
              && (gap > end ==>
                  (BarsIn(h, start, end) == BarsIn(u, start, end) <==> NoneMissed(u, from, gap, start, end)))
    {
      hide Coherent, GapStart, IsLast, BarsIn, Merged, NoneMissed;
      var h, u, from := HistoryOf(rows, s), HistoryOf(upstream, s), CoveredFrom(lo, s, start);
      EmptyIsCoherent(u, from, today);
      FiledHistories(rows, upstream, lo, today, s);
      MergedIsExactIff(h, u, from, lasts[s], gap, start, end, today);
      if gap > end {
        CacheIsExactIff(h, u, from, lasts[s], gap, start, end, today);
      }
    }

    static lemma MergedIsExactIff(h: map<int, Bar>, u: map<int, Bar>, lo: int, last: Option<int>, gap: int, start: int,
                                  end: int, today: int)
      requires Filed(h) && Filed(u) && Coherent(h, u, lo, today) && IsLast(h, last)
            && gap <= GapStart(last, start, end, today)
      ensures Merged(h, u, gap, start, end) == BarsIn(u, start, end) <==> NoneMissed(u, lo, gap, start, end)
    {
      hide WrittenTo, Coherent, GapStart, IsLast, BarsIn, Upserted, Filed, NoneMissed;
      var seen := Upserted(map[], BarsIn(h, start, end), end + 1);
      UpsertWrites(map[], h, start, end, end + 1);
      UpsertWrites(seen, u, gap, end, end + 1);
      MergeIsExactIff(h, u, lo, last, gap, start, end, today, seen, Upserted(seen, BarsIn(u, gap, end), end + 1));
    }

    static lemma FiledHistories(rows: map<string, map<int, Bar>>, upstream: map<string, map<int, Bar>>,
                                lo: map<string, int>, today: int, s: string)
      requires AllCoherent(rows, upstream, lo, today) && AllFiled(upstream)
      ensures Filed(HistoryOf(rows, s)) && Filed(HistoryOf(upstream, s))
    {
    }

    static lemma BarsEnd(h: map<int, Bar>, start: int, end: int)
      requires Filed(h)
      ensures forall b :: b in BarsIn(h, start, end) ==> b.date <= end
    {
      BarsInFacts(h, start, end);
    }

    /** Merge every symbol's cached and recent bars. */
    method MergeAll(symbols: seq<string>, cached: map<string, seq<Bar>>, recent: map<string, seq<Bar>>, start: int,
                    end: int)
      returns (out: map<string, seq<Bar>>)
      requires forall s :: s in symbols ==>
                 s in cached && s in recent && forall b :: b in cached[s] + recent[s] ==> b.date <= end
      ensures forall s :: s in out <==> s in symbols
      ensures forall s :: s in symbols ==>
                out[s] == BarsIn(Upserted(Upserted(map[], cached[s], end + 1), recent[s], end + 1), start, end)
    {
      hide Upserted, BarsIn;
      out := map[];
      for i := 0 to |symbols|
        invariant forall s :: s in out <==> s in symbols[..i]
        invariant forall s :: s in out ==>
                    s in symbols
                    && out[s] == BarsIn(Upserted(Upserted(map[], cached[s], end + 1), recent[s], end + 1), start, end)
      {
        assert forall s :: s in symbols[..i + 1] <==> s in symbols[..i] || s == symbols[i];
        var bars := MergeOne(cached[symbols[i]], recent[symbols[i]], start, end);
        out := out[symbols[i] := bars];
      }
      assert symbols[..|symbols|] == symbols;
    }

    /** Upstream's answer to a fetch. */
    method Fetch(symbols: seq<string>, upstream: map<string, map<int, Bar>>, gap: int, end: int)
      returns (recent: map<string, seq<Bar>>)
      ensures forall s :: s in recent <==> s in symbols
      ensures forall s :: s in symbols ==> recent[s] == BarsIn(HistoryOf(upstream, s), gap, end)
    {
      hide BarsIn;
      recent := map[];
      for i := 0 to |symbols|
        invariant forall s :: s in recent <==> s in symbols[..i]
        invariant forall s :: s in recent ==> recent[s] == BarsIn(HistoryOf(upstream, s), gap, end)
      {
        assert forall s :: s in symbols[..i + 1] <==> s in symbols[..i] || s == symbols[i];
        recent := recent[symbols[i] := BarsIn(HistoryOf(upstream, symbols[i]), gap, end)];
      }
      assert symbols[..|symbols|] == symbols;
    }

    /** If every requested span reaches back to the request, nothing is missed. */
    static lemma ReachingMissesNothing(rows: map<string, map<int, Bar>>, upstream: map<string, map<int, Bar>>,
                                       lo: map<string, int>, symbols: seq<string>, lasts: map<string, Option<int>>,
                                       s: string, gap: int, start: int, end: int, today: int)
      requires SpansReach(rows, lo, symbols, start) && GapFits(rows, symbols, lasts, gap, start, end, today)
            && s in symbols
      ensures NoneMissed(HistoryOf(upstream, s), CoveredFrom(lo, s, start), gap, start, end)
    {
      if s !in rows || rows[s] == map[] {
        assert lasts[s] == None;
      }
    }

    /**
     * Over a coherent cache, whatever is asked: each symbol's answer is exactly upstream's
     * bars of the range if and only if upstream has none there before both the symbol's
     * covered start and the gap.
     */
    ghost predicate ExactIffNoneMissed(rows: map<string, map<int, Bar>>, upstream: map<string, map<int, Bar>>,
                                       lo: map<string, int>, symbols: seq<string>, gap: int, start: int, end: int,
                                       today: int, out: map<string, seq<Bar>>)
    {
      AllCoherent(rows, upstream, lo, today) ==>
        forall s :: s in symbols ==>
          s in out && (out[s] == BarsIn(HistoryOf(upstream, s), start, end)
                  <==> NoneMissed(HistoryOf(upstream, s), CoveredFrom(lo, s, start), gap, start, end))
    }

    /** What a request over a coherent cache whose spans reach back to it owes its caller, and the cache. */
    ghost predicate Exact(rows: map<string, map<int, Bar>>, now: map<string, map<int, Bar>>,
                          upstream: map<string, map<int, Bar>>, lo: map<string, int>, symbols: seq<string>, start: int,
                          end: int, today: int, out: map<string, seq<Bar>>, newLo: map<string, int>)
    {
      AllCoherent(rows, upstream, lo, today) && SpansReach(rows, lo, symbols, start) && start <= end ==>
        && AllCoherent(now, upstream, newLo, today)
        && forall s :: s in symbols ==> s in out && out[s] == BarsIn(HistoryOf(upstream, s), start, end)
    }

    /**
     * get_bars_batch for daily bars. `upstream` is what the source would answer, `None` a
     * failing source. A successful request over a coherent cache returns exactly
     * upstream's bars of the range and leaves the cache coherent; a failed one serves the
     * cached bars and stores nothing. Over any cache, what is fetched from the earliest
     * gap on is stored, and wins over what was cached.
     */
    method GetBarsBatch(symbols: seq<string>, start: int, end: int, today: int,
                        upstream: Option<map<string, map<int, Bar>>>, ghost lo: map<string, int>)
      returns (out: map<string, seq<Bar>>, ghost newLo: map<string, int>, ghost gap: int)
      requires symbols != [] && (upstream.Some? ==> AllFiled(upstream.value))
      requires forall s :: s in store.rows ==> Filed(store.rows[s])
      modifies store
      ensures forall s :: s in out <==> s in symbols
      ensures upstream.None? ==>
                store.rows == old(store.rows)
                && forall s :: s in symbols ==> out[s] == BarsIn(HistoryOf(store.rows, s), start, end)
      ensures upstream.Some? ==>
                Exact(old(store.rows), store.rows, upstream.value, lo, symbols, start, end, today, out, newLo)
      ensures IsEarliestGap(old(store.rows), symbols, gap, start, end, today)
      ensures upstream.Some? ==>
                ExactIffNoneMissed(old(store.rows), upstream.value, lo, symbols, gap, start, end, today, out)
      ensures gap > end ==>
                store.rows == old(store.rows)
                && forall s :: s in symbols ==> out[s] == BarsIn(HistoryOf(store.rows, s), start, end)
      ensures upstream.Some? && gap <= end ==>
                Kept(old(store.rows), store.rows, upstream.value, symbols, gap, end, today)
      ensures upstream.Some? && gap <= end ==>
        forall s :: s in symbols ==>
          out[s] == Merged(HistoryOf(old(store.rows), s), HistoryOf(upstream.value, s), gap, start, end)
    {
      hide BarsIn, AllCoherent, SpansReach, GapFits, IsEarliestGap, Kept, AllFiled, Upserted, Filed, NoneMissed;
      ghost var rows := store.rows;
      var cached := store.ReadRange(symbols, start, end);
      var from, lasts := EarliestGap(symbols, start, end, today);
      newLo, gap := lo, from;
      out := cached;
      if upstream.None? {
        return;
      }
      if from > end {
        CachedIsExact(rows, upstream.value, lo, symbols, lasts, gap, start, end, today, cached);
        return;
      }
      var recent := Fetch(symbols, upstream.value, from, end);
      forall s | s in symbols ensures forall b: Bar :: b in cached[s] + recent[s] ==> b.date <= end {
        FiledAt(rows, s);
        FiledUpstream(upstream.value, s);
        BarsEnd(HistoryOf(rows, s), start, end);
        BarsEnd(HistoryOf(upstream.value, s), gap, end);
      }
      Keep(symbols, upstream.value, from, end, today);
      newLo := map s | s in store.rows :: NewLower(rows, lo, symbols, gap, s);
      out := MergeAll(symbols, cached, recent, start, end);
      MergedIsExact(rows, store.rows, upstream.value, lo, symbols, lasts, gap, start, end, today, out, newLo);
    }

    static lemma FiledAt(rows: map<string, map<int, Bar>>, s: string)
      requires forall t :: t in rows ==> Filed(rows[t])
      ensures Filed(HistoryOf(rows, s))
    {
    }

    static lemma FiledUpstream(upstream: map<string, map<int, Bar>>, s: string)
      requires AllFiled(upstream)
      ensures Filed(HistoryOf(upstream, s))
    {
    }

    lemma CachedIsExact(rows: map<string, map<int, Bar>>, upstream: map<string, map<int, Bar>>, lo: map<string, int>,
                        symbols: seq<string>, lasts: map<string, Option<int>>, gap: int, start: int, end: int,
                        today: int, out: map<string, seq<Bar>>)
      requires AllFiled(upstream) && GapFits(rows, symbols, lasts, gap, start, end, today) && gap > end
      requires forall s :: s in symbols ==> s in out && out[s] == BarsIn(HistoryOf(rows, s), start, end)
      ensures Exact(rows, rows, upstream, lo, symbols, start, end, today, out, lo)
      ensures ExactIffNoneMissed(rows, upstream, lo, symbols, gap, start, end, today, out)
    {
      hide BarsIn, AllCoherent, SpansReach, GapFits, AllFiled, Upserted, IsLast, NoneMissed;
      if AllCoherent(rows, upstream, lo, today) {
        forall s | s in symbols
          ensures out[s] == BarsIn(HistoryOf(upstream, s), start, end)
             <==> NoneMissed(HistoryOf(upstream, s), CoveredFrom(lo, s, start), gap, start, end)
          ensures SpansReach(rows, lo, symbols, start) ==>
                    NoneMissed(HistoryOf(upstream, s), CoveredFrom(lo, s, start), gap, start, end)
        {
          AnswerIsExactIff(rows, upstream, lo, symbols, lasts, s, gap, start, end, today);
          if SpansReach(rows, lo, symbols, start) {
            ReachingMissesNothing(rows, upstream, lo, symbols, lasts, s, gap, start, end, today);
          }
        }
      }
    }

    lemma MergedIsExact(rows: map<string, map<int, Bar>>, now: map<string, map<int, Bar>>,
                        upstream: map<string, map<int, Bar>>, lo: map<string, int>, symbols: seq<string>,
                        lasts: map<string, Option<int>>, gap: int, start: int, end: int, today: int,
                        out: map<string, seq<Bar>>, newLo: map<string, int>)
      requires AllFiled(upstream) && GapFits(rows, symbols, lasts, gap, start, end, today)
            && Kept(rows, now, upstream, symbols, gap, end, today)
      requires newLo.Keys == now.Keys && forall s :: s in newLo ==> newLo[s] == NewLower(rows, lo, symbols, gap, s)
      requires forall s :: s in symbols ==>
                 s in out && out[s] == Merged(HistoryOf(rows, s), HistoryOf(upstream, s), gap, start, end)
      ensures Exact(rows, now, upstream, lo, symbols, start, end, today, out, newLo)
      ensures ExactIffNoneMissed(rows, upstream, lo, symbols, gap, start, end, today, out)
    {
      hide BarsIn, SpansReach, GapFits, AllFiled, Upserted, IsLast, Kept, Coherent, Filed, HistoryOf, NewLower,
           NoneMissed, CoveredFrom;
      if AllCoherent(rows, upstream, lo, today) {
        forall s | s in symbols
          ensures out[s] == BarsIn(HistoryOf(upstream, s), start, end)
             <==> NoneMissed(HistoryOf(upstream, s), CoveredFrom(lo, s, start), gap, start, end)
        {
          AnswerIsExactIff(rows, upstream, lo, symbols, lasts, s, gap, start, end, today);
        }
      }
      if AllCoherent(rows, upstream, lo, today) && SpansReach(rows, lo, symbols, start) && start <= end {
        forall s | s in now ensures Filed(now[s]) && Coherent(now[s], HistoryOf(upstream, s), newLo[s], today) {
          KeptCoherent(rows, now, upstream, lo, symbols, lasts, gap, start, end, today, s);
        }
        forall s | s in symbols ensures NoneMissed(HistoryOf(upstream, s), CoveredFrom(lo, s, start), gap, start, end) {
          ReachingMissesNothing(rows, upstream, lo, symbols, lasts, s, gap, start, end, today);
        }
      }
    }

    /**
     * A request that fetches and still misses a bar: day 10 is cached, days 5 to 15 are
     * asked for, so only days 11 to 15 are fetched and upstream's bar of day 5 is absent.
     */
    static lemma FetchingMissesAnEarlierBar()
      ensures var h := map[10 := Bar(10, 0, 1.0)];
              var u := map[5 := Bar(5, 0, 1.0), 10 := Bar(10, 0, 1.0), 12 := Bar(12, 0, 1.0)];
              && Filed(h) && Filed(u) && Coherent(h, u, 10, 20) && IsLast(h, Some(10))
              && GapStart(Some(10), 5, 15, 20) == 11
              && Merged(h, u, 11, 5, 15) != BarsIn(u, 5, 15)
    {
      var h, u := map[10 := Bar(10, 0, 1.0)], map[5 := Bar(5, 0, 1.0), 10 := Bar(10, 0, 1.0), 12 := Bar(12, 0, 1.0)];
      assert 5 in u && !NoneMissed(u, 10, 11, 5, 15);
      hide Merged, BarsIn;
      MergedIsExactIff(h, u, 10, Some(10), 11, 5, 15, 20);
    }
  }
}
