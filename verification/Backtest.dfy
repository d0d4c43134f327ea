/**
 * The monthly backtest (backtest/engine.py). A strategy is a pure function from the bars
 * it may see to weights; a dictionary is a list of pairs in insertion order.
 */
module Backtest {
  import opened Common
  import opened Market

  // ── Bars as of a day ─────────────────────────────────────────────────────────

  function Slice(bars: seq<Bar>, asof: int): seq<Bar> {
    if bars == [] then []
    else
      var init, last := Slice(bars[..|bars| - 1], asof), bars[|bars| - 1];
      if last.date <= asof then init + [last] else init
  }

  function SliceAsof(bars: map<string, seq<Bar>>, asof: int): map<string, seq<Bar>> {
    map s | s in bars :: Slice(bars[s], asof)
  }

  /** The last bar of each date: the latest, and of two at one instant the later in the list. */
  function LastBars(bars: seq<Bar>): map<int, Bar> {
    if bars == [] then map[] else Outlast(LastBars(bars[..|bars| - 1]), bars[|bars| - 1])
  }

  /** A bar takes its date unless a later one has it. */
  function Outlast(last: map<int, Bar>, b: Bar): map<int, Bar> {
    if b.date in last && last[b.date].time > b.time then last else last[b.date := b]
  }

  function CloseAt(bars: map<string, seq<Bar>>, symbol: string, day: int): Option<real> {
    if symbol in bars && day in LastBars(bars[symbol]) then Some(LastBars(bars[symbol])[day].close) else None
  }

  /** Put a date into an ascending list, once. */
  function InsertDate(dates: seq<int>, d: int): seq<int> {
    if dates == [] then [d]
    else
      var last := dates[|dates| - 1];
      if d > last then dates + [d]
      else if d == last then dates
      else InsertDate(dates[..|dates| - 1], d) + [last]
  }

  /** The sorted dates of some bars. */
  function DatesOf(bars: seq<Bar>): seq<int> {
    if bars == [] then [] else InsertDate(DatesOf(bars[..|bars| - 1]), bars[|bars| - 1].date)
  }

  predicate Ascending(dates: seq<int>) {
    forall i, j :: 0 <= i < j < |dates| ==> dates[i] < dates[j]
  }

  /** The part of a date list up to a day. */
  function Upto(dates: seq<int>, day: int): seq<int> {
    if dates == [] then []
    else
      var init, last := Upto(dates[..|dates| - 1], day), dates[|dates| - 1];
      if last <= day then init + [last] else init
  }

  lemma {:induction false} InsertAscends(dates: seq<int>, d: int)
    requires Ascending(dates)
    ensures Ascending(InsertDate(dates, d))
    ensures forall x :: x in InsertDate(dates, d) <==> x in dates || x == d
  {
    if dates != [] {
      var init, last := dates[..|dates| - 1], dates[|dates| - 1];
      assert dates == init + [last];
      InsertAscends(init, d);
      assert forall i :: 0 <= i < |init| ==> init[i] < last;
      var r := InsertDate(init, d);
      if d < last {
        forall i | 0 <= i < |r| ensures r[i] < last {
          assert r[i] in r;
        }
      }
    }
  }

  lemma {:induction false} DatesAscend(bars: seq<Bar>)
    ensures Ascending(DatesOf(bars))
    ensures forall d :: d in DatesOf(bars) <==> d in LastBars(bars)
  {
    if bars != [] {
      DatesAscend(bars[..|bars| - 1]);
      InsertAscends(DatesOf(bars[..|bars| - 1]), bars[|bars| - 1].date);
    }
  }

  lemma {:induction false} UptoAll(dates: seq<int>, day: int)
    requires forall i :: 0 <= i < |dates| ==> dates[i] <= day
    ensures Upto(dates, day) == dates
  {
    if dates != [] {
      UptoAll(dates[..|dates| - 1], day);
    }
  }

  lemma {:induction false} UptoIsPrefix(dates: seq<int>, day: int)
    requires Ascending(dates)
    ensures Upto(dates, day) <= dates
    ensures forall i :: 0 <= i < |dates| ==> (i < |Upto(dates, day)| <==> dates[i] <= day)
  {
    if dates != [] {
      var init, last := dates[..|dates| - 1], dates[|dates| - 1];
      UptoIsPrefix(init, day);
      if last <= day {
        UptoAll(init, day);
      }
    }
  }

  lemma UptoAppend(dates: seq<int>, d: int, day: int)
    ensures Upto(dates + [d], day) == if d <= day then Upto(dates, day) + [d] else Upto(dates, day)
  {
    assert (dates + [d])[..|dates|] == dates;
  }

  lemma InsertBelow(dates: seq<int>, last: int, d: int)
    requires d < last
    ensures InsertDate(dates + [last], d) == InsertDate(dates, d) + [last]
  {
    assert (dates + [last])[..|dates|] == dates;
  }

  lemma {:induction false} UptoInsert(dates: seq<int>, d: int, day: int)
    requires Ascending(dates)
    ensures Upto(InsertDate(dates, d), day) == if d <= day then InsertDate(Upto(dates, day), d) else Upto(dates, day)
  {
    if dates == [] {
      assert [] + [d] == [d];
      UptoAppend([], d, day);
    } else {
      var init, last := dates[..|dates| - 1], dates[|dates| - 1];
      assert dates == init + [last];
      UptoAppend(init, last, day);
      if d > last {
        UptoAppend(dates, d, day);
        if d <= day {
          UptoAll(dates, day);
        }
      } else if d < last {
        UptoInsert(init, d, day);
        InsertBelow(init, last, d);
        UptoAppend(InsertDate(init, d), last, day);
        InsertBelow(Upto(init, day), last, d);
      }
    }
  }

  /** The calendar of sliced bars is the calendar up to that day. */
  lemma {:induction false} SlicedDates(bars: seq<Bar>, day: int)
    ensures DatesOf(Slice(bars, day)) == Upto(DatesOf(bars), day)
  {
    if bars != [] {
      var init, last := bars[..|bars| - 1], bars[|bars| - 1];
      SlicedDates(init, day);
      DatesAscend(init);
      UptoInsert(DatesOf(init), last.date, day);
      if last.date <= day {
        assert (Slice(init, day) + [last])[..|Slice(init, day)|] == Slice(init, day);
      }
    }
  }

  lemma {:induction false} SlicedClose(bars: seq<Bar>, day: int, d: int)
    requires d <= day
    ensures d in LastBars(Slice(bars, day)) <==> d in LastBars(bars)
    ensures d in LastBars(bars) ==> LastBars(Slice(bars, day))[d] == LastBars(bars)[d]
  {
    if bars != [] {
      var init, last := bars[..|bars| - 1], bars[|bars| - 1];
      SlicedClose(init, day, d);
      if last.date <= day {
        assert (Slice(init, day) + [last])[..|Slice(init, day)|] == Slice(init, day);
      }
    }
  }

  lemma {:induction false} SliceTwice(bars: seq<Bar>, early: int, late: int)
    requires early <= late
    ensures Slice(Slice(bars, late), early) == Slice(bars, early)
  {
    if bars != [] {
      var init, last := bars[..|bars| - 1], bars[|bars| - 1];
      SliceTwice(init, early, late);
      if last.date <= late {
        assert (Slice(init, late) + [last])[..|Slice(init, late)|] == Slice(init, late);
      }
    }
  }

  // ── One run ──────────────────────────────────────────────────────────────────

  /** Turnover between two weightings, over the symbols of either. */
  function WeightOf(w: seq<(string, real)>, s: string): real {
    if w == [] then 0.0 else if w[|w| - 1].0 == s then w[|w| - 1].1 else WeightOf(w[..|w| - 1], s)
  }

  function Changes(was: seq<(string, real)>, now: seq<(string, real)>): real {
    if was == [] then 0.0
    else Changes(was[..|was| - 1], now) + Abs(WeightOf(now, was[|was| - 1].0) - was[|was| - 1].1)
  }

  predicate Names(w: seq<(string, real)>, s: string) {
    exists i :: 0 <= i < |w| && w[i].0 == s
  }

  function Newcomers(was: seq<(string, real)>, now: seq<(string, real)>): real {
    if now == [] then 0.0
    else Newcomers(was, now[..|now| - 1]) + (if Names(was, now[|now| - 1].0) then 0.0 else Abs(now[|now| - 1].1))
  }

  function Turnover(was: seq<(string, real)>, now: seq<(string, real)>): real {
    Changes(was, now) + Newcomers(was, now)
  }

  /** The portfolio's return from one day to another. */
  function PortReturn(bars: map<string, seq<Bar>>, w: seq<(string, real)>, prev: int, day: int): real {
    if w == [] then 0.0
    else
      var (s, share) := w[|w| - 1];
      var was, now := CloseAt(bars, s, prev), CloseAt(bars, s, day);
      PortReturn(bars, w[..|w| - 1], prev, day)
      + (if was.Some? && now.Some? && was.value > 0.0 && now.value != 0.0 then share * (now.value / was.value - 1.0)
         else 0.0)
  }

  datatype Rules = Rules(strategy: map<string, seq<Bar>> -> seq<(string, real)>, month: int -> int, costRate: real)

  datatype State = State(equity: real, weights: seq<(string, real)>, rebalances: nat)

  function FirstState(bars: map<string, seq<Bar>>, rules: Rules, day: int): State {
    State(1.0, rules.strategy(SliceAsof(bars, day)), 1)
  }

  /** One day: mark the portfolio, and rebalance on what is visible when the month changes. */
  function Advance(rules: Rules, s: State, portReturn: real, visible: map<string, seq<Bar>>, prev: int,
                   day: int): State {
    var equity := s.equity * (1.0 + portReturn);
    if rules.month(day) == rules.month(prev) then State(equity, s.weights, s.rebalances)
    else
      var weights := rules.strategy(visible);
      State(equity * (1.0 - Turnover(s.weights, weights) * rules.costRate), weights, s.rebalances + 1)
  }

  function NextState(bars: map<string, seq<Bar>>, rules: Rules, s: State, prev: int, day: int): State {
    Advance(rules, s, PortReturn(bars, s.weights, prev, day), SliceAsof(bars, day), prev, day)
  }

  /** The state at the end of day i of the calendar. */
  function StateAt(bars: map<string, seq<Bar>>, rules: Rules, calendar: seq<int>, i: nat): State
    requires i < |calendar|
  {
    if i == 0 then FirstState(bars, rules, calendar[0])
    else NextState(bars, rules, StateAt(bars, rules, calendar, i - 1), calendar[i - 1], calendar[i])
  }

  function Calendar(bars: map<string, seq<Bar>>, benchmark: string): seq<int> {
    if benchmark in bars then DatesOf(bars[benchmark]) else []
  }

  /** The benchmark's close of a calendar day, relative to its first. */
  function BenchAt(bars: map<string, seq<Bar>>, benchmark: string, calendar: seq<int>, i: nat): real
    requires i < |calendar|
  {
    var first := CloseAt(bars, benchmark, calendar[0]).GetOr(0.0);
    var now := CloseAt(bars, benchmark, calendar[i]).GetOr(0.0);
    if i == 0 then 1.0 else if first == 0.0 then 0.0 else now / first
  }

  // ── No lookahead ─────────────────────────────────────────────────────────────

  /** Two bar sets with the same bars dated up to a day. */
  predicate AgreeUpto(a: map<string, seq<Bar>>, b: map<string, seq<Bar>>, day: int) {
    SliceAsof(a, day) == SliceAsof(b, day)
  }

  lemma SameSlice(a: map<string, seq<Bar>>, b: map<string, seq<Bar>>, day: int, early: int)
    requires AgreeUpto(a, b, day) && early <= day
    ensures SliceAsof(a, early) == SliceAsof(b, early)
  {
    assert a.Keys == SliceAsof(a, day).Keys == b.Keys;
    forall s | s in a ensures Slice(a[s], early) == Slice(b[s], early) {
      assert SliceAsof(a, day)[s] == SliceAsof(b, day)[s];
      SliceTwice(a[s], early, day);
      SliceTwice(b[s], early, day);
    }
    assert SliceAsof(a, early) == SliceAsof(b, early);
  }

  lemma SameClose(a: map<string, seq<Bar>>, b: map<string, seq<Bar>>, day: int, s: string, d: int)
    requires AgreeUpto(a, b, day) && d <= day
    ensures CloseAt(a, s, d) == CloseAt(b, s, d)
  {
    assert a.Keys == SliceAsof(a, day).Keys == b.Keys;
    if s in a {
      assert SliceAsof(a, day)[s] == SliceAsof(b, day)[s];
      SlicedClose(a[s], day, d);
      SlicedClose(b[s], day, d);
    }
  }

  lemma SameCalendar(a: map<string, seq<Bar>>, b: map<string, seq<Bar>>, day: int, benchmark: string)
    requires AgreeUpto(a, b, day)
    ensures Upto(Calendar(a, benchmark), day) == Upto(Calendar(b, benchmark), day)
  {
    assert a.Keys == SliceAsof(a, day).Keys == b.Keys;
    if benchmark in a {
      assert SliceAsof(a, day)[benchmark] == SliceAsof(b, day)[benchmark];
      SlicedDates(a[benchmark], day);
      SlicedDates(b[benchmark], day);
    }
  }

  lemma {:induction false} SameReturn(a: map<string, seq<Bar>>, b: map<string, seq<Bar>>, day: int,
                                      w: seq<(string, real)>, prev: int, d: int)
    requires AgreeUpto(a, b, day) && prev <= day && d <= day
    ensures PortReturn(a, w, prev, d) == PortReturn(b, w, prev, d)
  {
    if w != [] {
      SameReturn(a, b, day, w[..|w| - 1], prev, d);
      SameClose(a, b, day, w[|w| - 1].0, prev);
      SameClose(a, b, day, w[|w| - 1].0, d);
    }
  }

  lemma SameNext(a: map<string, seq<Bar>>, b: map<string, seq<Bar>>, day: int, rules: Rules, s: State, prev: int,
                 d: int)
    requires AgreeUpto(a, b, day) && prev <= day && d <= day
    ensures NextState(a, rules, s, prev, d) == NextState(b, rules, s, prev, d)
  {
    SameSlice(a, b, day, d);
    SameReturn(a, b, day, s.weights, prev, d);
    hide PortReturn, SliceAsof, AgreeUpto, Advance;
  }

  lemma SameFirst(a: map<string, seq<Bar>>, b: map<string, seq<Bar>>, day: int, rules: Rules, d: int)
    requires AgreeUpto(a, b, day) && d <= day
    ensures FirstState(a, rules, d) == FirstState(b, rules, d)
  {
    SameSlice(a, b, day, d);
    hide SliceAsof, AgreeUpto;
  }

  lemma {:induction false} SameState(a: map<string, seq<Bar>>, b: map<string, seq<Bar>>, day: int, rules: Rules,
                                     ca: seq<int>, cb: seq<int>, i: nat)
    requires AgreeUpto(a, b, day) && i < |ca| && i < |cb|
    requires forall j :: 0 <= j <= i ==> ca[j] == cb[j] <= day
    ensures StateAt(a, rules, ca, i) == StateAt(b, rules, cb, i)
  {
    hide AgreeUpto, NextState, FirstState;
    if i == 0 {
      SameFirst(a, b, day, rules, ca[0]);
    } else {
      SameState(a, b, day, rules, ca, cb, i - 1);
      SameNext(a, b, day, rules, StateAt(a, rules, ca, i - 1), ca[i - 1], ca[i]);
    }
  }

  lemma SameDay(a: map<string, seq<Bar>>, b: map<string, seq<Bar>>, day: int, benchmark: string, i: nat)
    requires AgreeUpto(a, b, day) && i < |Calendar(a, benchmark)| && Calendar(a, benchmark)[i] <= day
    ensures i < |Calendar(b, benchmark)|
    ensures forall j :: 0 <= j <= i ==> Calendar(a, benchmark)[j] == Calendar(b, benchmark)[j] <= day
  {
    var ca, cb := Calendar(a, benchmark), Calendar(b, benchmark);
    SameCalendar(a, b, day, benchmark);
    CalendarAscends(a, benchmark);
    CalendarAscends(b, benchmark);
    UptoIsPrefix(ca, day);
    UptoIsPrefix(cb, day);
  }

  lemma CalendarAscends(bars: map<string, seq<Bar>>, benchmark: string)
    ensures Ascending(Calendar(bars, benchmark))
  {
    if benchmark in bars {
      DatesAscend(bars[benchmark]);
    }
  }

  /**
   * No lookahead: change any bars dated after a day, and every point of both curves up to
   * that day stays the same, whatever the strategy computes from the bars it is shown.
   */
  lemma NoLookahead(a: map<string, seq<Bar>>, b: map<string, seq<Bar>>, day: int, rules: Rules, benchmark: string,
                    i: nat)
    requires AgreeUpto(a, b, day) && i < |Calendar(a, benchmark)| && Calendar(a, benchmark)[i] <= day
    ensures i < |Calendar(b, benchmark)| && Calendar(b, benchmark)[i] == Calendar(a, benchmark)[i]
    ensures StateAt(a, rules, Calendar(a, benchmark), i) == StateAt(b, rules, Calendar(b, benchmark), i)
    ensures BenchAt(a, benchmark, Calendar(a, benchmark), i) == BenchAt(b, benchmark, Calendar(b, benchmark), i)
  {
    var ca, cb := Calendar(a, benchmark), Calendar(b, benchmark);
    SameDay(a, b, day, benchmark, i);
    hide Calendar, AgreeUpto, StateAt, CloseAt;
    SameState(a, b, day, rules, ca, cb, i);
    SameClose(a, b, day, benchmark, ca[0]);
    SameClose(a, b, day, benchmark, ca[i]);
  }

  // ── Closing prices as the program finds them ─────────────────────────────────

  predicate NotAfter(a: Bar, b: Bar) {
    a.date < b.date || (a.date == b.date && a.time <= b.time)
  }

  /** A stable insertion sort by timestamp. */
  function InsertBar(bars: seq<Bar>, b: Bar): seq<Bar> {
    if bars == [] || NotAfter(bars[|bars| - 1], b) then bars + [b]
    else InsertBar(bars[..|bars| - 1], b) + [bars[|bars| - 1]]
  }

  function SortBars(bars: seq<Bar>): seq<Bar> {
    if bars == [] then [] else InsertBar(SortBars(bars[..|bars| - 1]), bars[|bars| - 1])
  }

  /** Bars by date when each one overwrites the one before. */
  function Overwritten(bars: seq<Bar>): map<int, Bar> {
    if bars == [] then map[] else Overwritten(bars[..|bars| - 1])[bars[|bars| - 1].date := bars[|bars| - 1]]
  }

  predicate InTimeOrder(bars: seq<Bar>) {
    forall i, j :: 0 <= i < j < |bars| ==> NotAfter(bars[i], bars[j])
  }

  lemma {:induction false} OverwrittenHolds(bars: seq<Bar>)
    ensures forall d :: d in Overwritten(bars) ==> Overwritten(bars)[d] in bars && Overwritten(bars)[d].date == d
  {
    if bars != [] {
      OverwrittenHolds(bars[..|bars| - 1]);
    }
  }

  lemma {:induction false} InsertBarHolds(bars: seq<Bar>, b: Bar)
    ensures multiset(InsertBar(bars, b)) == multiset(bars) + multiset{b}
  {
    if bars != [] && !NotAfter(bars[|bars| - 1], b) {
      var init, last := bars[..|bars| - 1], bars[|bars| - 1];
      InsertBarHolds(init, b);
      assert bars == init + [last];
    }
  }

  lemma {:induction false} InsertBarOrdered(bars: seq<Bar>, b: Bar)
    requires InTimeOrder(bars)
    ensures InTimeOrder(InsertBar(bars, b))
    ensures forall x :: x in InsertBar(bars, b) ==> x in bars || x == b
  {
    if bars != [] && !NotAfter(bars[|bars| - 1], b) {
      var init, last := bars[..|bars| - 1], bars[|bars| - 1];
      InsertBarOrdered(init, b);
      var r := InsertBar(init, b);
      forall x | x in r ensures NotAfter(x, last) {
        if x in init {
          var i :| 0 <= i < |init| && init[i] == x;
          assert NotAfter(bars[i], bars[|bars| - 1]);
        }
      }
      AppendOrdered(r, last);
    }
  }

  lemma AppendOrdered(bars: seq<Bar>, b: Bar)
    requires InTimeOrder(bars) && forall x :: x in bars ==> NotAfter(x, b)
    ensures InTimeOrder(bars + [b])
  {
    hide NotAfter;
  }

  lemma {:induction false} InsertBarOverwrites(bars: seq<Bar>, b: Bar)
    requires InTimeOrder(bars)
    ensures Overwritten(InsertBar(bars, b)) == Outlast(Overwritten(bars), b)
  {
    if bars == [] || NotAfter(bars[|bars| - 1], b) {
      assert (bars + [b])[..|bars|] == bars;
      OverwrittenHolds(bars);
    } else {
      var init, last := bars[..|bars| - 1], bars[|bars| - 1];
      InsertBarOverwrites(init, b);
      var r := InsertBar(init, b);
      assert (r + [last])[..|r|] == r;
    }
  }

  /** Sorting by timestamp and overwriting date by date leaves the last bar of each date. */
  lemma {:induction false} SortedOverwritesToLast(bars: seq<Bar>)
    ensures InTimeOrder(SortBars(bars)) && Overwritten(SortBars(bars)) == LastBars(bars)
  {
    hide InTimeOrder, InsertBar, Outlast;
    if bars == [] {
      NoBarsOrdered();
    } else {
      SortedOverwritesToLast(bars[..|bars| - 1]);
      InsertBarOrdered(SortBars(bars[..|bars| - 1]), bars[|bars| - 1]);
      InsertBarOverwrites(SortBars(bars[..|bars| - 1]), bars[|bars| - 1]);
    }
  }

  lemma NoBarsOrdered()
    ensures InTimeOrder([])
  {
  }

  lemma {:induction false} SortBarsKeeps(bars: seq<Bar>)
    ensures multiset(SortBars(bars)) == multiset(bars)
  {
    hide InsertBar;
    if bars != [] {
      SortBarsKeeps(bars[..|bars| - 1]);
      InsertBarHolds(SortBars(bars[..|bars| - 1]), bars[|bars| - 1]);
      assert bars == bars[..|bars| - 1] + [bars[|bars| - 1]];
    }
  }

  /** One symbol's closing prices by date. */
  method CloseMap(bars: seq<Bar>) returns (closes: map<int, real>)
    ensures closes.Keys == LastBars(bars).Keys
    ensures forall d :: d in closes ==> closes[d] == LastBars(bars)[d].close
  {
    closes := map[];
    var sorted := SortBars(bars);
    for i := 0 to |sorted|
      invariant closes.Keys == Overwritten(sorted[..i]).Keys
      invariant forall d :: d in closes ==> closes[d] == Overwritten(sorted[..i])[d].close
    {
      assert sorted[..i + 1][..i] == sorted[..i];
      closes := closes[sorted[i].date := sorted[i].close];
    }
    assert sorted[..|sorted|] == sorted;
    SortedOverwritesToLast(bars);
  }

  // ── The run as the program performs it ───────────────────────────────────────

  datatype Curves = Curves(dates: seq<int>, equity: seq<real>, bench: seq<real>, rebalances: nat)

  method PortfolioReturn(bars: map<string, seq<Bar>>, w: seq<(string, real)>, prev: int, day: int) returns (total: real)
    ensures total == PortReturn(bars, w, prev, day)
  {
    total := 0.0;
    for i := 0 to |w|
      invariant total == PortReturn(bars, w[..i], prev, day)
    {
      assert w[..i + 1][..i] == w[..i];
      var was, now := CloseAt(bars, w[i].0, prev), CloseAt(bars, w[i].0, day);
      if was.Some? && now.Some? && was.value > 0.0 && now.value != 0.0 {
        total := total + w[i].1 * (now.value / was.value - 1.0);
      }
    }
    assert w[..|w|] == w;
  }

  /** The curves hold the run's state and the benchmark on each day so far. */
  ghost predicate CurvesMatch(bars: map<string, seq<Bar>>, rules: Rules, benchmark: string, calendar: seq<int>,
                              equity: seq<real>, bench: seq<real>) {
    && |equity| == |bench| <= |calendar|
    && (forall i :: 0 <= i < |equity| ==>
        equity[i] == StateAt(bars, rules, calendar, i).equity && bench[i] == BenchAt(bars, benchmark, calendar, i))
  }

  predicate Runnable(bars: map<string, seq<Bar>>, benchmark: string) {
    var c := Calendar(bars, benchmark);
    |c| >= 2 && CloseAt(bars, benchmark, c[0]).GetOr(0.0) != 0.0
  }

  /** What a run returns: the curves of every calendar day, if it can run at all. */
  ghost predicate Ran(bars: map<string, seq<Bar>>, rules: Rules, benchmark: string, r: Option<Curves>) {
    && (r.Some? <==> Runnable(bars, benchmark))
    && (r.Some? ==>
          var c := Calendar(bars, benchmark);
          && r.value.dates == c && |r.value.equity| == |c| > 0
          && CurvesMatch(bars, rules, benchmark, c, r.value.equity, r.value.bench)
          && r.value.rebalances == StateAt(bars, rules, c, |c| - 1).rebalances)
  }

  /** run_backtest: fails without two benchmark days, or when the first benchmark close is zero. */
  method RunBacktest(bars: map<string, seq<Bar>>, rules: Rules, benchmark: string) returns (r: Option<Curves>)
    ensures Ran(bars, rules, benchmark, r)
  {
    hide StateAt, PortReturn, CloseAt, Calendar, BenchAt, Advance, SliceAsof;
    var calendar := Calendar(bars, benchmark);
    if |calendar| < 2 {
      return None;
    }
    var bench0 := CloseAt(bars, benchmark, calendar[0]).GetOr(0.0);
    if bench0 == 0.0 {
      return None;
    }
    FirstDay(bars, rules, benchmark, calendar);
    var state := State(1.0, rules.strategy(SliceAsof(bars, calendar[0])), 1);
    var equity, bench := [1.0], [1.0];
    for i := 1 to |calendar|
      invariant |equity| == i && state == StateAt(bars, rules, calendar, i - 1)
      invariant CurvesMatch(bars, rules, benchmark, calendar, equity, bench)
    {
      var prev, day := calendar[i - 1], calendar[i];
      var portReturn := PortfolioReturn(bars, state.weights, prev, day);
      StateStep(bars, rules, calendar, i);
      state := Rebalanced(rules, state, portReturn, bars, prev, day);
      BenchStep(bars, benchmark, calendar, i);
      equity := equity + [state.equity];
      bench := bench + [CloseAt(bars, benchmark, day).GetOr(0.0) / bench0];
    }
    return Some(Curves(calendar, equity, bench, state.rebalances));
  }

  lemma FirstDay(bars: map<string, seq<Bar>>, rules: Rules, benchmark: string, calendar: seq<int>)
    requires calendar != []
    ensures StateAt(bars, rules, calendar, 0) == State(1.0, rules.strategy(SliceAsof(bars, calendar[0])), 1)
    ensures BenchAt(bars, benchmark, calendar, 0) == 1.0
  {
  }

  lemma BenchStep(bars: map<string, seq<Bar>>, benchmark: string, calendar: seq<int>, i: nat)
    requires 0 < i < |calendar| && CloseAt(bars, benchmark, calendar[0]).GetOr(0.0) != 0.0
    ensures BenchAt(bars, benchmark, calendar, i)
         == CloseAt(bars, benchmark, calendar[i]).GetOr(0.0) / CloseAt(bars, benchmark, calendar[0]).GetOr(0.0)
  {
    hide CloseAt;
  }

  lemma StateStep(bars: map<string, seq<Bar>>, rules: Rules, calendar: seq<int>, i: nat)
    requires 0 < i < |calendar|
    ensures StateAt(bars, rules, calendar, i)
         == NextState(bars, rules, StateAt(bars, rules, calendar, i - 1), calendar[i - 1], calendar[i])
  {
  }

  /** The end of a day: equity marked, and on a month boundary new weights at a cost. */
  method Rebalanced(rules: Rules, s: State, portReturn: real, bars: map<string, seq<Bar>>, prev: int, day: int)
    returns (t: State)
    ensures t == Advance(rules, s, portReturn, SliceAsof(bars, day), prev, day)
  {
    var equity := s.equity * (1.0 + portReturn);
    t := s.(equity := equity);
    if rules.month(day) != rules.month(prev) {
      var weights := rules.strategy(SliceAsof(bars, day));
      var turnover := Turnover(s.weights, weights);
      equity := equity * (1.0 - turnover * rules.costRate);
      t := State(equity, weights, s.rebalances + 1);
    }
  }

  // ── Drawdown ─────────────────────────────────────────────────────────────────

  /** The loss from one point of a curve to a later one. */
  function Loss(curve: seq<real>, from: nat, to': nat): real
    requires from < |curve| && to' < |curve| && curve[from] > 0.0
  {
    curve[to'] / curve[from] - 1.0
  }

  lemma CancelRight(a: real, b: real, c: real)
    requires c > 0.0 && b * c <= a * c
    ensures b <= a
  {
  }

  lemma QuotientsKeepOrder(v: real, low: real, high: real)
    requires 0.0 < low <= high && v > 0.0
    ensures (v / low) * low == v && (v / high) * high == v && v / high > 0.0
  {
  }

  lemma SmallerFactor(b: real, low: real, high: real)
    requires b > 0.0 && low <= high
    ensures b * low <= b * high
  {
  }

  lemma HigherPeakLosesMore(v: real, low: real, high: real)
    requires 0.0 < low <= high && v >= 0.0
    ensures v / high <= v / low
  {
    if v > 0.0 {
      QuotientsKeepOrder(v, low, high);
      SmallerFactor(v / high, low, high);
      CancelRight(v / low, v / high, low);
    }
  }

  /** A point no earlier one and none up to another rises above. */
  ghost predicate Peak(curve: seq<real>, from: nat, to': nat) {
    from <= to' < |curve| && forall k :: 0 <= k <= to' ==> curve[k] <= curve[from]
  }

  /** Over the first k points: the deepest fall from a positive peak to a later point, or zero. */
  ghost predicate Deepest(curve: seq<real>, k: nat, worst: real)
    requires k <= |curve|
  {
    && worst <= 0.0
    && (forall i: nat, j: nat :: j < k && Peak(curve, i, j) && curve[i] > 0.0 ==> worst <= Loss(curve, i, j))
    && (worst == 0.0 || exists i: nat, j: nat ::
        j < k && Peak(curve, i, j) && curve[i] > 0.0 && worst == Loss(curve, i, j))
  }

  lemma NoPeakYet(curve: seq<real>, k: nat, at: nat, worst: real)
    requires k < |curve| && Deepest(curve, k, worst) && Peak(curve, at, k) && curve[at] <= 0.0
    ensures Deepest(curve, k + 1, worst)
  {
    hide Loss;
    forall i: nat | Peak(curve, i, k) ensures curve[i] <= 0.0 {
      assert curve[i] <= curve[at];
    }
  }

  lemma PeaksLoseTheSame(curve: seq<real>, i: nat, at: nat, k: nat)
    requires Peak(curve, i, k) && Peak(curve, at, k) && curve[i] > 0.0
    ensures curve[i] == curve[at] && Loss(curve, i, k) == Loss(curve, at, k)
  {
    assert curve[at] <= curve[i] <= curve[at];
  }

  lemma FallsFromPeak(curve: seq<real>, k: nat, at: nat, worst: real)
    requires k < |curve| && Deepest(curve, k, worst) && Peak(curve, at, k) && curve[at] > 0.0
    ensures Deepest(curve, k + 1, Min(worst, Loss(curve, at, k)))
  {
    forall i: nat | Peak(curve, i, k) && curve[i] > 0.0 ensures Loss(curve, i, k) == Loss(curve, at, k) {
      PeaksLoseTheSame(curve, i, at, k);
    }
    hide Loss, Peak;
    var fall := Loss(curve, at, k);
    forall i: nat, j: nat | j < k + 1 && Peak(curve, i, j) && curve[i] > 0.0
      ensures Min(worst, fall) <= Loss(curve, i, j)
    {
      assert j == k || j < k;
    }
  }

  /** A peak up to every point. */
  lemma {:induction false} HasPeak(curve: seq<real>, k: nat) returns (at: nat)
    requires k < |curve|
    ensures Peak(curve, at, k)
  {
    if k == 0 {
      at := 0;
    } else {
      at := HasPeak(curve, k - 1);
      if curve[at] < curve[k] {
        at := k;
      }
    }
  }

  /** The deepest fall is at least as deep as any fall from a positive point to a later one that is not negative. */
  lemma DeepestOfAll(curve: seq<real>, worst: real, i: nat, j: nat)
    requires Deepest(curve, |curve|, worst) && i <= j < |curve| && curve[i] > 0.0 && curve[j] >= 0.0
    ensures worst <= Loss(curve, i, j)
  {
    var at := HasPeak(curve, j);
    HigherPeakLosesMore(curve[j], curve[i], curve[at]);
    assert worst <= Loss(curve, at, j);
  }

  /** The drawdown loop of the summary; a curve may reach zero or go below. */
  method MaxDrawdown(curve: seq<real>) returns (worst: real)
    ensures Deepest(curve, |curve|, worst)
  {
    hide Deepest, Loss;
    worst := 0.0;
    NothingFell(curve);
    if curve == [] {
      return;
    }
    var peak := curve[0];
    ghost var at := 0;
    for k := 0 to |curve|
      invariant at < |curve| && at <= k && peak == curve[at] && forall i :: 0 <= i < k ==> curve[i] <= peak
      invariant Deepest(curve, k, worst)
    {
      var v := curve[k];
      if v > peak {
        peak := v;
        at := k;
      }
      if peak > 0.0 {
        FallsFromPeak(curve, k, at, worst);
        FallIsLoss(curve, at, k);
        worst := Min(worst, v / peak - 1.0);
      } else {
        NoPeakYet(curve, k, at, worst);
      }
    }
  }

  lemma FallIsLoss(curve: seq<real>, from: nat, to': nat)
    requires from < |curve| && to' < |curve| && curve[from] > 0.0
    ensures curve[to'] / curve[from] - 1.0 == Loss(curve, from, to')
  {
  }

  lemma NothingFell(curve: seq<real>)
    ensures Deepest(curve, 0, 0.0)
  {
  }
}
