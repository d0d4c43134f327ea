/**
 * Walk-forward folds (backtest/engine.py, run_walk_forward): the calendar is cut into
 * windows, each moved past an embargo after the one before.
 */
module WalkForward {
  import opened Common
  import opened Market
  import opened Backtest

  datatype Window = Window(start: int, end: int)

  /** Folds in time order, apart, each a whole embargo after the last, on calendar days. */
  ghost predicate Folded(windows: seq<Window>, calendar: seq<int>, embargo: int) {
    && (forall k :: 0 <= k < |windows| ==>
        windows[k].start <= windows[k].end && windows[k].start in calendar && windows[k].end in calendar)
    && (forall k :: 0 < k < |windows| ==>
        windows[k - 1].end < windows[k].start && windows[k].start >= windows[k - 1].end + embargo)
  }

  /** Any two folds are disjoint, the earlier one wholly before the later. */
  lemma {:induction false} FoldsAreDisjoint(windows: seq<Window>, calendar: seq<int>, embargo: int, i: nat, j: nat)
    requires Folded(windows, calendar, embargo) && i < j < |windows|
    ensures windows[i].end < windows[j].start
  {
    if i < j - 1 {
      FoldsAreDisjoint(windows, calendar, embargo, i, j - 1);
    }
  }

  /** The bars a fold is given. */
  function InWindow(bars: seq<Bar>, w: Window): seq<Bar> {
    if bars == [] then []
    else
      var init, last := InWindow(bars[..|bars| - 1], w), bars[|bars| - 1];
      if w.start <= last.date <= w.end then init + [last] else init
  }

  function Sliced(bars: map<string, seq<Bar>>, w: Window): map<string, seq<Bar>> {
    map s | s in bars :: InWindow(bars[s], w)
  }

  /** A fold sees exactly the bars dated inside its own window. */
  lemma {:induction false} FoldSeesItsWindow(bars: seq<Bar>, w: Window, b: Bar)
    ensures b in InWindow(bars, w) <==> b in bars && w.start <= b.date <= w.end
  {
    if bars != [] {
      FoldSeesItsWindow(bars[..|bars| - 1], w, b);
      assert bars == bars[..|bars| - 1] + [bars[|bars| - 1]];
    }
  }

  /** First calendar position from a start whose date is not before a day. */
  method AdvanceTo(calendar: seq<int>, from: nat, day: int) returns (at: nat)
    requires from <= |calendar|
    ensures from <= at <= |calendar|
    ensures forall k :: from <= k < at ==> calendar[k] < day
    ensures at < |calendar| ==> calendar[at] >= day
  {
    at := from;
    while at < |calendar| && calendar[at] < day
      invariant from <= at <= |calendar|
      invariant forall k :: from <= k < at ==> calendar[k] < day
    {
      at := at + 1;
    }
  }

  lemma {:induction false} TimesGrows(a: nat, b: nat, c: nat)
    requires a <= b
    ensures a * c <= b * c
  {
    if a < b {
      TimesGrows(a, b - 1, c);
      assert b * c == (b - 1) * c + c;
    }
  }

  /** The share of window i ends within the calendar. */
  lemma ChunkFits(length: nat, n: nat, i: nat)
    requires n > 0 && i < n
    ensures (i + 1) * (length / n) <= length && (i + 1) * (length / n) == i * (length / n) + length / n
  {
    var c := length / n;
    assert n * c + length % n == length;
    TimesGrows(i + 1, n, c);
    assert (i + 1) * c == i * c + c;
  }

  lemma TwoDaysEach(length: nat, n: nat)
    requires n > 0 && length >= 2 * n
    ensures length / n >= 2
  {
    assert length == n * (length / n) + length % n;
  }

  lemma DatesGrow(calendar: seq<int>, i: nat, j: nat)
    requires Ascending(calendar) && i <= j < |calendar|
    ensures calendar[i] <= calendar[j] && (i < j ==> calendar[i] < calendar[j])
  {
  }

  /** The first day of fold i's share of the calendar. */
  function ShareStart(calendar: seq<int>, n: nat, i: nat): int
    requires n > 0 && i < n && |calendar| >= 2 * n
  {
    ChunkFits(|calendar|, n, i);
    TwoDaysEach(|calendar|, n);
    calendar[i * (|calendar| / n)]
  }

  /** The last day of fold i's share; the last fold takes the rest of the calendar. */
  function ShareEnd(calendar: seq<int>, n: nat, i: nat): int
    requires n > 0 && i < n && |calendar| >= 2 * n
  {
    ChunkFits(|calendar|, n, i);
    TwoDaysEach(|calendar|, n);
    if i == n - 1 then calendar[|calendar| - 1] else calendar[(i + 1) * (|calendar| / n) - 1]
  }

  /** The first day a fold may start on after the one that ended on `last`. */
  function Earliest(last: Option<int>, embargo: int, share: int): int {
    if last.Some? && embargo > 0 && last.value + embargo > share then last.value + embargo else share
  }

  /**
   * Fold i is its share of the calendar, cut at the front to the first calendar day past
   * the embargo, and of one day at least.
   */
  ghost predicate Placed(calendar: seq<int>, n: nat, i: nat, last: Option<int>, embargo: int, w: Window)
    requires n > 0 && i < n && |calendar| >= 2 * n
  {
    var earliest := Earliest(last, embargo, ShareStart(calendar, n, i));
    && w.start in calendar && w.start >= earliest
    && (forall d :: d in calendar && d >= earliest ==> w.start <= d)
    && w.end == if w.start > ShareEnd(calendar, n, i) then w.start else ShareEnd(calendar, n, i)
  }

  /** Every fold is placed after the one before. */
  ghost predicate PlacedInTurn(windows: seq<Window>, calendar: seq<int>, n: nat, embargo: int)
    requires n > 0 && |calendar| >= 2 * n && |windows| <= n
  {
    forall k :: 0 <= k < |windows| ==> Placed(calendar, n, k, EndBefore(windows, k), embargo, windows[k])
  }

  /** There are too few folds only because the embargo ran off the calendar. */
  predicate Complete(windows: seq<Window>, calendar: seq<int>, n: nat, embargo: int)
    requires n > 0 && |calendar| >= 2 * n
  {
    |windows| < n ==> windows != [] && embargo > 0 && calendar[|calendar| - 1] < windows[|windows| - 1].end + embargo
  }

  ghost predicate AllPlaced(windows: seq<Window>, calendar: seq<int>, n: nat, embargo: int)
    requires n > 0 && |calendar| >= 2 * n && |windows| <= n
  {
    PlacedInTurn(windows, calendar, n, embargo) && Complete(windows, calendar, n, embargo)
  }

  lemma OneMorePlaced(windows: seq<Window>, calendar: seq<int>, n: nat, embargo: int, w: Window)
    requires n > 0 && |calendar| >= 2 * n && |windows| < n && PlacedInTurn(windows, calendar, n, embargo)
    requires Placed(calendar, n, |windows|, EndBefore(windows, |windows|), embargo, w)
    ensures PlacedInTurn(windows + [w], calendar, n, embargo)
  {
    hide Placed;
    forall k | 0 <= k <= |windows|
      ensures Placed(calendar, n, k, EndBefore(windows + [w], k), embargo, (windows + [w])[k])
    {
      assert EndBefore(windows + [w], k) == EndBefore(windows, k);
    }
  }

  lemma PlacedTurn(windows: seq<Window>, calendar: seq<int>, n: nat, embargo: int, i: nat)
    requires n > 0 && |calendar| >= 2 * n && |windows| <= n && PlacedInTurn(windows, calendar, n, embargo)
          && i < |windows|
    ensures Placed(calendar, n, i, EndBefore(windows, i), embargo, windows[i])
  {
    hide Placed;
  }

  function EndBefore(windows: seq<Window>, k: nat): Option<int>
    requires k <= |windows|
  {
    if k == 0 then None else Some(windows[k - 1].end)
  }

  /** The day at a calendar position, if that position was the end of the window before. */
  ghost predicate EndsAt(calendar: seq<int>, last: Option<int>, at: nat) {
    last.Some? ==> at < |calendar| && calendar[at] == last.value
  }

  /**
   * Window i: from its share of the calendar, moved past the embargo. None if the embargo
   * runs off the calendar. `at` and `end` are the positions of the last days of the window
   * before and of this one.
   */
  method WindowAt(calendar: seq<int>, n: nat, i: nat, last: Option<int>, embargo: int, ghost at: nat)
    returns (w: Option<Window>, ghost end: nat)
    requires Ascending(calendar) && n > 0 && i < n && |calendar| >= 2 * n
    requires EndsAt(calendar, last, at) && (last.Some? && embargo <= 0 ==> at < i * (|calendar| / n))
    ensures w.Some? ==>
              w.value.start <= w.value.end && w.value.start in calendar && end < |calendar|
              && calendar[end] == w.value.end
    ensures w.Some? && last.Some? ==> last.value < w.value.start && w.value.start >= last.value + embargo
    ensures w.Some? && embargo <= 0 && i < n - 1 ==> end < (i + 1) * (|calendar| / n)
    ensures w.Some? ==> Placed(calendar, n, i, last, embargo, w.value)
    ensures w.None? ==> last.Some? && embargo > 0 && calendar[|calendar| - 1] < last.value + embargo
  {
    hide Ascending, Placed;
    var chunk := |calendar| / n;
    ChunkFits(|calendar|, n, i);
    TwoDaysEach(|calendar|, n);
    var startIdx := i * chunk;
    var endIdx := if i == n - 1 then |calendar| else (i + 1) * chunk;
    end := 0;
    if last.Some? && embargo > 0 {
      startIdx := AdvanceTo(calendar, startIdx, last.value + embargo);
      if startIdx >= |calendar| {
        return None, end;
      }
      endIdx := if endIdx > startIdx + 1 then endIdx else startIdx + 1;
    }
    end := endIdx - 1;
    DatesGrow(calendar, startIdx, end);
    if last.Some? && embargo <= 0 {
      DatesGrow(calendar, at, startIdx);
    }
    w := Some(Window(calendar[startIdx], calendar[endIdx - 1]));
    PlacedAt(calendar, n, i, last, embargo, startIdx, w.value);
  }

  lemma PlacedAt(calendar: seq<int>, n: nat, i: nat, last: Option<int>, embargo: int, start: nat, w: Window)
    requires Ascending(calendar) && n > 0 && i < n && |calendar| >= 2 * n && start < |calendar|
    requires var first := i * (|calendar| / n);
             && first <= start
             && (forall k :: first <= k < start ==> last.Some? && embargo > 0 && calendar[k] < last.value + embargo)
             && (last.Some? && embargo > 0 ==> calendar[start] >= last.value + embargo)
             && (last.None? || embargo <= 0 ==> start == first)
    requires var share := (if i == n - 1 then |calendar| else (i + 1) * (|calendar| / n)) - 1;
             (start > share ==> w == Window(calendar[start], calendar[start]))
             && (start <= share < |calendar| ==> w == Window(calendar[start], calendar[share]))
    ensures Placed(calendar, n, i, last, embargo, w)
  {
    hide Ascending, ShareStart, ShareEnd;
    var first, share := ShareAt(calendar, n, i);
    DatesGrow(calendar, first, start);
    if start > share {
      DatesGrow(calendar, share, start);
    } else {
      DatesGrow(calendar, start, share);
    }
    NoneEarlier(calendar, first, start, Earliest(last, embargo, calendar[first]));
  }

  /** Nothing before a position is late enough, so it holds the first day that is. */
  lemma NoneEarlier(calendar: seq<int>, first: nat, start: nat, earliest: int)
    requires Ascending(calendar) && first <= start < |calendar| && calendar[first] <= earliest
    requires forall k :: first <= k < start ==> calendar[k] < earliest
    ensures forall d :: d in calendar && d >= earliest ==> calendar[start] <= d
  {
    hide Ascending;
    forall d | d in calendar && d >= earliest ensures calendar[start] <= d {
      var k :| 0 <= k < |calendar| && calendar[k] == d;
      if k < first {
        DatesGrow(calendar, k, first);
      } else if k >= start {
        DatesGrow(calendar, start, k);
      }
    }
  }

  lemma OneMoreFold(windows: seq<Window>, calendar: seq<int>, embargo: int, w: Window)
    requires Folded(windows, calendar, embargo) && w.start <= w.end && w.start in calendar && w.end in calendar
    requires windows != [] ==> windows[|windows| - 1].end < w.start && w.start >= windows[|windows| - 1].end + embargo
    ensures Folded(windows + [w], calendar, embargo)
  {
  }

  lemma NoFoldYet(calendar: seq<int>, n: nat, embargo: int)
    requires n > 0 && |calendar| >= 2 * n
    ensures Folded([], calendar, embargo) && PlacedInTurn([], calendar, n, embargo)
  {
  }

  /** The windows of all folds; the loop stops early when an embargo runs off the calendar. */
  method Windows(calendar: seq<int>, n: nat, embargo: int) returns (windows: seq<Window>)
    requires Ascending(calendar) && n > 0 && |calendar| >= 2 * n
    ensures Folded(windows, calendar, embargo) && 1 <= |windows| <= n
    ensures AllPlaced(windows, calendar, n, embargo)
  {
    hide Folded, Ascending, Placed, PlacedInTurn;
    windows := [];
    NoFoldYet(calendar, n, embargo);
    var last: Option<int> := None;
    ghost var at := 0;
    for i := 0 to n
      invariant Folded(windows, calendar, embargo) && |windows| == i
      invariant last == EndBefore(windows, i)
      invariant PlacedInTurn(windows, calendar, n, embargo)
      invariant EndsAt(calendar, last, at) && (last.Some? && embargo <= 0 && i < n ==> at < i * (|calendar| / n))
    {
      var w, end := WindowAt(calendar, n, i, last, embargo, at);
      if w.None? {
        return;
      }
      assert calendar[end] in calendar;
      OneMoreFold(windows, calendar, embargo, w.value);
      OneMorePlaced(windows, calendar, n, embargo, w.value);
      windows := windows + [w.value];
      last := Some(w.value.end);
      at := end;
    }
  }

  /** Without an embargo a fold is its share of the calendar. */
  lemma PlacedIsShare(calendar: seq<int>, n: nat, i: nat, last: Option<int>, embargo: int, w: Window)
    requires Ascending(calendar) && n > 0 && |calendar| >= 2 * n && i < n && embargo <= 0
          && Placed(calendar, n, i, last, embargo, w)
    ensures w.start <= ShareStart(calendar, n, i) && w.end >= ShareEnd(calendar, n, i)
  {
    hide Ascending, ShareStart, ShareEnd;
    var from, _ := ShareAt(calendar, n, i);
    assert calendar[from] in calendar;
  }

  /** Where the share of fold i lies in the calendar. */
  lemma ShareAt(calendar: seq<int>, n: nat, i: nat) returns (from: nat, to: nat)
    requires n > 0 && |calendar| >= 2 * n && i < n
    ensures from == i * (|calendar| / n) && to == (if i == n - 1 then |calendar| else (i + 1) * (|calendar| / n)) - 1
    ensures from < |calendar| && to < |calendar| && ShareStart(calendar, n, i) == calendar[from]
         && ShareEnd(calendar, n, i) == calendar[to]
  {
    ChunkFits(|calendar|, n, i);
    TwoDaysEach(|calendar|, n);
    from, to := i * (|calendar| / n), (if i == n - 1 then |calendar| else (i + 1) * (|calendar| / n)) - 1;
  }

  lemma InItsShare(calendar: seq<int>, n: nat, k: nat) returns (i: nat)
    requires Ascending(calendar) && n > 0 && |calendar| >= 2 * n && k < |calendar|
    ensures i < n && ShareStart(calendar, n, i) <= calendar[k] <= ShareEnd(calendar, n, i)
  {
    hide Ascending, ShareStart, ShareEnd;
    TwoDaysEach(|calendar|, n);
    i := ShareOf(k, |calendar| / n, n);
    var from, to := ShareAt(calendar, n, i);
    DatesGrow(calendar, from, k);
    DatesGrow(calendar, k, to);
  }

  /** Without an embargo the folds tile the calendar: each calendar day lies in one. */
  lemma FoldsCoverTheCalendar(windows: seq<Window>, calendar: seq<int>, n: nat, embargo: int, k: nat) returns (i: nat)
    requires Ascending(calendar) && n > 0 && |calendar| >= 2 * n && |windows| <= n && embargo <= 0
    requires AllPlaced(windows, calendar, n, embargo) && k < |calendar|
    ensures i < |windows| && windows[i].start <= calendar[k] <= windows[i].end
  {
    hide Ascending, ShareStart, ShareEnd, Placed, PlacedInTurn;
    i := InItsShare(calendar, n, k);
    PlacedTurn(windows, calendar, n, embargo, i);
    PlacedIsShare(calendar, n, i, EndBefore(windows, i), embargo, windows[i]);
  }

  /** The share a position lies in. */
  lemma ShareOf(k: nat, chunk: nat, n: nat) returns (i: nat)
    requires chunk > 0 && n > 0
    ensures i < n && i * chunk <= k && (i < n - 1 ==> k < (i + 1) * chunk)
  {
    var q := k / chunk;
    assert k == chunk * q + k % chunk;
    i := if q < n - 1 then q else n - 1;
    if q < n - 1 {
      assert (q + 1) * chunk == q * chunk + chunk;
    } else {
      TimesGrows(n - 1, q, chunk);
    }
  }

  // ── When every fold can run ──────────────────────────────────────────────────

  lemma {:induction false} WindowDates(bars: seq<Bar>, w: Window, d: int)
    ensures d in DatesOf(InWindow(bars, w)) <==> d in DatesOf(bars) && w.start <= d <= w.end
  {
    if bars != [] {
      var init, last := bars[..|bars| - 1], bars[|bars| - 1];
      WindowDates(init, w, d);
      DatesAscend(init);
      DatesAscend(InWindow(init, w));
      InsertAscends(DatesOf(init), last.date);
      if w.start <= last.date <= w.end {
        assert (InWindow(init, w) + [last])[..|InWindow(init, w)|] == InWindow(init, w);
        InsertAscends(DatesOf(InWindow(init, w)), last.date);
      }
    }
  }

  lemma {:induction false} WindowCloses(bars: seq<Bar>, w: Window, d: int)
    ensures d in LastBars(InWindow(bars, w)) <==> d in LastBars(bars) && w.start <= d <= w.end
    ensures d in LastBars(InWindow(bars, w)) ==> LastBars(InWindow(bars, w))[d] == LastBars(bars)[d]
  {
    if bars != [] {
      var init, last := bars[..|bars| - 1], bars[|bars| - 1];
      WindowCloses(init, w, d);
      assert (InWindow(init, w) + [last])[..|InWindow(init, w)|] == InWindow(init, w);
    }
  }

  lemma FirstOfAscending(dates: seq<int>, first: int, last: int)
    requires Ascending(dates) && first in dates && last in dates && forall d :: d in dates ==> first <= d <= last
    ensures dates[0] == first && (|dates| >= 2 <==> first < last)
  {
    assert dates[0] in dates;
    if |dates| >= 2 {
      assert dates[1] in dates && dates[0] < dates[1];
    }
  }

  /** A fold runs if and only if it has two days and the benchmark closes above or below zero on the first. */
  lemma FoldRunsIff(bars: map<string, seq<Bar>>, benchmark: string, w: Window)
    requires w.start in Calendar(bars, benchmark) && w.end in Calendar(bars, benchmark) && w.start <= w.end
    ensures Runnable(Sliced(bars, w), benchmark)
       <==> w.start < w.end && CloseAt(bars, benchmark, w.start).GetOr(0.0) != 0.0
  {
    hide InWindow, DatesOf, LastBars, Ascending;
    var dates := Calendar(Sliced(bars, w), benchmark);
    assert dates == DatesOf(InWindow(bars[benchmark], w));
    CalendarAscends(Sliced(bars, w), benchmark);
    forall d ensures d in dates <==> d in Calendar(bars, benchmark) && w.start <= d <= w.end {
      WindowDates(bars[benchmark], w, d);
    }
    FirstOfAscending(dates, w.start, w.end);
    WindowCloses(bars[benchmark], w, w.start);
    assert CloseAt(Sliced(bars, w), benchmark, w.start) == CloseAt(bars, benchmark, w.start) by {
      DatesAscend(bars[benchmark]);
    }
  }

  /** The first calendar day on or after a day. */
  ghost predicate FirstFrom(calendar: seq<int>, earliest: int, d: int) {
    d in calendar && d >= earliest && forall e :: e in calendar && e >= earliest ==> d <= e
  }

  /** Where fold i starts to look for its first day, if the fold before it ended with its share. */
  function EarliestStart(calendar: seq<int>, n: nat, i: nat, embargo: int): int
    requires n > 0 && i < n && |calendar| >= 2 * n
  {
    Earliest(if i == 0 then None else Some(ShareEnd(calendar, n, i - 1)), embargo, ShareStart(calendar, n, i))
  }

  /**
   * What a caller can check of fold i from the calendar and the benchmark's closes: the
   * first day past the embargo, if there is one, comes before the end of the fold's share,
   * and the benchmark's close on it is not zero.
   */
  ghost predicate FoldCanRun(bars: map<string, seq<Bar>>, benchmark: string, n: nat, i: nat, embargo: int)
    requires n > 0 && i < n && |Calendar(bars, benchmark)| >= 2 * n
  {
    var calendar := Calendar(bars, benchmark);
    forall d :: FirstFrom(calendar, EarliestStart(calendar, n, i, embargo), d) ==>
      d < ShareEnd(calendar, n, i) && CloseAt(bars, benchmark, d).GetOr(0.0) != 0.0
  }

  /** A fold of two days or more ends with its share. */
  lemma LongFoldEndsItsShare(calendar: seq<int>, n: nat, i: nat, last: Option<int>, embargo: int, w: Window)
    requires n > 0 && i < n && |calendar| >= 2 * n && Placed(calendar, n, i, last, embargo, w) && w.start < w.end
    ensures w.end == ShareEnd(calendar, n, i)
  {
    hide ShareStart, ShareEnd;
  }

  /** If the fold before ended with its share, a fold runs if and only if the caller's check of it passes. */
  lemma PlacedFoldRunsIff(bars: map<string, seq<Bar>>, benchmark: string, n: nat, i: nat, last: Option<int>,
                          embargo: int, w: Window)
    requires n > 0 && i < n && |Calendar(bars, benchmark)| >= 2 * n
    requires w.start <= w.end && w.end in Calendar(bars, benchmark)
          && Placed(Calendar(bars, benchmark), n, i, last, embargo, w)
    requires last == if i == 0 then None else Some(ShareEnd(Calendar(bars, benchmark), n, i - 1))
    ensures Runnable(Sliced(bars, w), benchmark) <==> FoldCanRun(bars, benchmark, n, i, embargo)
  {
    hide ShareStart, ShareEnd, Calendar, Runnable, Sliced, CloseAt;
    var calendar := Calendar(bars, benchmark);
    FoldRunsIff(bars, benchmark, w);
    assert FirstFrom(calendar, EarliestStart(calendar, n, i, embargo), w.start);
    assert forall d :: FirstFrom(calendar, EarliestStart(calendar, n, i, embargo), d) ==> d == w.start;
  }

  lemma RunningFoldIsLong(bars: map<string, seq<Bar>>, benchmark: string, w: Window)
    requires w.start <= w.end && Runnable(Sliced(bars, w), benchmark)
    ensures w.start < w.end
  {
    hide Runnable, Sliced;
    if w.start == w.end {
      OneDayFoldFails(bars, benchmark, w);
    }
  }

  lemma FoldAt(windows: seq<Window>, calendar: seq<int>, n: nat, embargo: int, i: nat)
    requires n > 0 && |calendar| >= 2 * n && |windows| <= n && i < |windows|
    requires Folded(windows, calendar, embargo) && AllPlaced(windows, calendar, n, embargo)
    ensures windows[i].start <= windows[i].end && windows[i].end in calendar
    ensures Placed(calendar, n, i, EndBefore(windows, i), embargo, windows[i])
  {
    PlacedTurn(windows, calendar, n, embargo, i);
    hide Placed;
  }

  /** With every fold before it running, fold i runs if and only if the caller's check of it passes. */
  lemma NextFoldRunsIff(bars: map<string, seq<Bar>>, benchmark: string, windows: seq<Window>, n: nat, embargo: int,
                        i: nat)
    requires n > 0 && |Calendar(bars, benchmark)| >= 2 * n && |windows| <= n && i < |windows|
    requires Folded(windows, Calendar(bars, benchmark), embargo)
          && AllPlaced(windows, Calendar(bars, benchmark), n, embargo)
    requires i > 0 ==> Runnable(Sliced(bars, windows[i - 1]), benchmark)
    ensures Runnable(Sliced(bars, windows[i]), benchmark) <==> FoldCanRun(bars, benchmark, n, i, embargo)
  {
    hide Placed, ShareStart, ShareEnd, Calendar, Runnable, Sliced, Folded, AllPlaced, FoldCanRun, CloseAt;
    var calendar := Calendar(bars, benchmark);
    FoldAt(windows, calendar, n, embargo, i);
    if i > 0 {
      FoldAt(windows, calendar, n, embargo, i - 1);
      RunningFoldIsLong(bars, benchmark, windows[i - 1]);
      LongFoldEndsItsShare(calendar, n, i - 1, EndBefore(windows, i - 1), embargo, windows[i - 1]);
    }
    PlacedFoldRunsIff(bars, benchmark, n, i, EndBefore(windows, i), embargo, windows[i]);
  }

  lemma SharesEndInOrder(calendar: seq<int>, n: nat, i: nat, j: nat)
    requires Ascending(calendar) && n > 0 && |calendar| >= 2 * n && i <= j < n
    ensures ShareEnd(calendar, n, i) <= ShareEnd(calendar, n, j)
  {
    hide Ascending, ShareStart, ShareEnd;
    var _, a := ShareAt(calendar, n, i);
    var _, b := ShareAt(calendar, n, j);
    if j < n - 1 {
      TimesGrows(i + 1, j + 1, |calendar| / n);
    }
    DatesGrow(calendar, a, b);
  }

  lemma NoneFrom(calendar: seq<int>, day: int)
    requires Ascending(calendar) && calendar != [] && calendar[|calendar| - 1] < day
    ensures forall d :: d in calendar ==> d < day
  {
    hide Ascending;
    forall d | d in calendar ensures d < day {
      var at :| 0 <= at < |calendar| && calendar[at] == d;
      DatesGrow(calendar, at, |calendar| - 1);
    }
  }

  /** A fold that the embargo pushed off the calendar has no day to check. */
  lemma NoFoldNoDay(bars: map<string, seq<Bar>>, benchmark: string, windows: seq<Window>, n: nat, embargo: int, i: nat)
    requires n > 0 && |Calendar(bars, benchmark)| >= 2 * n && |windows| <= i < n
    requires Folded(windows, Calendar(bars, benchmark), embargo)
          && AllPlaced(windows, Calendar(bars, benchmark), n, embargo)
    requires forall k :: 0 <= k < |windows| ==> Runnable(Sliced(bars, windows[k]), benchmark)
    ensures FoldCanRun(bars, benchmark, n, i, embargo)
  {
    hide Placed, ShareStart, ShareEnd, Calendar, Runnable, Sliced, Folded, PlacedInTurn, CloseAt, Ascending;
    var calendar := Calendar(bars, benchmark);
    CalendarAscends(bars, benchmark);
    var k := |windows| - 1;
    FoldAt(windows, calendar, n, embargo, k);
    RunningFoldIsLong(bars, benchmark, windows[k]);
    LongFoldEndsItsShare(calendar, n, k, EndBefore(windows, k), embargo, windows[k]);
    SharesEndInOrder(calendar, n, k, i - 1);
    NoneFrom(calendar, EarliestStart(calendar, n, i, embargo));
  }

  /** Every fold runs if and only if the caller's check passes for each of the folds asked for. */
  lemma AllFoldsRunIff(bars: map<string, seq<Bar>>, benchmark: string, windows: seq<Window>, n: nat, embargo: int)
    requires n > 0 && |Calendar(bars, benchmark)| >= 2 * n && |windows| <= n
    requires Folded(windows, Calendar(bars, benchmark), embargo)
          && AllPlaced(windows, Calendar(bars, benchmark), n, embargo)
    ensures (forall k :: 0 <= k < |windows| ==> Runnable(Sliced(bars, windows[k]), benchmark))
       <==> (forall i :: 0 <= i < n ==> FoldCanRun(bars, benchmark, n, i, embargo))
  {
    hide Calendar, Runnable, Sliced, Folded, AllPlaced, FoldCanRun;
    if forall k :: 0 <= k < |windows| ==> Runnable(Sliced(bars, windows[k]), benchmark) {
      forall i | 0 <= i < n ensures FoldCanRun(bars, benchmark, n, i, embargo) {
        if i < |windows| {
          NextFoldRunsIff(bars, benchmark, windows, n, embargo, i);
        } else {
          NoFoldNoDay(bars, benchmark, windows, n, embargo, i);
        }
      }
    }
    if forall i :: 0 <= i < n ==> FoldCanRun(bars, benchmark, n, i, embargo) {
      FoldsRunUpTo(bars, benchmark, windows, n, embargo, |windows|);
    }
  }

  lemma {:induction false} FoldsRunUpTo(bars: map<string, seq<Bar>>, benchmark: string, windows: seq<Window>, n: nat,
                                        embargo: int, count: nat)
    requires n > 0 && |Calendar(bars, benchmark)| >= 2 * n && count <= |windows| <= n
    requires Folded(windows, Calendar(bars, benchmark), embargo)
          && AllPlaced(windows, Calendar(bars, benchmark), n, embargo)
    requires forall i :: 0 <= i < n ==> FoldCanRun(bars, benchmark, n, i, embargo)
    ensures forall k :: 0 <= k < count ==> Runnable(Sliced(bars, windows[k]), benchmark)
  {
    hide Calendar, Runnable, Sliced, Folded, AllPlaced, FoldCanRun;
    if count > 0 {
      FoldsRunUpTo(bars, benchmark, windows, n, embargo, count - 1);
      NextFoldRunsIff(bars, benchmark, windows, n, embargo, count - 1);
    }
  }

  /** What a caller can check before the call: the whole walk-forward succeeds. */
  ghost predicate WalkCanRun(bars: map<string, seq<Bar>>, benchmark: string, n: nat, embargo: int)
    requires n > 0
  {
    if |Calendar(bars, benchmark)| < 2 * n then Runnable(bars, benchmark)
    else forall i :: 0 <= i < n ==> FoldCanRun(bars, benchmark, n, i, embargo)
  }

  /**
   * A fold of a single day cannot run: the backtest of its slice wants two benchmark
   * days, so one such fold makes the whole walk-forward fail.
   */
  lemma OneDayFoldFails(bars: map<string, seq<Bar>>, benchmark: string, w: Window)
    requires w.start == w.end
    ensures !Runnable(Sliced(bars, w), benchmark)
  {
    if benchmark in bars {
      var dates := Calendar(Sliced(bars, w), benchmark);
      CalendarAscends(Sliced(bars, w), benchmark);
      assert dates == DatesOf(InWindow(bars[benchmark], w));
      assert |dates| > 1 ==> dates[0] < dates[1];
      forall i | 0 <= i < |dates| ensures dates[i] == w.start {
        WindowDates(bars[benchmark], w, dates[i]);
        assert dates[i] in dates;
      }
    }
  }

  /**
   * Four days, two folds and an embargo of two days: the second fold's share is days 2 and
   * 3, the embargo moves its start to day 3, and the walk-forward fails.
   */
  lemma EmbargoLeavesOneDay(bars: map<string, seq<Bar>>, benchmark: string, windows: seq<Window>)
    requires Calendar(bars, benchmark) == [0, 1, 2, 3] && |windows| <= 2
    requires Folded(windows, [0, 1, 2, 3], 2) && AllPlaced(windows, [0, 1, 2, 3], 2, 2)
    ensures |windows| == 2 && windows[0] == Window(0, 1) && windows[1] == Window(3, 3)
    ensures !Runnable(Sliced(bars, windows[1]), benchmark) && !WalkCanRun(bars, benchmark, 2, 2)
  {
    var calendar := [0, 1, 2, 3];
    assert ShareStart(calendar, 2, 0) == 0 && ShareEnd(calendar, 2, 0) == 1;
    assert ShareStart(calendar, 2, 1) == 2 && ShareEnd(calendar, 2, 1) == 3;
    hide Runnable, Sliced, Calendar, ShareStart, ShareEnd, Folded;
    assert 0 in calendar && 3 in calendar;
    FoldAt(windows, calendar, 2, 2, 0);
    assert windows[0] == Window(0, 1);
    assert |windows| == 2;
    FoldAt(windows, calendar, 2, 2, 1);
    assert windows[1] == Window(3, 3);
    OneDayFoldFails(bars, benchmark, windows[1]);
    AllFoldsRunIff(bars, benchmark, windows, 2, 2);
  }

  /** The last step of run_walk_forward: each fold runs on its own bars only. */
  method RunFolds(bars: map<string, seq<Bar>>, rules: Rules, benchmark: string, n: nat, embargo: int)
    returns (windows: seq<Window>, runs: seq<Option<Curves>>)
    requires n > 0
    ensures |runs| == (if windows == [] then 1 else |windows|)
    ensures windows == [] <==> |Calendar(bars, benchmark)| < 2 * n
    ensures windows != [] ==>
              && Folded(windows, Calendar(bars, benchmark), embargo) && |windows| <= n
              && AllPlaced(windows, Calendar(bars, benchmark), n, embargo)
    ensures windows == [] ==> Ran(bars, rules, benchmark, runs[0])
    ensures forall k :: 0 <= k < |windows| ==> Ran(Sliced(bars, windows[k]), rules, benchmark, runs[k])
    ensures (forall k :: 0 <= k < |runs| ==> runs[k].Some?) <==> WalkCanRun(bars, benchmark, n, embargo)
  {
    hide Ran, Sliced, AllPlaced, Folded, Calendar, Ascending, Runnable, FoldCanRun;
    var calendar := Calendar(bars, benchmark);
    CalendarAscends(bars, benchmark);
    windows, runs := [], [];
    if |calendar| < 2 * n {
      var only := RunBacktest(bars, rules, benchmark);
      RanIfRunnable(bars, rules, benchmark, only);
      return [], [only];
    }
    windows := Windows(calendar, n, embargo);
    for k := 0 to |windows|
      invariant |runs| == k
      invariant forall j :: 0 <= j < k ==> Ran(Sliced(bars, windows[j]), rules, benchmark, runs[j])
    {
      var run := RunBacktest(Sliced(bars, windows[k]), rules, benchmark);
      runs := runs + [run];
    }
    AllFoldsRunIff(bars, benchmark, windows, n, embargo);
    AllSomeIffRunnable(bars, rules, benchmark, windows, runs);
  }

  lemma RanIfRunnable(bars: map<string, seq<Bar>>, rules: Rules, benchmark: string, r: Option<Curves>)
    requires Ran(bars, rules, benchmark, r)
    ensures r.Some? <==> Runnable(bars, benchmark)
  {
    hide Runnable, CurvesMatch, StateAt, Calendar;
  }

  lemma AllSomeIffRunnable(bars: map<string, seq<Bar>>, rules: Rules, benchmark: string, windows: seq<Window>,
                           runs: seq<Option<Curves>>)
    requires |runs| == |windows|
          && forall k :: 0 <= k < |windows| ==> Ran(Sliced(bars, windows[k]), rules, benchmark, runs[k])
    ensures (forall k :: 0 <= k < |runs| ==> runs[k].Some?)
       <==> (forall k :: 0 <= k < |windows| ==> Runnable(Sliced(bars, windows[k]), benchmark))
  {
    hide Ran, Runnable, Sliced;
    forall k | 0 <= k < |windows| ensures runs[k].Some? <==> Runnable(Sliced(bars, windows[k]), benchmark) {
      RanIfRunnable(Sliced(bars, windows[k]), rules, benchmark, runs[k]);
    }
  }
}
