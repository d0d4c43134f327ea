/**
 * Daily bars (data/market.py). A timestamp is a date, a number of days, and a time within
 * it; a bar is filed under its date.
 */
module Market {

  datatype Bar = Bar(date: int, time: int, close: real)

  /** One symbol's bars by date: each under its own. */
  predicate Filed(h: map<int, Bar>) {
    forall d :: d in h ==> h[d].date == d
  }

  /** The bars dated from one day to another, oldest first. */
  function BarsIn(h: map<int, Bar>, first: int, last: int): seq<Bar>
    decreases last - first
  {
    if first > last then []
    else BarsIn(h, first, last - 1) + (if last in h then [h[last]] else [])
  }

  lemma {:induction false} SameBars(g: map<int, Bar>, h: map<int, Bar>, first: int, last: int)
    requires forall d :: first <= d <= last ==> (d in g <==> d in h) && (d in g && d in h ==> g[d] == h[d])
    ensures BarsIn(g, first, last) == BarsIn(h, first, last)
    decreases last - first
  {
    if first <= last {
      SameBars(g, h, first, last - 1);
    }
  }

  predicate InOrder(bars: seq<Bar>) {
    forall i, j :: 0 <= i < j < |bars| ==> bars[i].date < bars[j].date
  }

  lemma {:induction false} BarsInFacts(h: map<int, Bar>, first: int, last: int)
    requires Filed(h)
    ensures InOrder(BarsIn(h, first, last))
    ensures forall b :: b in BarsIn(h, first, last) <==> (first <= b.date <= last && b.date in h && b == h[b.date])
    decreases last - first
  {
    if first <= last {
      BarsInFacts(h, first, last - 1);
    }
  }

  /** Two filed histories list the same bars of a range exactly when they agree on every day of it. */
  lemma SameBarsIff(g: map<int, Bar>, h: map<int, Bar>, first: int, last: int)
    requires Filed(g) && Filed(h)
    ensures BarsIn(g, first, last) == BarsIn(h, first, last)
       <==> forall d :: first <= d <= last ==> (d in g <==> d in h) && (d in g && d in h ==> g[d] == h[d])
  {
    BarsInFacts(g, first, last);
    BarsInFacts(h, first, last);
    if BarsIn(g, first, last) == BarsIn(h, first, last) {
      forall d | first <= d <= last ensures (d in g <==> d in h) && (d in g && d in h ==> g[d] == h[d]) {
        if d in g {
          assert g[d] in BarsIn(h, first, last);
        }
        if d in h {
          assert h[d] in BarsIn(g, first, last);
        }
      }
    } else if forall d :: first <= d <= last ==> (d in g <==> d in h) && (d in g && d in h ==> g[d] == h[d]) {
      SameBars(g, h, first, last);
    }
  }
}
