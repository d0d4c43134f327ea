/**
 * The drawdown ladder with delayed recovery (execution/agent_state_tracker.py,
 * execution/kill_switch.py): sizing tightens at once and loosens only after five days.
 */
module Hysteresis {
  import opened Common
  import opened Sizing

  const RECOVERY_DAYS_REQUIRED := 5

  /** classify_drawdown */
  function ClassifyDrawdown(drawdown: real): DrawdownBucket {
    if drawdown >= 0.25 then ForcedCash
    else if drawdown >= 0.15 then Red
    else if drawdown >= 0.10 then Orange
    else if drawdown >= 0.05 then Yellow
    else Normal
  }

  function Rank(b: DrawdownBucket): nat {
    match b case Normal => 0 case Yellow => 1 case Orange => 2 case Red => 3 case ForcedCash => 4
  }

  /** A deeper drawdown never gets a milder bucket, nor a larger gross cap. */
  lemma DeeperIsTighter(a: real, b: real)
    requires a <= b
    ensures Rank(ClassifyDrawdown(a)) <= Rank(ClassifyDrawdown(b))
    ensures DrawdownScalar(ClassifyDrawdown(a)) >= DrawdownScalar(ClassifyDrawdown(b))
  {
  }

  datatype Reading = Reading(date: int, bucket: DrawdownBucket)

  datatype Record = Record(
    sizing: DrawdownBucket,
    target: Option<DrawdownBucket>,
    since: Option<int>,
    days: nat,
    lastUpdate: Option<int>)

  /** A record as it is loaded: no recovery pending. */
  function Fresh(start: DrawdownBucket, lastUpdate: Option<int>): Record {
    Record(start, None, None, 0, lastUpdate)
  }

  /** _apply_bucket_with_recovery */
  function Apply(r: Record, x: Reading): Record {
    if Rank(x.bucket) >= Rank(r.sizing) then Record(x.bucket, None, None, 0, Some(x.date))
    else
      var days := if r.target != Some(x.bucket) then 1 else if Some(x.date) != r.lastUpdate then r.days + 1 else r.days;
      var since := if r.target != Some(x.bucket) then Some(x.date) else r.since;
      if days >= RECOVERY_DAYS_REQUIRED then Record(x.bucket, None, None, 0, Some(x.date))
      else Record(r.sizing, Some(x.bucket), since, days, Some(x.date))
  }

  function ApplyAll(r: Record, xs: seq<Reading>): Record {
    if xs == [] then r else Apply(ApplyAll(r, xs[..|xs| - 1]), xs[|xs| - 1])
  }

  // ── The specification: a look back over the history ──────────────────────────

  /** How many of the last readings carry the same bucket as the very last one. */
  function RunLength(xs: seq<Reading>): (n: nat)
    requires xs != []
    ensures 1 <= n <= |xs|
  {
    if |xs| == 1 || xs[|xs| - 2].bucket != xs[|xs| - 1].bucket then 1 else 1 + RunLength(xs[..|xs| - 1])
  }

  /** The distinct dates the trailing run covers. */
  function RunDates(xs: seq<Reading>): set<int>
    requires xs != []
  {
    set i | |xs| - RunLength(xs) <= i < |xs| :: xs[i].date
  }

  /** The sizing bucket by history alone. */
  function Sized(start: DrawdownBucket, xs: seq<Reading>): DrawdownBucket {
    if xs == [] then start
    else
      var before := Sized(start, xs[..|xs| - 1]);
      var raw := xs[|xs| - 1].bucket;
      if Rank(raw) >= Rank(before) || |RunDates(xs)| >= RECOVERY_DAYS_REQUIRED then raw else before
  }

  predicate DateOrdered(xs: seq<Reading>) {
    forall i, j :: 0 <= i <= j < |xs| ==> xs[i].date <= xs[j].date
  }

  /** The run grows by one reading, and by one date if the reading opens a new day. */
  lemma RunGrows(xs: seq<Reading>)
    requires |xs| >= 2 && DateOrdered(xs)
    ensures var init, x := xs[..|xs| - 1], xs[|xs| - 1];
            && (init[|init| - 1].bucket != x.bucket ==> RunLength(xs) == 1 && RunDates(xs) == {x.date})
            && (init[|init| - 1].bucket == x.bucket ==>
                  && RunLength(xs) == RunLength(init) + 1
                  && RunDates(xs) == RunDates(init) + {x.date}
                  && (x.date in RunDates(init) <==> x.date == init[|init| - 1].date))
  {
    var init, x := xs[..|xs| - 1], xs[|xs| - 1];
    var n := RunLength(init);
    assert init[|init| - 1].date in RunDates(init);
    if init[|init| - 1].bucket == x.bucket {
      forall d ensures d in RunDates(xs) <==> d in RunDates(init) || d == x.date {
        if d in RunDates(init) {
          var i :| |init| - n <= i < |init| && init[i].date == d;
          assert xs[i].date == d;
        }
        if d == x.date {
          assert xs[|xs| - 1].date == d;
        }
      }
      if x.date in RunDates(init) {
        var i :| |init| - n <= i < |init| && init[i].date == x.date;
        assert xs[i].date <= xs[|init| - 1].date <= x.date;
      }
    } else {
      assert RunDates(xs) == {x.date};
    }
  }

  /** What the record remembers is what the history says. */
  ghost predicate Remembers(r: Record, start: DrawdownBucket, xs: seq<Reading>)
    requires xs != []
  {
    var last := xs[|xs| - 1];
    && r.sizing == Sized(start, xs) && r.lastUpdate == Some(last.date)
    && Rank(r.sizing) >= Rank(last.bucket)
    && (r.sizing == last.bucket ==> r.target == None && r.days == 0)
    && (r.sizing != last.bucket ==> r.target == Some(last.bucket) && r.days == |RunDates(xs)| < RECOVERY_DAYS_REQUIRED)
  }

  lemma OneDate(xs: seq<Reading>)
    requires |xs| == 1
    ensures RunDates(xs) == {xs[0].date} && |RunDates(xs)| == 1
  {
    assert RunDates(xs) == {xs[0].date};
  }

  lemma CountGrows(s: set<int>, d: int)
    ensures |s + {d}| == if d in s then |s| else |s| + 1
  {
    if d in s {
      assert s + {d} == s;
    }
  }

  lemma RankIsInjective(a: DrawdownBucket, b: DrawdownBucket)
    ensures Rank(a) == Rank(b) <==> a == b
  {
  }

  /** One more reading of a remembered history, given how the run grows. */
  lemma ApplyRemembers(r: Record, before: DrawdownBucket, last: Reading, x: Reading, had: nat, has: nat)
    requires r.sizing == before && r.lastUpdate == Some(last.date) && Rank(before) >= Rank(last.bucket)
    requires r.sizing == last.bucket ==> r.target == None && r.days == 0
    requires r.sizing != last.bucket ==> r.target == Some(last.bucket) && r.days == had < RECOVERY_DAYS_REQUIRED
    requires has == if last.bucket != x.bucket then 1 else if x.date == last.date then had else had + 1
    ensures var t := Apply(r, x);
            var looser := Rank(x.bucket) < Rank(before);
            && t.lastUpdate == Some(x.date)
            && t.sizing == (if !looser || has >= RECOVERY_DAYS_REQUIRED then x.bucket else before)
            && Rank(t.sizing) >= Rank(x.bucket)
            && (t.sizing == x.bucket ==> t.target == None && t.days == 0)
            && (t.sizing != x.bucket ==> t.target == Some(x.bucket) && t.days == has < RECOVERY_DAYS_REQUIRED)
  {
    RankIsInjective(before, x.bucket);
    RankIsInjective(before, last.bucket);
  }

  lemma FirstRemembers(start: DrawdownBucket, lastUpdate: Option<int>, xs: seq<Reading>)
    requires |xs| == 1
    ensures Remembers(ApplyAll(Fresh(start, lastUpdate), xs), start, xs)
  {
    OneDate(xs);
    RankIsInjective(start, xs[0].bucket);
    assert ApplyAll(Fresh(start, lastUpdate), xs[..0]) == Fresh(start, lastUpdate);
    assert Sized(start, xs[..0]) == start;
    hide RunDates;
  }

  /**
   * The counter equals its specification: for readings in date order, starting from any
   * loaded record, the fields say exactly what the history says.
   */
  lemma {:induction false} CounterMatchesHistory(start: DrawdownBucket, lastUpdate: Option<int>, xs: seq<Reading>)
    requires DateOrdered(xs) && xs != []
    ensures Remembers(ApplyAll(Fresh(start, lastUpdate), xs), start, xs)
  {
    hide RunDates, RunLength, Apply, Rank;
    var init, x := xs[..|xs| - 1], xs[|xs| - 1];
    if init == [] {
      FirstRemembers(start, lastUpdate, xs);
    } else {
      CounterMatchesHistory(start, lastUpdate, init);
      RunGrows(xs);
      CountGrows(RunDates(init), x.date);
      ApplyRemembers(ApplyAll(Fresh(start, lastUpdate), init), Sized(start, init), init[|init| - 1], x,
                     |RunDates(init)|, |RunDates(xs)|);
    }
  }

  /** Never looser than the raw bucket; at once when it tightens; looser only after five dates. */
  lemma LadderIsSafe(start: DrawdownBucket, lastUpdate: Option<int>, xs: seq<Reading>)
    requires DateOrdered(xs) && xs != []
    ensures var before := Sized(start, xs[..|xs| - 1]);
            var raw := xs[|xs| - 1].bucket;
            var now := ApplyAll(Fresh(start, lastUpdate), xs).sizing;
            && Rank(now) >= Rank(raw)
            && (Rank(raw) >= Rank(before) ==> now == raw)
            && (Rank(raw) < Rank(before) ==>
                (now == raw <==> |RunDates(xs)| >= RECOVERY_DAYS_REQUIRED) && (now == before || now == raw))
  {
    CounterMatchesHistory(start, lastUpdate, xs);
    hide RunDates, ApplyAll;
  }

  /** The record the tracker keeps for one agent. */
  class AgentRecord {
    var sizingBucket: DrawdownBucket
    var recoveryTarget: Option<DrawdownBucket>
    var recoverySince: Option<int>
    var recoveryDays: nat
    var lastUpdateDate: Option<int>
    var peakEquity: real
    var currentEquity: real

    function View(): Record
      reads this
    {
      Record(sizingBucket, recoveryTarget, recoverySince, recoveryDays, lastUpdateDate)
    }

    constructor (start: DrawdownBucket, lastUpdate: Option<int>, equity: real)
      ensures View() == Fresh(start, lastUpdate) && peakEquity == currentEquity == equity
    {
      sizingBucket, recoveryTarget, recoverySince, recoveryDays, lastUpdateDate := start, None, None, 0, lastUpdate;
      peakEquity, currentEquity := equity, equity;
    }

    method ApplyBucketWithRecovery(raw: DrawdownBucket, today: int)
      modifies this`sizingBucket, this`recoveryTarget, this`recoverySince, this`recoveryDays, this`lastUpdateDate
      ensures View() == Apply(old(View()), Reading(today, raw))
    {
      if Rank(raw) >= Rank(sizingBucket) {
        sizingBucket := raw;
        recoveryTarget, recoverySince, recoveryDays := None, None, 0;
        lastUpdateDate := Some(today);
        return;
      }
      var isNewDay := Some(today) != lastUpdateDate;
      if recoveryTarget != Some(raw) {
        recoveryTarget, recoverySince, recoveryDays := Some(raw), Some(today), 1;
      } else if isNewDay {
        recoveryDays := recoveryDays + 1;
      }
      if recoveryDays >= RECOVERY_DAYS_REQUIRED {
        sizingBucket := raw;
        recoveryTarget, recoverySince, recoveryDays := None, None, 0;
      }
      lastUpdateDate := Some(today);
    }

    /** The equity part of update_on_mark: a new peak, a drawdown from it, a bucket. */
    method UpdateOnMark(equity: real, today: int)
      modifies this
      ensures currentEquity == equity && peakEquity == Max(old(peakEquity), equity)
      ensures var fall := if peakEquity > 0.0 then (peakEquity - equity) / peakEquity else 0.0;
              View() == Apply(old(View()), Reading(today, ClassifyDrawdown(fall)))
    {
      currentEquity := equity;
      if equity > peakEquity {
        peakEquity := equity;
      }
      var drawdown := 0.0;
      if peakEquity > 0.0 {
        drawdown := (peakEquity - equity) / peakEquity;
      }
      ApplyBucketWithRecovery(ClassifyDrawdown(drawdown), today);
    }
  }
}
