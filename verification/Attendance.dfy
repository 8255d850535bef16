/** The attendance calculator (client/common/checkintime.js). Times are milliseconds. */
module Attendance {

  datatype Kind = Checkin | Checkout

  datatype Check = Check(kind: Kind, time: int)

  datatype Interval = Interval(checkin: int, checkout: int)

  ghost predicate Sorted(s: seq<Check>) {
    forall i, j :: 0 <= i < j < |s| ==> s[i].time <= s[j].time
  }

  // ---------- the plain measure ----------

  /** Checked in according to the first n events. */
  function StateAfter(s: seq<Check>, n: nat): bool
    requires n <= |s|
  {
    n > 0 && s[n - 1].kind == Checkin
  }

  /** The number of events up to and including instant t. */
  function UpTo(s: seq<Check>, t: int): (n: nat)
    ensures n <= |s|
    decreases |s|
  {
    if s == [] then 0 else if s[|s| - 1].time <= t then |s| else UpTo(s[..|s| - 1], t)
  }

  /** The latest event at or before instant t is a checkin. */
  function Inside(s: seq<Check>, t: int): bool {
    StateAfter(s, UpTo(s, t))
  }

  /** The number of instants in [lo, hi) at which the student is inside. */
  function Measure(s: seq<Check>, lo: int, hi: int): nat
    decreases hi - lo
  {
    if hi <= lo then 0 else Measure(s, lo, hi - 1) + if Inside(s, hi - 1) then 1 else 0
  }

  lemma {:induction false} UpToSplits(s: seq<Check>, t: int)
    requires Sorted(s)
    ensures forall i :: 0 <= i < UpTo(s, t) ==> s[i].time <= t
    ensures forall i :: UpTo(s, t) <= i < |s| ==> s[i].time > t
  {
    if s != [] && s[|s| - 1].time > t {
      var front := s[..|s| - 1];
      UpToSplits(front, t);
      forall i | UpTo(s, t) <= i < |s| ensures s[i].time > t {
        if i < |s| - 1 {
          assert front[i].time > t;
        }
      }
      forall i | 0 <= i < UpTo(s, t) ensures s[i].time <= t {
        assert front[i].time <= t;
      }
    }
  }

  lemma UpToIs(s: seq<Check>, t: int, n: nat)
    requires Sorted(s) && n <= |s|
    requires n > 0 ==> s[n - 1].time <= t
    requires n < |s| ==> s[n].time > t
    ensures UpTo(s, t) == n
  {
    UpToSplits(s, t);
  }

  /** Inside means: some checkin is not later than t, and everything after it in the list is later than t. */
  lemma InsideMeans(s: seq<Check>, t: int)
    requires Sorted(s)
    ensures Inside(s, t) <==> exists i :: 0 <= i < |s| && IsLastAt(s, i, t) && s[i].kind == Checkin
  {
    UpToSplits(s, t);
    var n := UpTo(s, t);
    if n > 0 {
      assert IsLastAt(s, n - 1, t);
      forall i | 0 <= i < |s| && IsLastAt(s, i, t) ensures i == n - 1 {
        UpToIs(s, t, i + 1);
      }
    }
  }

  /** The i-th event is the last one at or before t. */
  ghost predicate IsLastAt(s: seq<Check>, i: nat, t: int)
    requires i < |s|
  {
    s[i].time <= t && (i + 1 < |s| ==> s[i + 1].time > t)
  }

  /** The measure of a window counts its instants at which the student is inside. */
  lemma {:induction false} MeasureCounts(s: seq<Check>, lo: int, hi: int)
    ensures Measure(s, lo, hi) == |set t | lo <= t < hi && Inside(s, t)|
    decreases hi - lo
  {
    var now := set t | lo <= t < hi && Inside(s, t);
    if hi <= lo {
      assert now == {};
    } else {
      MeasureCounts(s, lo, hi - 1);
      var before := set t | lo <= t < hi - 1 && Inside(s, t);
      assert now == before + if Inside(s, hi - 1) then {hi - 1} else {};
      assert hi - 1 !in before;
    }
  }

  /** Between two events nothing changes. */
  lemma {:induction false} MeasureBetween(s: seq<Check>, n: nat, lo: int, hi: int)
    requires Sorted(s) && n <= |s| && lo <= hi
    requires n > 0 ==> s[n - 1].time <= lo
    requires n < |s| ==> s[n].time >= hi
    ensures Measure(s, lo, hi) == if StateAfter(s, n) then hi - lo else 0
    decreases hi - lo
  {
    if lo < hi {
      MeasureBetween(s, n, lo, hi - 1);
      UpToIs(s, hi - 1, n);
    }
  }

  /** Attendance is additive, whatever happens at the instant in between. */
  lemma {:induction false} MeasureAdds(s: seq<Check>, a: int, b: int, c: int)
    requires a <= b <= c
    ensures Measure(s, a, c) == Measure(s, a, b) + Measure(s, b, c)
    decreases c - b
  {
    if b < c {
      MeasureAdds(s, a, b, c - 1);
    }
  }

  // ---------- the order of the events ----------

  /** Sorting: the result is sorted and has the same events; nothing is promised about the order of
      events with equal times (section 15.4.4.11 of ECMA-262 edition 5.1). */
  method Sort(a: array<Check>)
    modifies a
    ensures Sorted(a[..]) && multiset(a[..]) == multiset(old(a[..]))
  {
    var n := 0;
    while n < a.Length
      invariant n <= a.Length
      invariant Sorted(a[..n]) && multiset(a[..]) == multiset(old(a[..]))
    {
      Insert(a, n);
      n := n + 1;
    }
    assert a[..a.Length] == a[..];
  }

  method Swap(a: array<Check>, j: nat)
    requires 0 < j < a.Length
    modifies a
    ensures a[j - 1] == old(a[j]) && a[j] == old(a[j - 1])
    ensures forall i :: 0 <= i < a.Length && i != j && i != j - 1 ==> a[i] == old(a[i])
    ensures multiset(a[..]) == multiset(old(a[..]))
  {
    a[j - 1], a[j] := a[j], a[j - 1];
  }

  /** Moves the event at position n down into the sorted part before it. */
  method Insert(a: array<Check>, n: nat)
    requires n < a.Length && Sorted(a[..n])
    modifies a
    ensures Sorted(a[..n + 1]) && multiset(a[..]) == multiset(old(a[..]))
  {
    var j := n;
    while j > 0 && a[j - 1].time > a[j].time
      invariant j <= n
      invariant forall i, k :: 0 <= i < k <= n && k != j ==> a[i].time <= a[k].time
      invariant multiset(a[..]) == multiset(old(a[..]))
    {
      Swap(a, j);
      j := j - 1;
    }
  }

  /** Events at the same time have the same kind. */
  ghost predicate TiesAgree(s: seq<Check>) {
    forall c, d :: c in s && d in s && c.time == d.time ==> c.kind == d.kind
  }

  /** If tied events agree there is only one sorted order of the same events. */
  lemma {:induction false} SortedIsUnique(s: seq<Check>, t: seq<Check>)
    requires Sorted(s) && Sorted(t) && multiset(s) == multiset(t) && TiesAgree(s)
    ensures s == t
  {
    SameLength(s, t);
    if s != [] {
      SameLast(s, t);
      var s', t' := s[..|s| - 1], t[..|t| - 1];
      FrontMultiset(s);
      FrontMultiset(t);
      SortedIsUnique(s', t');
      assert s == s' + [s[|s| - 1]] && t == t' + [t[|t| - 1]];
    }
  }

  lemma SameLength(s: seq<Check>, t: seq<Check>)
    requires multiset(s) == multiset(t)
    ensures |s| == |t|
  {
    assert |s| == |multiset(s)| && |t| == |multiset(t)|;
  }

  lemma FrontMultiset(s: seq<Check>)
    requires s != []
    ensures multiset(s[..|s| - 1]) == multiset(s) - multiset{s[|s| - 1]}
  {
    assert s == s[..|s| - 1] + [s[|s| - 1]];
  }

  lemma SameLast(s: seq<Check>, t: seq<Check>)
    requires s != [] && |s| == |t| && Sorted(s) && Sorted(t) && multiset(s) == multiset(t) && TiesAgree(s)
    ensures s[|s| - 1] == t[|t| - 1]
  {
    var a, b := s[|s| - 1], t[|t| - 1];
    assert a in multiset(t) && b in multiset(s);
    var i :| 0 <= i < |t| && t[i] == a;
    var j :| 0 <= j < |s| && s[j] == b;
    assert t[i].time <= b.time && s[j].time <= a.time;
  }

  // ---------- the calculation ----------

  /** Closed intervals inside the window, in order and disjoint up to their end points. */
  ghost predicate Tidy(intervals: seq<Interval>, lo: int, hi: int) {
    && (forall i :: 0 <= i < |intervals| ==> lo <= intervals[i].checkin <= intervals[i].checkout <= hi)
    && (forall i, j :: 0 <= i < j < |intervals| ==> intervals[i].checkout <= intervals[j].checkin)
  }

  function Total(intervals: seq<Interval>): int {
    if intervals == [] then 0
    else
      var last := intervals[|intervals| - 1];
      Total(intervals[..|intervals| - 1]) + last.checkout - last.checkin
  }

  /** The index of the last event before the window, -1 if there is none. */
  method LastBefore(checks: seq<Check>, begin: int) returns (last: int)
    requires Sorted(checks)
    ensures -1 <= last < |checks|
    ensures forall i :: 0 <= i < |checks| ==> (checks[i].time < begin <==> i <= last)
  {
    var i := |checks| - 1;
    while i >= 0
      invariant -1 <= i < |checks|
      invariant forall k :: i < k < |checks| ==> checks[k].time >= begin
    {
      if checks[i].time < begin {
        return i;
      }
      i := i - 1;
    }
    last := -1;
  }

  ghost predicate Before(intervals: seq<Interval>, t: int) {
    forall i :: 0 <= i < |intervals| ==> intervals[i].checkout <= t
  }

  /** What the loop has achieved after n events and up to the instant seen: the closed intervals
      and, while the student is inside, the interval opened last measure the time up to there. */
  ghost predicate Scanned(checks: seq<Check>, begin: int, seen: int, n: nat,
                          intervals: seq<Interval>, present: bool, open: int) {
    && n <= |checks| && present == StateAfter(checks, n)
    && (n > 0 ==> checks[n - 1].time <= seen)
    && Tidy(intervals, begin, seen)
    && (present ==> begin <= open <= seen && Before(intervals, open))
    && Total(intervals) + (if present then seen - open else 0) == Measure(checks, begin, seen)
  }

  /** Time passes up to the next event or the end of the window. */
  lemma ScanOn(checks: seq<Check>, begin: int, seen: int, n: nat,
               intervals: seq<Interval>, present: bool, open: int, t: int)
    requires Sorted(checks) && Scanned(checks, begin, seen, n, intervals, present, open)
    requires begin <= seen <= t && (n < |checks| ==> checks[n].time >= t)
    ensures Scanned(checks, begin, t, n, intervals, present, open)
  {
    MeasureBetween(checks, n, seen, t);
    MeasureAdds(checks, begin, seen, t);
  }

  lemma TidyAppend(intervals: seq<Interval>, begin: int, seen: int, open: int)
    requires Tidy(intervals, begin, seen) && begin <= open <= seen
    requires Before(intervals, open)
    ensures Tidy(intervals + [Interval(open, seen)], begin, seen)
    ensures Total(intervals + [Interval(open, seen)]) == Total(intervals) + seen - open
  {
    assert (intervals + [Interval(open, seen)])[..|intervals|] == intervals;
  }

  /** The next event opens or closes an interval, or changes nothing. */
  lemma ScanEvent(checks: seq<Check>, begin: int, seen: int, n: nat,
                  intervals: seq<Interval>, present: bool, open: int)
    requires Sorted(checks) && Scanned(checks, begin, seen, n, intervals, present, open)
    requires begin <= seen && n < |checks| && checks[n].time >= seen
    ensures var kind, t := checks[n].kind, checks[n].time;
      Scanned(checks, begin, t, n + 1,
              Closed(intervals, present && kind == Checkout, open, t),
              kind == Checkin, if kind == Checkin && !present then t else open)
  {
    var t := checks[n].time;
    ScanOn(checks, begin, seen, n, intervals, present, open, t);
    if checks[n].kind == Checkout && present {
      TidyAppend(intervals, begin, t, open);
    }
  }

  /** The last event that is before the window decides how the window begins. */
  lemma ScanStart(checks: seq<Check>, begin: int, last: int)
    requires Sorted(checks) && -1 <= last < |checks|
    requires forall i :: 0 <= i < |checks| ==> (checks[i].time < begin <==> i <= last)
    ensures Scanned(checks, begin, begin, last + 1, [], last >= 0 && checks[last].kind == Checkin, begin)
  {
  }

  /** The intervals when an open one is closed at t. */
  function Closed(intervals: seq<Interval>, present: bool, open: int, t: int): seq<Interval> {
    if present then intervals + [Interval(open, t)] else intervals
  }

  lemma ClosedMeasures(checks: seq<Check>, begin: int, t: int, n: nat,
                       intervals: seq<Interval>, present: bool, open: int)
    requires Scanned(checks, begin, t, n, intervals, present, open)
    ensures Tidy(Closed(intervals, present, open, t), begin, t)
    ensures Total(Closed(intervals, present, open, t)) == Measure(checks, begin, t)
  {
    if present {
      TidyAppend(intervals, begin, t, open);
    }
  }

  lemma StateAt(checks: seq<Check>, t: int, n: nat)
    requires Sorted(checks) && n <= |checks|
    requires n > 0 ==> checks[n - 1].time <= t
    requires n < |checks| ==> checks[n].time > t
    ensures Inside(checks, t) == StateAfter(checks, n)
  {
    UpToIs(checks, t, n);
  }

  /** The window ends: an open interval is closed there. */
  lemma ScanEnd(checks: seq<Check>, begin: int, end: int, seen: int, n: nat,
                intervals: seq<Interval>, present: bool, open: int)
    requires Sorted(checks) && Scanned(checks, begin, seen, n, intervals, present, open)
    requires begin <= seen <= end && (n < |checks| ==> checks[n].time > end)
    ensures Tidy(Closed(intervals, present, open, end), begin, end)
    ensures Total(Closed(intervals, present, open, end)) == Measure(checks, begin, end)
    ensures present == Inside(checks, end)
  {
    ScanOn(checks, begin, seen, n, intervals, present, open, end);
    ClosedMeasures(checks, begin, end, n, intervals, present, open);
    StateAt(checks, end, n);
  }

  /** The body of the event loop. */
  method OnEvent(c: Check, intervals: seq<Interval>, present: bool, open: int)
    returns (intervals': seq<Interval>, present': bool, open': int)
    ensures intervals' == Closed(intervals, present && c.kind == Checkout, open, c.time)
    ensures present' == (c.kind == Checkin)
    ensures open' == if c.kind == Checkin && !present then c.time else open
  {
    intervals', present', open' := intervals, present, open;
    if c.kind == Checkin && !present' {
      open' := c.time;
      present' := true;
    }
    if c.kind == Checkout && present' {
      intervals' := intervals' + [Interval(open', c.time)];
      present' := false;
    }
  }

  /** The intervals inside the window, and whether the student is inside at its end. The interval
      that has no checkout yet is kept in open instead of an unfinished array element. */
  method Intervals(checks: seq<Check>, begin: int, end: int) returns (intervals: seq<Interval>, present: bool)
    requires Sorted(checks)
    ensures begin <= end ==>
              && Tidy(intervals, begin, end)
              && Total(intervals) == Measure(checks, begin, end)
              && present == Inside(checks, end)
    ensures begin > end ==>
              && present == Inside(checks, begin - 1)
              && intervals == if present then [Interval(begin, end)] else []
  {
    var last := LastBefore(checks, begin);
    intervals, present := [], last >= 0 && checks[last].kind == Checkin;
    var open := begin;
    var i := last + 1;
    ghost var seen := begin;
    ScanStart(checks, begin, last);
    UpToIs(checks, begin - 1, last + 1);
    while i < |checks| && checks[i].time <= end
      invariant last + 1 <= i <= |checks|
      invariant Scanned(checks, begin, seen, i, intervals, present, open)
      invariant begin <= seen && (i < |checks| ==> checks[i].time >= seen) && (begin <= end ==> seen <= end)
      invariant begin > end ==> i == last + 1 && seen == open == begin && intervals == []
    {
      ScanEvent(checks, begin, seen, i, intervals, present, open);
      seen := checks[i].time;
      intervals, present, open := OnEvent(checks[i], intervals, present, open);
      i := i + 1;
    }
    if begin <= end {
      ScanEnd(checks, begin, end, seen, i, intervals, present, open);
    }
    if present {
      intervals := intervals + [Interval(open, end)];
    }
  }

  /** Math.round of a number of milliseconds, in seconds: halves are rounded up. */
  function Seconds(ms: int): int {
    (ms as real / 1000.0 + 0.5).Floor
  }

  /** time is this number of milliseconds in whole seconds, to the nearest one. */
  predicate RoundsTo(time: int, ms: int) {
    1000 * time - 500 <= ms < 1000 * time + 500
  }

  lemma SecondsRound(ms: int)
    ensures RoundsTo(Seconds(ms), ms)
  {
    var x := ms as real / 1000.0 + 0.5;
    assert x * 1000.0 == ms as real + 500.0;
    assert x.Floor as real * 1000.0 <= x * 1000.0 < (x.Floor as real + 1.0) * 1000.0;
  }

  /** What comes out for the events in this sorted order. A window that ends before it begins counts
      negative time for a student who is inside when it begins. */
  ghost predicate IsAnswer(order: seq<Check>, begin: int, end: int, time: int, present: bool) {
    if begin <= end then RoundsTo(time, Measure(order, begin, end)) && present == Inside(order, end)
    else present == Inside(order, begin - 1) && if present then RoundsTo(time, end - begin) else time == 0
  }

  ghost predicate IsSorting(order: seq<Check>, events: seq<Check>) {
    Sorted(order) && multiset(order) == multiset(events)
  }

  /** calc_checkin_time, on a deep copy of the student's events. */
  method CalcCheckinTime(appear: seq<Check>, begin: int, end: int) returns (time: int, present: bool)
    ensures exists order :: IsSorting(order, appear) && IsAnswer(order, begin, end, time, present)
  {
    var checks := new Check[|appear|](i requires 0 <= i < |appear| => appear[i]);
    assert checks[..] == appear;
    Sort(checks);
    ghost var order := checks[..];
    assert IsSorting(order, appear);
    var intervals;
    intervals, present := Intervals(checks[..], begin, end);
    var inside := 0;
    for i := 0 to |intervals|
      invariant inside == Total(intervals[..i])
    {
      assert intervals[..i + 1][..i] == intervals[..i];
      inside := inside + intervals[i].checkout - intervals[i].checkin;
    }
    assert intervals[..|intervals|] == intervals;
    time := Seconds(inside);
    SecondsRound(inside);
    assert IsAnswer(order, begin, end, time, present);
  }

  /** All sortings of the events give the time and the presence that s gives, in every window. */
  ghost predicate OrderIsIrrelevant(events: seq<Check>, s: seq<Check>) {
    forall t, begin, end :: IsSorting(t, events) ==> SameAnswers(s, t, begin, end)
  }

  ghost predicate SameAnswers(s: seq<Check>, t: seq<Check>, begin: int, end: int) {
    Measure(s, begin, end) == Measure(t, begin, end) && Inside(s, end) == Inside(t, end)
  }

  lemma InSorting(s: seq<Check>, events: seq<Check>, c: Check)
    requires multiset(s) == multiset(events)
    ensures c in s <==> c in events
  {
    assert c in s <==> c in multiset(s);
    assert c in events <==> c in multiset(events);
  }

  /** The unrounded time and the presence do not depend on how the sort leaves the events, in any window, if
      and only if events at the same time have the same kind. */
  lemma MeasureOfSameEventsIff(events: seq<Check>, s: seq<Check>)
    requires IsSorting(s, events)
    ensures OrderIsIrrelevant(events, s) <==> TiesAgree(events)
  {
    forall c ensures c in s <==> c in events {
      InSorting(s, events, c);
    }
    if TiesAgree(events) {
      forall t, begin, end | IsSorting(t, events) ensures SameAnswers(s, t, begin, end) {
        SortedIsUnique(s, t);
      }
    } else {
      var c, d :| c in s && d in s && c.time == d.time && c.kind != d.kind;
      var t := OtherSorting(s, c, d);
      assert IsSorting(t, events);
      assert !SameAnswers(s, t, c.time, c.time);
    }
  }

  /** Of two tied events of different kinds, either can be made the last one at its time. */
  lemma OtherSorting(s: seq<Check>, c: Check, d: Check) returns (t: seq<Check>)
    requires Sorted(s) && c in s && d in s && c.time == d.time && c.kind != d.kind
    ensures Sorted(t) && multiset(t) == multiset(s) && Inside(t, c.time) != Inside(s, c.time)
  {
    var k, n := TiedWithLast(s, c, d);
    t := Exchange(s, k, n - 1);
    Exchanged(s, k, n - 1);
    LastExchanged(s, k, n);
  }

  lemma TiedWithLast(s: seq<Check>, c: Check, d: Check) returns (k: nat, n: nat)
    requires Sorted(s) && c in s && d in s && c.time == d.time && c.kind != d.kind
    ensures k < n - 1 < |s| && s[k].time == s[n - 1].time == c.time && s[k].kind != s[n - 1].kind
    ensures n < |s| ==> s[n].time > s[n - 1].time
  {
    n := UpTo(s, c.time);
    UpToSplits(s, c.time);
    var i :| 0 <= i < |s| && s[i] == c;
    var j :| 0 <= j < |s| && s[j] == d;
    assert i < n && j < n;
    k := if s[n - 1].kind == c.kind then j else i;
  }

  function Exchange(s: seq<Check>, i: nat, j: nat): seq<Check>
    requires i < |s| && j < |s|
  {
    s[i := s[j]][j := s[i]]
  }

  lemma LastExchanged(s: seq<Check>, k: nat, n: nat)
    requires Sorted(s) && k < n - 1 < |s| && s[k].time == s[n - 1].time && s[k].kind != s[n - 1].kind
    requires n < |s| ==> s[n].time > s[n - 1].time
    ensures var t, at := Exchange(s, k, n - 1), s[n - 1].time; Sorted(t) && Inside(t, at) != Inside(s, at)
  {
    var t := Exchange(s, k, n - 1);
    assert forall i :: 0 <= i < |s| ==> t[i].time == s[i].time;
    UpToIs(s, s[n - 1].time, n);
    UpToIs(t, s[n - 1].time, n);
  }

  lemma Exchanged(s: seq<Check>, i: nat, j: nat)
    requires i < |s| && j < |s| && i != j
    ensures multiset(Exchange(s, i, j)) == multiset(s)
  {
    var t := s[i := s[j]];
    assert multiset(t) == multiset(s) - multiset{s[i]} + multiset{s[j]};
    assert multiset(t[j := s[i]]) == multiset(t) - multiset{t[j]} + multiset{s[i]};
  }

  /** Such a difference: a checkin and a checkout at the same instant. */
  lemma TiesMatter()
    ensures var s, t := [Check(Checkin, 0), Check(Checkout, 0)], [Check(Checkout, 0), Check(Checkin, 0)];
      && IsSorting(s, t) && IsSorting(t, t)
      && Measure(s, 0, 1) == 0 && Measure(t, 0, 1) == 1
  {
    var s, t := [Check(Checkin, 0), Check(Checkout, 0)], [Check(Checkout, 0), Check(Checkin, 0)];
    UpToIs(s, 0, 2);
    UpToIs(t, 0, 2);
    assert multiset(s) == multiset{Check(Checkin, 0), Check(Checkout, 0)} == multiset(t);
    assert Measure(s, 0, 0) == 0 && Measure(t, 0, 0) == 0;
  }
}
