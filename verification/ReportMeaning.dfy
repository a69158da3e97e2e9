/** What the figures of a watch's report mean, in terms of the incidents' own times. */
module ReportMeaning {
  import opened Wrappers
  import opened WatchStats

  /** `seconds` is the span with its fraction dropped; a clock set back by less than a second reads as none. */
  predicate WholeSeconds(span: int, seconds: int) {
    if span >= 0 then seconds * NANOS <= span < (seconds + 1) * NANOS
    else -NANOS < span && seconds == 0
  }

  lemma SecondsAreWhole(start: int, end: int)
    ensures SecondsBetween(start, end).Some? <==> -NANOS < end - start
    ensures SecondsBetween(start, end).Some? ==> WholeSeconds(end - start, SecondsBetween(start, end).value)
  {}

  /** The three figures of a list of values. */
  predicate Spreads(s: Spread, values: seq<int>) {
    if values == [] then s == Spread(None, None, None) else
      && s.average.Some? && s.least.Some? && s.greatest.Some?
      && s.average.value * |values| <= Sum(values) < (s.average.value + 1) * |values|
      && s.least.value in values && s.greatest.value in values
      && forall k :: 0 <= k < |values| ==> s.least.value <= values[k] <= s.greatest.value
  }

  lemma SpreadIsRight(values: seq<int>)
    requires forall k :: 0 <= k < |values| ==> values[k] >= 0
    ensures Spreads(SpreadOf(values), values)
  {
    if values != [] {
      AverageWithin(values);
      SpreadIsOrdered(values);
    }
  }

  /** The recovered incidents whose clock was not set back by a second or more. */
  function Measured(incidents: seq<Incident>): seq<Incident> {
    if incidents == [] then [] else
      var last := incidents[|incidents| - 1];
      Measured(incidents[..|incidents| - 1])
      + if last.recoveredAt.Some? && -NANOS < last.recoveredAt.value - last.outageAt then [last] else []
  }

  ghost predicate TimesOf(values: seq<int>, measured: seq<Incident>) {
    |values| == |measured| && forall k :: 0 <= k < |values| ==>
      measured[k].recoveredAt.Some? && WholeSeconds(measured[k].recoveredAt.value - measured[k].outageAt, values[k])
  }

  lemma {:induction false} RecoveryTimesAreWhole(s: seq<Incident>)
    ensures TimesOf(RecoverySeconds(s), Measured(s))
  {
    hide SecondsBetween, WholeSeconds;
    if s != [] {
      var last := s[|s| - 1];
      RecoveryTimesAreWhole(s[..|s| - 1]);
      if last.recoveredAt.Some? { SecondsAreWhole(last.outageAt, last.recoveredAt.value); }
    }
  }

  /** The recovery figures are those of the whole seconds from outage to recovery of the measured incidents. */
  lemma RecoveryFigures(watch: string, t: Tally) returns (values: seq<int>)
    ensures TimesOf(values, Measured(Sorted(All(t.book)))) && Spreads(ReportOf(watch, t).recovery, values)
  {
    hide Sorted, TimesOf, Spreads, Measured, SpreadOf;
    var s := Sorted(All(t.book));
    values := RecoverySeconds(s);
    RecoveryTimesAreWhole(s);
    RecoverySecondsAreKept(s);
    SpreadIsRight(values);
  }

  ghost predicate GapsOf(values: seq<int>, s: seq<Incident>) {
    |values| == (if s == [] then 0 else |s| - 1) &&
    forall k :: 0 <= k < |values| ==> WholeSeconds(s[k + 1].outageAt - s[k].outageAt, values[k])
  }

  lemma {:induction false} GapsAreWhole(s: seq<Incident>)
    requires Ordered(s)
    ensures GapsOf(GapSeconds(s), s) && forall k :: 0 <= k < |GapSeconds(s)| ==> GapSeconds(s)[k] >= 0
  {
    hide SecondsBetween, WholeSeconds;
    if |s| > 1 {
      var front := s[..|s| - 1];
      GapsAreWhole(front);
      GapIsKept(s[|s| - 2].outageAt, s[|s| - 1].outageAt);
      var g := GapSeconds(s);
      forall k | 0 <= k < |g| ensures WholeSeconds(s[k + 1].outageAt - s[k].outageAt, g[k]) {
        if k < |g| - 1 { assert g[k] == GapSeconds(front)[k] && front[k + 1] == s[k + 1]; }
      }
    }
  }

  lemma GapIsKept(start: int, end: int)
    requires start <= end
    ensures SecondsBetween(start, end).Some? && SecondsBetween(start, end).value >= 0
    ensures WholeSeconds(end - start, SecondsBetween(start, end).value)
  {
    SecondsAreWhole(start, end);
  }

  /** The gap figures are those of the whole seconds between neighbouring outages in order of time. */
  lemma GapFigures(watch: string, t: Tally) returns (values: seq<int>)
    ensures GapsOf(values, Sorted(All(t.book))) && Spreads(ReportOf(watch, t).gaps, values)
  {
    hide Sorted, GapsOf, Spreads, SpreadOf;
    var s := Sorted(All(t.book));
    SortedIsStable(All(t.book));
    values := GapSeconds(s);
    GapsAreWhole(s);
    SpreadIsRight(values);
  }

  /** Position `k` holds the last recovered incident. */
  predicate RecoversLast(s: seq<Incident>, k: nat) {
    k < |s| && s[k].recoveredAt.Some? && forall j :: k < j < |s| ==> s[j].recoveredAt.None?
  }

  lemma {:induction false} LastRecoveryIsLast(s: seq<Incident>)
    ensures LastRecovery(s).None? <==> forall k :: 0 <= k < |s| ==> s[k].recoveredAt.None?
    ensures LastRecovery(s).Some? ==> exists k: nat :: RecoversLast(s, k) && s[k].recoveredAt == LastRecovery(s)
  {
    if s != [] {
      var front := s[..|s| - 1];
      LastRecoveryIsLast(front);
      if s[|s| - 1].recoveredAt.Some? {
        assert RecoversLast(s, |s| - 1);
      } else if LastRecovery(front).Some? {
        var k: nat :| RecoversLast(front, k) && front[k].recoveredAt == LastRecovery(front);
        assert RecoversLast(s, k);
      } else {
        assert forall k :: 0 <= k < |s| - 1 ==> s[k] == front[k];
      }
    }
  }

  /** The last outage is the latest of all, and the last recovery that of the latest recovered outage. */
  lemma LastFigures(watch: string, t: Tally)
    ensures var r, s, all := ReportOf(watch, t), Sorted(All(t.book)), All(t.book);
      && (r.lastOutage.None? <==> all == [])
      && (r.lastOutage.Some? ==> exists i :: i in all && i.outageAt == r.lastOutage.value)
      && (r.lastOutage.Some? ==> forall i :: i in all ==> i.outageAt <= r.lastOutage.value)
      && (r.lastRecovery.None? <==> Count(WasRecovered, all) == 0)
      && (r.lastRecovery.Some? ==> exists k: nat :: RecoversLast(s, k) && s[k].recoveredAt == r.lastRecovery)
  {
    hide Sorted, RecoversLast, SpreadOf, RecoverySeconds, GapSeconds;
    var s, all := Sorted(All(t.book)), All(t.book);
    SortedIsStable(all);
    SortedCounts(all, WasRecovered);
    LastRecoveryIsLast(s);
    NoneCounted(s);
    forall i ensures i in all <==> i in s { assert i in all <==> i in multiset(all); assert i in s <==> i in multiset(s); }
    if s != [] { assert s[|s| - 1] in s; }
    forall i | i in s ensures i.outageAt <= s[|s| - 1].outageAt {
      var k :| 0 <= k < |s| && s[k] == i;
    }
  }

  lemma {:induction false} NoneCounted(s: seq<Incident>)
    ensures Count(WasRecovered, s) == 0 <==> forall k :: 0 <= k < |s| ==> s[k].recoveredAt.None?
  {
    if s != [] {
      var front := s[..|s| - 1];
      NoneCounted(front);
      assert forall k :: 0 <= k < |s| - 1 ==> s[k] == front[k];
    }
  }
}
