/** The builder that reconstructs the outages of one watch from its log records, and its report. */
module WatchStats {
  import opened Wrappers
  import opened LogText

  datatype Incident = Incident(
    outageAt: int,
    startedAt: Option<int>,
    doneAt: Option<int>,
    exitCode: Option<string>,
    timedOut: Option<bool>,
    recoveredAt: Option<int>)

  /** The incidents closed so far, and the one still open. */
  datatype Book = Book(incidents: seq<Incident>, open: Option<Incident>)

  datatype Tally = Tally(book: Book, lastState: Option<string>)

  const FRESH := Tally(Book([], None), None)

  /** What a record means to the builder. */
  datatype Kind = Outage | Start | Done(exitCode: Option<string>, timedOut: Option<bool>) | Heal | Other

  function Field(e: LogEvent, key: string): Option<string> {
    if key in e.fields then Some(e.fields[key]) else None
  }

  function ParseFlag(s: string): Option<bool> {
    if s == "true" then Some(true) else if s == "false" then Some(false) else None
  }

  function KindOf(e: LogEvent): Kind {
    if e.event == "check.confirm_result" then if Field(e, "state") == Some("unhealthy") then Outage else Other
    else if e.event == "recovery.start" then Start
    else if e.event == "recovery.done" then
      Done(Field(e, "exit_code"),
           var flag := Field(e, "timed_out"); if flag.Some? then ParseFlag(flag.value) else None)
    else if e.event == "recovery.post_check" then if Field(e, "state") == Some("healthy") then Heal else Other
    else if e.event == "recovery.outcome" then if Field(e, "outcome") == Some("recovered") then Heal else Other
    else Other
  }

  predicate TellsState(event: string) {
    || event == "check.result" || event == "check.confirm_result" || event == "recovery.post_check"
    || event == "recovery.stabilization_check" || event == "recovery.outcome"
  }

  function All(b: Book): seq<Incident> {
    b.incidents + if b.open.Some? then [b.open.value] else []
  }

  function Took(b: Book, at: int, kind: Kind): Book {
    match kind
    case Outage => Book(All(b), Some(Incident(at, None, None, None, None, None)))
    case Start => if b.open.None? then b else b.(open := Some(b.open.value.(startedAt := Some(at))))
    case Done(code, timedOut) =>
      if b.open.None? then b
      else b.(open := Some(b.open.value.(doneAt := Some(at), exitCode := code, timedOut := timedOut)))
    case Heal =>
      if b.open.None? then b else Book(b.incidents + [b.open.value.(recoveredAt := Some(at))], None)
    case Other => b
  }

  function Applied(t: Tally, e: LogEvent): Tally {
    Tally(Took(t.book, e.timestamp, KindOf(e)),
          if TellsState(e.event) && Field(e, "state").Some? then Field(e, "state") else t.lastState)
  }

  /** The tally of a whole log of one watch. */
  function TallyOf(log: seq<LogEvent>): Tally {
    if log == [] then FRESH else Applied(TallyOf(log[..|log| - 1]), log[|log| - 1])
  }

  // ---- the report ----

  function Count<T>(test: T -> bool, items: seq<T>): (n: nat)
    ensures n <= |items|
  {
    if items == [] then 0
    else Count(test, items[..|items| - 1]) + if test(items[|items| - 1]) then 1 else 0
  }

  function WasRecovered(i: Incident): bool { i.recoveredAt.Some? }
  function WasAttempted(i: Incident): bool { i.startedAt.Some? }
  function CommandFailed(i: Incident): bool {
    i.timedOut == Some(true) || (i.exitCode.Some? && i.exitCode.value != "0")
  }

  /** Integer division that drops the fraction, whatever the sign. */
  function Quotient(a: int, b: int): int
    requires b > 0
  {
    if a >= 0 then a / b else -(-a / b)
  }

  const NANOS := 1_000_000_000

  function SecondsBetween(start: int, end: int): Option<int> {
    var seconds := Quotient(end - start, NANOS);
    if seconds >= 0 then Some(seconds) else None
  }

  function Sum(values: seq<int>): int {
    if values == [] then 0 else Sum(values[..|values| - 1]) + values[|values| - 1]
  }

  function AverageSeconds(values: seq<int>): Option<int> {
    if values == [] then None else Some(Quotient(Sum(values), |values|))
  }

  function Least(values: seq<int>): Option<int> {
    if values == [] then None else
      var rest, last := Least(values[..|values| - 1]), values[|values| - 1];
      if rest.Some? && rest.value <= last then rest else Some(last)
  }

  function Greatest(values: seq<int>): Option<int> {
    if values == [] then None else
      var rest, last := Greatest(values[..|values| - 1]), values[|values| - 1];
      if rest.Some? && rest.value > last then rest else Some(last)
  }

  function Kept(value: Option<int>): seq<int> { if value.Some? then [value.value] else [] }

  function RecoverySeconds(incidents: seq<Incident>): seq<int> {
    if incidents == [] then [] else
      var last := incidents[|incidents| - 1];
      RecoverySeconds(incidents[..|incidents| - 1])
      + if last.recoveredAt.Some? then Kept(SecondsBetween(last.outageAt, last.recoveredAt.value)) else []
  }

  function GapSeconds(incidents: seq<Incident>): seq<int> {
    if |incidents| < 2 then [] else
      GapSeconds(incidents[..|incidents| - 1])
      + Kept(SecondsBetween(incidents[|incidents| - 2].outageAt, incidents[|incidents| - 1].outageAt))
  }

  function LastRecovery(incidents: seq<Incident>): Option<int> {
    if incidents == [] then None
    else if incidents[|incidents| - 1].recoveredAt.Some? then incidents[|incidents| - 1].recoveredAt
    else LastRecovery(incidents[..|incidents| - 1])
  }

  /** The stable sort by outage time. */
  function Insert(incidents: seq<Incident>, i: Incident): seq<Incident> {
    if incidents == [] || incidents[|incidents| - 1].outageAt <= i.outageAt then incidents + [i]
    else Insert(incidents[..|incidents| - 1], i) + [incidents[|incidents| - 1]]
  }

  function Sorted(incidents: seq<Incident>): seq<Incident> {
    if incidents == [] then [] else Insert(Sorted(incidents[..|incidents| - 1]), incidents[|incidents| - 1])
  }

  datatype Spread = Spread(average: Option<int>, least: Option<int>, greatest: Option<int>)

  function SpreadOf(values: seq<int>): Spread {
    Spread(AverageSeconds(values), Least(values), Greatest(values))
  }

  datatype Totals = Totals(confirmed: int, recovered: int, unrecovered: int, attempts: int, failures: int)

  datatype WatchReport = WatchReport(
    watch: string,
    totals: Totals,
    recovery: Spread,
    gaps: Spread,
    lastOutage: Option<int>,
    lastRecovery: Option<int>,
    lastState: Option<string>)

  function ReportOf(watch: string, t: Tally): WatchReport {
    var incidents := Sorted(All(t.book));
    var confirmed, recovered := |incidents|, Count(WasRecovered, incidents);
    WatchReport(
      watch,
      Totals(confirmed, recovered, if recovered <= confirmed then confirmed - recovered else 0,
             Count(WasAttempted, incidents), Count(CommandFailed, incidents)),
      SpreadOf(RecoverySeconds(incidents)),
      SpreadOf(GapSeconds(incidents)),
      if incidents == [] then None else Some(incidents[|incidents| - 1].outageAt),
      LastRecovery(incidents),
      t.lastState)
  }

  class WatchStatsBuilder {
    var incidents: seq<Incident>
    var openIncident: Option<Incident>
    var lastKnownState: Option<string>

    function Now(): Tally
      reads this
    {
      Tally(Book(incidents, openIncident), lastKnownState)
    }

    constructor ()
      ensures Now() == FRESH
    {
      incidents, openIncident, lastKnownState := [], None, None;
    }

    method CloseOpen()
      modifies `incidents, `openIncident
      ensures incidents == old(All(Now().book)) && openIncident.None?
    {
      if openIncident.Some? { incidents := incidents + [openIncident.value]; }
      openIncident := None;
    }

    method Recover(at: int)
      modifies `incidents, `openIncident
      ensures Now().book == Took(old(Now().book), at, Heal)
    {
      if openIncident.Some? {
        incidents := incidents + [openIncident.value.(recoveredAt := Some(at))];
        openIncident := None;
      }
    }

    method Apply(e: LogEvent)
      modifies this
      ensures Now() == Applied(old(Now()), e)
    {
      var state := Field(e, "state");
      if state.Some? && TellsState(e.event) { lastKnownState := state; }
      if e.event == "check.confirm_result" {
        if state == Some("unhealthy") {
          CloseOpen();
          openIncident := Some(Incident(e.timestamp, None, None, None, None, None));
        }
      } else if e.event == "recovery.start" {
        if openIncident.Some? {
          openIncident := Some(openIncident.value.(startedAt := Some(e.timestamp)));
        }
      } else if e.event == "recovery.done" {
        if openIncident.Some? {
          var flag := Field(e, "timed_out");
          openIncident := Some(openIncident.value.(
            doneAt := Some(e.timestamp),
            exitCode := Field(e, "exit_code"),
            timedOut := if flag.Some? then ParseFlag(flag.value) else None));
        }
      } else if e.event == "recovery.post_check" {
        if state == Some("healthy") { Recover(e.timestamp); }
      } else if e.event == "recovery.outcome" {
        if Field(e, "outcome") == Some("recovered") { Recover(e.timestamp); }
      }
    }

    method Finish(watch: string) returns (report: WatchReport)
      modifies this
      ensures report == ReportOf(watch, old(Now()))
      ensures Now() == Tally(Book(Sorted(old(All(Now().book))), None), old(lastKnownState))
    {
      CloseOpen();
      incidents := Sorted(incidents);
      var confirmed, recovered := |incidents|, Count(WasRecovered, incidents);
      report := WatchReport(
        watch,
        Totals(confirmed, recovered, if recovered <= confirmed then confirmed - recovered else 0,
               Count(WasAttempted, incidents), Count(CommandFailed, incidents)),
        SpreadOf(RecoverySeconds(incidents)),
        SpreadOf(GapSeconds(incidents)),
        if incidents == [] then None else Some(incidents[|incidents| - 1].outageAt),
        LastRecovery(incidents),
        lastKnownState);
    }
  }

  // ---- what the report says about the incidents ----

  lemma CountAppend<T>(test: T -> bool, items: seq<T>, item: T)
    ensures Count(test, items + [item]) == Count(test, items) + if test(item) then 1 else 0
  {
    assert (items + [item])[..|items|] == items;
  }

  predicate Ordered(incidents: seq<Incident>) {
    forall j, k :: 0 <= j < k < |incidents| ==> incidents[j].outageAt <= incidents[k].outageAt
  }

  function At(at: int, incidents: seq<Incident>): seq<Incident> {
    if incidents == [] then [] else
      At(at, incidents[..|incidents| - 1])
      + if incidents[|incidents| - 1].outageAt == at then [incidents[|incidents| - 1]] else []
  }

  predicate Below(s: seq<Incident>, at: int) { forall k :: 0 <= k < |s| ==> s[k].outageAt <= at }

  lemma {:induction false} InsertBelow(s: seq<Incident>, i: Incident, at: int)
    requires Below(s, at) && i.outageAt <= at
    ensures Below(Insert(s, i), at)
  {
    if s != [] && s[|s| - 1].outageAt > i.outageAt { InsertBelow(s[..|s| - 1], i, at); }
  }

  lemma {:induction false} InsertOrders(s: seq<Incident>, i: Incident)
    requires Ordered(s)
    ensures Ordered(Insert(s, i))
  {
    if s != [] && s[|s| - 1].outageAt > i.outageAt {
      InsertOrders(s[..|s| - 1], i);
      InsertBelow(s[..|s| - 1], i, s[|s| - 1].outageAt);
    }
  }

  lemma {:induction false} InsertPermutes(s: seq<Incident>, i: Incident)
    ensures |Insert(s, i)| == |s| + 1 && multiset(Insert(s, i)) == multiset(s) + multiset{i}
  {
    if s != [] && s[|s| - 1].outageAt > i.outageAt {
      InsertPermutes(s[..|s| - 1], i);
      assert s == s[..|s| - 1] + [s[|s| - 1]];
    }
  }

  lemma {:induction false} InsertCounts(s: seq<Incident>, i: Incident, test: Incident -> bool)
    ensures Count(test, Insert(s, i)) == Count(test, s) + if test(i) then 1 else 0
  {
    if s != [] && s[|s| - 1].outageAt > i.outageAt {
      InsertCounts(s[..|s| - 1], i, test);
      CountAppend(test, Insert(s[..|s| - 1], i), s[|s| - 1]);
    } else {
      CountAppend(test, s, i);
    }
  }

  lemma {:induction false} InsertIsStable(s: seq<Incident>, i: Incident, at: int)
    ensures At(at, Insert(s, i)) == At(at, s) + if i.outageAt == at then [i] else []
  {
    if s != [] && s[|s| - 1].outageAt > i.outageAt {
      InsertIsStable(s[..|s| - 1], i, at);
      AtAppend(at, Insert(s[..|s| - 1], i), s[|s| - 1]);
    } else {
      AtAppend(at, s, i);
    }
  }

  lemma AtAppend(at: int, s: seq<Incident>, i: Incident)
    ensures At(at, s + [i]) == At(at, s) + if i.outageAt == at then [i] else []
  {
    assert (s + [i])[..|s|] == s;
  }

  /** Sorting permutes the incidents, puts them in order of outage, and never swaps simultaneous ones. */
  lemma {:induction false} SortedIsStable(s: seq<Incident>)
    ensures Ordered(Sorted(s)) && |Sorted(s)| == |s| && multiset(Sorted(s)) == multiset(s)
    ensures forall at :: At(at, Sorted(s)) == At(at, s)
  {
    hide Insert, Ordered;
    assert Ordered([]) by { NoneOrdered(); }
    if s != [] {
      var front, last := s[..|s| - 1], s[|s| - 1];
      SortedIsStable(front);
      InsertOrders(Sorted(front), last);
      InsertPermutes(Sorted(front), last);
      assert s == front + [last];
      forall at ensures At(at, Sorted(s)) == At(at, s) { InsertIsStable(Sorted(front), last, at); }
    }
  }

  lemma NoneOrdered() ensures Ordered([]) {}

  lemma {:induction false} SortedCounts(s: seq<Incident>, test: Incident -> bool)
    ensures Count(test, Sorted(s)) == Count(test, s)
  {
    if s != [] {
      SortedCounts(s[..|s| - 1], test);
      InsertCounts(Sorted(s[..|s| - 1]), s[|s| - 1], test);
    }
  }

  /** The counts of a report are the counts of the incidents, in whatever order they were told. */
  lemma ReportCounts(watch: string, t: Tally)
    ensures var r, all := ReportOf(watch, t).totals, All(t.book);
      && r.confirmed == |all| && r.recovered + r.unrecovered == r.confirmed
      && r.recovered == Count(WasRecovered, all)
      && r.attempts == Count(WasAttempted, all) && r.failures == Count(CommandFailed, all)
  {
    var all := All(t.book);
    SortedIsStable(all);
    SortedCounts(all, WasRecovered);
    SortedCounts(all, WasAttempted);
    SortedCounts(all, CommandFailed);
  }

  lemma {:induction false} SpreadIsOrdered(values: seq<int>)
    requires values != []
    ensures var least, greatest := Least(values), Greatest(values);
      && least.Some? && least.value in values && greatest.Some? && greatest.value in values
      && (forall k :: 0 <= k < |values| ==> least.value <= values[k] <= greatest.value)
      && least.value * |values| <= Sum(values) <= greatest.value * |values|
  {
    var front, last := values[..|values| - 1], values[|values| - 1];
    if front != [] {
      SpreadIsOrdered(front);
      var a, b := Least(front).value, Greatest(front).value;
      Scale(Least(values).value, a, |front|);
      Scale(b, Greatest(values).value, |front|);
    }
  }

  lemma Scale(a: int, b: int, n: nat)
    requires a <= b
    ensures a * n <= b * n && a * (n + 1) == a * n + a && b * (n + 1) == b * n + b
  {}

  lemma ScaleStrictly(a: int, b: int, n: nat)
    ensures a < b ==> a * n + n <= b * n
  {
    if a < b { Scale(a + 1, b, n); }
  }

  lemma QuotientBetween(a: int, n: int, low: int, high: int)
    requires n > 0 && 0 <= low && low * n <= a <= high * n
    ensures low <= Quotient(a, n) <= high && Quotient(a, n) * n <= a < (Quotient(a, n) + 1) * n
  {
    var q := Quotient(a, n);
    assert 0 <= low * n;
    assert a == q * n + a % n && (q + 1) * n == q * n + n;
    ScaleStrictly(high, q, n);
    ScaleStrictly(q, low, n);
  }

  /** Least <= average <= greatest, and the average is the sum over the number of values, its fraction dropped. */
  lemma AverageWithin(values: seq<int>)
    requires values != [] && forall k :: 0 <= k < |values| ==> values[k] >= 0
    ensures var s := SpreadOf(values);
      && s.average.Some? && s.least.Some? && s.greatest.Some?
      && 0 <= s.least.value <= s.average.value <= s.greatest.value
      && s.average.value * |values| <= Sum(values) < (s.average.value + 1) * |values|
  {
    SpreadIsOrdered(values);
    QuotientBetween(Sum(values), |values|, Least(values).value, Greatest(values).value);
  }

  lemma {:induction false} RecoverySecondsAreKept(s: seq<Incident>)
    ensures var r := RecoverySeconds(s);
      && |r| <= Count(WasRecovered, s) && (forall k :: 0 <= k < |r| ==> r[k] >= 0)
      && ((forall k :: 0 <= k < |s| && WasRecovered(s[k]) ==> s[k].outageAt <= s[k].recoveredAt.value)
          ==> |r| == Count(WasRecovered, s))
  {
    if s != [] { RecoverySecondsAreKept(s[..|s| - 1]); }
  }

  /** Times to recover: absent when none was measured, else least <= average <= greatest. */
  lemma RecoveryTimesAreOrdered(watch: string, t: Tally)
    ensures var r, values := ReportOf(watch, t).recovery, RecoverySeconds(Sorted(All(t.book)));
      if values == [] then r == Spread(None, None, None) else
        && r.average.Some? && r.least.Some? && r.greatest.Some?
        && 0 <= r.least.value <= r.average.value <= r.greatest.value
        && |values| <= Count(WasRecovered, All(t.book))
  {
    hide Sorted, RecoverySeconds;
    var s := Sorted(All(t.book));
    RecoverySecondsAreKept(s);
    SortedCounts(All(t.book), WasRecovered);
    if RecoverySeconds(s) != [] { AverageWithin(RecoverySeconds(s)); }
  }

  /** In order, no gap is lost, and the gaps add up to no more than the whole span. */
  lemma {:induction false} GapsTelescope(s: seq<Incident>)
    requires s != [] && Ordered(s)
    ensures var g := GapSeconds(s);
      && |g| == |s| - 1 && (forall k :: 0 <= k < |g| ==> g[k] >= 0)
      && Sum(g) * NANOS <= s[|s| - 1].outageAt - s[0].outageAt
  {
    if |s| > 1 {
      var front := s[..|s| - 1];
      GapsTelescope(front);
      var gap := SecondsBetween(s[|s| - 2].outageAt, s[|s| - 1].outageAt);
      assert front[|front| - 1] == s[|s| - 2];
      assert gap.Some? && gap.value * NANOS <= s[|s| - 1].outageAt - s[|s| - 2].outageAt;
      var g := GapSeconds(s);
      assert g[..|g| - 1] == GapSeconds(front);
    }
  }

  /** The average gap, times the number of gaps, fits in the whole seconds from first to last outage. */
  lemma AverageGapFits(watch: string, t: Tally)
    ensures var r, s := ReportOf(watch, t), Sorted(All(t.book));
      if |s| < 2 then r.gaps == Spread(None, None, None) else
        && r.gaps.average.Some? && r.gaps.least.Some? && r.gaps.greatest.Some?
        && 0 <= r.gaps.least.value <= r.gaps.average.value <= r.gaps.greatest.value
        && SecondsBetween(s[0].outageAt, s[|s| - 1].outageAt).Some?
        && r.gaps.average.value * (|s| - 1) <= SecondsBetween(s[0].outageAt, s[|s| - 1].outageAt).value
  {
    hide Sorted, Least, Greatest, Count, GapSeconds, Sum, All, RecoverySeconds, LastRecovery, At, Insert;
    var s := Sorted(All(t.book));
    SortedIsStable(All(t.book));
    if |s| < 2 {
      FewGaps(s);
    } else {
      GapsTelescope(s);
      AverageWithin(GapSeconds(s));
      Whole(r := Sum(GapSeconds(s)), span := s[|s| - 1].outageAt - s[0].outageAt);
    }
  }

  lemma FewGaps(s: seq<Incident>)
    requires |s| < 2
    ensures SpreadOf(GapSeconds(s)) == Spread(None, None, None)
  {}

  lemma Whole(r: int, span: int)
    requires r * NANOS <= span && 0 <= r
    ensures r <= Quotient(span, NANOS)
  {}
}
