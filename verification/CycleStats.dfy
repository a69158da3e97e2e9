/** The statistics told from a log agree with a direct count over the cycles that wrote it. */
module CycleStats {
  import opened Wrappers
  import opened WatchEvents
  import opened LogText
  import opened LogRecords
  import opened WatchStats

  type Cycle = seq<Entry>

  function Events(entries: seq<Entry>): seq<Event> {
    seq(|entries|, i requires 0 <= i < |entries| => entries[i].event)
  }

  // ---- the direct description of a cycle ----

  predicate IsOutage(e: Event) { e == ConfirmResult(Unhealthy) }
  predicate IsFailure(e: Event) { e.RecoveryDone? && (e.timedOut || e.code != Some(0)) }

  ghost predicate ConfirmedOutage(c: Cycle) { exists i :: 0 <= i < |c| && IsOutage(c[i].event) }
  ghost predicate AttemptedRecovery(c: Cycle) { exists i :: 0 <= i < |c| && c[i].event.RecoveryStart? }
  ghost predicate FailedCommand(c: Cycle) { exists i :: 0 <= i < |c| && IsFailure(c[i].event) }
  ghost predicate LoggedRecovery(c: Cycle) { exists i :: 0 <= i < |c| && c[i].event.Recovered? }

  // ---- the first line of each kind, and the incident it amounts to ----

  datatype Mark = Outages | Starts | Dones | Failures | Heals | Recoveries

  predicate Marks(m: Mark, e: Event) {
    match m
    case Outages => IsOutage(e)
    case Starts => e.RecoveryStart?
    case Dones => e.RecoveryDone?
    case Failures => IsFailure(e)
    case Heals => e == PostCheck(Healthy) || e.Recovered?
    case Recoveries => e.Recovered?
  }

  function First(m: Mark, c: Cycle): (r: Option<Entry>)
    ensures r.Some? ==> Marks(m, r.value.event) && r.value in c
    ensures r.Some? <==> exists i :: 0 <= i < |c| && Marks(m, c[i].event)
  {
    if c == [] then None else
      var before := First(m, c[..|c| - 1]);
      if before.Some? then before else if Marks(m, c[|c| - 1].event) then Some(c[|c| - 1]) else None
  }

  function Time(entry: Option<Entry>): Option<int> { if entry.Some? then Some(entry.value.at) else None }

  /** The incident of a confirmed cycle, read straight from its lines. */
  function SummaryOf(c: Cycle): Incident
    requires First(Outages, c).Some?
  {
    var done := First(Dones, c);
    Incident(
      First(Outages, c).value.at,
      Time(First(Starts, c)),
      Time(done),
      if done.Some? then Some(CodeText(done.value.event.code)) else None,
      if done.Some? then Some(done.value.event.timedOut) else None,
      Time(First(Heals, c)))
  }

  function Summaries(cycles: seq<Cycle>): seq<Incident> {
    if cycles == [] then [] else
      Summaries(cycles[..|cycles| - 1])
      + if First(Outages, cycles[|cycles| - 1]).Some? then [SummaryOf(cycles[|cycles| - 1])] else []
  }

  // ---- the builder on a cycle's lines ----

  function KindOfEvent(e: Event): Kind {
    match e
    case ConfirmResult(h) => if h == Unhealthy then Outage else Other
    case RecoveryStart => Start
    case RecoveryDone(code, timedOut) => Done(Some(CodeText(code)), Some(timedOut))
    case PostCheck(h) => if h == Healthy then Heal else Other
    case Recovered(_) => Heal
    case _ => Other
  }

  function Ran(b: Book, c: Cycle): Book {
    if c == [] then b
    else Took(Ran(b, c[..|c| - 1]), c[|c| - 1].at, KindOfEvent(c[|c| - 1].event))
  }

  function Flat(cycles: seq<Cycle>): seq<Entry> {
    if cycles == [] then [] else Flat(cycles[..|cycles| - 1]) + cycles[|cycles| - 1]
  }

  lemma {:induction false} RanConcat(b: Book, c: seq<Entry>, d: seq<Entry>)
    ensures Ran(b, c + d) == Ran(Ran(b, c), d)
  {
    if d == [] {
      assert c + d == c;
    } else {
      var front := d[..|d| - 1];
      RanConcat(b, c, front);
      assert (c + d)[..|c + d| - 1] == c + front;
    }
  }

  // ---- where in a cycle each kind of line can be ----

  predicate Early(s: Stage) { s.Opening? || s.Checking? || s.Doubted? || s.Confirming? }
  predicate Late(s: Stage) {
    s.Finished? || s.Failing? || s.Failed? || s.Posted? || s.Polling? || s.OwedStabilizing? || (s.OwedRecovered? && s.checks > 0)
  }

  ghost predicate Has(m: Mark, c: Cycle) { First(m, c).Some? }

  ghost predicate Placed(s: Stage, c: Cycle) {
    && (Early(s) ==> !Has(Outages, c) && !Has(Starts, c) && !Has(Dones, c) && !Has(Heals, c))
    && (s.Confirmed? ==> Has(Outages, c) && !Has(Starts, c) && !Has(Dones, c) && !Has(Heals, c))
    && (s.Recovering? ==> Has(Outages, c) && Has(Starts, c) && !Has(Dones, c) && !Has(Heals, c))
    && (Late(s) ==> Has(Outages, c) && Has(Starts, c) && Has(Dones, c) && !Has(Heals, c))
    && ((s.OwedRecovered? && s.checks == 0) || s.Cooling? ==>
         Has(Outages, c) && Has(Starts, c) && Has(Dones, c) && Has(Heals, c))
    && (Has(Starts, c) || Has(Dones, c) || Has(Heals, c) ==> Has(Outages, c))
    && (Has(Failures, c) <==> Has(Dones, c) && IsFailure(First(Dones, c).value.event))
    && (Has(Recoveries, c) ==> Has(Heals, c))
    && (Has(Heals, c) ==> Has(Recoveries, c) || (s.OwedRecovered? && s.checks == 0))
  }

  lemma HasAppend(m: Mark, c: Cycle, entry: Entry)
    ensures First(m, c + [entry]) ==
      if Has(m, c) then First(m, c) else if Marks(m, entry.event) then Some(entry) else None
  {
    assert (c + [entry])[..|c|] == c;
  }

  lemma PlacedStep(s: Stage, c: Cycle, entry: Entry)
    requires Placed(s, c) && !Advance(true, s, entry.event).Stuck?
    ensures Placed(Advance(true, s, entry.event), c + [entry])
  {
    hide First;
    HasAppend(Outages, c, entry);
    HasAppend(Starts, c, entry);
    HasAppend(Dones, c, entry);
    HasAppend(Failures, c, entry);
    HasAppend(Heals, c, entry);
    HasAppend(Recoveries, c, entry);
  }

  /** The book after part of a cycle. */
  ghost predicate Told(b: Book, c: Cycle, now: Book) {
    if !Has(Outages, c) then now == b
    else if Has(Heals, c) then now == Book(All(b) + [SummaryOf(c)], None)
    else now == Book(All(b), Some(SummaryOf(c)))
  }

  /** When a line may follow part of a cycle. */
  ghost predicate Timely(c: Cycle, e: Event) {
    && (IsOutage(e) ==> !Has(Outages, c))
    && (e.RecoveryStart? ==> Has(Outages, c) && !Has(Starts, c) && !Has(Heals, c))
    && (e.RecoveryDone? ==> Has(Outages, c) && !Has(Dones, c) && !Has(Heals, c))
    && (e == PostCheck(Healthy) ==> Has(Outages, c) && !Has(Heals, c))
    && (e.Recovered? ==> Has(Outages, c))
  }

  lemma LinesAreTimely(s: Stage, c: Cycle, e: Event)
    requires Placed(s, c) && !Advance(true, s, e).Stuck?
    ensures Timely(c, e)
  {
    hide First;
  }

  lemma ToldStep(b: Book, c: Cycle, entry: Entry, now: Book)
    requires Timely(c, entry.event) && Told(b, c, now)
    requires Has(Starts, c) || Has(Dones, c) || Has(Heals, c) ==> Has(Outages, c)
    ensures Told(b, c + [entry], Took(now, entry.at, KindOfEvent(entry.event)))
  {
    hide First, CodeText;
    HasAppend(Outages, c, entry);
    HasAppend(Starts, c, entry);
    HasAppend(Dones, c, entry);
    HasAppend(Heals, c, entry);
  }

  lemma {:induction false} PrefixTells(b: Book, c: Cycle)
    requires !StageOf(true, Events(c)).Stuck?
    ensures Placed(StageOf(true, Events(c)), c) && Told(b, c, Ran(b, c))
  {
    hide Placed, Told, Timely, Took, KindOfEvent, Has;
    if c == [] {
      NothingYet(b);
      assert c == [] && Events(c) == [];
    } else {
      var front, last := c[..|c| - 1], c[|c| - 1];
      var events := Events(c);
      assert events[..|events| - 1] == Events(front) && events[|events| - 1] == last.event;
      var s := StageOf(true, Events(front));
      if s.Stuck? { assert false; }
      PrefixTells(b, front);
      PlacedStep(s, front, last);
      LinesAreTimely(s, front, last.event);
      MarksFollowOutage(s, front);
      ToldStep(b, front, last, Ran(b, front));
      assert c == front + [last];
    }
  }

  lemma MarksFollowOutage(s: Stage, c: Cycle)
    requires Placed(s, c)
    ensures Has(Starts, c) || Has(Dones, c) || Has(Heals, c) ==> Has(Outages, c)
  {}

  lemma NothingYet(b: Book)
    ensures Placed(Opening, []) && Told(b, [], b)
  {}

  /** A whole cycle adds exactly the incident its own lines describe, if it confirmed an outage. */
  lemma CycleTells(b: Book, c: Cycle)
    requires IsCycle(true, Events(c))
    ensures All(Ran(b, c)) == All(b) + if ConfirmedOutage(c) then [SummaryOf(c)] else []
    ensures ConfirmedOutage(c) <==> Has(Outages, c)
    ensures ConfirmedOutage(c) ==>
      && (WasRecovered(SummaryOf(c)) <==> LoggedRecovery(c))
      && (WasAttempted(SummaryOf(c)) <==> AttemptedRecovery(c))
      && (CommandFailed(SummaryOf(c)) <==> FailedCommand(c))
    ensures !ConfirmedOutage(c) ==> !LoggedRecovery(c) && !AttemptedRecovery(c) && !FailedCommand(c)
  {
    PrefixTells(b, c);
    CountedByMarks(c);
    if Has(Dones, c) { CodeIsZero(First(Dones, c).value.event.code); }
    hide First, CodeText;
  }

  lemma CountedByMarks(c: Cycle)
    ensures ConfirmedOutage(c) <==> Has(Outages, c)
    ensures LoggedRecovery(c) <==> Has(Recoveries, c)
    ensures AttemptedRecovery(c) <==> Has(Starts, c)
    ensures FailedCommand(c) <==> Has(Failures, c)
  {}

  // ---- whole logs of one watch ----

  ghost predicate AreCycles(confirm: bool, cycles: seq<Cycle>) {
    forall k :: 0 <= k < |cycles| ==> IsCycle(confirm, Events(cycles[k]))
  }

  lemma {:induction false} CyclesTell(cycles: seq<Cycle>)
    requires AreCycles(true, cycles)
    ensures All(Ran(FRESH.book, Flat(cycles))) == Summaries(cycles)
  {
    hide Took, KindOfEvent, SummaryOf, First, IsCycle;
    if cycles != [] {
      var front, last := cycles[..|cycles| - 1], cycles[|cycles| - 1];
      CyclesTell(front);
      RanConcat(FRESH.book, Flat(front), last);
      CycleTells(Ran(FRESH.book, Flat(front)), last);
    }
  }

  /** `test` holds of the incident of a cycle exactly when `fact` holds of the cycle. */
  ghost predicate Mirrors(test: Incident -> bool, fact: Cycle -> bool, c: Cycle) {
    if First(Outages, c).Some? then test(SummaryOf(c)) == fact(c) else !fact(c)
  }

  lemma {:induction false} SummariesMirror(test: Incident -> bool, fact: Cycle -> bool, cycles: seq<Cycle>)
    requires forall k :: 0 <= k < |cycles| ==> Mirrors(test, fact, cycles[k])
    ensures Count(test, Summaries(cycles)) == Count(fact, cycles)
  {
    hide First, SummaryOf;
    if cycles != [] {
      var front, last := cycles[..|cycles| - 1], cycles[|cycles| - 1];
      SummariesMirror(test, fact, front);
      assert Mirrors(test, fact, last);
      if First(Outages, last).Some? {
        CountAppend(test, Summaries(front), SummaryOf(last));
      } else {
        assert Summaries(cycles) == Summaries(front);
      }
    }
  }

  function Exists(i: Incident): bool { true }

  lemma {:induction false} CountsAll(s: seq<Incident>)
    ensures Count(Exists, s) == |s|
  {
    if s != [] { CountsAll(s[..|s| - 1]); }
  }

  /** The four counts of the statistics are counts over cycles, each made from its own lines. */
  lemma CountsAgree(cycles: seq<Cycle>)
    requires AreCycles(true, cycles)
    ensures var all := All(Ran(FRESH.book, Flat(cycles)));
      && |all| == Count(ConfirmedOutage, cycles)
      && Count(WasRecovered, all) == Count(LoggedRecovery, cycles)
      && Count(WasAttempted, all) == Count(AttemptedRecovery, cycles)
      && Count(CommandFailed, all) == Count(FailedCommand, cycles)
  {
    hide First, SummaryOf, IsCycle, Count, Ran, Flat, Summaries;
    CyclesTell(cycles);
    forall k | 0 <= k < |cycles|
      ensures Mirrors(Exists, ConfirmedOutage, cycles[k]) && Mirrors(WasRecovered, LoggedRecovery, cycles[k])
      ensures Mirrors(WasAttempted, AttemptedRecovery, cycles[k]) && Mirrors(CommandFailed, FailedCommand, cycles[k])
    {
      CycleMirrors(cycles[k]);
    }
    CountsAll(Summaries(cycles));
    SummariesMirror(Exists, ConfirmedOutage, cycles);
    SummariesMirror(WasRecovered, LoggedRecovery, cycles);
    SummariesMirror(WasAttempted, AttemptedRecovery, cycles);
    SummariesMirror(CommandFailed, FailedCommand, cycles);
  }

  lemma CycleMirrors(c: Cycle)
    requires IsCycle(true, Events(c))
    ensures Mirrors(Exists, ConfirmedOutage, c) && Mirrors(WasRecovered, LoggedRecovery, c)
    ensures Mirrors(WasAttempted, AttemptedRecovery, c) && Mirrors(CommandFailed, FailedCommand, c)
  {
    hide First, SummaryOf, IsCycle, ConfirmedOutage, LoggedRecovery, AttemptedRecovery, FailedCommand;
    hide WasRecovered, WasAttempted, CommandFailed;
    CycleTells(FRESH.book, c);
  }

  /** Without a confirmation delay no line opens an incident, whatever happened. */
  lemma {:induction false} UnconfirmedPrefix(c: Cycle, b: Book)
    requires !StageOf(false, Events(c)).Stuck? && b == FRESH.book
    ensures Ran(b, c) == b && !Has(Outages, c)
    ensures !StageOf(false, Events(c)).Confirming? && !StageOf(false, Events(c)).Confirmed?
  {
    if c != [] {
      var front, last := c[..|c| - 1], c[|c| - 1];
      var events := Events(c);
      assert events[..|events| - 1] == Events(front) && events[|events| - 1] == last.event;
      UnconfirmedPrefix(front, b);
    }
  }

  lemma {:induction false} UnconfirmedCyclesTellNothing(cycles: seq<Cycle>)
    requires AreCycles(false, cycles)
    ensures Ran(FRESH.book, Flat(cycles)) == FRESH.book
  {
    if cycles != [] {
      var front, last := cycles[..|cycles| - 1], cycles[|cycles| - 1];
      UnconfirmedCyclesTellNothing(front);
      RanConcat(FRESH.book, Flat(front), last);
      UnconfirmedPrefix(last, FRESH.book);
    }
  }
}
