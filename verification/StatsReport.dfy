/** The report over a whole log: many watches, interleaved lines, and lines that hold free text. */
module StatsReport {
  import opened Wrappers
  import opened WatchEvents
  import opened LogText
  import opened LogRecords
  import opened WatchStats
  import opened CycleStats

  // ---- reading the lines ----

  function Parsed(codec: Codec, texts: seq<string>): seq<LogEvent> {
    if texts == [] then [] else
      var r := Reading(codec, texts[|texts| - 1]);
      Parsed(codec, texts[..|texts| - 1]) + if r.Some? then [r.value] else []
  }

  /** The records of one watch. */
  function Of(watch: string, log: seq<LogEvent>): seq<LogEvent> {
    if log == [] then [] else
      Of(watch, log[..|log| - 1]) + if log[|log| - 1].watch == watch then [log[|log| - 1]] else []
  }

  function Earliest(log: seq<LogEvent>): Option<int> {
    if log == [] then None else
      var before, at := Earliest(log[..|log| - 1]), log[|log| - 1].timestamp;
      if before.Some? && before.value <= at then before else Some(at)
  }

  function Latest(log: seq<LogEvent>): Option<int> {
    if log == [] then None else
      var before, at := Latest(log[..|log| - 1]), log[|log| - 1].timestamp;
      if before.Some? && before.value > at then before else Some(at)
  }

  /** The span of a log holds all its records and is no wider. */
  lemma {:induction false} SpanIsTight(log: seq<LogEvent>)
    ensures Earliest(log).Some? <==> log != []
    ensures Latest(log).Some? <==> log != []
    ensures forall k :: 0 <= k < |log| ==> Earliest(log).value <= log[k].timestamp <= Latest(log).value
    ensures log != [] ==> exists k :: 0 <= k < |log| && log[k].timestamp == Earliest(log).value
    ensures log != [] ==> exists k :: 0 <= k < |log| && log[k].timestamp == Latest(log).value
  {
    if log != [] {
      var front := log[..|log| - 1];
      SpanIsTight(front);
      assert log[|log| - 1].timestamp == Earliest(log).value || Earliest(log) == Earliest(front);
      assert log[|log| - 1].timestamp == Latest(log).value || Latest(log) == Latest(front);
      if front != [] {
        var a :| 0 <= a < |front| && front[a].timestamp == Earliest(front).value;
        var b :| 0 <= b < |front| && front[b].timestamp == Latest(front).value;
        assert log[a] == front[a] && log[b] == front[b];
      }
    }
  }

  // ---- the report ----

  datatype Report = Report(startedAt: Option<int>, endedAt: Option<int>, total: Totals, watches: seq<WatchReport>)

  function Plus(a: Totals, b: Totals): Totals {
    Totals(a.confirmed + b.confirmed, a.recovered + b.recovered, a.unrecovered + b.unrecovered,
           a.attempts + b.attempts, a.failures + b.failures)
  }

  function TotalOf(watches: seq<WatchReport>): Totals {
    if watches == [] then Totals(0, 0, 0, 0, 0)
    else Plus(TotalOf(watches[..|watches| - 1]), watches[|watches| - 1].totals)
  }

  predicate Wanted(filter: Option<string>, watch: string) { filter.Some? ==> filter.value == watch }

  /** A watch is listed when the filter admits it and the log mentions it. */
  predicate Listed(filter: Option<string>, log: seq<LogEvent>, watch: string) {
    Wanted(filter, watch) && Of(watch, log) != []
  }

  ghost predicate Names(watches: seq<WatchReport>, watch: string) {
    exists k :: 0 <= k < |watches| && watches[k].watch == watch
  }

  predicate NamedOnce(watches: seq<WatchReport>) {
    forall j, k :: 0 <= j < k < |watches| ==> watches[j].watch != watches[k].watch
  }

  /** The order of a map keyed by strings. */
  predicate Before(a: string, b: string) {
    b != [] && (a == [] || a[0] < b[0] || (a[0] == b[0] && Before(a[1..], b[1..])))
  }

  /** The names agree up to `k`, where the first one ends or has the smaller character. */
  predicate DiffersAt(a: string, b: string, k: nat) {
    k <= |a| && k < |b| && a[..k] == b[..k] && (k == |a| || a[k] < b[k])
  }

  lemma DiffersLater(a: string, b: string, k: nat)
    requires DiffersAt(a, b, k) && k > 0
    ensures a != [] && b != [] && a[0] == b[0]
  {
    assert a[..k][0] == b[..k][0];
  }

  lemma {:induction false} BeforeIsLexicographic(a: string, b: string)
    ensures Before(a, b) <==> exists k :: DiffersAt(a, b, k)
    decreases |a|
  {
    forall k: nat | DiffersAt(a, b, k) && k > 0 ensures a != [] && b != [] && a[0] == b[0] { DiffersLater(a, b, k); }
    if a == [] || b == [] || a[0] != b[0] {
      assert b != [] && (a == [] || a[0] < b[0]) ==> DiffersAt(a, b, 0);
    } else {
      BeforeIsLexicographic(a[1..], b[1..]);
      forall k: nat ensures DiffersAt(a, b, k + 1) <==> DiffersAt(a[1..], b[1..], k) {
        if k + 1 <= |a| && k + 1 <= |b| {
          assert a[..k + 1] == [a[0]] + a[1..][..k] && b[..k + 1] == [b[0]] + b[1..][..k];
          assert a[1..][..k] == a[..k + 1][1..] && b[1..][..k] == b[..k + 1][1..];
        }
      }
      assert !DiffersAt(a, b, 0);
      if k: nat :| DiffersAt(a, b, k) {
        assert k > 0 && DiffersAt(a, b, (k - 1) + 1);
        assert DiffersAt(a[1..], b[1..], k - 1);
      }
      if k: nat :| DiffersAt(a[1..], b[1..], k) { assert DiffersAt(a, b, k + 1); }
    }
  }

  lemma {:induction false} BeforeIsOrder(a: string, b: string, c: string)
    ensures !Before(a, a) && (a == b || Before(a, b) || Before(b, a))
    ensures Before(a, b) && Before(b, c) ==> Before(a, c)
    decreases |a| + |b| + |c|
  {
    if a != [] { BeforeIsOrder(a[1..], if b == [] then [] else b[1..], if c == [] then [] else c[1..]); }
    assert a != [] && b != [] && a[0] == b[0] && a[1..] == b[1..] ==> a == [a[0]] + a[1..] == [b[0]] + b[1..] == b;
  }

  lemma {:induction false} LeastName(names: set<string>) returns (least: string)
    requires names != {}
    ensures least in names && forall v :: v in names ==> v == least || Before(least, v)
  {
    hide Before;
    var some :| some in names;
    var rest := names - {some};
    assert names == rest + {some};
    if rest == {} {
      least := some;
    } else {
      var other := LeastName(rest);
      BeforeIsOrder(some, other, some);
      least := if Before(some, other) then some else other;
      forall v | v in names ensures v == least || Before(least, v) {
        assert v == some || v in rest;
        BeforeIsOrder(some, other, v);
      }
    }
  }

  predicate InOrder(watches: seq<WatchReport>) {
    forall j, k :: 0 <= j < k < |watches| ==> Before(watches[j].watch, watches[k].watch)
  }

  lemma InOrderOnce(watches: seq<WatchReport>)
    requires InOrder(watches)
    ensures NamedOnce(watches)
  {
    forall j, k | 0 <= j < k < |watches| ensures watches[j].watch != watches[k].watch {
      BeforeIsOrder(watches[j].watch, watches[k].watch, watches[k].watch);
    }
  }

  function OwnReport(log: seq<LogEvent>, watch: string): WatchReport {
    ReportOf(watch, TallyOf(Of(watch, log)))
  }

  ghost predicate Describes(r: Report, filter: Option<string>, log: seq<LogEvent>) {
    && r.startedAt == Earliest(log) && r.endedAt == Latest(log)
    && r.total == TotalOf(r.watches) && InOrder(r.watches) && NamedOnce(r.watches)
    && (forall w :: Names(r.watches, w) <==> Listed(filter, log, w))
    && (forall k :: 0 <= k < |r.watches| ==> r.watches[k] == OwnReport(log, r.watches[k].watch))
  }

  // ---- the builders ----

  ghost predicate Keep(builders: map<string, WatchStatsBuilder>, filter: Option<string>, log: seq<LogEvent>)
    reads builders.Values
  {
    && (forall w :: w in builders <==> Listed(filter, log, w))
    && (forall w :: w in builders ==> builders[w].Now() == TallyOf(Of(w, log)))
  }

  ghost predicate Apart(builders: map<string, WatchStatsBuilder>) {
    forall v, w :: v in builders && w in builders && v != w ==> builders[v] != builders[w]
  }

  lemma OfAppend(watch: string, log: seq<LogEvent>, e: LogEvent)
    ensures Of(watch, log + [e]) == Of(watch, log) + if e.watch == watch then [e] else []
    ensures TallyOf(Of(watch, log) + [e]) == Applied(TallyOf(Of(watch, log)), e)
  {
    assert (log + [e])[..|log|] == log;
    assert (Of(watch, log) + [e])[..|Of(watch, log)|] == Of(watch, log);
  }

  lemma ParsedAppend(codec: Codec, texts: seq<string>, i: nat)
    requires i < |texts|
    ensures var log, r := Parsed(codec, texts[..i]), Reading(codec, texts[i]);
      Parsed(codec, texts[..i + 1]) == if r.Some? then log + [r.value] else log
  {
    assert texts[..i + 1][..i] == texts[..i];
  }

  /** One more record reaches the builder of its own watch and no other. */
  method Dispatch(builders: map<string, WatchStatsBuilder>, filter: Option<string>, e: LogEvent, ghost log: seq<LogEvent>)
    returns (r: map<string, WatchStatsBuilder>)
    requires Keep(builders, filter, log) && Apart(builders) && Wanted(filter, e.watch)
    modifies builders.Values
    ensures Keep(r, filter, log + [e]) && Apart(r)
    ensures forall w :: w in r ==> (w in builders && r[w] == builders[w]) || fresh(r[w])
  {
    hide TallyOf, Of, Applied;
    r := builders;
    if e.watch !in r {
      var builder := new WatchStatsBuilder();
      r := r[e.watch := builder];
      FirstTally(e.watch, log);
    }
    forall w | w != e.watch ensures Of(w, log + [e]) == Of(w, log) { OfAppend(w, log, e); }
    OfAppend(e.watch, log, e);
    assert forall w :: w in r <==> Listed(filter, log + [e], w);
    var own := r[e.watch];
    label before:
    own.Apply(e);
    assert own.Now() == TallyOf(Of(e.watch, log + [e]));
    forall w | w in r && w != e.watch ensures r[w].Now() == TallyOf(Of(w, log + [e])) {
      assert r[w] != own && r[w].Now() == old@before(r[w].Now());
    }
  }

  lemma FirstTally(watch: string, log: seq<LogEvent>)
    requires Of(watch, log) == []
    ensures TallyOf(Of(watch, log)) == FRESH
  {}

  /** Finish every builder and add up the totals. */
  method FinishAll(builders: map<string, WatchStatsBuilder>, filter: Option<string>, ghost log: seq<LogEvent>)
    returns (watches: seq<WatchReport>, total: Totals)
    requires Keep(builders, filter, log) && Apart(builders)
    modifies builders.Values
    ensures total == TotalOf(watches) && InOrder(watches)
    ensures forall w :: Names(watches, w) <==> Listed(filter, log, w)
    ensures forall k :: 0 <= k < |watches| ==> watches[k] == OwnReport(log, watches[k].watch)
  {
    hide TallyOf, Of, ReportOf, Listed, Before, InOrder, Names;
    NothingNamed();
    var pending := builders.Keys;
    watches, total := [], TotalOf([]);
    while pending != {}
      invariant pending <= builders.Keys
      invariant total == TotalOf(watches) && InOrder(watches)
      invariant forall k, v :: 0 <= k < |watches| && v in pending ==> Before(watches[k].watch, v)
      invariant forall w :: Names(watches, w) <==> w in builders && w !in pending
      invariant forall k :: 0 <= k < |watches| ==> watches[k] == OwnReport(log, watches[k].watch)
      invariant forall w :: w in pending ==> builders[w].Now() == TallyOf(Of(w, log))
    {
      ghost var least := LeastName(pending);
      var watch :| watch in pending && forall v :: v in pending ==> v == watch || Before(watch, v);
      pending := pending - {watch};
      label before:
      var report := builders[watch].Finish(watch);
      OwnName(log, watch);
      assert report == OwnReport(log, watch) && report.watch == watch;
      total := Plus(total, report.totals);
      assert (watches + [report])[..|watches|] == watches;
      NamesAppend(watches, report);
      OrderAppend(watches, report);
      watches := watches + [report];
      forall w | w in pending ensures builders[w].Now() == TallyOf(Of(w, log)) {
        assert builders[w] != builders[watch] && builders[w].Now() == old@before(builders[w].Now());
      }
    }
  }

  lemma OwnName(log: seq<LogEvent>, watch: string)
    ensures OwnReport(log, watch).watch == watch
  {}

  lemma NothingNamed()
    ensures InOrder([]) && forall w :: !Names([], w)
  {}

  lemma OrderAppend(watches: seq<WatchReport>, report: WatchReport)
    requires InOrder(watches) && forall k :: 0 <= k < |watches| ==> Before(watches[k].watch, report.watch)
    ensures InOrder(watches + [report])
  {}

  lemma NamesAppend(watches: seq<WatchReport>, report: WatchReport)
    ensures forall w :: Names(watches + [report], w) <==> Names(watches, w) || w == report.watch
  {
    var more := watches + [report];
    forall w ensures Names(more, w) <==> Names(watches, w) || w == report.watch {
      if Names(watches, w) {
        var k :| 0 <= k < |watches| && watches[k].watch == w;
        assert more[k].watch == w;
      }
      assert more[|watches|].watch == report.watch;
    }
  }

  /** The report over the lines of a log file. */
  method BuildStatsReport(codec: Codec, texts: seq<string>, filter: Option<string>) returns (r: Report)
    ensures Describes(r, filter, Parsed(codec, texts))
  {
    hide Keep, Of, Reading, Parsed, Earliest, Latest, NamedOnce, InOrder, Names, Listed, OwnReport, TotalOf;
    var builders: map<string, WatchStatsBuilder> := map[];
    var startedAt: Option<int>, endedAt: Option<int> := None, None;
    NothingKept(codec, texts, filter);
    for i := 0 to |texts|
      invariant startedAt == Earliest(Parsed(codec, texts[..i])) && endedAt == Latest(Parsed(codec, texts[..i]))
      invariant Keep(builders, filter, Parsed(codec, texts[..i])) && Apart(builders)
      invariant forall w :: w in builders ==> fresh(builders[w])
    {
      ghost var log := Parsed(codec, texts[..i]);
      ParsedAppend(codec, texts, i);
      var event := ParseLogEvent(codec, texts[i]);
      if event.None? { continue; }
      var e := event.value;
      SpanAppend(log, e);
      startedAt := if startedAt.Some? && startedAt.value <= e.timestamp then startedAt else Some(e.timestamp);
      endedAt := if endedAt.Some? && endedAt.value > e.timestamp then endedAt else Some(e.timestamp);
      if !Wanted(filter, e.watch) {
        Unwanted(builders, filter, log, e);
        continue;
      }
      builders := Dispatch(builders, filter, e, log);
    }
    assert texts[..|texts|] == texts;
    var watches, total := FinishAll(builders, filter, Parsed(codec, texts));
    InOrderOnce(watches);
    r := Report(startedAt, endedAt, total, watches);
  }

  lemma NothingKept(codec: Codec, texts: seq<string>, filter: Option<string>)
    ensures Keep(map[], filter, Parsed(codec, texts[..0]))
    ensures Earliest(Parsed(codec, texts[..0])).None? && Latest(Parsed(codec, texts[..0])).None?
  {}

  lemma SpanAppend(log: seq<LogEvent>, e: LogEvent)
    ensures Earliest(log + [e]) ==
      if Earliest(log).Some? && Earliest(log).value <= e.timestamp then Earliest(log) else Some(e.timestamp)
    ensures Latest(log + [e]) ==
      if Latest(log).Some? && Latest(log).value > e.timestamp then Latest(log) else Some(e.timestamp)
  {
    assert (log + [e])[..|log|] == log;
  }

  lemma Unwanted(builders: map<string, WatchStatsBuilder>, filter: Option<string>, log: seq<LogEvent>, e: LogEvent)
    requires Keep(builders, filter, log) && !Wanted(filter, e.watch)
    ensures Keep(builders, filter, log + [e])
  {
    forall w | w != e.watch ensures Of(w, log + [e]) == Of(w, log) { OfAppend(w, log, e); }
  }

  // ---- what a report says ----

  lemma TwoNames(watches: seq<WatchReport>, watch: string)
    requires NamedOnce(watches)
    ensures |watches| <= 1 || watches[0].watch != watch || watches[1].watch != watch
  {}

  /** The filtered report is the entry of the unfiltered one, with the same span of time. */
  lemma FilteredIsEntry(full: Report, one: Report, watch: string, log: seq<LogEvent>)
    requires Describes(full, None, log) && Describes(one, Some(watch), log)
    ensures one.startedAt == full.startedAt && one.endedAt == full.endedAt
    ensures Names(full.watches, watch) <==> Names(one.watches, watch)
    ensures forall k :: 0 <= k < |full.watches| && full.watches[k].watch == watch ==> one.watches == [full.watches[k]]
    ensures !Names(full.watches, watch) ==> one.watches == []
  {
    hide OwnReport;
    assert Listed(None, log, watch) <==> Listed(Some(watch), log, watch);
    TwoNames(one.watches, watch);
    forall j | 0 <= j < |one.watches| ensures one.watches[j].watch == watch {
      assert Names(one.watches, one.watches[j].watch);
    }
    assert |one.watches| <= 1;
    forall k | 0 <= k < |full.watches| && full.watches[k].watch == watch ensures one.watches == [full.watches[k]] {
      assert Names(full.watches, watch);
    }
  }

  /** A watch's entry depends on its own records only, however the watches' lines interleave. */
  lemma EntryIsOwn(r: Report, q: Report, watch: string, filter: Option<string>, log: seq<LogEvent>, mixed: seq<LogEvent>)
    requires Describes(r, filter, log) && Describes(q, filter, mixed) && Of(watch, log) == Of(watch, mixed)
    ensures Names(r.watches, watch) <==> Names(q.watches, watch)
    ensures forall j, k ::
      (0 <= j < |r.watches| && 0 <= k < |q.watches| && r.watches[j].watch == watch == q.watches[k].watch) ==>
      r.watches[j] == q.watches[k]
  {
    hide ReportOf, TallyOf;
    assert Listed(filter, log, watch) <==> Listed(filter, mixed, watch);
  }

  lemma {:induction false} TotalsBalance(r: Report, filter: Option<string>, log: seq<LogEvent>)
    requires Describes(r, filter, log)
    ensures r.total.recovered + r.total.unrecovered == r.total.confirmed
    ensures r.total.attempts <= r.total.confirmed && r.total.failures <= r.total.confirmed
  {
    forall k | 0 <= k < |r.watches| ensures Balanced(r.watches[k].totals) {
      ReportCounts(r.watches[k].watch, TallyOf(Of(r.watches[k].watch, log)));
    }
    SumBalances(r.watches);
  }

  predicate Balanced(t: Totals) {
    t.recovered + t.unrecovered == t.confirmed && t.attempts <= t.confirmed && t.failures <= t.confirmed
  }

  lemma {:induction false} SumBalances(watches: seq<WatchReport>)
    requires forall k :: 0 <= k < |watches| ==> Balanced(watches[k].totals)
    ensures Balanced(TotalOf(watches))
  {
    if watches != [] { SumBalances(watches[..|watches| - 1]); }
  }

  // ---- from the lines that were written to the tally ----

  /** Everything the watchdog writes to its log. */
  datatype Line =
    | Told(watch: string, entry: Entry)
    | WatchError(at: int, watch: string, error: string)
    | Stopped(at: int)

  function TextOf(codec: Codec, line: Line): string {
    match line
    case Told(watch, entry) => LineOf(codec, watch, entry)
    case WatchError(at, watch, error) =>
      FormatLine(codec.format(at), watch, "watch.error", "error=" + Sanitize(error))
    case Stopped(at) => Stamped(codec.format(at), "watchdog.stop", "reason=signal")
  }

  function Texts(codec: Codec, lines: seq<Line>): seq<string> {
    seq(|lines|, i requires 0 <= i < |lines| => TextOf(codec, lines[i]))
  }

  /** The events a watch logged. */
  function Own(watch: string, lines: seq<Line>): seq<Entry> {
    if lines == [] then [] else
      var last := lines[|lines| - 1];
      Own(watch, lines[..|lines| - 1]) + if last.Told? && last.watch == watch then [last.entry] else []
  }

  function When(line: Line): int { if line.Told? then line.entry.at else line.at }

  /** Every line was written at an instant that has a text. */
  predicate Dated(codec: Codec, lines: seq<Line>) {
    forall k :: 0 <= k < |lines| ==> codec.Represents(When(lines[k]))
  }

  predicate SolidNames(lines: seq<Line>) {
    forall k :: 0 <= k < |lines| && lines[k].Told? ==> Solid(lines[k].watch)
  }

  /** The state an event reports; the unrecovered outcome repeats the key inside its value. */
  function StateOf(e: Event): Option<string> {
    match e
    case CheckResult(h) => Some(Label(h))
    case ConfirmResult(h) => Some(Label(h))
    case PostCheck(h) => Some(Label(h))
    case StabilizationCheck(_, h) => Some(Label(h))
    case Recovered(_) => Some("healthy")
    case Stabilizing(_) => Some("syncing")
    case Unrecovered(h, _) => Some("state=" + Label(h))
    case _ => None
  }

  function LastState(entries: seq<Entry>): Option<string> {
    if entries == [] then None
    else if StateOf(entries[|entries| - 1].event).Some? then StateOf(entries[|entries| - 1].event)
    else LastState(entries[..|entries| - 1])
  }

  function TallyOfEntries(entries: seq<Entry>): Tally { Tally(Ran(FRESH.book, entries), LastState(entries)) }

  function After(t: Tally, entry: Entry): Tally {
    Tally(Took(t.book, entry.at, KindOfEvent(entry.event)),
          if StateOf(entry.event).Some? then StateOf(entry.event) else t.lastState)
  }

  lemma EntriesAppend(entries: seq<Entry>, entry: Entry)
    ensures TallyOfEntries(entries + [entry]) == After(TallyOfEntries(entries), entry)
  {
    assert (entries + [entry])[..|entries|] == entries;
  }

  lemma FieldsOfRecord(watch: string, entry: Entry)
    ensures var pairs, e := Pairs(entry.event), Record(watch, entry);
      && (forall k :: 0 <= k < |pairs| ==> Field(e, pairs[k].0) == Some(pairs[k].1))
  {
    hide DistinctKeys, Pairs;
    KeysDiffer(watch, entry.event);
    KeysOfWatched(watch, Pairs(entry.event));
  }

  predicate IsOutcome(e: Event) { e.Recovered? || e.Stabilizing? || e.Unrecovered? }

  lemma TitlesOfChecks(e: Event)
    ensures Title(e) == "check.result" <==> e.CheckResult?
    ensures Title(e) == "check.confirm_result" <==> e.ConfirmResult?
    ensures Title(e) == "recovery.post_check" <==> e.PostCheck?
    ensures Title(e) == "recovery.stabilization_check" <==> e.StabilizationCheck?
  {}

  lemma TitlesOfRecovery(e: Event)
    ensures Title(e) == "recovery.start" <==> e.RecoveryStart?
    ensures Title(e) == "recovery.done" <==> e.RecoveryDone?
    ensures Title(e) == "recovery.outcome" <==> IsOutcome(e)
  {}

  lemma ValuesDiffer(h: Health, b: bool)
    ensures Label(h) == "unhealthy" <==> h == Unhealthy
    ensures Label(h) == "healthy" <==> h == Healthy
    ensures ParseFlag(Flag(b)) == Some(b)
    ensures "stabilizing" != "recovered" && "unrecovered" != "recovered"
  {}

  lemma RecordState(watch: string, entry: Entry)
    ensures var r := Record(watch, entry);
      (if TellsState(r.event) then Field(r, "state") else None) == StateOf(entry.event)
  {
    hide Title, Label, Field, MapOf;
    var e, pairs := entry.event, Pairs(entry.event);
    FieldsOfRecord(watch, entry);
    TitlesOfChecks(e);
    TitlesOfRecovery(e);
    if e.CheckResult? || e.ConfirmResult? || e.PostCheck? {
      assert pairs[0] == ("state", Label(e.health));
    } else if e.StabilizationCheck? || IsOutcome(e) {
      assert pairs[1].0 == "state";
    }
  }

  lemma RecordKind(watch: string, entry: Entry)
    ensures KindOf(Record(watch, entry)) == KindOfEvent(entry.event)
  {
    hide Title, Label, Field, MapOf, Flag, ParseFlag;
    var e, pairs := entry.event, Pairs(entry.event);
    FieldsOfRecord(watch, entry);
    TitlesOfChecks(e);
    TitlesOfRecovery(e);
    if e.ConfirmResult? || e.PostCheck? {
      ValuesDiffer(e.health, true);
      assert pairs[0] == ("state", Label(e.health));
    } else if e.RecoveryDone? {
      ValuesDiffer(Healthy, e.timedOut);
      assert pairs[0] == ("exit_code", CodeText(e.code)) && pairs[1] == ("timed_out", Flag(e.timedOut));
    } else if IsOutcome(e) {
      ValuesDiffer(Healthy, true);
      assert pairs[0].0 == "outcome";
    }
  }

  /** A record with free text never changes a tally, whichever watch it seems to name. */
  predicate Idle(event: string) { event == "recovery.command_failure" || event == "watch.error" }

  lemma IdleChangesNothing(t: Tally, e: LogEvent)
    requires Idle(e.event)
    ensures Applied(t, e) == t
  {}

  lemma RecordIsEvent(t: Tally, watch: string, entry: Entry)
    ensures Applied(t, Record(watch, entry)) == After(t, entry)
  {
    hide KindOf, KindOfEvent, TellsState, Field, StateOf, Took;
    RecordKind(watch, entry);
    RecordState(watch, entry);
  }

  lemma FailureIsIdle(t: Tally, entry: Entry)
    requires entry.event.CommandFailure?
    ensures After(t, entry) == t
  {}

  lemma LineIsRead(codec: Codec, line: Line)
    requires codec.Faithful() && codec.Represents(When(line))
    ensures match line
      case Told(watch, entry) =>
        if entry.event.CommandFailure? then
          var r := Reading(codec, TextOf(codec, line)); r.Some? && Idle(r.value.event)
        else Solid(watch) ==> Reading(codec, TextOf(codec, line)) == Some(Record(watch, entry))
      case WatchError(_, _, _) => var r := Reading(codec, TextOf(codec, line)); r.Some? && Idle(r.value.event)
      case Stopped(_) => Reading(codec, TextOf(codec, line)).None?
  {
    hide Reading, FormatLine, Record, DetailOf, Solid, Stamped, Sanitize;
    match line
    case Told(watch, entry) =>
      if entry.event.CommandFailure? {
        assert ':' !in Title(entry.event) by { TitleIsPlain(entry.event); }
        LogText.LineIsRead(codec, entry.at, watch, Title(entry.event), DetailOf(entry.event));
      } else if Solid(watch) {
        EntryRoundTrip(codec, watch, entry);
      }
    case WatchError(at, watch, error) =>
      LogText.LineIsRead(codec, at, watch, "watch.error", "error=" + Sanitize(error));
    case Stopped(at) =>
      StampedReads(codec, at, "watchdog.stop", "reason=signal");
      StopHasNoWatch();
  }

  lemma StopHasNoWatch()
    ensures "watch" !in FieldsOf(Words("reason=signal"))
  {
    hide Words, AddField, TidyPair, Token;
    ReasonIsTidy();
    var pair: Pair := ("reason", "signal");
    TokenReads(map[], pair);
    FieldsOfAppend([], Token(pair));
    assert [] + [Token(pair)] == [Token(pair)];
    assert "watch"[0] != "reason"[0];
  }

  lemma ReasonIsTidy()
    ensures TidyPair(("reason", "signal")) && Token(("reason", "signal")) == "reason=signal"
  {}

  function MoreLog(codec: Codec, line: Line, log: seq<LogEvent>): seq<LogEvent> {
    var r := Reading(codec, TextOf(codec, line)); if r.Some? then log + [r.value] else log
  }

  function MoreOwn(line: Line, watch: string, own: seq<Entry>): seq<Entry> {
    if line.Told? && line.watch == watch then own + [line.entry] else own
  }

  lemma LineTells(codec: Codec, line: Line, watch: string, log: seq<LogEvent>, own: seq<Entry>)
    requires codec.Faithful() && codec.Represents(When(line)) && (line.Told? ==> Solid(line.watch))
    requires TallyOf(Of(watch, log)) == TallyOfEntries(own)
    ensures TallyOf(Of(watch, MoreLog(codec, line, log))) == TallyOfEntries(MoreOwn(line, watch, own))
  {
    hide Reading, TextOf, TallyOf, Applied, After, TallyOfEntries, Solid, Idle, Of;
    LineIsRead(codec, line);
    var r := Reading(codec, TextOf(codec, line));
    if r.Some? {
      OfAppend(watch, log, r.value);
      assert Of(watch, log) + [] == Of(watch, log);
      if Idle(r.value.event) { IdleChangesNothing(TallyOf(Of(watch, log)), r.value); }
    }
    if line.Told? {
      EntriesAppend(own, line.entry);
      RecordIsEvent(TallyOf(Of(watch, log)), line.watch, line.entry);
      if line.entry.event.CommandFailure? { FailureIsIdle(TallyOfEntries(own), line.entry); }
    }
  }

  /**
   * Every way the lines of several watches can interleave, the records that are read back tally to
   * what the watch itself logged: free text in an error never counts, even when it names the watch.
   */
  lemma {:induction false} LogTells(codec: Codec, lines: seq<Line>, watch: string)
    requires codec.Faithful() && Dated(codec, lines) && SolidNames(lines)
    ensures TallyOf(Of(watch, Parsed(codec, Texts(codec, lines)))) == TallyOfEntries(Own(watch, lines))
  {
    hide Reading, TextOf, TallyOf, TallyOfEntries, Solid;
    var texts := Texts(codec, lines);
    if lines == [] {
      NoLines(codec, watch);
      assert texts == [];
    } else {
      var front, last := lines[..|lines| - 1], lines[|lines| - 1];
      assert Texts(codec, front) == texts[..|texts| - 1];
      LogTells(codec, front, watch);
      var log, own := Parsed(codec, Texts(codec, front)), Own(watch, front);
      LineTells(codec, last, watch, log, own);
      assert Parsed(codec, texts) == MoreLog(codec, last, log);
      assert Own(watch, lines) == MoreOwn(last, watch, own);
    }
  }

  lemma NoLines(codec: Codec, watch: string)
    ensures TallyOf(Of(watch, Parsed(codec, []))) == TallyOfEntries([])
  {}

  // ---- main results ----

  /**
   * With a confirmation delay, the entry of a watch in the report over the log text says how many of
   * its cycles confirmed an outage, logged a recovery, attempted one, and logged a failed command.
   */
  lemma ReportAgreesWithCycles(
      codec: Codec, lines: seq<Line>, watch: string, cycles: seq<Cycle>, filter: Option<string>, r: Report, k: nat)
    requires codec.Faithful() && Dated(codec, lines) && SolidNames(lines)
    requires Own(watch, lines) == Flat(cycles) && AreCycles(true, cycles)
    requires Describes(r, filter, Parsed(codec, Texts(codec, lines)))
    requires k < |r.watches| && r.watches[k].watch == watch
    ensures var t := r.watches[k].totals;
      && t.confirmed == Count(ConfirmedOutage, cycles)
      && t.recovered == Count(LoggedRecovery, cycles)
      && t.unrecovered == t.confirmed - t.recovered
      && t.attempts == Count(AttemptedRecovery, cycles)
      && t.failures == Count(FailedCommand, cycles)
    ensures r.watches[k].lastState == LastState(Flat(cycles))
  {
    hide Parsed, Texts, Reading, TallyOf, ReportOf, Ran, LastState, Count, AreCycles, SolidNames, Own;
    LogTells(codec, lines, watch);
    CountsAgree(cycles);
    ReportCounts(watch, TallyOfEntries(Flat(cycles)));
    ReportKeepsState(watch, TallyOfEntries(Flat(cycles)));
  }

  lemma ReportKeepsState(watch: string, t: Tally)
    ensures ReportOf(watch, t).lastState == t.lastState
  {}

  /** Without a confirmation delay the report counts nothing, however many outages there were. */
  lemma UnconfirmedOutagesAreNotCounted(
      codec: Codec, lines: seq<Line>, watch: string, cycles: seq<Cycle>, filter: Option<string>, r: Report, k: nat)
    requires codec.Faithful() && Dated(codec, lines) && SolidNames(lines)
    requires Own(watch, lines) == Flat(cycles) && AreCycles(false, cycles)
    requires Describes(r, filter, Parsed(codec, Texts(codec, lines)))
    requires k < |r.watches| && r.watches[k].watch == watch
    ensures r.watches[k].totals == Totals(0, 0, 0, 0, 0)
    ensures r.watches[k].recovery == r.watches[k].gaps == Spread(None, None, None)
  {
    hide Parsed, Texts, Reading, TallyOf, Ran, LastState, AreCycles, SolidNames, Own, ReportOf;
    LogTells(codec, lines, watch);
    UnconfirmedCyclesTellNothing(cycles);
    EmptyReport(watch, TallyOfEntries(Flat(cycles)));
  }

  lemma EmptyReport(watch: string, t: Tally)
    requires t.book == FRESH.book
    ensures var r := ReportOf(watch, t);
      r.totals == Totals(0, 0, 0, 0, 0) && r.recovery == r.gaps == Spread(None, None, None)
  {}

  ghost predicate NamesState(text: string) { exists h :: text == Label(h) }

  /** The last line that told a state. */
  predicate TellsLast(entries: seq<Entry>, i: nat) {
    && i < |entries| && StateOf(entries[i].event).Some?
    && forall j :: i < j < |entries| ==> StateOf(entries[j].event).None?
  }

  /** The last state is a state name exactly when the last line that told one was not an unrecovered outcome. */
  lemma {:induction false} LastStateIsLabel(entries: seq<Entry>) returns (i: nat)
    requires LastState(entries).Some?
    ensures TellsLast(entries, i) && LastState(entries) == StateOf(entries[i].event)
    ensures NamesState(LastState(entries).value) <==> !entries[i].event.Unrecovered?
  {
    hide StateOf, NamesState;
    var front, last := entries[..|entries| - 1], entries[|entries| - 1];
    if StateOf(last.event).Some? {
      i := |entries| - 1;
    } else {
      i := LastStateIsLabel(front);
    }
    StateIsLabel(entries[i].event);
  }

  lemma StateIsLabel(e: Event)
    requires StateOf(e).Some?
    ensures NamesState(StateOf(e).value) <==> !e.Unrecovered?
  {
    assert Label(Healthy) == "healthy" && Label(Syncing) == "syncing";
    if e.Unrecovered? {
      forall h ensures StateOf(e).value != Label(h) { assert |Label(h)| < 10; }
    }
  }
}
