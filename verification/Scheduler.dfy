/** The scheduler of belter-watchdog: `run_watchdog`, for any number of passes. */
module Scheduler {
  import opened Wrappers
  import opened WatchEvents
  import opened WatchCycle

  /** One cycle: which enabled watch, when it began, when it was over, its first command, and what it did. */
  datatype Run = Run(index: nat, watch: Watch, start: nat, end: nat, from: nat, outcome: Outcome,
                     events: seq<Event>, acts: seq<Act>)

  function DelayAfter(w: Watch, r: Outcome): nat {
    match r
    case Next(delay) => delay
    case _ => Max(w.interval, w.cooldown)
  }

  function NextCheck(r: Run): nat { r.end + DelayAfter(r.watch, r.outcome) }

  predicate FirstOfName(watches: seq<Watch>, k: nat) {
    k < |watches| && forall j :: 0 <= j < k ==> watches[j].name != watches[k].name
  }

  predicate Due(w: Watch, nextCheck: map<string, nat>, now: nat) {
    w.name !in nextCheck || nextCheck[w.name] <= now
  }

  predicate Served(watches: seq<Watch>, k: nat, nextCheck: map<string, nat>, now: nat) {
    FirstOfName(watches, k) && Due(watches[k], nextCheck, now)
  }

  /** Among the first `k` watches, the positions of those that are due and the first of their name, in order. */
  function DueList(watches: seq<Watch>, k: nat, nextCheck: map<string, nat>, now: nat): seq<nat> {
    if k == 0 then []
    else DueList(watches, k - 1, nextCheck, now) + if Served(watches, k - 1, nextCheck, now) then [k - 1] else []
  }

  lemma {:induction false} DueListIsExact(watches: seq<Watch>, k: nat, next: map<string, nat>, now: nat)
    ensures var due := DueList(watches, k, next, now);
      && (forall j: nat :: j in due <==> j < k && Served(watches, j, next, now))
      && (forall i, j :: 0 <= i < j < |due| ==> due[i] < due[j])
  {
    hide Served;
    if k > 0 {
      DueListIsExact(watches, k - 1, next, now);
      var before, due := DueList(watches, k - 1, next, now), DueList(watches, k, next, now);
      forall i | 0 <= i < |before| ensures before[i] < k - 1 { assert before[i] in before; }
      forall j: nat ensures j in due <==> j < k && Served(watches, j, next, now) {
        assert j in due <==> j in before || (j == k - 1 && Served(watches, k - 1, next, now));
      }
    }
  }

  lemma {:induction false} FirstNamesake(watches: seq<Watch>, k: nat) returns (f: nat)
    requires k < |watches|
    ensures f <= k && FirstOfName(watches, f) && watches[f].name == watches[k].name
  {
    if FirstOfName(watches, k) {
      f := k;
    } else {
      var j :| 0 <= j < k && watches[j].name == watches[k].name;
      f := FirstNamesake(watches, j);
    }
  }

  // ---------------------------------------------------------------- cycles that happened

  /** A cycle really ran: its acts are what the commands from the `from`-th on answered, and its log and ending
      follow from them. */
  ghost predicate Happened(watches: seq<Watch>, answers: nat -> Answer, r: Run, requested: bool) {
    && r.index < |watches| && r.watch == watches[r.index]
    && Sound(r.watch, r.events, r.acts)
    && Explained(r.watch, r.events, r.acts, requested, r.outcome)
    && Answered(r.watch, answers, r.from, r.acts)
    && (r.outcome.CommandError? ==> answers(r.from + |r.acts|).Unrunnable?)
  }

  ghost predicate RunOk(watches: seq<Watch>, answers: nat -> Answer, r: Run) {
    Happened(watches, answers, r, false) && r.start < r.end
  }

  function RunLines(r: Run): seq<LogLine> {
    Lines(r.watch.name, r.events) + if r.outcome.Next? then [] else [ErrorLine(r.watch.name)]
  }

  function LogOf(runs: seq<Run>): seq<LogLine> {
    if runs == [] then [] else LogOf(runs[..|runs| - 1]) + RunLines(runs[|runs| - 1])
  }

  function TraceOf(runs: seq<Run>): seq<Act> {
    if runs == [] then [] else TraceOf(runs[..|runs| - 1]) + runs[|runs| - 1].acts
  }

  function CommandsOf(r: Run): seq<Kind> { Asked(r.watch, r.acts, r.outcome) }

  function AskedOf(runs: seq<Run>): seq<Kind> {
    if runs == [] then [] else AskedOf(runs[..|runs| - 1]) + CommandsOf(runs[|runs| - 1])
  }

  lemma RunsAppend(runs: seq<Run>, r: Run)
    ensures LogOf(runs + [r]) == LogOf(runs) + RunLines(r)
    ensures TraceOf(runs + [r]) == TraceOf(runs) + r.acts
    ensures AskedOf(runs + [r]) == AskedOf(runs) + CommandsOf(r)
  {
    assert (runs + [r])[..|runs|] == runs;
  }

  datatype PassEnd = NoWatches | Stopped | Aborted(outcome: Outcome) | Passed(nextDue: nat)

  /** What the log holds after the finished cycles: the last one if it was cut, and the shutdown. */
  function Ending(cut: Option<Run>, r: PassEnd): seq<LogLine> {
    match r
    case NoWatches => []
    case Passed(_) => []
    case Aborted(_) => if cut.Some? then Lines(cut.value.watch.name, cut.value.events) else []
    case Stopped => (if cut.Some? then RunLines(cut.value) else []) + [StopLine]
  }

  /** The books of the world are `base`, then those of the finished cycles, then those of the cut one. */
  ghost predicate Recorded(watches: seq<Watch>, answers: nat -> Answer, base: Base, books: Base, runs: seq<Run>,
                           cut: Option<Run>, r: PassEnd)
  {
    && books.log == base.log + LogOf(runs) + Ending(cut, r)
    && books.trace == base.trace + TraceOf(runs) + (if cut.Some? then cut.value.acts else [])
    && books.asked == base.asked + AskedOf(runs) + (if cut.Some? then CommandsOf(cut.value) else [])
    && (forall i :: 0 <= i < |runs| ==> runs[i].from == |base.asked| + |AskedOf(runs[..i])|)
    && (r.Passed? || r.NoWatches? ==> cut.None?)
    && (r.Aborted? ==> cut.Some? && cut.value.outcome == r.outcome)
    && (cut.Some? ==>
          && Happened(watches, answers, cut.value, r.Stopped?) && FirstOfName(watches, cut.value.index)
          && cut.value.from == |base.asked| + |AskedOf(runs)|)
  }

  lemma RunIsRecorded(watches: seq<Watch>, answers: nat -> Answer, base: Base, books: Base, runs: seq<Run>, r: Run,
                      after: Base, end: PassEnd)
    requires Recorded(watches, answers, base, books, runs, None, Passed(0)) && end.Passed?
    requires r.from == |books.asked| && after.trace == books.trace + r.acts
    requires after.log == books.log + RunLines(r) && after.asked == books.asked + CommandsOf(r)
    ensures Recorded(watches, answers, base, after, runs + [r], None, end)
  {
    hide LogOf, TraceOf, AskedOf, RunLines, Happened;
    RunsAppend(runs, r);
    var more := runs + [r];
    forall i | 0 <= i < |more| ensures more[i].from == |base.asked| + |AskedOf(more[..i])| {
      assert more[..i] == runs[..i];
      assert runs[..|runs|] == runs;
    }
  }

  lemma CutIsRecorded(watches: seq<Watch>, answers: nat -> Answer, base: Base, books: Base, runs: seq<Run>, r: Run,
                      after: Base, end: PassEnd)
    requires Recorded(watches, answers, base, books, runs, None, Passed(0))
    requires end.Stopped? || end == Aborted(r.outcome)
    requires Happened(watches, answers, r, end.Stopped?) && FirstOfName(watches, r.index)
    requires r.from == |books.asked| && after.trace == books.trace + r.acts
    requires after.log == books.log + Ending(Some(r), end) && after.asked == books.asked + CommandsOf(r)
    ensures Recorded(watches, answers, base, after, runs, Some(r), end)
  {
    hide LogOf, TraceOf, AskedOf, RunLines, Happened, FirstOfName;
  }

  lemma StopIsRecorded(watches: seq<Watch>, answers: nat -> Answer, base: Base, books: Base, runs: seq<Run>, after: Base)
    requires Recorded(watches, answers, base, books, runs, None, Passed(0))
    requires after == books.(log := books.log + [StopLine])
    ensures Recorded(watches, answers, base, after, runs, None, Stopped)
  {
    hide LogOf, TraceOf, AskedOf;
  }

  lemma StillRecorded(watches: seq<Watch>, answers: nat -> Answer, base: Base, books: Base, runs: seq<Run>,
                      end: PassEnd, due: nat)
    requires Recorded(watches, answers, base, books, runs, None, end) && end.Passed?
    ensures Recorded(watches, answers, base, books, runs, None, Passed(due))
  {}

  // ------------------------------------------------------------------- when cycles begin

  ghost predicate Spaced(runs: seq<Run>) {
    forall i, j :: 0 <= i < j < |runs| && runs[i].watch.name == runs[j].watch.name ==>
      NextCheck(runs[i]) <= runs[j].start
  }

  /** No later run is of the same name. */
  ghost predicate Latest(runs: seq<Run>, i: nat) {
    i < |runs| && forall j :: i < j < |runs| ==> runs[j].watch.name != runs[i].watch.name
  }

  /** The next check of a name is the one its latest cycle calls for, and a name without a cycle has none. */
  ghost predicate LastChecks(runs: seq<Run>, next: map<string, nat>) {
    && (forall i: nat :: Latest(runs, i) ==> runs[i].watch.name in next && next[runs[i].watch.name] == NextCheck(runs[i]))
    && (forall n :: n in next ==> Touched(runs, 0, n))
  }

  lemma LastChecksAppend(runs: seq<Run>, next: map<string, nat>, r: Run)
    requires LastChecks(runs, next)
    ensures LastChecks(runs + [r], next[r.watch.name := NextCheck(r)])
  {
    var more := runs + [r];
    forall i: nat | Latest(more, i)
      ensures (i < |runs| ==> runs[i].watch.name != r.watch.name && Latest(runs, i)) && (i >= |runs| ==> more[i] == r)
    {
      assert i < |runs| ==> more[|runs|] == r;
      assert forall j :: i < j < |runs| ==> more[j] == runs[j];
    }
    forall n ensures Touched(more, 0, n) <==> Touched(runs, 0, n) || n == r.watch.name { TouchedByAppend(runs, 0, n, r); }
  }

  /** Every run really happened and belongs to the first watch of its name, cycles of one name never overlap their
      delays, and the next check of a name is the one its latest cycle calls for. */
  ghost predicate Scheduled(watches: seq<Watch>, answers: nat -> Answer, runs: seq<Run>, next: map<string, nat>, now: nat) {
    && (forall i :: 0 <= i < |runs| ==> RunOk(watches, answers, runs[i]) && runs[i].end <= now)
    && (forall i :: 0 <= i < |runs| ==> FirstOfName(watches, runs[i].index))
    && Spaced(runs)
    && (forall i :: 0 <= i < |runs| ==>
          runs[i].watch.name in next && NextCheck(runs[i]) <= next[runs[i].watch.name])
    && LastChecks(runs, next)
  }

  lemma RunIsScheduled(watches: seq<Watch>, answers: nat -> Answer, runs: seq<Run>, next: map<string, nat>,
                       passStart: nat, before: nat, r: Run)
    requires Scheduled(watches, answers, runs, next, before) && RunOk(watches, answers, r)
    requires Due(r.watch, next, passStart) && FirstOfName(watches, r.index)
    requires passStart <= r.start && before <= r.end
    ensures Scheduled(watches, answers, runs + [r], next[r.watch.name := NextCheck(r)], r.end)
  {
    hide Happened, FirstOfName, LastChecks;
    LastChecksAppend(runs, next, r);
  }

  lemma StillScheduled(watches: seq<Watch>, answers: nat -> Answer, runs: seq<Run>, next: map<string, nat>,
                       before: nat, now: nat)
    requires Scheduled(watches, answers, runs, next, before) && before <= now
    ensures Scheduled(watches, answers, runs, next, now)
  {
    hide RunOk, Spaced, FirstOfName, LastChecks;
  }

  // ------------------------------------------------------------------------- one pass

  /** A cycle of the name was recorded at or after position `first`. */
  ghost predicate Touched(runs: seq<Run>, first: nat, name: string) {
    exists i :: first <= i < |runs| && runs[i].watch.name == name
  }

  lemma TouchedByAppend(runs: seq<Run>, first: nat, name: string, r: Run)
    requires first <= |runs|
    ensures Touched(runs + [r], first, name) <==> Touched(runs, first, name) || name == r.watch.name
  {
    var more := runs + [r];
    assert more[|runs|] == r;
    if Touched(runs, first, name) {
      var i :| first <= i < |runs| && runs[i].watch.name == name;
      assert more[i] == runs[i];
    }
  }

  /** The cycles since `first` are those of the watches at the given positions, in order. */
  ghost predicate Indices(watches: seq<Watch>, runs: seq<Run>, first: nat, indices: seq<nat>) {
    && |runs| == first + |indices|
    && forall i :: 0 <= i < |indices| ==>
      && runs[first + i].index == indices[i] && indices[i] < |watches| && runs[first + i].watch == watches[indices[i]]
  }

  /** Only names with a cycle since `first` have a new next check, and it is after the start of the pass. */
  ghost predicate Kept(runs: seq<Run>, next: map<string, nat>, was: map<string, nat>, first: nat, start: nat) {
    && (forall n :: !Touched(runs, first, n) ==> (n in next <==> n in was) && (n in next ==> next[n] == was[n]))
    && (forall n :: Touched(runs, first, n) ==> n in next && start < next[n])
  }

  /** A pass begun at `start` with the checks `was`, after its first `k` watches: its cycles are exactly those of
      the watches that were due and the first of their name, in order. */
  ghost predicate Progress(watches: seq<Watch>, runs: seq<Run>, next: map<string, nat>, was: map<string, nat>,
                           first: nat, k: nat, start: nat)
  {
    && k <= |watches| && first <= |runs|
    && Indices(watches, runs, first, DueList(watches, k, was, start))
    && Kept(runs, next, was, first, start)
  }

  lemma TouchedIsListed(watches: seq<Watch>, runs: seq<Run>, was: map<string, nat>, first: nat, k: nat, start: nat, name: string)
    requires Indices(watches, runs, first, DueList(watches, k, was, start)) && k <= |watches|
    ensures Touched(runs, first, name) <==>
      exists j: nat :: j < k && Served(watches, j, was, start) && watches[j].name == name
  {
    hide Served;
    var due := DueList(watches, k, was, start);
    DueListIsExact(watches, k, was, start);
    if Touched(runs, first, name) {
      var i :| first <= i < |runs| && runs[i].watch.name == name;
      assert runs[first + (i - first)].watch == watches[due[i - first]] && due[i - first] in due;
    }
    forall j: nat | j < k && Served(watches, j, was, start) && watches[j].name == name ensures Touched(runs, first, name) {
      assert j in due;
      var d :| 0 <= d < |due| && due[d] == j;
      assert runs[first + d].watch == watches[j];
    }
  }

  /** A watch is found due exactly when it was due at the start of the pass and is the first of its name. */
  lemma FoundDue(watches: seq<Watch>, runs: seq<Run>, next: map<string, nat>, was: map<string, nat>,
                 first: nat, k: nat, start: nat)
    requires Progress(watches, runs, next, was, first, k, start) && k < |watches|
    ensures Due(watches[k], next, start) <==> Served(watches, k, was, start)
  {
    hide Indices, DueList;
    var name := watches[k].name;
    TouchedIsListed(watches, runs, was, first, k, start, name);
    var f := FirstNamesake(watches, k);
    if Touched(runs, first, name) {
      var j: nat :| j < k && Served(watches, j, was, start) && watches[j].name == name;
      assert !FirstOfName(watches, k);
    } else {
      assert f < k ==> !Served(watches, f, was, start);
      assert Due(watches[f], was, start) <==> Due(watches[k], was, start);
    }
  }

  lemma Skips(watches: seq<Watch>, runs: seq<Run>, next: map<string, nat>, was: map<string, nat>,
              first: nat, k: nat, start: nat)
    requires Progress(watches, runs, next, was, first, k, start) && k < |watches| && !Due(watches[k], next, start)
    ensures Progress(watches, runs, next, was, first, k + 1, start)
  {
    hide Kept, Indices, Served, Due;
    FoundDue(watches, runs, next, was, first, k, start);
    assert DueList(watches, k + 1, was, start) == DueList(watches, k, was, start);
  }

  lemma RunKeeps(runs: seq<Run>, next: map<string, nat>, was: map<string, nat>, first: nat, start: nat, r: Run)
    requires first <= |runs| && Kept(runs, next, was, first, start) && start <= r.start < r.end
    ensures Kept(runs + [r], next[r.watch.name := NextCheck(r)], was, first, start)
  {
    forall n ensures Touched(runs + [r], first, n) <==> Touched(runs, first, n) || n == r.watch.name {
      TouchedByAppend(runs, first, n, r);
    }
  }

  lemma Runs(watches: seq<Watch>, runs: seq<Run>, next: map<string, nat>, was: map<string, nat>,
             first: nat, k: nat, start: nat, r: Run)
    requires Progress(watches, runs, next, was, first, k, start) && k < |watches| && Due(watches[k], next, start)
    requires r.index == k && r.watch == watches[k] && start <= r.start < r.end
    ensures Progress(watches, runs + [r], next[r.watch.name := NextCheck(r)], was, first, k + 1, start)
  {
    hide Kept, Served, Due;
    FoundDue(watches, runs, next, was, first, k, start);
    RunKeeps(runs, next, was, first, start, r);
  }

  lemma Begins(watches: seq<Watch>, runs: seq<Run>, next: map<string, nat>, start: nat)
    ensures Progress(watches, runs, next, next, |runs|, 0, start)
  {}

  /** `due` is not after the next check of any of the first `k` watches. */
  predicate NotLater(watches: seq<Watch>, next: map<string, nat>, k: nat, due: nat)
    requires k <= |watches|
  {
    forall j :: 0 <= j < k ==> watches[j].name in next && due <= next[watches[j].name]
  }

  const DEFAULT_INTERVAL: nat := 600 * SECOND

  // ----------------------------------------------------------------- from pass to pass

  /** One finished pass: the pause before it, when it began and was over, how many clock readings that took since the
      beginning, its first and last cycle, and the next checks before and after it. */
  datatype PassLog = PassLog(rest: nat, start: nat, over: nat, readings: nat, first: nat, last: nat,
                             was: map<string, nat>, next: map<string, nat>)

  ghost predicate PassOk(watches: seq<Watch>, runs: seq<Run>, p: PassLog) {
    && p.first <= p.last <= |runs| && p.start <= p.over
    && Progress(watches, runs[..p.last], p.next, p.was, p.first, |watches|, p.start)
    && LastChecks(runs[..p.last], p.next)
  }

  /** `due` is what the pause after the pass aims at: the next check of some watch, or the default interval. */
  ghost predicate Aims(watches: seq<Watch>, next: map<string, nat>, k: nat, start: nat, due: nat)
    requires k <= |watches|
  {
    due == start + 600 * SECOND || exists j :: 0 <= j < k && watches[j].name in next && due == next[watches[j].name]
  }

  /** When the pause after a pass begins. */
  function Pausing(lapses: nat -> nat, a: PassLog): nat { a.over + lapses(a.readings) }

  /** The pause after a pass is at most a second, ends at the next check of every watch or before, and ends early
      only for such a check or the default interval. */
  ghost predicate Idles(watches: seq<Watch>, lapses: nat -> nat, a: PassLog, rest: nat) {
    && rest <= SECOND
    && (forall k :: 0 <= k < |watches| ==>
          && watches[k].name in a.next
          && Pausing(lapses, a) + rest <= Max(Pausing(lapses, a), a.next[watches[k].name]))
    && (rest < SECOND ==> exists due: nat :: Aims(watches, a.next, |watches|, a.start, due) && due <= Pausing(lapses, a) + rest)
  }

  /** The clock when the pause is over, one delay after it should have been. */
  function Woken(lapses: nat -> nat, a: PassLog, rest: nat): nat {
    Pausing(lapses, a) + rest + lapses(a.readings + 1)
  }

  /** The second pass goes on where the first one ended. */
  ghost predicate Succeeds(watches: seq<Watch>, lapses: nat -> nat, a: PassLog, b: PassLog) {
    && Idles(watches, lapses, a, b.rest)
    && b.start == Woken(lapses, a, b.rest) + lapses(a.readings + 2)
    && b.first == a.last && b.was == a.next
  }

  ghost predicate Paced(watches: seq<Watch>, lapses: nat -> nat, runs: seq<Run>, history: seq<PassLog>, from: nat) {
    && from <= |history|
    && (forall i :: from <= i < |history| ==> PassOk(watches, runs, history[i]))
    && (forall i :: from <= i < |history| - 1 ==> Succeeds(watches, lapses, history[i], history[i + 1]))
  }

  lemma LongerRuns(watches: seq<Watch>, runs: seq<Run>, more: seq<Run>, p: PassLog)
    requires PassOk(watches, runs, p) && runs <= more
    ensures PassOk(watches, more, p)
  {
    assert more[..p.last] == runs[..p.last];
  }

  lemma StillPaced(watches: seq<Watch>, lapses: nat -> nat, runs: seq<Run>, more: seq<Run>, history: seq<PassLog>, from: nat)
    requires Paced(watches, lapses, runs, history, from) && runs <= more
    ensures Paced(watches, lapses, more, history, from)
  {
    hide PassOk, Succeeds;
    forall i | from <= i < |history| ensures PassOk(watches, more, history[i]) {
      LongerRuns(watches, runs, more, history[i]);
    }
  }

  lemma PassIsPaced(watches: seq<Watch>, lapses: nat -> nat, runs: seq<Run>, more: seq<Run>, history: seq<PassLog>,
                    from: nat, p: PassLog)
    requires Paced(watches, lapses, runs, history, from) && runs <= more && PassOk(watches, more, p)
    requires |history| > from ==> Succeeds(watches, lapses, history[|history| - 1], p)
    ensures Paced(watches, lapses, more, history + [p], from)
  {
    hide PassOk, Succeeds;
    StillPaced(watches, lapses, runs, more, history, from);
  }

  class Watchdog {
    const watches: seq<Watch> // the enabled ones
    var nextCheck: map<string, nat>
    ghost var runs: seq<Run>
    ghost var history: seq<PassLog> // the finished passes

    constructor (watches: seq<Watch>)
      ensures this.watches == watches && nextCheck == map[] && runs == [] && history == []
    {
      this.watches, nextCheck, runs, history := watches, map[], [], [];
    }

    /** The schedule is kept and everything in the books of the world since `base` is accounted for. */
    ghost predicate Valid(world: World, base: Base, cut: Option<Run>, r: PassEnd)
      reads this`nextCheck, this`runs, world`now, world`log, world`trace, world`asked
    {
      && Scheduled(watches, world.answers, runs, nextCheck, world.now)
      && Recorded(watches, world.answers, base, world.Books(), runs, cut, r)
    }

    /** One due watch: its cycle, and its next check counted from the end of the cycle. */
    method RunDue(k: nat, world: World, once: bool, ghost passStart: nat, ghost base: Base)
      returns (r: PassEnd, ghost cut: Option<Run>)
      requires k < |watches| && Valid(world, base, None, Passed(0))
      requires passStart <= world.now && Due(watches[k], nextCheck, passStart) && FirstOfName(watches, k)
      modifies this`nextCheck, this`runs, world
      ensures Valid(world, base, cut, r) && old(world.now) <= world.now
      ensures !r.NoWatches? && (r.Stopped? ==> world.Requested())
      ensures r.Aborted? ==> once && !r.outcome.Next?
      ensures !r.Passed? ==> runs == old(runs) && cut.Some? && cut.value.index == k
      ensures r.Passed? ==>
                && |runs| == |old(runs)| + 1
                && var run := runs[|old(runs)|];
                   && runs == old(runs) + [run] && run.index == k && run.watch == watches[k]
                   && old(world.now) <= run.start < run.end
                   && nextCheck == old(nextCheck)[run.watch.name := NextCheck(run)]
                   && r.nextDue == NextCheck(run)
    {
      hide Happened, Sound, Explained, Answered, Lines, FirstOfName, Scheduled, Recorded, Asked;
      var w := watches[k];
      ghost var start, before := world.now, world.Books();
      ghost var events, acts;
      var outcome;
      outcome, events, acts := RunWatchCycle(w, world);
      StillScheduled(watches, world.answers, runs, nextCheck, start, world.now);
      ghost var run := Run(k, w, start, world.now, |before.asked|, outcome, events, acts);
      ItHappened(watches, world.answers, run, world.Requested());
      if !outcome.Next? {
        if once {
          r := Aborted(outcome);
          AbortedIsUnrequested(watches, world.answers, run, world.Requested());
          CutIsRecorded(watches, world.answers, base, before, runs, run, world.Books(), r);
          return r, Some(run);
        }
        world.Log(ErrorLine(w.name));
      }
      assert world.log == before.log + RunLines(run);
      var delay := DelayAfter(w, outcome);
      if world.Requested() {
        world.Log(StopLine);
        CutIsRecorded(watches, world.answers, base, before, runs, run, world.Books(), Stopped);
        return Stopped, Some(run);
      }
      var end := world.ReadClock();
      ghost var done := run.(end := end);
      ItHappened(watches, world.answers, done, false);
      RunIsScheduled(watches, world.answers, runs, nextCheck, passStart, start, done);
      RunIsRecorded(watches, world.answers, base, before, runs, done, world.Books(), Passed(end + delay));
      runs := runs + [done];
      nextCheck := nextCheck[w.name := end + delay];
      r, cut := Passed(end + delay), None;
    }

    /** One pass over the enabled watches. `rest` was the pause before it. */
    method Pass(world: World, once: bool, ghost base: Base, ghost rest: nat)
      returns (r: PassEnd, passStart: nat, ghost cut: Option<Run>)
      requires Valid(world, base, None, Passed(0))
      modifies this, world
      ensures Valid(world, base, cut, r)
      ensures passStart == old(world.now) + world.lapses(old(world.readings)) && passStart <= world.now
      ensures !r.NoWatches? && (r.Stopped? ==> world.Requested())
      ensures r.Aborted? ==> once && !r.outcome.Next?
      ensures old(runs) <= runs
      ensures r.Passed? ==> NotLater(watches, nextCheck, |watches|, r.nextDue)
      ensures r.Passed? ==> Aims(watches, nextCheck, |watches|, passStart, r.nextDue)
      ensures !r.Passed? ==> history == old(history)
      ensures r.Passed? ==>
        history == old(history)
          + [PassLog(rest, passStart, world.now, world.readings, |old(runs)|, |runs|, old(nextCheck), nextCheck)]
      ensures r.Passed? ==> PassOk(watches, runs, history[|old(history)|])
    {
      hide RunOk, Progress, Scheduled, Recorded, FirstOfName, NextCheck, Happened, Ending, NotLater, Aims, LastChecks;
      ghost var early := world.now;
      passStart := world.ReadClock();
      StillScheduled(watches, world.answers, runs, nextCheck, early, world.now);
      var nextDue: nat := passStart + DEFAULT_INTERVAL;
      ghost var first := |runs|;
      Begins(watches, runs, nextCheck, passStart);
      FirstAim(watches, nextCheck, passStart);
      for k := 0 to |watches|
        invariant Valid(world, base, None, Passed(0)) && passStart <= world.now
        invariant old(runs) <= runs && history == old(history)
        invariant Progress(watches, runs, nextCheck, old(nextCheck), first, k, passStart)
        invariant NotLater(watches, nextCheck, k, nextDue) && Aims(watches, nextCheck, k, passStart, nextDue)
      {
        if world.Requested() {
          ghost var books := world.Books();
          world.Log(StopLine);
          StopIsRecorded(watches, world.answers, base, books, runs, world.Books());
          return Stopped, passStart, None;
        }
        var w := watches[k];
        ghost var before, next, dueBefore := runs, nextCheck, nextDue;
        if w.name in nextCheck && nextCheck[w.name] > passStart {
          nextDue := if nextDue < nextCheck[w.name] then nextDue else nextCheck[w.name];
          Skips(watches, runs, nextCheck, old(nextCheck), first, k, passStart);
          NextAim(watches, next, nextCheck, k, passStart, dueBefore, nextCheck[w.name]);
          continue;
        }
        FoundDueIsFirst(watches, runs, nextCheck, old(nextCheck), first, k, passStart);
        var end;
        end, cut := RunDue(k, world, once, passStart, base);
        if !end.Passed? {
          return end, passStart, cut;
        }
        CutIsNone(watches, world.answers, base, world.Books(), runs, cut, end);
        StillRecorded(watches, world.answers, base, world.Books(), runs, end, 0);
        Runs(watches, before, next, old(nextCheck), first, k, passStart, runs[|before|]);
        nextDue := if nextDue < end.nextDue then nextDue else end.nextDue;
        NewAim(watches, next, k, passStart, dueBefore, end.nextDue);
      }
      assert runs[..|runs|] == runs;
      ChecksAreLast(watches, world.answers, runs, nextCheck, world.now);
      history := history + [PassLog(rest, passStart, world.now, world.readings, first, |runs|, old(nextCheck), nextCheck)];
      StillRecorded(watches, world.answers, base, world.Books(), runs, Passed(0), nextDue);
      r, cut := Passed(nextDue), None;
    }

    /** What the pause after the latest pass leaves behind. */
    ghost predicate Awake(world: World, from: nat, rest: nat)
      reads this`nextCheck, this`runs, this`history, world`now, world`readings
    {
      |history| > from ==>
        var a := history[|history| - 1];
        && Idles(watches, world.lapses, a, rest) && world.now == Woken(world.lapses, a, rest)
        && world.readings == a.readings + 2 && nextCheck == a.next && |runs| == a.last
    }

    /** The pause after a pass. */
    method Pause(world: World, nextDue: nat, ghost from: nat) returns (stopped: bool, ghost rest: nat)
      requires |history| > from
      requires var a := history[|history| - 1];
        && a.over == world.now && a.readings == world.readings && a.next == nextCheck && a.last == |runs|
        && NotLater(watches, nextCheck, |watches|, nextDue) && Aims(watches, nextCheck, |watches|, a.start, nextDue)
      modifies world`now, world`readings, world`naps
      ensures old(world.now) <= world.now && (stopped <==> world.Requested())
      ensures !stopped ==> Awake(world, from, rest)
    {
      var now := world.ReadClock();
      var pause := if nextDue <= now then 0 else if nextDue - now < SECOND then nextDue - now else SECOND;
      stopped := world.Sleep(pause);
      rest := pause;
      ghost var a := history[|history| - 1];
      assert now == Pausing(world.lapses, a);
      assert pause < SECOND ==> nextDue <= now + pause;
    }

    /** Any number of passes. `passes` stands for how long the process is left running. Everything it writes to the
        log is accounted for, up to a last cycle that a shutdown or a single run's error cut short, and its passes
        follow each other as soon as a watch is due. */
    method RunWatchdog(world: World, once: bool, passes: nat, ghost base: Base)
      returns (r: PassEnd, ghost cut: Option<Run>)
      requires Valid(world, base, None, Passed(0))
      modifies this, world
      ensures Valid(world, base, cut, r) && old(runs) <= runs
      ensures r.NoWatches? <==> watches == []
      ensures r.Stopped? ==> world.Requested()
      ensures r.Aborted? ==> once && !r.outcome.Next?
      ensures old(history) <= history && Paced(watches, world.lapses, runs, history, |old(history)|)
      ensures r.Passed? ==> |history| == |old(history)| + if once && passes > 0 then 1 else passes
      ensures |history| > |old(history)| ==>
        history[|old(history)|].start == old(world.now) + world.lapses(old(world.readings))
      ensures once && passes > 0 && r.Passed? && old(nextCheck) == map[] ==>
        forall k: nat :: HadCycle(runs, |old(runs)|, k) <==> FirstOfName(watches, k)
    {
      hide RunOk, Progress, Scheduled, Recorded, HadCycle, FirstOfName, Idles, Woken, Pausing, PassOk, Paced, LastChecks, NotLater, Aims;
      assert Paced(watches, world.lapses, runs, history, |history|) by { NoPasses(watches, world.lapses, runs, history); }
      if watches == [] {
        NothingRecorded(watches, world.answers, base, world.Books(), runs);
        return NoWatches, None;
      }
      r, cut := Passed(0), None;
      ghost var rest := 0;
      for pass := 0 to passes
        invariant Valid(world, base, None, Passed(0)) && r == Passed(0) && cut.None? && old(runs) <= runs
        invariant old(history) <= history && |history| == |old(history)| + pass
        invariant Paced(watches, world.lapses, runs, history, |old(history)|) && Awake(world, |old(history)|, rest)
        invariant pass == 0 ==> world.now == old(world.now) && world.readings == old(world.readings)
        invariant pass > 0 ==> history[|old(history)|].start == old(world.now) + world.lapses(old(world.readings))
        invariant once ==> pass == 0 && runs == old(runs) && nextCheck == old(nextCheck)
      {
        if world.Requested() {
          ghost var books := world.Books();
          world.Log(StopLine);
          StopIsRecorded(watches, world.answers, base, books, runs, world.Books());
          return Stopped, None;
        }
        ghost var before, told := runs, history;
        var end, passStart;
        end, passStart, cut := Pass(world, once, base, rest);
        if !end.Passed? {
          StillPaced(watches, world.lapses, before, runs, told, |old(history)|);
          return end, cut;
        }
        PassIsPaced(watches, world.lapses, before, runs, told, |old(history)|, history[|told|]);
        CutIsNone(watches, world.answers, base, world.Books(), runs, cut, end);
        if once {
          OnePass(watches, runs, history[|told|]);
          return end, None;
        }
        StillRecorded(watches, world.answers, base, world.Books(), runs, end, 0);
        ghost var early := world.now;
        var stopped;
        stopped, rest := Pause(world, end.nextDue, |old(history)|);
        StillScheduled(watches, world.answers, runs, nextCheck, early, world.now);
        if stopped {
          ghost var books := world.Books();
          world.Log(StopLine);
          StopIsRecorded(watches, world.answers, base, books, runs, world.Books());
          return Stopped, None;
        }
        r, cut := Passed(0), None;
      }
    }
  }

  lemma FirstAim(watches: seq<Watch>, next: map<string, nat>, start: nat)
    ensures NotLater(watches, next, 0, start + DEFAULT_INTERVAL) && Aims(watches, next, 0, start, start + DEFAULT_INTERVAL)
  {}

  lemma NextAim(watches: seq<Watch>, was: map<string, nat>, next: map<string, nat>, k: nat, start: nat, before: nat, check: nat)
    requires k < |watches| && was == next && watches[k].name in next && check == next[watches[k].name]
    requires NotLater(watches, was, k, before) && Aims(watches, was, k, start, before)
    ensures var due := if before < check then before else check;
      NotLater(watches, next, k + 1, due) && Aims(watches, next, k + 1, start, due)
  {}

  lemma NewAim(watches: seq<Watch>, was: map<string, nat>, k: nat, start: nat, before: nat, check: nat)
    requires k < |watches| && FirstOfName(watches, k)
    requires NotLater(watches, was, k, before) && Aims(watches, was, k, start, before)
    ensures var due, next := if before < check then before else check, was[watches[k].name := check];
      NotLater(watches, next, k + 1, due) && Aims(watches, next, k + 1, start, due)
  {}

  lemma ChecksAreLast(watches: seq<Watch>, answers: nat -> Answer, runs: seq<Run>, next: map<string, nat>, now: nat)
    requires Scheduled(watches, answers, runs, next, now)
    ensures LastChecks(runs, next)
  {}

  lemma NoPasses(watches: seq<Watch>, lapses: nat -> nat, runs: seq<Run>, history: seq<PassLog>)
    ensures Paced(watches, lapses, runs, history, |history|)
  {}

  lemma OnePass(watches: seq<Watch>, runs: seq<Run>, p: PassLog)
    requires PassOk(watches, runs, p) && p.last == |runs|
    ensures p.was == map[] ==> forall k: nat :: HadCycle(runs, p.first, k) <==> FirstOfName(watches, k)
  {
    hide Progress, HadCycle, LastChecks;
    assert runs[..|runs|] == runs;
    PassServesTheDue(watches, runs, p.next, p.was, p.first, p.start);
  }

  lemma ItHappened(watches: seq<Watch>, answers: nat -> Answer, r: Run, requested: bool)
    requires r.index < |watches| && r.watch == watches[r.index]
    requires Sound(r.watch, r.events, r.acts) && Explained(r.watch, r.events, r.acts, requested, r.outcome)
    requires Answered(r.watch, answers, r.from, r.acts)
    requires r.outcome.CommandError? ==> answers(r.from + |r.acts|).Unrunnable?
    ensures Happened(watches, answers, r, requested)
  {}

  /** An error is explained without the shutdown. */
  lemma AbortedIsUnrequested(watches: seq<Watch>, answers: nat -> Answer, r: Run, requested: bool)
    requires Happened(watches, answers, r, requested) && !r.outcome.Next?
    ensures Happened(watches, answers, r, false)
  {
    hide Sound, EndsUnrecovered, HasOutcome, ClosedLog, Answered;
  }

  lemma CutIsNone(watches: seq<Watch>, answers: nat -> Answer, base: Base, books: Base, runs: seq<Run>,
                  cut: Option<Run>, end: PassEnd)
    requires Recorded(watches, answers, base, books, runs, cut, end) && end.Passed?
    ensures cut.None?
  {}

  lemma NothingRecorded(watches: seq<Watch>, answers: nat -> Answer, base: Base, books: Base, runs: seq<Run>)
    requires Recorded(watches, answers, base, books, runs, None, Passed(0))
    ensures Recorded(watches, answers, base, books, runs, None, NoWatches)
  {}

  lemma FoundDueIsFirst(watches: seq<Watch>, runs: seq<Run>, next: map<string, nat>, was: map<string, nat>,
                        first: nat, k: nat, start: nat)
    requires Progress(watches, runs, next, was, first, k, start) && k < |watches| && Due(watches[k], next, start)
    ensures FirstOfName(watches, k)
  {
    hide Progress;
    FoundDue(watches, runs, next, was, first, k, start);
  }

  // ---- what the runs say ----

  ghost predicate HadCycle(runs: seq<Run>, first: nat, k: nat) {
    exists i :: first <= i < |runs| && runs[i].index == k
  }

  /** In a finished pass, exactly the watches that were due at its start and are the first of their name have a
      cycle, one each, in order. */
  lemma PassServesTheDue(watches: seq<Watch>, runs: seq<Run>, next: map<string, nat>, was: map<string, nat>,
                         first: nat, start: nat)
    requires Progress(watches, runs, next, was, first, |watches|, start)
    ensures forall k: nat :: HadCycle(runs, first, k) <==> Served(watches, k, was, start)
    ensures forall i, j :: first <= i < j < |runs| ==> runs[i].index < runs[j].index
  {
    hide Kept, Served;
    var due := DueList(watches, |watches|, was, start);
    DueListIsExact(watches, |watches|, was, start);
    forall i | first <= i < |runs| ensures runs[i].index == due[i - first] && runs[i].index in due {
      assert runs[first + (i - first)].index == due[i - first];
    }
    forall k: nat ensures HadCycle(runs, first, k) <==> Served(watches, k, was, start) {
      ServedIsThere(watches, k, was, start);
      assert k in due <==> k < |watches| && Served(watches, k, was, start);
      if k in due {
        var d :| 0 <= d < |due| && due[d] == k;
        assert runs[first + d].index == k;
      }
    }
  }

  lemma ServedIsThere(watches: seq<Watch>, k: nat, next: map<string, nat>, now: nat)
    ensures Served(watches, k, next, now) ==> k < |watches|
  {}

  /** Of two enabled watches with one name the second never gets a cycle, and the first gets its own. */
  lemma NamesakeIsStarved(w: Watch, v: Watch, runs: seq<Run>, next: map<string, nat>, was: map<string, nat>,
                          first: nat, start: nat)
    requires w.name == v.name && Progress([w, v], runs, next, was, first, 2, start)
    ensures !HadCycle(runs, first, 1) && (HadCycle(runs, first, 0) <==> Due(w, was, start))
  {
    hide Progress, HadCycle;
    PassServesTheDue([w, v], runs, next, was, first, start);
    assert [w, v][0].name == [w, v][1].name;
    assert !FirstOfName([w, v], 1) && FirstOfName([w, v], 0);
  }

  /** The wait a finished cycle calls for: the cooldown counts only when it reached an outcome or failed. */
  function Wait(w: Watch, r: Outcome, events: seq<Event>): nat {
    if !r.Next? || HasOutcome(events) then Max(w.interval, w.cooldown) else w.interval
  }

  /** In every run, a cycle starts no earlier than the end of any earlier one of its name, plus the wait. */
  lemma CyclesWait(watches: seq<Watch>, answers: nat -> Answer, runs: seq<Run>, next: map<string, nat>, now: nat, i: nat, j: nat)
    requires Scheduled(watches, answers, runs, next, now) && i < j < |runs|
    requires runs[i].watch.name == runs[j].watch.name
    ensures runs[i].end + Wait(runs[i].watch, runs[i].outcome, runs[i].events) <= runs[j].start
  {
    assert RunOk(watches, answers, runs[i]);
    NextCheckIsWait(watches, answers, runs[i]);
  }

  // ---- how late a due watch is found

  /** No two clock readings, and no sleep and its wake, are more than `slack` further apart than asked for. */
  ghost predicate Steady(lapses: nat -> nat, slack: nat) { forall n: nat :: lapses(n) <= slack }

  /** Each pass follows the one before within a second, and as soon as any watch is due. */
  lemma PassesComeInTime(watches: seq<Watch>, lapses: nat -> nat, runs: seq<Run>, history: seq<PassLog>, from: nat,
                         p: nat, k: nat, slack: nat)
    requires Paced(watches, lapses, runs, history, from) && Steady(lapses, slack)
    requires from <= p < |history| - 1 && k < |watches|
    ensures var a, b := history[p], history[p + 1];
      && watches[k].name in a.next && b.start <= Max(a.over, a.next[watches[k].name]) + 3 * slack
      && b.start <= a.over + SECOND + 3 * slack
  {
    assert Succeeds(watches, lapses, history[p], history[p + 1]);
  }

  /** With `i` the latest cycle of a name, the next pass runs its watch again exactly when the wait after that cycle
      is over, and comes no later than that, a pass that is still busy and the clock's delays aside. */
  lemma CyclesComeInTime(watches: seq<Watch>, answers: nat -> Answer, lapses: nat -> nat, runs: seq<Run>,
                         next: map<string, nat>, now: nat, history: seq<PassLog>, from: nat, p: nat, k: nat, i: nat,
                         slack: nat)
    requires Scheduled(watches, answers, runs, next, now)
    requires Paced(watches, lapses, runs, history, from) && Steady(lapses, slack) && from <= p < |history| - 1
    requires FirstOfName(watches, k) && history[p + 1].first <= |runs|
    requires Latest(runs[..history[p + 1].first], i) && runs[i].watch.name == watches[k].name
    ensures var a, b := history[p], history[p + 1];
      var due := runs[i].end + Wait(runs[i].watch, runs[i].outcome, runs[i].events);
      && b.last <= |runs| && (HadCycle(runs[..b.last], b.first, k) <==> due <= b.start)
      && b.start <= Max(a.over, due) + 3 * slack
  {
    hide Idles, Happened, Progress, HadCycle, Spaced, Steady;
    var a, b := history[p], history[p + 1];
    PassesComeInTime(watches, lapses, runs, history, from, p, k, slack);
    assert PassOk(watches, runs, a) && PassOk(watches, runs, b) && Succeeds(watches, lapses, a, b);
    PassServesTheDue(watches, runs[..b.last], b.next, b.was, b.first, b.start);
    assert a.next[watches[k].name] == NextCheck(runs[..a.last][i]);
    assert RunOk(watches, answers, runs[i]);
    NextCheckIsWait(watches, answers, runs[i]);
  }

  lemma NextCheckIsWait(watches: seq<Watch>, answers: nat -> Answer, r: Run)
    requires RunOk(watches, answers, r)
    ensures NextCheck(r) == r.end + Wait(r.watch, r.outcome, r.events)
  {
    hide Sound, HasOutcome, EndsUnrecovered, ClosedLog, Answered;
  }
}
