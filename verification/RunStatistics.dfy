/**
 * From the scheduler to the statistics: the log that a run of the watchdog writes is one that the statistics read
 * correctly, whatever the commands answered and however the cycles of its watches interleave.
 */
module RunStatistics {
  import opened Wrappers
  import opened WatchEvents
  import opened LogText
  import opened LogRecords
  import opened WatchStats
  import opened CycleStats
  import opened StatsReport
  import C = WatchCycle
  import S = Scheduler

  // ---- the written lines of a log

  /** A line of the file, with its timestamp and text, is what the watchdog logged. */
  predicate Writes(line: Line, said: C.LogLine) {
    match said
    case LogLine(watch, event) => line.Told? && line.watch == watch && line.entry.event == event
    case ErrorLine(watch) => line.WatchError? && line.watch == watch
    case StopLine => line.Stopped?
  }

  predicate Transcribes(lines: seq<Line>, log: seq<C.LogLine>) {
    |lines| == |log| && forall i :: 0 <= i < |log| ==> Writes(lines[i], log[i])
  }

  lemma TranscribesSplit(lines: seq<Line>, a: seq<C.LogLine>, b: seq<C.LogLine>)
    requires Transcribes(lines, a + b)
    ensures |a| <= |lines| && Transcribes(lines[..|a|], a) && Transcribes(lines[|a|..], b)
  {
    var log := a + b;
    forall i | 0 <= i < |a| ensures Writes(lines[..|a|][i], a[i]) { assert Writes(lines[i], log[i]); }
    forall i | 0 <= i < |b| ensures Writes(lines[|a|..][i], b[i]) { assert Writes(lines[|a| + i], log[|a| + i]); }
  }

  lemma {:induction false} OwnConcat(name: string, a: seq<Line>, b: seq<Line>)
    ensures Own(name, a + b) == Own(name, a) + Own(name, b)
  {
    if b == [] {
      assert a + b == a;
    } else {
      var front := b[..|b| - 1];
      OwnConcat(name, a, front);
      assert (a + b)[..|a + b| - 1] == a + front;
    }
  }

  /** The lines of one watch are its events, and no other watch's. */
  lemma {:induction false} OwnOfLines(name: string, lines: seq<Line>, watch: string, events: seq<Event>)
    requires Transcribes(lines, C.Lines(watch, events))
    ensures if name == watch then Events(Own(name, lines)) == events else Own(name, lines) == []
  {
    if lines != [] {
      var front := lines[..|lines| - 1];
      var n := |events| - 1;
      forall i | 0 <= i < n ensures Writes(front[i], C.Lines(watch, events[..n])[i]) {
        assert Writes(lines[i], C.Lines(watch, events)[i]);
      }
      OwnOfLines(name, front, watch, events[..n]);
      assert Writes(lines[n], C.Lines(watch, events)[n]);
      assert events == events[..n] + [events[n]];
    }
  }

  predicate Silent(log: seq<C.LogLine>) { forall i :: 0 <= i < |log| ==> !log[i].LogLine? }

  lemma {:induction false} OwnOfSilence(name: string, lines: seq<Line>, log: seq<C.LogLine>)
    requires Transcribes(lines, log) && Silent(log)
    ensures Own(name, lines) == []
  {
    if lines != [] {
      var n := |log| - 1;
      assert Writes(lines[n], log[n]);
      OwnOfSilence(name, lines[..n], log[..n]);
    }
  }

  /** One cycle and the silence after it. */
  lemma CycleTold(name: string, lines: seq<Line>, watch: string, events: seq<Event>, rest: seq<C.LogLine>)
    requires Transcribes(lines, C.Lines(watch, events) + rest) && Silent(rest)
    ensures if name == watch then Events(Own(name, lines)) == events else Own(name, lines) == []
  {
    var a := C.Lines(watch, events);
    TranscribesSplit(lines, a, rest);
    OwnOfLines(name, lines[..|a|], watch, events);
    OwnOfSilence(name, lines[|a|..], rest);
    OwnConcat(name, lines[..|a|], lines[|a|..]);
    assert lines == lines[..|a|] + lines[|a|..];
    assert Own(name, lines[..|a|]) + [] == Own(name, lines[..|a|]);
  }

  // ---- the cycles of one watch

  function Named(name: string, runs: seq<S.Run>): seq<S.Run> {
    if runs == [] then [] else
      var last := runs[|runs| - 1];
      Named(name, runs[..|runs| - 1]) + if last.watch.name == name then [last] else []
  }

  /** The cycles tell what the runs did, one each. */
  predicate Retell(cycles: seq<Cycle>, runs: seq<S.Run>) {
    |cycles| == |runs| && forall i :: 0 <= i < |runs| ==> Events(cycles[i]) == runs[i].events
  }

  lemma FlatAppend(cycles: seq<Cycle>, c: Cycle)
    ensures Flat(cycles + [c]) == Flat(cycles) + c
  {
    assert (cycles + [c])[..|cycles|] == cycles;
  }

  /** One more run and its lines. */
  lemma MoreTold(name: string, before: seq<Line>, after: seq<Line>, runs: seq<S.Run>, r: S.Run, cycles: seq<Cycle>,
                 rest: seq<C.LogLine>)
    returns (more: seq<Cycle>)
    requires Retell(cycles, Named(name, runs)) && Own(name, before) == Flat(cycles)
    requires Transcribes(after, C.Lines(r.watch.name, r.events) + rest) && Silent(rest)
    ensures Retell(more, Named(name, runs + [r])) && Own(name, before + after) == Flat(more)
  {
    hide Transcribes, Own, Flat;
    CycleTold(name, after, r.watch.name, r.events, rest);
    OwnConcat(name, before, after);
    assert (runs + [r])[..|runs|] == runs;
    if r.watch.name == name {
      more := cycles + [Own(name, after)];
      FlatAppend(cycles, Own(name, after));
    } else {
      more := cycles;
      assert Own(name, before) + [] == Own(name, before);
      assert Named(name, runs) + [] == Named(name, runs);
    }
  }

  lemma NothingTold(name: string, lines: seq<Line>)
    requires Transcribes(lines, [])
    ensures lines == [] && Retell([], Named(name, [])) && Own(name, []) == Flat([])
  {}

  lemma {:induction false} RunsTold(name: string, lines: seq<Line>, runs: seq<S.Run>) returns (cycles: seq<Cycle>)
    requires Transcribes(lines, S.LogOf(runs))
    ensures Retell(cycles, Named(name, runs)) && Own(name, lines) == Flat(cycles)
    decreases |runs|
  {
    hide Transcribes, Retell, Own, Flat, Named;
    if runs == [] {
      NothingTold(name, lines);
      cycles := [];
    } else {
      var front, last := runs[..|runs| - 1], runs[|runs| - 1];
      var a := S.LogOf(front);
      TranscribesSplit(lines, a, S.RunLines(last));
      var before := RunsTold(name, lines[..|a|], front);
      var rest: seq<C.LogLine> := if last.outcome.Next? then [] else [C.ErrorLine(last.watch.name)];
      cycles := MoreTold(name, lines[..|a|], lines[|a|..], front, last, before, rest);
      assert lines == lines[..|a|] + lines[|a|..] && runs == front + [last];
    }
  }

  /** All cycles, with the one that was cut short. */
  function WithCut(runs: seq<S.Run>, cut: Option<S.Run>): seq<S.Run> {
    if cut.Some? then runs + [cut.value] else runs
  }

  /** The whole log of a process, up to how it ended. */
  lemma LogIsTold(name: string, lines: seq<Line>, runs: seq<S.Run>, cut: Option<S.Run>, end: S.PassEnd)
    returns (cycles: seq<Cycle>)
    requires Transcribes(lines, S.LogOf(runs) + S.Ending(cut, end))
    requires end.Passed? || end.NoWatches? ==> cut.None?
    requires end.Aborted? ==> cut.Some?
    ensures Retell(cycles, Named(name, WithCut(runs, cut))) && Own(name, lines) == Flat(cycles)
  {
    hide Transcribes, Own, Flat, Retell, Named;
    var a, b := S.LogOf(runs), S.Ending(cut, end);
    TranscribesSplit(lines, a, b);
    cycles := RunsTold(name, lines[..|a|], runs);
    assert lines == lines[..|a|] + lines[|a|..];
    if cut.Some? {
      var r := cut.value;
      var rest: seq<C.LogLine> :=
        if end.Aborted? then [] else (if r.outcome.Next? then [] else [C.ErrorLine(r.watch.name)]) + [C.StopLine];
      assert b == C.Lines(r.watch.name, r.events) + rest;
      cycles := MoreTold(name, lines[..|a|], lines[|a|..], runs, r, cycles, rest);
    } else {
      OwnOfSilence(name, lines[|a|..], b);
      OwnConcat(name, lines[..|a|], lines[|a|..]);
      assert Own(name, lines[..|a|]) + [] == Own(name, lines[..|a|]);
    }
  }

  // ---- what every run wrote

  /** A run, finished or cut, of the first watch of its name. */
  ghost predicate Proper(watches: seq<C.Watch>, r: S.Run) {
    S.FirstOfName(watches, r.index) && r.watch == watches[r.index] && IsCycle(C.Confirms(r.watch), r.events)
  }

  lemma RunsAreProper(watches: seq<C.Watch>, answers: nat -> C.Answer, runs: seq<S.Run>, next: map<string, nat>, now: nat,
                      base: C.Base, books: C.Base, cut: Option<S.Run>, end: S.PassEnd)
    requires S.Scheduled(watches, answers, runs, next, now)
    requires S.Recorded(watches, answers, base, books, runs, cut, end)
    ensures forall i :: 0 <= i < |WithCut(runs, cut)| ==> Proper(watches, WithCut(runs, cut)[i])
  {
    hide S.Spaced, S.LogOf, S.TraceOf, S.AskedOf, S.FirstOfName, C.Explained, C.Answered, C.Follows, C.EventMarks, C.ActMarks, IsCycle;
    forall i | 0 <= i < |runs| ensures Proper(watches, runs[i]) { assert S.RunOk(watches, answers, runs[i]); }
  }

  lemma {:induction false} NamedAreProper(watches: seq<C.Watch>, k: nat, runs: seq<S.Run>)
    requires S.FirstOfName(watches, k) && forall i :: 0 <= i < |runs| ==> Proper(watches, runs[i])
    ensures var named := Named(watches[k].name, runs);
      forall i :: 0 <= i < |named| ==> named[i].watch == watches[k] && IsCycle(C.Confirms(watches[k]), named[i].events)
  {
    hide IsCycle;
    if runs != [] {
      var last := runs[|runs| - 1];
      NamedAreProper(watches, k, runs[..|runs| - 1]);
      assert Proper(watches, last);
      if last.watch.name == watches[k].name {
        SameFirst(watches, last.index, k);
        assert last.watch == watches[k] && IsCycle(C.Confirms(watches[k]), last.events);
      } else {
        assert Named(watches[k].name, runs) == Named(watches[k].name, runs[..|runs| - 1]);
      }
    }
  }

  lemma SameFirst(watches: seq<C.Watch>, j: nat, k: nat)
    requires S.FirstOfName(watches, j) && S.FirstOfName(watches, k) && watches[j].name == watches[k].name
    ensures j == k
  {}

  /** What a process left behind: a schedule that was kept and a log that starts empty. */
  ghost predicate Left(watches: seq<C.Watch>, answers: nat -> C.Answer, runs: seq<S.Run>, cut: Option<S.Run>,
                       end: S.PassEnd, log: seq<C.LogLine>)
  {
    exists next, now, base: C.Base, books: C.Base ::
      && S.Scheduled(watches, answers, runs, next, now) && S.Recorded(watches, answers, base, books, runs, cut, end)
      && base.log == [] && books.log == log
  }

  /**
   * For the first watch of a name, the lines it wrote are the lines of its cycles in order, each a whole cycle of
   * the language of cycles, and no line of another watch is mistaken for one of its own.
   */
  lemma LogIsCycles(watches: seq<C.Watch>, answers: nat -> C.Answer, runs: seq<S.Run>, cut: Option<S.Run>, end: S.PassEnd,
                    log: seq<C.LogLine>, lines: seq<Line>, k: nat)
    returns (cycles: seq<Cycle>)
    requires Left(watches, answers, runs, cut, end, log) && Transcribes(lines, log) && S.FirstOfName(watches, k)
    ensures Own(watches[k].name, lines) == Flat(cycles)
    ensures Retell(cycles, Named(watches[k].name, WithCut(runs, cut)))
    ensures AreCycles(C.Confirms(watches[k]), cycles)
  {
    hide Transcribes, Own, Flat, Named, S.Scheduled, S.LogOf, S.TraceOf, S.AskedOf, S.FirstOfName, S.Happened, IsCycle;
    FirstIsThere(watches, k);
    var next, now, base: C.Base, books: C.Base :|
      && S.Scheduled(watches, answers, runs, next, now) && S.Recorded(watches, answers, base, books, runs, cut, end)
      && base.log == [] && books.log == log;
    assert log == S.LogOf(runs) + S.Ending(cut, end);
    cycles := LogIsTold(watches[k].name, lines, runs, cut, end);
    RunsAreProper(watches, answers, runs, next, now, base, books, cut, end);
    NamedAreProper(watches, k, WithCut(runs, cut));
  }

  lemma {:induction false} FlatConcat(a: seq<Cycle>, b: seq<Cycle>)
    ensures Flat(a + b) == Flat(a) + Flat(b)
  {
    if b == [] {
      assert a + b == a;
    } else {
      var front := b[..|b| - 1];
      FlatConcat(a, front);
      assert (a + b)[..|a + b| - 1] == a + front;
    }
  }

  /** A process that appends to the log of an earlier one leaves whole cycles again. */
  lemma RestartsJoin(name: string, confirm: bool, before: seq<Line>, after: seq<Line>, a: seq<Cycle>, b: seq<Cycle>)
    requires Own(name, before) == Flat(a) && AreCycles(confirm, a)
    requires Own(name, after) == Flat(b) && AreCycles(confirm, b)
    ensures Own(name, before + after) == Flat(a + b) && AreCycles(confirm, a + b)
  {
    hide Own, Flat, IsCycle;
    OwnConcat(name, before, after);
    FlatConcat(a, b);
  }

  // ---- names without white space

  predicate SolidWatches(watches: seq<C.Watch>) { forall k :: 0 <= k < |watches| ==> Solid(watches[k].name) }

  predicate SolidLog(log: seq<C.LogLine>) { forall i :: 0 <= i < |log| && log[i].LogLine? ==> Solid(log[i].watch) }

  lemma SolidConcat(a: seq<C.LogLine>, b: seq<C.LogLine>)
    requires SolidLog(a) && SolidLog(b)
    ensures SolidLog(a + b)
  {}

  lemma {:induction false} RunsAreSolid(runs: seq<S.Run>)
    requires forall i :: 0 <= i < |runs| ==> Solid(runs[i].watch.name)
    ensures SolidLog(S.LogOf(runs))
  {
    hide Solid;
    if runs != [] {
      RunsAreSolid(runs[..|runs| - 1]);
      SolidConcat(S.LogOf(runs[..|runs| - 1]), S.RunLines(runs[|runs| - 1]));
    }
  }

  lemma TranscriptIsSolid(lines: seq<Line>, log: seq<C.LogLine>)
    requires Transcribes(lines, log) && SolidLog(log)
    ensures SolidNames(lines)
  {
    hide Solid;
    forall i | 0 <= i < |lines| && lines[i].Told? ensures Solid(lines[i].watch) { assert Writes(lines[i], log[i]); }
  }

  lemma LogIsSolid(watches: seq<C.Watch>, answers: nat -> C.Answer, runs: seq<S.Run>, cut: Option<S.Run>, end: S.PassEnd,
                   log: seq<C.LogLine>)
    requires Left(watches, answers, runs, cut, end, log) && SolidWatches(watches)
    ensures SolidLog(log)
  {
    hide Solid, S.Scheduled, S.LogOf, S.TraceOf, S.AskedOf, S.FirstOfName, S.Happened, IsCycle;
    var next, now, base: C.Base, books: C.Base :|
      && S.Scheduled(watches, answers, runs, next, now) && S.Recorded(watches, answers, base, books, runs, cut, end)
      && base.log == [] && books.log == log;
    RunsAreProper(watches, answers, runs, next, now, base, books, cut, end);
    var all := WithCut(runs, cut);
    forall i | 0 <= i < |all| ensures Solid(all[i].watch.name) {
      assert Proper(watches, all[i]);
      FirstIsThere(watches, all[i].index);
    }
    forall i | 0 <= i < |runs| ensures Solid(runs[i].watch.name) { assert runs[i] == all[i]; }
    if cut.Some? { assert all[|runs|] == cut.value; }
    RunsAreSolid(runs);
    SolidConcat(S.LogOf(runs), S.Ending(cut, end));
    assert log == S.LogOf(runs) + S.Ending(cut, end);
  }

  // ---- the counts

  ghost predicate RunConfirmed(r: S.Run) { exists i :: 0 <= i < |r.events| && IsOutage(r.events[i]) }
  ghost predicate RunRecovered(r: S.Run) { exists i :: 0 <= i < |r.events| && r.events[i].Recovered? }
  ghost predicate RunAttempted(r: S.Run) { exists i :: 0 <= i < |r.events| && r.events[i].RecoveryStart? }
  ghost predicate RunFailed(r: S.Run) { exists i :: 0 <= i < |r.events| && IsFailure(r.events[i]) }

  lemma {:induction false} CountRetold(fact: Cycle -> bool, test: S.Run -> bool, cycles: seq<Cycle>, runs: seq<S.Run>)
    requires |cycles| == |runs| && forall i :: 0 <= i < |runs| ==> fact(cycles[i]) == test(runs[i])
    ensures Count(fact, cycles) == Count(test, runs)
  {
    if runs != [] { CountRetold(fact, test, cycles[..|runs| - 1], runs[..|runs| - 1]); }
  }

  lemma RetoldAlike(c: Cycle, r: S.Run)
    requires Events(c) == r.events
    ensures ConfirmedOutage(c) == RunConfirmed(r) && LoggedRecovery(c) == RunRecovered(r)
    ensures AttemptedRecovery(c) == RunAttempted(r) && FailedCommand(c) == RunFailed(r)
  {
    assert |c| == |r.events| && forall i :: 0 <= i < |c| ==> c[i].event == Events(c)[i] == r.events[i];
  }

  lemma RetoldCounts(cycles: seq<Cycle>, runs: seq<S.Run>)
    requires Retell(cycles, runs)
    ensures Count(ConfirmedOutage, cycles) == Count(RunConfirmed, runs)
    ensures Count(LoggedRecovery, cycles) == Count(RunRecovered, runs)
    ensures Count(AttemptedRecovery, cycles) == Count(RunAttempted, runs)
    ensures Count(FailedCommand, cycles) == Count(RunFailed, runs)
  {
    hide ConfirmedOutage, LoggedRecovery, AttemptedRecovery, FailedCommand;
    hide RunConfirmed, RunRecovered, RunAttempted, RunFailed, Count;
    forall i | 0 <= i < |runs|
      ensures ConfirmedOutage(cycles[i]) == RunConfirmed(runs[i]) && LoggedRecovery(cycles[i]) == RunRecovered(runs[i])
      ensures AttemptedRecovery(cycles[i]) == RunAttempted(runs[i]) && FailedCommand(cycles[i]) == RunFailed(runs[i])
    {
      RetoldAlike(cycles[i], runs[i]);
    }
    CountRetold(ConfirmedOutage, RunConfirmed, cycles, runs);
    CountRetold(LoggedRecovery, RunRecovered, cycles, runs);
    CountRetold(AttemptedRecovery, RunAttempted, cycles, runs);
    CountRetold(FailedCommand, RunFailed, cycles, runs);
  }

  /**
   * The report over the text of a log that a process of the watchdog wrote counts, for the first watch of a name
   * with a confirmation delay, the cycles of that watch that confirmed an outage, logged a recovery, attempted one
   * and logged a failed command, the cycle that was cut short included. Without the delay it counts none.
   */
  lemma ReportCountsRuns(
      watches: seq<C.Watch>, answers: nat -> C.Answer, runs: seq<S.Run>, cut: Option<S.Run>, end: S.PassEnd,
      log: seq<C.LogLine>, codec: Codec, lines: seq<Line>, k: nat, filter: Option<string>, r: Report, j: nat)
    requires Left(watches, answers, runs, cut, end, log) && Transcribes(lines, log) && S.FirstOfName(watches, k)
    requires codec.Faithful() && Dated(codec, lines) && SolidWatches(watches)
    requires Describes(r, filter, Parsed(codec, Texts(codec, lines)))
    requires j < |r.watches| && r.watches[j].watch == watches[k].name
    ensures var t, named := r.watches[j].totals, Named(watches[k].name, WithCut(runs, cut));
      if C.Confirms(watches[k]) then
        && t.confirmed == Count(RunConfirmed, named) && t.recovered == Count(RunRecovered, named)
        && t.unrecovered == t.confirmed - t.recovered
        && t.attempts == Count(RunAttempted, named) && t.failures == Count(RunFailed, named)
      else t == Totals(0, 0, 0, 0, 0)
  {
    hide Left, Transcribes, Own, Flat, Named, Count, Describes, Parsed, Texts, AreCycles, SolidNames, Dated, Retell;
    hide S.FirstOfName, SolidLog, SolidWatches;
    FirstIsThere(watches, k);
    LogIsSolid(watches, answers, runs, cut, end, log);
    TranscriptIsSolid(lines, log);
    var name := watches[k].name;
    var cycles := LogIsCycles(watches, answers, runs, cut, end, log, lines, k);
    RetoldCounts(cycles, Named(name, WithCut(runs, cut)));
    if C.Confirms(watches[k]) {
      ReportAgreesWithCycles(codec, lines, name, cycles, filter, r, j);
    } else {
      UnconfirmedOutagesAreNotCounted(codec, lines, name, cycles, filter, r, j);
    }
  }

  lemma FirstIsThere(watches: seq<C.Watch>, k: nat)
    requires S.FirstOfName(watches, k)
    ensures k < |watches|
  {}

  // ---- a process

  lemma NothingYet(watches: seq<C.Watch>, answers: nat -> C.Answer)
    ensures S.Scheduled(watches, answers, [], map[], 0)
    ensures S.Recorded(watches, answers, C.Base([], [], []), C.Base([], [], []), [], None, S.Passed(0))
  {}

  /** A process with an empty log leaves one that `LogIsCycles` and `ReportCountsRuns` are about. */
  method RunProcess(watches: seq<C.Watch>, answers: nat -> C.Answer, lapses: nat -> nat, shutdownAt: Option<nat>,
                    once: bool, passes: nat)
    returns (end: S.PassEnd, log: seq<C.LogLine>, ghost runs: seq<S.Run>, ghost cut: Option<S.Run>)
    ensures Left(watches, answers, runs, cut, end, log)
    ensures end.NoWatches? <==> watches == []
    ensures end.Stopped? ==> shutdownAt.Some?
    ensures once && passes > 0 && end.Passed? ==>
      forall k: nat :: S.HadCycle(runs, 0, k) <==> S.FirstOfName(watches, k)
  {
    hide S.Scheduled, S.Recorded, S.HadCycle, S.FirstOfName;
    var world := new C.World(answers, lapses, shutdownAt);
    var watchdog := new S.Watchdog(watches);
    NothingYet(watches, answers);
    ghost var base := C.Base([], [], []);
    end, cut := watchdog.RunWatchdog(world, once, passes, base);
    log, runs := world.log, watchdog.runs;
    assert S.Scheduled(watches, answers, runs, watchdog.nextCheck, world.now);
    assert S.Recorded(watches, answers, base, world.Books(), runs, cut, end) && world.Books().log == log;
  }
}
