/** One watch cycle of belter-watchdog: `run_watch_cycle` over any stream of command
    outcomes, clock readings and shutdown times. */
module WatchCycle {
  import opened Wrappers
  import opened WatchEvents

  const SECOND: nat := 1_000_000_000

  /** Durations are nanoseconds of the monotonic clock. `hasAllow` says that an admission
      command is configured. */
  datatype Watch = Watch(
    name: string, hasAllow: bool, interval: nat, confirmAfter: nat, cooldown: nat, stabilization: nat, poll: nat,
    healthyExitCode: Option<int>, healthyValue: Option<string>, transitional: seq<string>)

  /** A finished command; `reading` is the value its JSON output holds at the configured path. */
  datatype Output = Output(code: Option<int>, timedOut: bool, reading: Option<string>, stderr: string)

  /** A command either cannot be run or runs for `duration` beyond the first clock tick. */
  datatype Answer = Unrunnable | Ran(output: Output, duration: nat)

  function Max(a: nat, b: nat): nat { if a < b then b else a }

  function EvaluateHealth(w: Watch, output: Output): Health {
    if output.timedOut then Unhealthy
    else if w.healthyExitCode.Some? && output.code != w.healthyExitCode then Unhealthy
    else if w.healthyValue.None? then Healthy
    else if output.reading.None? then Unhealthy
    else if output.reading == w.healthyValue then Healthy
    else if output.reading.value in w.transitional then Syncing
    else Unhealthy
  }

  predicate Granted(output: Output) { output.code == Some(0) && !output.timedOut }

  /** Exit status 75: try again later. */
  predicate Temporary(output: Output) { output.code == Some(75) && !output.timedOut }

  predicate RecoveryFailure(output: Output) { output.timedOut || output.code != Some(0) }

  // ------------------------------------------------------------ the command trace

  datatype Act = Admission(output: Output) | Diagnosis(health: Health) | Recovery(output: Output)

  datatype Kind = Admits | Diagnoses | Recovers

  function KindOf(a: Act): Kind {
    match a
    case Admission(_) => Admits
    case Diagnosis(_) => Diagnoses
    case Recovery(_) => Recovers
  }

  /** How many diagnoses must agree before a recovery. */
  function Needed(w: Watch): nat { if w.confirmAfter > 0 then 2 else 1 }

  function Planned(w: Watch, n: nat): Kind { if n == Needed(w) then Recovers else Diagnoses }

  /** The kind of the `i`-th command of a cycle: diagnoses, one recovery, diagnoses, each
      after an admission of its own when one is configured. */
  function Expected(w: Watch, i: nat): Kind {
    if !w.hasAllow then Planned(w, i)
    else if i % 2 == 0 then Admits
    else Planned(w, i / 2)
  }

  /** Only a granted admission, an unhealthy diagnosis or a recovery that was not deferred
      is followed by another command. */
  predicate Continues(w: Watch, a: Act) {
    match a
    case Admission(output) => Granted(output)
    case Diagnosis(health) => health == Unhealthy
    case Recovery(output) => !(w.hasAllow && Temporary(output))
  }

  ghost predicate Follows(w: Watch, trace: seq<Act>) {
    && (forall i :: 0 <= i < |trace| ==> KindOf(trace[i]) == Expected(w, i))
    && (forall i :: 0 <= i < |trace| - 1 ==> Continues(w, trace[i]))
  }

  // ------------------------------------------------------------------ the world

  /** A line of the log: what a watch's cycle says, the error a cycle ended in, or the shutdown. */
  datatype LogLine = LogLine(watch: string, event: Event) | ErrorLine(watch: string) | StopLine

  /** The n-th command's answer, the n-th delay between two clock readings, and the instant
      from which shutdown is requested are fixed in advance and arbitrary. */
  class World {
    const answers: nat -> Answer
    const lapses: nat -> nat
    const shutdownAt: Option<nat>

    var now: nat
    var asked: seq<Kind> // the commands run so far
    var readings: nat
    var log: seq<LogLine>
    var trace: seq<Act>
    ghost var naps: seq<nat> // the sleeps asked for

    constructor (answers: nat -> Answer, lapses: nat -> nat, shutdownAt: Option<nat>)
      ensures this.answers == answers && this.lapses == lapses && this.shutdownAt == shutdownAt
      ensures now == 0 && log == [] && trace == [] && asked == [] && naps == []
    {
      this.answers, this.lapses, this.shutdownAt := answers, lapses, shutdownAt;
      now, asked, readings, log, trace, naps := 0, [], 0, [], [], [];
    }

    function Books(): Base
      reads this`log, this`trace, this`asked
    {
      Base(log, trace, asked)
    }

    predicate Requested()
      reads this`now
    {
      shutdownAt.Some? && shutdownAt.value <= now
    }

    method Log(line: LogLine)
      modifies this`log
      ensures log == old(log) + [line]
    {
      log := log + [line];
    }

    method ReadClock() returns (t: nat)
      modifies this`now, this`readings
      ensures t == now == old(now) + lapses(old(readings)) && readings == old(readings) + 1
    {
      now := now + lapses(readings);
      readings := readings + 1;
      t := now;
    }

    /** Sleeps for `duration` and wakes one delay later, or when shutdown is requested. */
    method Sleep(duration: nat) returns (stopped: bool)
      modifies this`now, this`readings, this`naps
      ensures old(now) <= now && readings == old(readings) + 1 && naps == old(naps) + [duration]
      ensures stopped <==> Requested()
      ensures !stopped ==> now == old(now) + duration + lapses(old(readings))
    {
      naps := naps + [duration];
      var wake := now + duration + lapses(readings);
      readings := readings + 1;
      if shutdownAt.Some? && shutdownAt.value <= wake {
        now := Max(now, shutdownAt.value);
        return true;
      }
      now := wake;
      return false;
    }

    /** A command takes at least one tick of the monotonic clock. */
    method RunCommand(kind: Kind) returns (r: Option<Output>)
      modifies this`now, this`asked
      ensures old(now) < now && asked == old(asked) + [kind]
      ensures match answers(old(|asked|))
              case Unrunnable => r.None?
              case Ran(output, duration) => r == Some(output) && now == old(now) + 1 + duration
    {
      var answer := answers(|asked|);
      asked := asked + [kind];
      now := now + 1;
      if answer.Unrunnable? {
        return None;
      }
      now := now + answer.duration;
      return Some(answer.output);
    }
  }

  // --------------------------------------------------------- bookkeeping of a cycle

  function Lines(name: string, events: seq<Event>): seq<LogLine> {
    seq(|events|, i requires 0 <= i < |events| => LogLine(name, events[i]))
  }

  /** What both the log and the command trace say: refused admissions, diagnosed states, the recovery's exit. */
  datatype Mark = Refused(paused: bool, code: Option<int>, timedOut: bool) | Saw(health: Health) | Exited(code: Option<int>, timedOut: bool)

  function EventMark(e: Event): seq<Mark> {
    match e
    case AdmissionPaused(code, timedOut) => [Refused(true, code, timedOut)]
    case AdmissionBlocked(code, timedOut) => [Refused(false, code, timedOut)]
    case CheckResult(health) => [Saw(health)]
    case ConfirmResult(health) => [Saw(health)]
    case PostCheck(health) => [Saw(health)]
    case StabilizationCheck(_, health) => [Saw(health)]
    case RecoveryDone(code, timedOut) => [Exited(code, timedOut)]
    case _ => []
  }

  function ActMark(a: Act): seq<Mark> {
    match a
    case Admission(output) =>
      if Granted(output) then [] else [Refused(Temporary(output), output.code, output.timedOut)]
    case Diagnosis(health) => [Saw(health)]
    case Recovery(output) => [Exited(output.code, output.timedOut)]
  }

  function EventMarks(events: seq<Event>): seq<Mark> {
    if events == [] then [] else EventMarks(events[..|events| - 1]) + EventMark(events[|events| - 1])
  }

  function ActMarks(acts: seq<Act>): seq<Mark> {
    if acts == [] then [] else ActMarks(acts[..|acts| - 1]) + ActMark(acts[|acts| - 1])
  }

  lemma EventMarksAppend(events: seq<Event>, e: Event)
    ensures EventMarks(events + [e]) == EventMarks(events) + EventMark(e)
  {
    assert (events + [e])[..|events|] == events;
  }

  lemma ActMarksAppend(acts: seq<Act>, a: Act)
    ensures ActMarks(acts + [a]) == ActMarks(acts) + ActMark(a)
  {
    assert (acts + [a])[..|acts|] == acts;
  }

  predicate IsOutcome(e: Event) { e.Recovered? || e.Stabilizing? }

  predicate HasOutcome(events: seq<Event>) { exists k :: 0 <= k < |events| && IsOutcome(events[k]) }

  /** What the configuration says about a line: the durations it shows, when a recovery may be deferred,
      and that the stabilization checks are numbered by how many polls they waited for. */
  predicate Permitted(w: Watch, e: Event) {
    match e
    case ConfirmWait(seconds) => w.confirmAfter != 0 && seconds == w.confirmAfter / SECOND
    case RecoveryDeferred => w.hasAllow
    case Watching(seconds, pollSeconds) => seconds == w.stabilization / SECOND && pollSeconds == w.poll / SECOND
    case StabilizationCheck(attempt, _) => 1 <= attempt && (attempt - 1) * w.poll < w.stabilization
    case Cooldown(seconds) => w.cooldown != 0 && seconds == w.cooldown / SECOND
    case _ => true
  }

  predicate AllPermitted(w: Watch, events: seq<Event>) {
    forall k :: 0 <= k < |events| ==> Permitted(w, events[k])
  }

  lemma ScanAppend(w: Watch, events: seq<Event>, e: Event)
    ensures HasOutcome(events + [e]) <==> HasOutcome(events) || IsOutcome(e)
    ensures AllPermitted(w, events + [e]) <==> AllPermitted(w, events) && Permitted(w, e)
  {
    var more := events + [e];
    assert more[|events|] == e;
    assert forall k :: 0 <= k < |events| ==> more[k] == events[k];
  }

  /** A cycle in the middle of its work: `n` diagnoses and recoveries so far, all of which
      called for the next one, and the log in step with them. */
  ghost predicate Midway(w: Watch, events: seq<Event>, acts: seq<Act>, n: nat, admitted: bool) {
    && |acts| == (if w.hasAllow then 2 * n + (if admitted then 1 else 0) else n)
    && Follows(w, acts) && (acts != [] ==> Continues(w, acts[|acts| - 1]))
    && EventMarks(events) == ActMarks(acts)
    && !HasOutcome(events) && AllPermitted(w, events)
  }

  lemma Acts(w: Watch, acts: seq<Act>, a: Act)
    requires Follows(w, acts) && (acts != [] ==> Continues(w, acts[|acts| - 1]))
    requires KindOf(a) == Expected(w, |acts|)
    ensures Follows(w, acts + [a])
  {}

  lemma Says(w: Watch, events: seq<Event>, acts: seq<Act>, n: nat, admitted: bool, e: Event)
    requires Midway(w, events, acts, n, admitted)
    requires EventMark(e) == [] && !IsOutcome(e) && Permitted(w, e)
    ensures Midway(w, events + [e], acts, n, admitted)
  {
    hide HasOutcome, AllPermitted, Follows, StageOf, EventMarks, ActMarks;
    EventMarksAppend(events, e);
    ScanAppend(w, events, e);
  }

  /** A command that ran and was reported, and that calls for the next one. */
  lemma Goes(w: Watch, events: seq<Event>, acts: seq<Act>, n: nat, a: Act, e: Event)
    requires Midway(w, events, acts, n, true) && KindOf(a) == Planned(w, n) && Continues(w, a)
    requires EventMark(e) == ActMark(a) && !IsOutcome(e) && Permitted(w, e)
    ensures Midway(w, events + [e], acts + [a], n + 1, false)
  {
    hide HasOutcome, AllPermitted, Follows, StageOf, EventMarks, ActMarks;
    Acts(w, acts, a);
    EventMarksAppend(events, e);
    ActMarksAppend(acts, a);
    ScanAppend(w, events, e);
  }

  datatype Outcome = Next(delay: nat) | CommandError | StillUnhealthy(commandFailed: bool)

  predicate Confirms(w: Watch) { w.confirmAfter > 0 }

  /** What a finished cycle's log and trace have in common. The last command may have been
      cut short by the shutdown and go unreported. */
  ghost predicate Sound(w: Watch, events: seq<Event>, acts: seq<Act>) {
    && IsCycle(Confirms(w), events)
    && Follows(w, acts)
    && AllPermitted(w, events)
    && EventMarks(events) <= ActMarks(acts) && |ActMarks(acts)| <= |EventMarks(events)| + 1
  }

  ghost predicate EndsUnrecovered(events: seq<Event>) {
    events != [] && events[|events| - 1].Unrecovered?
  }

  /** Nothing is left to do: only a shutdown or a command that cannot be run ends a cycle earlier. */
  predicate ClosedLog(w: Watch, events: seq<Event>) {
    var stage := StageOf(Confirms(w), events);
    stage == Over || (stage == Cooling && w.cooldown == 0)
  }

  /** The recovery a trace went through, when it got that far. */
  function RecoveryIndex(w: Watch): nat { if w.hasAllow then 2 * Needed(w) + 1 else Needed(w) }

  /** How the outcome of a cycle follows from its log and trace. */
  ghost predicate Explained(w: Watch, events: seq<Event>, acts: seq<Act>, requested: bool, r: Outcome) {
    match r
    case Next(delay) =>
      && !EndsUnrecovered(events) && (requested || ClosedLog(w, events))
      && (if HasOutcome(events) then delay == Max(w.interval, w.cooldown)
          else delay == w.interval || (delay == 0 && requested))
    case CommandError => !HasOutcome(events) && !EndsUnrecovered(events)
    case StillUnhealthy(commandFailed) =>
      && EndsUnrecovered(events) && !HasOutcome(events) && ClosedLog(w, events)
      && (forall k :: 0 <= k < |acts| && acts[k].Diagnosis? ==> acts[k].health == Unhealthy)
      && RecoveryIndex(w) < |acts| && acts[RecoveryIndex(w)].Recovery?
      && commandFailed == RecoveryFailure(acts[RecoveryIndex(w)].output)
  }

  ghost predicate At(w: Watch, events: seq<Event>, acts: seq<Act>, n: nat, admitted: bool, stage: Stage) {
    Midway(w, events, acts, n, admitted) && StageOf(Confirms(w), events) == stage
  }

  /** A cycle that stopped without an outcome. */
  ghost predicate Ended(w: Watch, events: seq<Event>, acts: seq<Act>) {
    Sound(w, events, acts) && !HasOutcome(events) && !EndsUnrecovered(events)
  }

  predicate Pausable(stage: Stage) {
    !stage.Stuck? && !stage.Over? && !stage.OwedRecovered? && !stage.OwedStabilizing?
  }

  lemma Opens(w: Watch)
    ensures At(w, [], [], 0, false, Opening)
  {}

  lemma SaysAt(w: Watch, events: seq<Event>, acts: seq<Act>, n: nat, admitted: bool, stage: Stage, e: Event)
    requires At(w, events, acts, n, admitted, stage) && EventMark(e) == [] && !IsOutcome(e) && Permitted(w, e)
    ensures At(w, events + [e], acts, n, admitted, Advance(Confirms(w), stage, e))
  {
    hide Midway;
    Says(w, events, acts, n, admitted, e);
    StageOfAppend(Confirms(w), events, e);
  }

  lemma GoesAt(w: Watch, events: seq<Event>, acts: seq<Act>, n: nat, stage: Stage, a: Act, e: Event)
    requires At(w, events, acts, n, true, stage) && KindOf(a) == Planned(w, n) && Continues(w, a)
    requires EventMark(e) == ActMark(a) && !IsOutcome(e) && Permitted(w, e)
    ensures At(w, events + [e], acts + [a], n + 1, false, Advance(Confirms(w), stage, e))
  {
    hide Midway;
    Goes(w, events, acts, n, a, e);
    StageOfAppend(Confirms(w), events, e);
  }

  /** Stopping between two lines. */
  lemma Stops(w: Watch, events: seq<Event>, acts: seq<Act>, n: nat, admitted: bool, stage: Stage)
    requires At(w, events, acts, n, admitted, stage) && Pausable(stage)
    ensures Ended(w, events, acts)
  {
    if events != [] {
      assert StageOf(Confirms(w), events) ==
             Advance(Confirms(w), StageOf(Confirms(w), events[..|events| - 1]), events[|events| - 1]);
    }
  }

  /** Stopping after a command that ran but was not reported. */
  lemma StopsUnreported(w: Watch, events: seq<Event>, acts: seq<Act>, n: nat, admitted: bool, stage: Stage, a: Act)
    requires At(w, events, acts, n, admitted, stage) && Pausable(stage)
    requires KindOf(a) == Expected(w, |acts|)
    ensures Ended(w, events, acts + [a])
  {
    Stops(w, events, acts, n, admitted, stage);
    Acts(w, acts, a);
    ActMarksAppend(acts, a);
  }

  /** A log that is over makes a cycle without an outcome. */
  lemma OverEnds(w: Watch, events: seq<Event>, acts: seq<Act>)
    requires StageOf(Confirms(w), events) == Over && Follows(w, acts) && AllPermitted(w, events)
    requires EventMarks(events) == ActMarks(acts) && !HasOutcome(events) && !EndsUnrecovered(events)
    ensures Ended(w, events, acts)
  {
    hide StageOf, Follows, AllPermitted, EventMarks, ActMarks, HasOutcome, EndsUnrecovered;
  }

  lemma EndsWith(events: seq<Event>, e: Event)
    ensures EndsUnrecovered(events + [e]) <==> e.Unrecovered?
  {}

  lemma OverIsClosed(w: Watch, events: seq<Event>)
    requires StageOf(Confirms(w), events) == Over
    ensures ClosedLog(w, events)
  {}

  /** Stopping on a line that closes the log without an outcome. */
  lemma StopsSaying(w: Watch, events: seq<Event>, acts: seq<Act>, n: nat, admitted: bool, stage: Stage, a: Act, e: Event)
    requires At(w, events, acts, n, admitted, stage) && Advance(Confirms(w), stage, e) == Over
    requires KindOf(a) == Expected(w, |acts|)
    requires EventMark(e) == ActMark(a) && !IsOutcome(e) && Permitted(w, e) && !e.Unrecovered?
    ensures Ended(w, events + [e], acts + [a]) && ClosedLog(w, events + [e])
  {
    hide Follows, HasOutcome, AllPermitted, Advance, StageOf, EventMarks, ActMarks, EndsUnrecovered, Ended;
    Acts(w, acts, a);
    ActMarksAppend(acts, a);
    EventMarksAppend(events, e);
    ScanAppend(w, events, e);
    StageOfAppend(Confirms(w), events, e);
    EndsWith(events, e);
    OverEnds(w, events + [e], acts + [a]);
    OverIsClosed(w, events + [e]);
  }

  lemma NextCommand(w: Watch, events: seq<Event>, acts: seq<Act>, n: nat, admitted: bool)
    requires Midway(w, events, acts, n, admitted) && (admitted || !w.hasAllow)
    ensures Expected(w, |acts|) == Planned(w, n)
  {}

  lemma NextIsAdmission(w: Watch, events: seq<Event>, acts: seq<Act>, n: nat)
    requires Midway(w, events, acts, n, false) && w.hasAllow
    ensures Expected(w, |acts|) == Admits
  {}

  lemma NextAdmission(w: Watch, events: seq<Event>, acts: seq<Act>, n: nat, a: Act, stage: Stage)
    requires At(w, events, acts, n, false, stage) && w.hasAllow && a.Admission?
    ensures Expected(w, |acts|) == Admits
    ensures Continues(w, a) ==> At(w, events, acts + [a], n, true, stage)
  {
    hide Follows, HasOutcome, AllPermitted, StageOf, EventMarks, ActMarks;
    NextIsAdmission(w, events, acts, n);
    Acts(w, acts, a);
    ActMarksAppend(acts, a);
  }

  // ------------------------------------------------------------------ how long it sleeps

  function Total(naps: seq<nat>): nat {
    if naps == [] then 0 else Total(naps[..|naps| - 1]) + naps[|naps| - 1]
  }

  /** Sleeps between the checks of a stabilization: none longer than the poll, all together no longer than the
      stabilization time. */
  ghost predicate Rests(w: Watch, was: seq<nat>, naps: seq<nat>) {
    && was <= naps && Total(naps[|was|..]) <= w.stabilization
    && forall i :: |was| <= i < |naps| ==> naps[i] <= w.poll
  }

  /** The confirmation delay first. */
  ghost predicate RestsThen(w: Watch, was: seq<nat>, naps: seq<nat>) {
    Rests(w, was + [w.confirmAfter], naps)
  }

  /** The sleeps of a cycle: none, or the confirmation delay when there is one, and then those of a stabilization. */
  ghost predicate Naps(w: Watch, was: seq<nat>, naps: seq<nat>) {
    naps == was || (if Confirms(w) then RestsThen(w, was, naps) else Rests(w, was, naps))
  }

  lemma NoRest(w: Watch, was: seq<nat>)
    ensures Rests(w, was, was)
  {
    assert was[|was|..] == [];
  }

  lemma OneRest(was: seq<nat>, naps: seq<nat>, nap: nat)
    requires was <= naps
    ensures Total((naps + [nap])[|was|..]) == Total(naps[|was|..]) + nap
  {
    assert (naps + [nap])[|was|..] == naps[|was|..] + [nap];
    assert (naps[|was|..] + [nap])[..|naps| - |was|] == naps[|was|..];
  }

  // -------------------------------------------------------------------- the cycle

  /** Stages at which an admission may be refused. */
  predicate Refusable(w: Watch, stage: Stage) {
    stage == Opening || (stage == Doubted && !Confirms(w)) || stage == Confirming || stage == Confirmed
    || stage == Finished || stage == Failed || stage.Polling?
  }

  lemma RefusalCloses(w: Watch, stage: Stage, e: Event)
    requires Refusable(w, stage) && AdmissionRefusal(e)
    ensures Advance(Confirms(w), stage, e) == Over && Pausable(stage)
  {}

  /** An act is what the watchdog makes of a command's answer. */
  predicate Reports(w: Watch, answer: Answer, a: Act) {
    answer.Ran? &&
    match a
    case Admission(output) => output == answer.output
    case Diagnosis(health) => health == EvaluateHealth(w, answer.output)
    case Recovery(output) => output == answer.output
  }

  /** The acts are what the commands answered, from the `from`-th on. */
  ghost predicate Answered(w: Watch, answers: nat -> Answer, from: nat, acts: seq<Act>) {
    forall i :: 0 <= i < |acts| ==> Reports(w, answers(from + i), acts[i])
  }

  function Kinds(acts: seq<Act>): seq<Kind> {
    seq(|acts|, i requires 0 <= i < |acts| => KindOf(acts[i]))
  }

  datatype Base = Base(log: seq<LogLine>, trace: seq<Act>, asked: seq<Kind>)

  /** The log, trace and commands of `world` are `base` followed by this cycle's, and the trace is what the commands
      answered; `lost` says that the next command could not be run. */
  ghost predicate Tracks(w: Watch, world: World, base: Base, events: seq<Event>, acts: seq<Act>, lost: bool)
    reads world`log, world`trace, world`asked
  {
    && world.log == base.log + Lines(w.name, events) && world.trace == base.trace + acts
    && Answered(w, world.answers, |base.asked|, acts)
    && world.asked == base.asked + Kinds(acts) + (if lost then [Expected(w, |acts|)] else [])
    && (lost ==> world.answers(|base.asked| + |acts|).Unrunnable?)
  }

  /** A command has just answered and is not in the trace yet. */
  ghost predicate Unnoted(w: Watch, world: World, base: Base, events: seq<Event>, acts: seq<Act>, kind: Kind, output: Output)
    reads world`log, world`trace, world`asked
  {
    && world.log == base.log + Lines(w.name, events) && world.trace == base.trace + acts
    && Answered(w, world.answers, |base.asked|, acts)
    && world.asked == base.asked + Kinds(acts) + [kind]
    && world.answers(|base.asked| + |acts|).Ran? && world.answers(|base.asked| + |acts|).output == output
  }

  method Ask(w: Watch, world: World, kind: Kind, ghost base: Base, ghost events: seq<Event>, ghost acts: seq<Act>)
    returns (r: Option<Output>)
    requires Tracks(w, world, base, events, acts, false) && kind == Expected(w, |acts|)
    modifies world`now, world`asked
    ensures old(world.now) < world.now
    ensures r.None? ==> Tracks(w, world, base, events, acts, true)
    ensures r.Some? ==> Unnoted(w, world, base, events, acts, kind, r.value)
  {
    r := world.RunCommand(kind);
  }

  method Say(w: Watch, world: World, e: Event, ghost base: Base, ghost events: seq<Event>, ghost acts: seq<Act>)
    returns (ghost written: seq<Event>)
    requires Tracks(w, world, base, events, acts, false)
    modifies world`log
    ensures written == events + [e] && Tracks(w, world, base, written, acts, false)
  {
    world.Log(LogLine(w.name, e));
    written := events + [e];
    OneLine(w.name, events, e);
  }

  /** Records a command that ran. */
  method Note(w: Watch, world: World, a: Act, ghost base: Base, ghost events: seq<Event>, ghost acts: seq<Act>,
              ghost output: Output)
    returns (ghost acted: seq<Act>)
    requires Unnoted(w, world, base, events, acts, KindOf(a), output)
    requires a == Admission(output) || a == Diagnosis(EvaluateHealth(w, output)) || a == Recovery(output)
    modifies world`trace
    ensures acted == acts + [a] && Tracks(w, world, base, events, acted, false)
  {
    world.trace := world.trace + [a];
    acted := acts + [a];
    assert Kinds(acted) == Kinds(acts) + [KindOf(a)];
  }

  method RecoveryAllowed(w: Watch, world: World, ghost base: Base, ghost events: seq<Event>, ghost acts: seq<Act>,
                         ghost n: nat, ghost stage: Stage)
    returns (r: Option<bool>, ghost written: seq<Event>, ghost acted: seq<Act>)
    requires Tracks(w, world, base, events, acts, false)
    requires At(w, events, acts, n, false, stage) && Refusable(w, stage)
    modifies world`now, world`asked, world`trace, world`log
    ensures Tracks(w, world, base, written, acted, r.None?)
    ensures old(world.now) <= world.now
    ensures r.Some? && r.value ==> At(w, written, acted, n, true, stage) && !world.Requested() && acts <= acted
    ensures r.None? || !r.value ==> Ended(w, written, acted)
    ensures r.None? || !r.value ==> old(world.now) < world.now || world.Requested()
    ensures r.Some? && !r.value ==> world.Requested() || ClosedLog(w, written)
  {
    hide At, Ended, Advance, Tracks, Unnoted, ClosedLog;
    RefusalCloses(w, stage, AdmissionPaused(None, false));
    if !w.hasAllow {
      WithoutAdmission(w, events, acts, n, stage);
      Stops(w, events, acts, n, false, stage);
      return Some(!world.Requested()), events, acts;
    }
    AtMidway(w, events, acts, n, false, stage);
    NextIsAdmission(w, events, acts, n);
    var output := Ask(w, world, Admits, base, events, acts);
    if output.None? {
      Stops(w, events, acts, n, false, stage);
      return None, events, acts;
    }
    var act := Admission(output.value);
    acted := Note(w, world, act, base, events, acts, output.value);
    NextAdmission(w, events, acts, n, act, stage);
    if world.Requested() {
      StopsUnreported(w, events, acts, n, false, stage, act);
      return Some(false), events, acted;
    }
    if Granted(output.value) {
      return Some(true), events, acted;
    }
    var event := if Temporary(output.value)
                 then AdmissionPaused(output.value.code, output.value.timedOut)
                 else AdmissionBlocked(output.value.code, output.value.timedOut);
    written := Say(w, world, event, base, events, acted);
    RefusalCloses(w, stage, event);
    StopsSaying(w, events, acts, n, false, stage, act, event);
    return Some(false), written, acted;
  }

  lemma WithoutAdmission(w: Watch, events: seq<Event>, acts: seq<Act>, n: nat, stage: Stage)
    requires At(w, events, acts, n, false, stage) && !w.hasAllow
    ensures At(w, events, acts, n, true, stage)
  {}

  datatype Diagnosed = Unavailable | Interrupted | Found(health: Health)

  method RunDiagnose(w: Watch, world: World, ghost base: Base, ghost events: seq<Event>, ghost acts: seq<Act>,
                     ghost n: nat, ghost stage: Stage)
    returns (r: Diagnosed, ghost acted: seq<Act>)
    requires Tracks(w, world, base, events, acts, false)
    requires At(w, events, acts, n, true, stage) && Planned(w, n) == Diagnoses && Pausable(stage)
    modifies world`now, world`asked, world`trace, world`log
    ensures Tracks(w, world, base, events, acted, r.Unavailable?)
    ensures old(world.now) < world.now
    ensures r.Found? ==> acted == acts + [Diagnosis(r.health)] && !world.Requested()
    ensures r.Found? ==>
      var answer := world.answers(|base.asked| + |acts|);
      && answer.Ran? && (r.health == Healthy <==> SaysHealthy(w, answer.output))
      && (r.health == Syncing <==> SaysSyncing(w, answer.output))
    ensures r.Interrupted? ==> world.Requested()
    ensures !r.Found? ==> Ended(w, events, acted)
  {
    hide At, Ended, Tracks, Unnoted;
    AtMidway(w, events, acts, n, true, stage);
    NextCommand(w, events, acts, n, true);
    var output := Ask(w, world, Diagnoses, base, events, acts);
    if output.None? {
      Stops(w, events, acts, n, true, stage);
      return Unavailable, acts;
    }
    var act := Diagnosis(EvaluateHealth(w, output.value));
    acted := Note(w, world, act, base, events, acts, output.value);
    if world.Requested() {
      StopsUnreported(w, events, acts, n, true, stage, act);
      return Interrupted, acted;
    }
    DiagnosisIsNoted(w, world, base, events, acted);
    DiagnosesAreRight(w, world.answers, |base.asked|, acted, |acts|);
    return Found(act.health), acted;
  }

  lemma DiagnosisIsNoted(w: Watch, world: World, base: Base, events: seq<Event>, acts: seq<Act>)
    requires Tracks(w, world, base, events, acts, false)
    ensures Answered(w, world.answers, |base.asked|, acts)
  {}

  lemma AtMidway(w: Watch, events: seq<Event>, acts: seq<Act>, n: nat, admitted: bool, stage: Stage)
    requires At(w, events, acts, n, admitted, stage)
    ensures Midway(w, events, acts, n, admitted) && StageOf(Confirms(w), events) == stage
  {}

  function OutcomeLines(w: Watch, recovered: bool, checks: nat): seq<Event> {
    if !recovered then [Stabilizing(checks)]
    else if w.cooldown == 0 then [Recovered(checks)]
    else [Recovered(checks), Cooldown(w.cooldown / SECOND)]
  }

  /** `finish_recovery` and `finish_stabilizing`: the outcome line that was owed. */
  method FinishWith(w: Watch, world: World, recovered: bool, checks: nat, ghost base: Base, ghost events: seq<Event>,
                    ghost acts: seq<Act>)
    returns (delay: nat, ghost said: seq<Event>)
    requires Tracks(w, world, base, events, acts, false)
    modifies world`log
    ensures Tracks(w, world, base, events + said, acts, false)
    ensures delay == Max(w.interval, w.cooldown)
    ensures said == OutcomeLines(w, recovered, checks)
  {
    ghost var written;
    if recovered {
      written := Say(w, world, Recovered(checks), base, events, acts);
      said := [Recovered(checks)];
      if w.cooldown != 0 {
        written := Say(w, world, Cooldown(w.cooldown / SECOND), base, written, acts);
        said := said + [Cooldown(w.cooldown / SECOND)];
        assert events + said == written;
      }
    } else {
      written := Say(w, world, Stabilizing(checks), base, events, acts);
      said := [Stabilizing(checks)];
    }
    delay := Max(w.interval, w.cooldown);
  }

  /** A trace that is complete and a log that only lacks its closing lines. */
  ghost predicate Closing(w: Watch, events: seq<Event>, acts: seq<Act>, stage: Stage) {
    && Follows(w, acts) && AllPermitted(w, events) && EventMarks(events) == ActMarks(acts)
    && StageOf(Confirms(w), events) == stage
  }

  lemma StartsClosing(w: Watch, events: seq<Event>, acts: seq<Act>, n: nat, stage: Stage, health: Health, e: Event)
    requires At(w, events, acts, n, true, stage) && Planned(w, n) == Diagnoses
    requires EventMark(e) == [Saw(health)] && Permitted(w, e)
    ensures Closing(w, events + [e], acts + [Diagnosis(health)], Advance(Confirms(w), stage, e))
  {
    hide Follows, HasOutcome, AllPermitted, Advance;
    var act := Diagnosis(health);
    NextCommand(w, events, acts, n, true);
    Acts(w, acts, act);
    ActMarksAppend(acts, act);
    EventMarksAppend(events, e);
    ScanAppend(w, events, e);
    StageOfAppend(Confirms(w), events, e);
  }

  lemma KeepsClosing(w: Watch, events: seq<Event>, acts: seq<Act>, stage: Stage, e: Event)
    requires Closing(w, events, acts, stage) && EventMark(e) == [] && Permitted(w, e)
    ensures Closing(w, events + [e], acts, Advance(Confirms(w), stage, e))
    ensures HasOutcome(events) || IsOutcome(e) ==> HasOutcome(events + [e])
  {
    hide Follows, HasOutcome, AllPermitted, Advance;
    EventMarksAppend(events, e);
    ScanAppend(w, events, e);
    StageOfAppend(Confirms(w), events, e);
  }

  /** Stopping on a diagnosis that was healthy or syncing after the recovery, and its outcome. */
  lemma StopsWithOutcome(w: Watch, events: seq<Event>, acts: seq<Act>, n: nat, stage: Stage, health: Health, e: Event,
                         checks: nat, said: seq<Event>)
    requires At(w, events, acts, n, true, stage) && Planned(w, n) == Diagnoses && health != Unhealthy
    requires EventMark(e) == [Saw(health)] && Permitted(w, e)
    requires Advance(Confirms(w), stage, e) == if health == Healthy then OwedRecovered(checks) else OwedStabilizing(checks)
    requires said == OutcomeLines(w, health == Healthy, checks)
    ensures Sound(w, events + [e] + said, acts + [Diagnosis(health)])
    ensures HasOutcome(events + [e] + said) && !EndsUnrecovered(events + [e] + said) && ClosedLog(w, events + [e] + said)
  {
    hide Follows, HasOutcome, AllPermitted, At, EventMarks, ActMarks, StageOf;
    var first := events + [e];
    StartsClosing(w, events, acts, n, stage, health, e);
    KeepsClosing(w, first, acts + [Diagnosis(health)], Advance(Confirms(w), stage, e), said[0]);
    var second := first + [said[0]];
    if |said| == 2 {
      KeepsClosing(w, second, acts + [Diagnosis(health)], Cooling, said[1]);
      assert first + said == second + [said[1]];
    } else {
      assert first + said == second;
    }
  }

  /** Stopping because nothing helped. */
  lemma StopsUnrecovered(w: Watch, events: seq<Event>, acts: seq<Act>, n: nat, checks: nat)
    requires At(w, events, acts, n, false, Polling(checks))
    ensures var e := Unrecovered(Unhealthy, checks);
            && Sound(w, events + [e], acts) && EndsUnrecovered(events + [e]) && !HasOutcome(events + [e])
            && ClosedLog(w, events + [e])
  {
    hide Follows, HasOutcome, AllPermitted;
    var e := Unrecovered(Unhealthy, checks);
    EventMarksAppend(events, e);
    ScanAppend(w, events, e);
    StageOfAppend(Confirms(w), events, e);
  }

  /** Every diagnosis of a trace that called for more was unhealthy, and its recovery stands where expected. */
  lemma TraceOfUnrecovered(w: Watch, events: seq<Event>, acts: seq<Act>, n: nat, stage: Stage)
    requires At(w, events, acts, n, false, stage) && n > Needed(w)
    ensures forall k :: 0 <= k < |acts| && acts[k].Diagnosis? ==> acts[k].health == Unhealthy
    ensures RecoveryIndex(w) < |acts| && acts[RecoveryIndex(w)].Recovery?
  {
    assert Expected(w, RecoveryIndex(w)) == Recovers;
    assert KindOf(acts[RecoveryIndex(w)]) == Recovers;
  }

  datatype Polled = Again | Done(outcome: Outcome)

  /** One poll after its pause. */
  method Poll(w: Watch, world: World, checks: nat, ghost base: Base, ghost events0: seq<Event>, ghost acts0: seq<Act>)
    returns (r: Polled, ghost events: seq<Event>, ghost acts: seq<Act>)
    requires Tracks(w, world, base, events0, acts0, false)
    requires At(w, events0, acts0, Needed(w) + 2 + checks, false, Polling(checks)) && checks * w.poll < w.stabilization
    modifies world`now, world`asked, world`trace, world`log
    ensures Tracks(w, world, base, events, acts, r.Done? && r.outcome.CommandError?)
    ensures r.Done? ==>
      Sound(w, events, acts) && Explained(w, events, acts, world.Requested(), r.outcome) && !r.outcome.StillUnhealthy?
    ensures r.Again? ==> acts0 <= acts && At(w, events, acts, Needed(w) + 3 + checks, false, Polling(checks + 1))
    ensures old(world.now) <= world.now && (r.Again? ==> old(world.now) < world.now)
  {
    hide At, Midway, Sound, Follows, HasOutcome, AllPermitted, Lines, IsCycle, EndsUnrecovered, Ended, Advance, Tracks, ClosedLog,
      Explained, RecoveryIndex, OutcomeLines, Needed;
    var allowed;
    allowed, events, acts := RecoveryAllowed(w, world, base, events0, acts0, Needed(w) + 2 + checks, Polling(checks));
    if allowed.None? || !allowed.value {
      EndedIsExplained(w, events, acts, world.Requested());
      return Done(if allowed.None? then CommandError else Next(w.interval)), events, acts;
    }
    ghost var before := acts;
    var state;
    state, acts := RunDiagnose(w, world, base, events, acts, Needed(w) + 2 + checks, Polling(checks));
    if !state.Found? {
      EndedIsExplained(w, events, acts, world.Requested());
      return Done(if state.Unavailable? then CommandError else Next(0)), events, acts;
    }
    ghost var unsaid := events;
    events := Say(w, world, StabilizationCheck(checks + 1, state.health), base, events, acts);
    if state.health != Unhealthy {
      var delay;
      ghost var said;
      delay, said := FinishWith(w, world, state.health == Healthy, checks + 1, base, events, acts);
      PollEnds(w, unsaid, before, checks, state.health, said);
      OutcomeIsExplained(w, events + said, acts, world.Requested());
      return Done(Next(delay)), events + said, acts;
    }
    PollGoes(w, unsaid, before, checks);
    r := Again;
  }

  /** One pause of the stabilization loop: the poll, or what is left of the stabilization time. */
  method Doze(w: Watch, world: World, started: nat, ghost was: seq<nat>) returns (stopped: bool)
    requires started <= world.now < started + w.stabilization
    requires Rests(w, was, world.naps) && Total(world.naps[|was|..]) <= world.now - started
    modifies world`now, world`readings, world`naps
    ensures old(world.now) <= world.now && (stopped <==> world.Requested())
    ensures Rests(w, was, world.naps) && (!stopped ==> Total(world.naps[|was|..]) <= world.now - started)
    ensures !stopped ==> old(world.now) + w.poll <= world.now || started + w.stabilization <= world.now
  {
    var again := world.ReadClock();
    var remaining := if again - started < w.stabilization then w.stabilization - (again - started) else 0;
    var nap := if w.poll < remaining then w.poll else remaining;
    OneRest(was, world.naps, nap);
    stopped := world.Sleep(nap);
  }

  /** The stabilization loop: polls until healthy, syncing, refused or out of time. */
  method Stabilize(w: Watch, world: World, failed: bool, ghost base: Base, ghost events0: seq<Event>, ghost acts0: seq<Act>)
    returns (r: Outcome, ghost events: seq<Event>, ghost acts: seq<Act>)
    requires Tracks(w, world, base, events0, acts0, false)
    requires At(w, events0, acts0, Needed(w) + 2, false, Polling(0))
    requires RecoveryIndex(w) < |acts0| && acts0[RecoveryIndex(w)].Recovery?
    requires failed == RecoveryFailure(acts0[RecoveryIndex(w)].output)
    modifies world
    ensures Tracks(w, world, base, events, acts, r.CommandError?)
    ensures Sound(w, events, acts) && Explained(w, events, acts, world.Requested(), r)
    ensures old(world.now) + (if r.StillUnhealthy? then w.stabilization else 0) <= world.now
    ensures Rests(w, old(world.naps), world.naps)
  {
    hide At, Midway, Sound, Follows, HasOutcome, AllPermitted, Lines, IsCycle, EndsUnrecovered, Ended, Advance, Tracks, ClosedLog,
      Explained, RecoveryIndex, OutcomeLines, Needed;
    var started := world.ReadClock();
    var checks := 0;
    ghost var waited, was := 0, world.naps;
    events, acts := events0, acts0;
    NoRest(w, was);
    while true
      invariant Tracks(w, world, base, events, acts, false) && acts0 <= acts
      invariant At(w, events, acts, Needed(w) + 2 + checks, false, Polling(checks))
      invariant old(world.now) <= started <= world.now
      invariant waited == checks * w.poll
      invariant waited <= world.now - started || w.stabilization <= world.now - started
      invariant Rests(w, was, world.naps) && Total(world.naps[|was|..]) <= world.now - started
      decreases started + w.stabilization - world.now
    {
      var elapsed := world.ReadClock();
      if elapsed - started >= w.stabilization {
        break;
      }
      var stopped := Doze(w, world, started, was);
      if stopped {
        Stops(w, events, acts, Needed(w) + 2 + checks, false, Polling(checks));
        EndedIsExplained(w, events, acts, world.Requested());
        return Next(0), events, acts;
      }
      var polled;
      polled, events, acts := Poll(w, world, checks, base, events, acts);
      if polled.Done? {
        return polled.outcome, events, acts;
      }
      checks := checks + 1;
      OneMorePoll(checks, w.poll);
      waited := waited + w.poll;
    }
    r, events := GiveUp(w, world, failed, checks, base, events, acts);
  }

  lemma OneMorePoll(checks: nat, poll: nat)
    requires checks >= 1
    ensures checks * poll == (checks - 1) * poll + poll
  {}

  lemma PollGoes(w: Watch, events: seq<Event>, acts: seq<Act>, checks: nat)
    requires At(w, events, acts, Needed(w) + 2 + checks, true, Polling(checks)) && checks * w.poll < w.stabilization
    ensures At(w, events + [StabilizationCheck(checks + 1, Unhealthy)], acts + [Diagnosis(Unhealthy)],
               Needed(w) + 3 + checks, false, Polling(checks + 1))
  {
    hide At;
    CheckAdvances(w, checks, Unhealthy);
    GoesAt(w, events, acts, Needed(w) + 2 + checks, Polling(checks), Diagnosis(Unhealthy),
           StabilizationCheck(checks + 1, Unhealthy));
  }

  lemma PollEnds(w: Watch, events: seq<Event>, acts: seq<Act>, checks: nat, health: Health, said: seq<Event>)
    requires At(w, events, acts, Needed(w) + 2 + checks, true, Polling(checks)) && checks * w.poll < w.stabilization
    requires health != Unhealthy
    requires said == OutcomeLines(w, health == Healthy, checks + 1)
    ensures var all := events + [StabilizationCheck(checks + 1, health)] + said;
            Sound(w, all, acts + [Diagnosis(health)]) && HasOutcome(all) && !EndsUnrecovered(all) && ClosedLog(w, all)
  {
    hide At, Sound, HasOutcome, EndsUnrecovered, ClosedLog;
    CheckAdvances(w, checks, health);
    StopsWithOutcome(w, events, acts, Needed(w) + 2 + checks, Polling(checks), health,
                     StabilizationCheck(checks + 1, health), checks + 1, said);
  }

  method GiveUp(w: Watch, world: World, failed: bool, checks: nat, ghost base: Base, ghost events0: seq<Event>, ghost acts: seq<Act>)
    returns (r: Outcome, ghost events: seq<Event>)
    requires Tracks(w, world, base, events0, acts, false)
    requires At(w, events0, acts, Needed(w) + 2 + checks, false, Polling(checks))
    requires RecoveryIndex(w) < |acts| && acts[RecoveryIndex(w)].Recovery?
    requires failed == RecoveryFailure(acts[RecoveryIndex(w)].output)
    modifies world`log
    ensures Tracks(w, world, base, events, acts, r.CommandError?)
    ensures Sound(w, events, acts) && Explained(w, events, acts, world.Requested(), r)
  {
    hide At, Sound, EndsUnrecovered, HasOutcome, ClosedLog;
    StopsUnrecovered(w, events0, acts, Needed(w) + 2 + checks, checks);
    TraceOfUnrecovered(w, events0, acts, Needed(w) + 2 + checks, Polling(checks));
    events := Say(w, world, Unrecovered(Unhealthy, checks), base, events0, acts);
    r := StillUnhealthy(failed);
    UnrecoveredIsExplained(w, events, acts, world.Requested(), failed);
  }

  lemma UnrecoveredIsExplained(w: Watch, events: seq<Event>, acts: seq<Act>, requested: bool, failed: bool)
    requires EndsUnrecovered(events) && !HasOutcome(events) && ClosedLog(w, events)
    requires forall k :: 0 <= k < |acts| && acts[k].Diagnosis? ==> acts[k].health == Unhealthy
    requires RecoveryIndex(w) < |acts| && acts[RecoveryIndex(w)].Recovery?
    requires failed == RecoveryFailure(acts[RecoveryIndex(w)].output)
    ensures Explained(w, events, acts, requested, StillUnhealthy(failed))
  {}

  lemma CheckAdvances(w: Watch, checks: nat, health: Health)
    ensures Advance(Confirms(w), Polling(checks), StabilizationCheck(checks + 1, health)) ==
            match health
            case Healthy => OwedRecovered(checks + 1)
            case Syncing => OwedStabilizing(checks + 1)
            case Unhealthy => Polling(checks + 1)
  {}

  lemma OutcomeIsExplained(w: Watch, events: seq<Event>, acts: seq<Act>, requested: bool)
    requires HasOutcome(events) && !EndsUnrecovered(events) && ClosedLog(w, events)
    ensures Explained(w, events, acts, requested, Next(Max(w.interval, w.cooldown)))
  {}

  /** After the recovery command: admission, post-check, stabilization. */
  method CheckRecovery(w: Watch, world: World, failed: bool, ghost base: Base, ghost events0: seq<Event>,
                       ghost acts0: seq<Act>, ghost now: Stage)
    returns (r: Outcome, ghost events: seq<Event>, ghost acts: seq<Act>)
    requires Tracks(w, world, base, events0, acts0, false)
    requires At(w, events0, acts0, Needed(w) + 1, false, now) && (now == Finished || now == Failed)
    requires RecoveryIndex(w) < |acts0| && acts0[RecoveryIndex(w)].Recovery?
    requires failed == RecoveryFailure(acts0[RecoveryIndex(w)].output)
    modifies world
    ensures Tracks(w, world, base, events, acts, r.CommandError?)
    ensures Sound(w, events, acts) && Explained(w, events, acts, world.Requested(), r)
    ensures old(world.now) + (if r.StillUnhealthy? then w.stabilization else 0) <= world.now
    ensures Rests(w, old(world.naps), world.naps)
  {
    hide At, Midway, Sound, Follows, HasOutcome, AllPermitted, Lines, IsCycle, EndsUnrecovered, Ended, Tracks, ClosedLog,
      Explained, RecoveryIndex, Advance, StageOf, Needed, RecoveryFailure, OutcomeLines;
    PostAdvances(w, now);
    var allowed;
    allowed, events, acts := RecoveryAllowed(w, world, base, events0, acts0, Needed(w) + 1, now);
    if allowed.None? || !allowed.value {
      EndedIsExplained(w, events, acts, world.Requested());
      return if allowed.None? then CommandError else Next(w.interval), events, acts;
    }
    ghost var before := acts;
    var post;
    post, acts := RunDiagnose(w, world, base, events, acts, Needed(w) + 1, now);
    if !post.Found? {
      EndedIsExplained(w, events, acts, world.Requested());
      return if post.Unavailable? then CommandError else Next(0), events, acts;
    }
    ghost var unsaid := events;
    events := Say(w, world, PostCheck(post.health), base, events, acts);
    if post.health != Unhealthy {
      var delay;
      ghost var said;
      delay, said := FinishWith(w, world, post.health == Healthy, 0, base, events, acts);
      StopsWithOutcome(w, unsaid, before, Needed(w) + 1, now, post.health, PostCheck(post.health), 0, said);
      OutcomeIsExplained(w, events + said, acts, world.Requested());
      return Next(delay), events + said, acts;
    }
    GoesAt(w, unsaid, before, Needed(w) + 1, now, Diagnosis(Unhealthy), PostCheck(Unhealthy));
    r, events, acts := WatchRecovery(w, world, failed, base, events, acts);
  }

  method WatchRecovery(w: Watch, world: World, failed: bool, ghost base: Base, ghost events0: seq<Event>, ghost acts0: seq<Act>)
    returns (r: Outcome, ghost events: seq<Event>, ghost acts: seq<Act>)
    requires Tracks(w, world, base, events0, acts0, false)
    requires At(w, events0, acts0, Needed(w) + 2, false, Posted)
    requires RecoveryIndex(w) < |acts0| && acts0[RecoveryIndex(w)].Recovery?
    requires failed == RecoveryFailure(acts0[RecoveryIndex(w)].output)
    modifies world
    ensures Tracks(w, world, base, events, acts, r.CommandError?)
    ensures Sound(w, events, acts) && Explained(w, events, acts, world.Requested(), r)
    ensures old(world.now) + (if r.StillUnhealthy? then w.stabilization else 0) <= world.now
    ensures Rests(w, old(world.naps), world.naps)
  {
    hide At, Sound, Tracks, Explained, RecoveryIndex, Needed, RecoveryFailure;
    var watching := Watching(w.stabilization / SECOND, w.poll / SECOND);
    SaysAt(w, events0, acts0, Needed(w) + 2, false, Posted, watching);
    events := Say(w, world, watching, base, events0, acts0);
    r, events, acts := Stabilize(w, world, failed, base, events, acts0);
  }

  lemma PostAdvances(w: Watch, stage: Stage)
    requires stage == Finished || stage == Failed
    ensures Advance(Confirms(w), stage, PostCheck(Healthy)) == OwedRecovered(0)
    ensures Advance(Confirms(w), stage, PostCheck(Syncing)) == OwedStabilizing(0)
    ensures Advance(Confirms(w), stage, PostCheck(Unhealthy)) == Posted
    ensures forall seconds, poll :: Advance(Confirms(w), Posted, Watching(seconds, poll)) == Polling(0)
    ensures Refusable(w, stage) && Pausable(stage)
  {}

  /** The recovery half of a cycle: recheck the admission, recover, check, and wait for stability. */
  method Repair(w: Watch, world: World, ghost base: Base, ghost events0: seq<Event>, ghost acts0: seq<Act>, ghost stage: Stage)
    returns (r: Outcome, ghost events: seq<Event>, ghost acts: seq<Act>)
    requires Tracks(w, world, base, events0, acts0, false)
    requires At(w, events0, acts0, Needed(w), false, stage) && stage == (if Confirms(w) then Confirmed else Doubted)
    modifies world
    ensures Tracks(w, world, base, events, acts, r.CommandError?)
    ensures Sound(w, events, acts) && Explained(w, events, acts, world.Requested(), r)
    ensures old(world.now) + (if r.StillUnhealthy? then w.stabilization else 0) <= world.now
    ensures Rests(w, old(world.naps), world.naps)
  {
    hide At, Midway, Sound, Follows, HasOutcome, AllPermitted, Lines, IsCycle, EndsUnrecovered, Ended, Tracks, ClosedLog, Explained,
      RecoveryIndex, Advance, StageOf, Needed, RecoveryFailure;
    var allowed;
    allowed, events, acts := RecoveryAllowed(w, world, base, events0, acts0, Needed(w), stage);
    if allowed.None? || !allowed.value {
      EndedIsExplained(w, events, acts, world.Requested());
      return if allowed.None? then CommandError else Next(w.interval), events, acts;
    }
    RepairAdvances(w, stage);
    SaysAt(w, events, acts, Needed(w), true, stage, RecoveryStart);
    events := Say(w, world, RecoveryStart, base, events, acts);
    AtMidway(w, events, acts, Needed(w), true, Recovering);
    NextCommand(w, events, acts, Needed(w), true);
    var recovery := Ask(w, world, Recovers, base, events, acts);
    if recovery.None? {
      Stops(w, events, acts, Needed(w), true, Recovering);
      EndedIsExplained(w, events, acts, world.Requested());
      return CommandError, events, acts;
    }
    ghost var before := acts;
    var act := Recovery(recovery.value);
    acts := Note(w, world, act, base, events, acts, recovery.value);
    if world.Requested() {
      StopsUnreported(w, events, before, Needed(w), true, Recovering, act);
      EndedIsExplained(w, events, acts, world.Requested());
      return Next(0), events, acts;
    }
    r, events, acts := Conclude(w, world, recovery.value, base, events, before);
  }

  /** The recovery has ended: report it, and check the service unless the recovery was deferred. */
  method Conclude(w: Watch, world: World, output: Output, ghost base: Base, ghost events0: seq<Event>, ghost before: seq<Act>)
    returns (r: Outcome, ghost events: seq<Event>, ghost acts: seq<Act>)
    requires Tracks(w, world, base, events0, before + [Recovery(output)], false)
    requires At(w, events0, before, Needed(w), true, Recovering)
    modifies world
    ensures Tracks(w, world, base, events, acts, r.CommandError?)
    ensures Sound(w, events, acts) && Explained(w, events, acts, world.Requested(), r)
    ensures old(world.now) + (if r.StillUnhealthy? then w.stabilization else 0) <= world.now
    ensures Rests(w, old(world.naps), world.naps)
  {
    hide At, Midway, Sound, Follows, HasOutcome, AllPermitted, Lines, IsCycle, EndsUnrecovered, Ended, Tracks, ClosedLog,
      Explained, RecoveryIndex, Advance, StageOf, Needed, RecoveryFailure;
    var act := Recovery(output);
    acts := before + [act];
    var done := RecoveryDone(output.code, output.timedOut);
    events := Say(w, world, done, base, events0, acts);
    if w.hasAllow && Temporary(output) {
      StopsDeferred(w, events0, before, act, done);
      events := Say(w, world, RecoveryDeferred, base, events, acts);
      EndedIsExplained(w, events, acts, world.Requested());
      return Next(w.interval), events, acts;
    }
    GoesAt(w, events0, before, Needed(w), Recovering, act, done);
    DoneAdvances(w, output);
    var failed := RecoveryFailure(output);
    ghost var now := Finished;
    if failed {
      var complaint := CommandFailure(output.code, output.timedOut, output.stderr);
      SaysAt(w, events, acts, Needed(w) + 1, false, Failing(output.code, output.timedOut), complaint);
      events := Say(w, world, complaint, base, events, acts);
      now := Failed;
    }
    RecoveryStands(w, events, acts, now, act);
    r, events, acts := CheckRecovery(w, world, failed, base, events, acts, now);
  }

  lemma RepairAdvances(w: Watch, stage: Stage)
    requires stage == if Confirms(w) then Confirmed else Doubted
    ensures Advance(Confirms(w), stage, RecoveryStart) == Recovering
  {}

  lemma DoneAdvances(w: Watch, output: Output)
    ensures Advance(Confirms(w), Recovering, RecoveryDone(output.code, output.timedOut)) ==
            if RecoveryFailure(output) then Failing(output.code, output.timedOut) else Finished
    ensures RecoveryFailure(output) ==>
            Advance(Confirms(w), Failing(output.code, output.timedOut), CommandFailure(output.code, output.timedOut, output.stderr)) == Failed
  {}

  lemma StopsDeferred(w: Watch, events: seq<Event>, acts: seq<Act>, a: Act, done: Event)
    requires At(w, events, acts, Needed(w), true, Recovering) && a.Recovery? && w.hasAllow && Temporary(a.output)
    requires done == RecoveryDone(a.output.code, a.output.timedOut)
    ensures Ended(w, events + [done] + [RecoveryDeferred], acts + [a]) && ClosedLog(w, events + [done] + [RecoveryDeferred])
  {
    hide Follows, HasOutcome, AllPermitted, Advance, StageOf, EventMarks, ActMarks, EndsUnrecovered, Ended;
    NextCommand(w, events, acts, Needed(w), true);
    Acts(w, acts, a);
    ActMarksAppend(acts, a);
    EventMarksAppend(events, done);
    ScanAppend(w, events, done);
    StageOfAppend(Confirms(w), events, done);
    EventMarksAppend(events + [done], RecoveryDeferred);
    ScanAppend(w, events + [done], RecoveryDeferred);
    StageOfAppend(Confirms(w), events + [done], RecoveryDeferred);
    DeferralCloses(Confirms(w), done);
    EndsWith(events + [done], RecoveryDeferred);
    OverEnds(w, events + [done] + [RecoveryDeferred], acts + [a]);
    OverIsClosed(w, events + [done] + [RecoveryDeferred]);
  }

  lemma DeferralCloses(confirm: bool, done: Event)
    requires done.RecoveryDone? && done.code == Some(75) && !done.timedOut
    ensures Advance(confirm, Advance(confirm, Recovering, done), RecoveryDeferred) == Over
  {}

  lemma RecoveryStands(w: Watch, events: seq<Event>, acts: seq<Act>, stage: Stage, a: Act)
    requires At(w, events, acts, Needed(w) + 1, false, stage) && acts != [] && acts[|acts| - 1] == a
    ensures RecoveryIndex(w) == |acts| - 1
  {}

  /** The second diagnosis, after the confirmation wait. */
  method ConfirmThenRepair(w: Watch, world: World, ghost base: Base, ghost events0: seq<Event>, ghost acts0: seq<Act>)
    returns (r: Outcome, ghost events: seq<Event>, ghost acts: seq<Act>)
    requires Tracks(w, world, base, events0, acts0, false)
    requires At(w, events0, acts0, 1, false, Doubted) && w.confirmAfter != 0
    modifies world
    ensures Tracks(w, world, base, events, acts, r.CommandError?)
    ensures Sound(w, events, acts) && Explained(w, events, acts, world.Requested(), r)
    ensures old(world.now) + (if r.StillUnhealthy? then w.confirmAfter + w.stabilization else 0) <= world.now
    ensures Confirms(w) && RestsThen(w, old(world.naps), world.naps)
  {
    hide At, Midway, Sound, Follows, HasOutcome, AllPermitted, Lines, IsCycle, EndsUnrecovered, Ended, Tracks, ClosedLog, Explained, RecoveryIndex;
    acts := acts0;
    SaysAt(w, events0, acts, 1, false, Doubted, ConfirmWait(w.confirmAfter / SECOND));
    events := Say(w, world, ConfirmWait(w.confirmAfter / SECOND), base, events0, acts);
    var stopped := world.Sleep(w.confirmAfter);
    if stopped {
      Stops(w, events, acts, 1, false, Confirming);
      EndedIsExplained(w, events, acts, world.Requested());
      return Next(0), events, acts;
    }
    var allowed;
    allowed, events, acts := RecoveryAllowed(w, world, base, events, acts, 1, Confirming);
    if allowed.None? || !allowed.value {
      EndedIsExplained(w, events, acts, world.Requested());
      return if allowed.None? then CommandError else Next(w.interval), events, acts;
    }
    ghost var before := acts;
    var confirmed;
    confirmed, acts := RunDiagnose(w, world, base, events, acts, 1, Confirming);
    if !confirmed.Found? {
      EndedIsExplained(w, events, acts, world.Requested());
      return if confirmed.Unavailable? then CommandError else Next(0), events, acts;
    }
    ghost var unsaid := events;
    events := Say(w, world, ConfirmResult(confirmed.health), base, events, acts);
    if confirmed.health != Unhealthy {
      StopsSeeing(w, unsaid, before, 1, Confirming, confirmed.health, ConfirmResult(confirmed.health));
      EndedIsExplained(w, events, acts, world.Requested());
      return Next(w.interval), events, acts;
    }
    GoesAt(w, unsaid, before, 1, Confirming, Diagnosis(Unhealthy), ConfirmResult(Unhealthy));
    r, events, acts := Repair(w, world, base, events, acts, Confirmed);
  }

  /** The first diagnosis. */
  method CheckThenRepair(w: Watch, world: World, ghost base: Base)
    returns (r: Outcome, ghost events: seq<Event>, ghost acts: seq<Act>)
    requires Tracks(w, world, base, [], [], false)
    modifies world
    ensures Tracks(w, world, base, events, acts, r.CommandError?)
    ensures Sound(w, events, acts) && Explained(w, events, acts, world.Requested(), r)
    ensures old(world.now) + (if r.StillUnhealthy? then w.confirmAfter + w.stabilization else 0) <= world.now
    ensures Naps(w, old(world.naps), world.naps)
    ensures old(world.now) < world.now || world.Requested()
  {
    hide At, Midway, Sound, Follows, HasOutcome, AllPermitted, Lines, IsCycle, EndsUnrecovered, Ended, Tracks, ClosedLog, Explained, RecoveryIndex;
    events, acts := [], [];
    Opens(w);
    var allowed;
    allowed, events, acts := RecoveryAllowed(w, world, base, events, acts, 0, Opening);
    if allowed.None? || !allowed.value {
      EndedIsExplained(w, events, acts, world.Requested());
      return if allowed.None? then CommandError else Next(w.interval), events, acts;
    }
    SaysAt(w, events, acts, 0, true, Opening, CheckStart);
    events := Say(w, world, CheckStart, base, events, acts);
    ghost var before := acts;
    var initial;
    initial, acts := RunDiagnose(w, world, base, events, acts, 0, Checking);
    if !initial.Found? {
      EndedIsExplained(w, events, acts, world.Requested());
      return if initial.Unavailable? then CommandError else Next(0), events, acts;
    }
    ghost var unsaid := events;
    events := Say(w, world, CheckResult(initial.health), base, events, acts);
    if initial.health != Unhealthy {
      StopsSeeing(w, unsaid, before, 0, Checking, initial.health, CheckResult(initial.health));
      EndedIsExplained(w, events, acts, world.Requested());
      return Next(w.interval), events, acts;
    }
    GoesAt(w, unsaid, before, 0, Checking, Diagnosis(Unhealthy), CheckResult(Unhealthy));
    if w.confirmAfter == 0 {
      r, events, acts := Repair(w, world, base, events, acts, Doubted);
    } else {
      r, events, acts := ConfirmThenRepair(w, world, base, events, acts);
    }
  }

  /** The commands of a cycle: those in its trace, and one more when that one could not be run. */
  function Asked(w: Watch, acts: seq<Act>, r: Outcome): seq<Kind> {
    Kinds(acts) + if r.CommandError? then [Expected(w, |acts|)] else []
  }

  /** One cycle, from the admission to the outcome. Its acts are what its commands answered, its log tells them
      and is closed unless a shutdown was requested or a command could not be run, and it gives up only
      after the whole confirmation and stabilization time. */
  method RunWatchCycle(w: Watch, world: World) returns (r: Outcome, ghost events: seq<Event>, ghost acts: seq<Act>)
    modifies world
    ensures world.log == old(world.log) + Lines(w.name, events) && world.trace == old(world.trace) + acts
    ensures world.asked == old(world.asked) + Asked(w, acts, r)
    ensures Answered(w, world.answers, |old(world.asked)|, acts)
    ensures r.CommandError? ==> world.answers(|old(world.asked)| + |acts|).Unrunnable?
    ensures Sound(w, events, acts) && Explained(w, events, acts, world.Requested(), r)
    ensures old(world.now) + (if r.StillUnhealthy? then w.confirmAfter + w.stabilization else 0) <= world.now
    ensures Naps(w, old(world.naps), world.naps)
    ensures old(world.now) < world.now || world.Requested()
  {
    hide Sound, Explained;
    NoLines(w.name);
    assert world.log + [] == world.log && world.trace + [] == world.trace && world.asked + [] + [] == world.asked;
    assert Kinds([]) == [];
    r, events, acts := CheckThenRepair(w, world, Base(world.log, world.trace, world.asked));
    assert old(world.asked) + Kinds(acts) + (if r.CommandError? then [Expected(w, |acts|)] else [])
        == old(world.asked) + Asked(w, acts, r);
  }

  lemma StopsSeeing(w: Watch, events: seq<Event>, acts: seq<Act>, n: nat, stage: Stage, health: Health, e: Event)
    requires At(w, events, acts, n, true, stage) && Planned(w, n) == Diagnoses && health != Unhealthy
    requires (stage == Checking && e == CheckResult(health)) || (stage == Confirming && e == ConfirmResult(health))
    ensures Ended(w, events + [e], acts + [Diagnosis(health)]) && ClosedLog(w, events + [e])
  {
    NextCommand(w, events, acts, n, true);
    StopsSaying(w, events, acts, n, true, stage, Diagnosis(health), e);
  }

  lemma NoLines(name: string)
    ensures Lines(name, []) == []
  {}

  lemma OneLine(name: string, events: seq<Event>, e: Event)
    ensures Lines(name, events + [e]) == Lines(name, events) + [LogLine(name, e)]
  {}

  lemma EndedIsExplained(w: Watch, events: seq<Event>, acts: seq<Act>, requested: bool)
    requires Ended(w, events, acts)
    ensures Sound(w, events, acts)
    ensures Explained(w, events, acts, requested, CommandError)
    ensures requested || ClosedLog(w, events) ==> Explained(w, events, acts, requested, Next(w.interval))
    ensures requested ==> Explained(w, events, acts, requested, Next(0))
  {}

  // ------------------------------------------------------- what every cycle's trace obeys

  function DiagnosesIn(acts: seq<Act>): nat {
    if acts == [] then 0
    else DiagnosesIn(acts[..|acts| - 1]) + (if acts[|acts| - 1].Diagnosis? then 1 else 0)
  }

  lemma {:induction false} DiagnosesByIndex(w: Watch, acts: seq<Act>, k: nat)
    requires Follows(w, acts) && k <= |acts| && k <= RecoveryIndex(w)
    ensures DiagnosesIn(acts[..k]) == if w.hasAllow then k / 2 else k
  {
    if k > 0 {
      DiagnosesByIndex(w, acts, k - 1);
      assert acts[..k][..k - 1] == acts[..k - 1];
      assert KindOf(acts[k - 1]) == Expected(w, k - 1);
    }
  }

  /** A cycle recovers at most once, and only after exactly the needed diagnoses, all unhealthy. */
  lemma RecoveryIsConfirmed(w: Watch, acts: seq<Act>, k: nat)
    requires Follows(w, acts) && k < |acts| && acts[k].Recovery?
    ensures forall j :: 0 <= j < |acts| && acts[j].Recovery? ==> j == k
    ensures DiagnosesIn(acts[..k]) == Needed(w)
    ensures forall j :: 0 <= j < k && acts[j].Diagnosis? ==> acts[j].health == Unhealthy
  {
    forall j | 0 <= j < |acts| && acts[j].Recovery? ensures j == RecoveryIndex(w) {
      assert KindOf(acts[j]) == Expected(w, j);
    }
    DiagnosesByIndex(w, acts, k);
    forall j | 0 <= j < k && acts[j].Diagnosis? ensures acts[j].health == Unhealthy {
      assert Continues(w, acts[j]);
    }
  }

  /** With an admission command, every diagnosis and the recovery come right after an admission that ended in time
      with exit status 0. */
  lemma CommandsAreAdmitted(w: Watch, acts: seq<Act>, k: nat)
    requires Follows(w, acts) && w.hasAllow && k < |acts| && !acts[k].Admission?
    ensures k > 0 && acts[k - 1].Admission? && acts[k - 1].output.code == Some(0) && !acts[k - 1].output.timedOut
  {
    assert KindOf(acts[k]) == Expected(w, k);
    assert KindOf(acts[k - 1]) == Expected(w, k - 1) && Continues(w, acts[k - 1]);
  }

  /** A recovery that a configured watch defers with exit status 75 in time is the last command of its cycle. */
  lemma DeferredRecoveryIsLast(w: Watch, acts: seq<Act>, k: nat)
    requires Follows(w, acts) && k < |acts| && acts[k].Recovery?
    ensures w.hasAllow && acts[k].output.code == Some(75) && !acts[k].output.timedOut ==> k == |acts| - 1
  {
    assert k < |acts| - 1 ==> Continues(w, acts[k]);
  }

  // ------------------------------------------------------------ what a diagnosis makes of an output

  /** The command ended in time and, when an exit code is required, with that one. */
  predicate EndsAsRequired(w: Watch, output: Output) {
    !output.timedOut && (w.healthyExitCode.Some? ==> output.code == w.healthyExitCode)
  }

  predicate SaysHealthy(w: Watch, output: Output) {
    EndsAsRequired(w, output) && (w.healthyValue.Some? ==> output.reading == w.healthyValue)
  }

  predicate SaysSyncing(w: Watch, output: Output) {
    && EndsAsRequired(w, output) && w.healthyValue.Some? && output.reading.Some?
    && output.reading != w.healthyValue && output.reading.value in w.transitional
  }

  /** In the trace of every cycle, a diagnosis is healthy or syncing exactly when its command's output says so. */
  lemma DiagnosesAreRight(w: Watch, answers: nat -> Answer, from: nat, acts: seq<Act>, k: nat)
    requires Answered(w, answers, from, acts) && k < |acts| && acts[k].Diagnosis?
    ensures answers(from + k).Ran?
    ensures acts[k].health == Healthy <==> SaysHealthy(w, answers(from + k).output)
    ensures acts[k].health == Syncing <==> SaysSyncing(w, answers(from + k).output)
  {
    assert Reports(w, answers(from + k), acts[k]);
  }

  /** A recovery follows only outputs that say neither, each of an admitted diagnosis. */
  lemma RecoveryFollowsFailures(w: Watch, answers: nat -> Answer, from: nat, acts: seq<Act>, k: nat, j: nat)
    requires Follows(w, acts) && Answered(w, answers, from, acts)
    requires j < k < |acts| && acts[k].Recovery? && acts[j].Diagnosis?
    ensures answers(from + j).Ran?
    ensures !SaysHealthy(w, answers(from + j).output) && !SaysSyncing(w, answers(from + j).output)
  {
    hide Answered, Follows;
    RecoveryIsConfirmed(w, acts, k);
    DiagnosesAreRight(w, answers, from, acts, j);
  }

  // -------------------------------------------------------------- what a refusal says

  lemma {:induction false} EventIsMarked(events: seq<Event>, k: nat)
    requires k < |events|
    ensures forall m :: m in EventMark(events[k]) ==> m in EventMarks(events)
  {
    if k < |events| - 1 { EventIsMarked(events[..|events| - 1], k); }
  }

  lemma {:induction false} RefusalIsAdmission(acts: seq<Act>, m: Mark) returns (k: nat)
    requires m in ActMarks(acts) && m.Refused?
    ensures k < |acts| && acts[k].Admission? && ActMark(acts[k]) == [m]
  {
    if m in ActMark(acts[|acts| - 1]) {
      k := |acts| - 1;
    } else {
      k := RefusalIsAdmission(acts[..|acts| - 1], m);
    }
  }

  /** The log says paused when an admission ended with status 75 in time, and blocked when it ended in any other
      way that is not a grant. */
  lemma RefusalsSayWhy(w: Watch, events: seq<Event>, acts: seq<Act>, k: nat)
    requires Sound(w, events, acts) && k < |events|
    ensures events[k].AdmissionPaused? ==> events[k].code == Some(75) && !events[k].timedOut
    ensures events[k].AdmissionBlocked? ==> events[k].timedOut || (events[k].code != Some(75) && events[k].code != Some(0))
  {
    hide Follows, IsCycle, AllPermitted, EventMarks, ActMarks;
    if AdmissionRefusal(events[k]) {
      EventIsMarked(events, k);
      var m := EventMark(events[k])[0];
      assert m in EventMark(events[k]);
      var i :| 0 <= i < |EventMarks(events)| && EventMarks(events)[i] == m;
      assert ActMarks(acts)[i] == m;
      var j := RefusalIsAdmission(acts, m);
    }
  }

  // -------------------------------------------------------------------- how many checks

  function Checks(events: seq<Event>): nat {
    if events == [] then 0
    else Checks(events[..|events| - 1]) + if events[|events| - 1].StabilizationCheck? then 1 else 0
  }

  predicate BeforePolling(s: Stage) {
    s.Opening? || s.Checking? || s.Doubted? || s.Confirming? || s.Confirmed? || s.Recovering? || s.Finished?
    || s.Failing? || s.Failed? || s.Posted?
  }

  ghost predicate HasCheck(events: seq<Event>, attempt: nat) {
    exists k :: 0 <= k < |events| && events[k].StabilizationCheck? && events[k].attempt == attempt
  }

  lemma {:induction false} ChecksAreNumbered(confirm: bool, events: seq<Event>)
    requires !StageOf(confirm, events).Stuck?
    ensures var s, n := StageOf(confirm, events), Checks(events);
      && (BeforePolling(s) ==> n == 0) && (s.Polling? ==> n == s.checks) && (n > 0 ==> HasCheck(events, n))
  {
    hide AfterRecovery;
    if events != [] {
      var front, last := events[..|events| - 1], events[|events| - 1];
      ChecksAreNumbered(confirm, front);
      AfterRecoveryPosts(last);
      var n := Checks(events);
      if last.StabilizationCheck? {
        assert events[|events| - 1].attempt == n;
      } else if n > 0 {
        var k :| 0 <= k < |front| && front[k].StabilizationCheck? && front[k].attempt == n;
        assert events[k] == front[k];
      }
    }
  }

  lemma AfterRecoveryPosts(e: Event)
    ensures e.StabilizationCheck? ==> AfterRecovery(e).Stuck?
    ensures !AfterRecovery(e).Polling?
  {}

  /** With a positive poll, a cycle makes at most ceil(stabilization / poll) checks, however long commands take. */
  lemma ChecksAreBounded(w: Watch, events: seq<Event>, acts: seq<Act>)
    requires Sound(w, events, acts) && w.poll > 0
    ensures Checks(events) <= (w.stabilization + w.poll - 1) / w.poll
  {
    hide Follows, EventMarks, ActMarks, StageOf;
    ChecksAreNumbered(Confirms(w), events);
    var n := Checks(events);
    if n > 0 {
      var k :| 0 <= k < |events| && events[k].StabilizationCheck? && events[k].attempt == n;
      assert Permitted(w, events[k]);
      AtMostCeiling(n, w.poll, w.stabilization);
    }
  }

  lemma AtMostCeiling(n: nat, divisor: nat, total: nat)
    requires n > 0 && divisor > 0 && (n - 1) * divisor < total
    ensures n <= (total + divisor - 1) / divisor
  {
    assert (n - 1) * divisor == n * divisor - divisor;
    AtMostQuotient(n, divisor, total + divisor - 1);
  }

  lemma AtMostQuotient(n: nat, divisor: nat, total: nat)
    requires divisor > 0 && n * divisor <= total
    ensures n <= total / divisor
  {
    var q := total / divisor;
    assert total == q * divisor + total % divisor;
    assert (n - q - 1) * divisor == n * divisor - q * divisor - divisor;
    assert n > q ==> (n - q - 1) * divisor >= 0;
  }
}
