/** The workload lease shared by the optional-workload supervisor, the guarded
    recovery command and the independent runner dispatcher, as a transition
    system over any number of processes.

    `Local` is the program text of the three entry points, one program point at
    a time; `Next` interleaves the processes, their children and the outside
    world, and lets any process die between any two steps. */
module WorkloadLease {
  import opened Wrappers

  type Pid = nat
  type Lease = nat // an open file description of `workload.lock`

  /** Wall and monotonic clocks count nanoseconds; `status.json` keeps whole seconds. */
  const SECOND: nat := 1_000_000_000
  const READY_SECONDS: nat := 150

  datatype Config = Config(settle: nat, cooldown: nat)

  // ---------------------------------------------------------------- processes

  datatype ChildKind = RunnerChild | StartChild | StopChild

  datatype Role =
    | Supervisor(dryRun: bool, external: bool)
    | Recoverer(gateOnly: bool)
    | Dispatcher(probeOnly: bool, limit: nat)
    | Child(kind: ChildKind)

  datatype State =
    | StoppingOptional | RunnerActive | RunnerFinished | OtherContainersActive | MemoryPressure
    | WouldRunOneJob | CiPending | ManualPause | RunnerSettling | Settling | StartupCooldown
    | WouldAllowOptional | OptionalAllowed | OptionalRunning | DeferredTick

  /** What `stop_optional` returns to. */
  datatype Back = BackToFinish(state: State) | BackToJob | BackToRaise

  datatype TickPoint = Observe | Queue | Pause | Settled | Mark | SettleTest | NextTest | CooldownTest | Announce | Arm
  datatype StopPoint = Read | Say | Run | Await(child: Pid) | Verify(had: bool) | Probe
  datatype StartPoint = Guard | Health | Stamp | Spawn | Wait(child: Pid) | Pressure
  datatype JobPoint = Foreign | Admit | JobHealth | Report | Launch | JobWait(child: Pid) | Reported | Done
  datatype RecoverPoint = Facts | Files | Readiness
  datatype PreparePoint = Look | StopOwned | StopWait(child: Pid) | Empty
  datatype RunnerPoint = RunnerHealth | RunnerGuard | RunnerSpawn | RunnerWait(child: Pid) | FinishTime(code: int) | After(code: int)

  datatype Point =
    | Idle | Defer | Enter | Hint | Take | Finish(state: State) | Release
    | AtTick(tick: TickPoint) | AtStop(stop: StopPoint, back: Back) | AtStart(start: StartPoint)
    | AtJob(job: JobPoint) | AtRecover(recover: RecoverPoint) | AtPrepare(prepare: PreparePoint) | AtRunner(runner: RunnerPoint)
    | Working

  datatype View = View(normal: bool, processes: bool, others: bool)

  /** What one tick of a supervisor was told: its look at the host, its look at the queue, whether it ended with the
      latest finish stamp, and whether it was deferred. `at` is the monotonic instant of the latest of these. */
  datatype Sight = Sight(at: nat, look: Option<View>, pending: Option<bool>, resting: bool, deferred: bool) {
    predicate Clean() { look == Some(View(true, false, false)) && pending == Some(false) && !resting && !deferred }
  }

  /** What a process remembers between steps. `since` is only for the proof: the tick that set `normalSince`. */
  datatype Memory = Memory(normalSince: Option<nat>, nextStart: nat, sawOwned: bool, activations: nat, since: nat)

  const BLANK := Memory(None, 0, false, 0, 0)

  /** A supervisor allowed a start, or its runner was over, at a monotonic instant. */
  datatype Turn = Allowed(at: nat) | Ran(at: nat)

  /** What reading a stamp file gave: nothing readable, no file, or the time since the stamp. */
  datatype Age = Unread | Never | Elapsed(time: int)

  /** When the protected workload was last found healthy before an admission, whether pressure was normal, whether no
      foreign container or runner was about, and whether work was pending. */
  datatype Looks = Looks(probed: Option<nat>, calm: bool, alone: bool, hinted: bool)

  /** Whether the process was not asked to stop, and whether there was no pause file. */
  datatype Leaves = Leaves(willing: bool, unpaused: bool)

  /** How the last command ended, whether the protected workload was healthy after the last runner, and whether there
      were optional containers at the look. */
  datatype Ends = Ends(code: Option<int>, sound: bool, had: bool)

  datatype Ages = Ages(finish: Age, start: Age)

  /** When the time of the next start was tested, the latest turn, and the one before the latest start. */
  datatype Turns = Turns(tested: nat, lately: Option<Turn>, before: Option<Turn>)

  /** The latest answers a process got. */
  datatype Answers = Answers(looks: Looks, leaves: Leaves, ends: Ends, ages: Ages, turns: Turns)

  const UNTOLD := Answers(
    Looks(None, false, false, false), Leaves(false, false), Ends(None, false, false), Ages(Unread, Unread), Turns(0, None, None))

  /** A published state, and what the tick that published it had been told. */
  datatype Said = Said(state: State, last: Option<Sight>)

  /** What the system records of a process, whatever its program does about it: every tick of a supervisor, when
      it took the lease, at its readiness check how many statuses had been published and when that was, the
      latest answers, and the state it published last. */
  datatype Trail = Trail(seen: seq<Sight>, taken: nat, read: nat, readAt: nat, answers: Answers, said: Option<Said>)

  /** One live process; `at` is the wall clock at its previous step. */
  datatype Proc = Proc(role: Role, point: Point, lease: Option<Lease>, stopping: bool, at: nat, mem: Memory, trail: Trail)

  // ------------------------------------------------------------ shared state

  datatype Grounds =
    | AfterSettling(normalSince: nat, seen: seq<Sight>)
    | AfterReadiness(taken: nat, read: nat, readAt: nat)

  /** Who acted, among which owned containers, having been told what and having said what. */
  datatype Scene = Scene(role: Role, owned: set<nat>, last: Option<Sight>, answers: Answers, said: Option<Said>)

  /** One replacement of `status.json`: the state and time it carries, and who
      replaced it when (`wall`, `mono`) on which grounds. */
  datatype Publication = Publication(
    state: State, time: nat, author: Pid, dryRun: bool, wall: nat, mono: nat, grounds: Grounds, scene: Scene)

  /** One runner, start or stop command, by whom, since when that process had held the lease, and after how many finish
      stamps. */
  datatype Launched = Launched(pid: Pid, child: Pid, kind: ChildKind, wall: nat, taken: nat, finishes: nat, scene: Scene)

  /** One process that ended by itself: with which exit status, having been told what, and the status file then. */
  datatype Exited = Exited(pid: Pid, role: Role, code: nat, wall: nat, answers: Answers, status: Option<Publication>)

  /** One start command: when, after how many start stamps and finish stamps, and why. */
  datatype StartRecord = StartRecord(pid: Pid, role: Role, wall: nat, mono: nat, stamps: nat, finishes: nat, grounds: Grounds)

  datatype System = System(
    procs: map<Pid, Proc>, locking: set<Lease>, freshLease: Lease, freshPid: Pid,
    owned: set<nat>, paused: bool,
    status: Option<Publication>, lastStart: Option<nat>, finished: Option<nat>,
    wall: nat, mono: nat,
    published: seq<Publication>, stamps: seq<nat>, finishes: seq<nat>, starts: seq<StartRecord>, launches: seq<Launched>,
    exits: seq<Exited>)

  const INITIAL := System(map[], {}, 0, 0, {}, false, None, None, None, 0, 0, [], [], [], [], [], [])

  /** Answers of the outside world to one step; `when` is the instant at which
      the step read the wall clock for a stamp. `deferred` means the commands of the
      step failed to run, exited nonzero where that is checked, or gave unreadable data. */
  datatype Input = Input(
    deferred: bool, normal: bool, processes: bool, others: bool, pending: bool, code: int, when: nat)

  datatype Effect =
    | Silent
    | Publish(state: State)
    | WriteStart
    | WriteFinish
    | Fork(kind: ChildKind, inherit: bool)
    | TakeLease
    | DropLease
    | Exit(code: nat)

  datatype Move = Move(point: Point, mem: Memory, effect: Effect)

  predicate RunnerSettled(c: Config, s: System) {
    s.finished.None? || s.wall >= s.finished.value + c.settle
  }

  predicate CooldownReady(c: Config, s: System) {
    s.lastStart.None? || s.wall >= s.lastStart.value + c.cooldown
  }

  predicate ReadyState(state: State) {
    state == OptionalAllowed || state == OptionalRunning
  }

  predicate HasSettled(c: Config, s: System, mem: Memory) {
    mem.normalSince.Some? && s.mono >= mem.normalSince.value + c.settle
  }

  // ------------------------------------------------------------ the programs

  /** Goes on to `point` without touching anything shared. */
  function At(p: Proc, point: Point): Move { Move(point, p.mem, Silent) }

  function Do(p: Proc, point: Point, effect: Effect): Move { Move(point, p.mem, effect) }

  function Stay(p: Proc): Move { Do(p, p.point, Silent) }

  /** Ends the process with success, or with the status for a deferral. */
  function Leave(p: Proc): Move { Do(p, p.point, Exit(0)) }

  function Quit(p: Proc): Move { Do(p, p.point, Exit(75)) }

  /** A `Deferred` exception leaves the lease section. Only the supervisor's loop catches it. */
  function Raise(p: Proc): Move {
    if p.role.Supervisor? then Do(p, Defer, DropLease) else Quit(p)
  }

  /** The points outside the lease section, and its regular exit. */
  function EdgeMove(c: Config, s: System, p: Proc, i: Input): Move {
    var limit := if p.role.Dispatcher? then (if p.role.probeOnly then 1 else p.role.limit) else 0;
    match p.point
    case Idle =>
      if p.stopping then Leave(p)
      else if i.deferred || s.locking != {} then Raise(p)
      else Do(p, AtTick(Observe), TakeLease)
    case Defer => Move(Idle, p.mem.(normalSince := None), Publish(DeferredTick))
    case Enter => if i.deferred || s.locking != {} then Quit(p) else Do(p, AtRecover(Facts), TakeLease)
    case Hint => if p.stopping || p.mem.activations >= limit || !i.pending then Leave(p) else At(p, Take)
    case Take => if i.deferred || s.locking != {} then Quit(p) else Do(p, AtPrepare(Look), TakeLease)
    case Finish(state) => Do(p, Release, Publish(state))
    case Release => Do(p, Idle, DropLease)
    case _ => Stay(p)
  }

  predicate DryRun(role: Role) { role.Supervisor? && role.dryRun }

  /** `stop_optional` then the event, or the event alone in a dry run. */
  function StopThenSay(p: Proc, state: State): Point {
    if DryRun(p.role) then Finish(state) else AtStop(Read, BackToFinish(state))
  }

  function TickMove(c: Config, s: System, p: Proc, i: Input): Move
    requires p.point.AtTick?
  {
    var mem := p.mem;
    match p.point.tick
    case Observe =>
      if i.deferred then Raise(p) else
      var seen := mem.(sawOwned := s.owned != {});
      if i.normal && !i.processes && !i.others then Move(AtTick(Queue), seen, Silent)
      else
        var reason := if i.processes then RunnerActive else if i.others then OtherContainersActive else MemoryPressure;
        Move(StopThenSay(p, reason), seen.(normalSince := None), Silent)
    case Queue =>
      if i.deferred then Raise(p) else
      if !i.pending then At(p, AtTick(Pause))
      else
        var point := if DryRun(p.role) then Finish(WouldRunOneJob)
                     else if p.role.Supervisor? && p.role.external then AtStop(Read, BackToFinish(CiPending))
                     else AtStop(Read, BackToJob);
        Move(point, mem.(normalSince := None), Silent)
    case Pause => if s.paused then At(p, StopThenSay(p, ManualPause)) else At(p, AtTick(Settled))
    case Settled =>
      if i.deferred || !RunnerSettled(c, s) then Move(Finish(RunnerSettling), mem.(normalSince := None), Silent)
      else At(p, AtTick(Mark))
    case Mark =>
      if mem.normalSince.Some? then At(p, AtTick(SettleTest))
      else
        var since := if p.trail.seen == [] then 0 else |p.trail.seen| - 1;
        Move(AtTick(SettleTest), mem.(normalSince := Some(s.mono), since := since), Silent)
    case SettleTest => At(p, if HasSettled(c, s, mem) then AtTick(NextTest) else Finish(Settling))
    case NextTest => At(p, if s.mono < mem.nextStart then Finish(Settling) else AtTick(CooldownTest))
    case CooldownTest =>
      if !mem.sawOwned && (i.deferred || !CooldownReady(c, s)) then At(p, Finish(StartupCooldown))
      else At(p, if DryRun(p.role) then Finish(WouldAllowOptional) else AtTick(Announce))
    case Announce =>
      if mem.sawOwned then Do(p, Release, Publish(OptionalRunning))
      else Do(p, AtTick(Arm), Publish(OptionalAllowed))
    case Arm => Move(AtStart(Guard), mem.(nextStart := s.mono + c.cooldown), Silent)
  }

  function Resume(p: Proc, back: Back): Move {
    match back
    case BackToFinish(state) => At(p, Finish(state))
    case BackToJob => At(p, AtJob(Foreign))
    case BackToRaise => Raise(p)
  }

  function StopMove(c: Config, s: System, p: Proc, i: Input): Move
    requires p.point.AtStop?
  {
    var back := p.point.back;
    match p.point.stop
    case Read =>
      if i.deferred then Raise(p) else At(p, AtStop(if s.owned != {} then Say else Verify(false), back))
    case Say => Do(p, AtStop(Run, back), Publish(StoppingOptional))
    case Run => if i.deferred then Raise(p) else Do(p, AtStop(Await(s.freshPid), back), Fork(StopChild, true))
    case Await(child) =>
      if child in s.procs then Stay(p)
      else if i.deferred || i.code != 0 then Raise(p)
      else At(p, AtStop(Verify(true), back))
    case Verify(had) =>
      if i.deferred || s.owned != {} then Raise(p)
      else if had then At(p, AtStop(Probe, back))
      else Resume(p, back)
    case Probe => if i.deferred then Raise(p) else Resume(p, back)
  }

  function StartMove(c: Config, s: System, p: Proc, i: Input): Move
    requires p.point.AtStart?
  {
    match p.point.start
    case Guard => if p.stopping || i.deferred || !CooldownReady(c, s) then Raise(p) else At(p, AtStart(Health))
    case Health => if i.deferred then Raise(p) else At(p, AtStart(Stamp))
    case Stamp => Do(p, AtStart(Spawn), WriteStart)
    case Spawn => if i.deferred then Raise(p) else Do(p, AtStart(Wait(s.freshPid)), Fork(StartChild, true))
    case Wait(child) =>
      if child in s.procs then Stay(p)
      else if i.deferred || i.code != 0 then Raise(p)
      else At(p, AtStart(Pressure))
    case Pressure =>
      if !i.normal then At(p, AtStop(Read, BackToRaise))
      else if p.role.Supervisor? then At(p, Finish(OptionalRunning))
      else Leave(p)
  }

  function JobMove(c: Config, s: System, p: Proc, i: Input): Move
    requires p.point.AtJob?
  {
    match p.point.job
    case Foreign => if i.deferred || i.others || i.processes then Raise(p) else At(p, AtJob(Admit))
    case Admit => if p.stopping || !i.normal then Raise(p) else At(p, AtJob(JobHealth))
    case JobHealth => if i.deferred then Raise(p) else At(p, AtJob(Report))
    case Report => Do(p, AtJob(Launch), Publish(RunnerActive))
    case Launch => Do(p, AtJob(JobWait(s.freshPid)), Fork(RunnerChild, true))
    case JobWait(child) => if child in s.procs then Stay(p) else At(p, AtJob(Reported))
    case Reported => Do(p, AtJob(Done), Publish(RunnerFinished))
    case Done => Move(Release, p.mem.(normalSince := None, nextStart := s.mono + c.settle), Silent)
  }

  function RecoverMove(c: Config, s: System, p: Proc, i: Input): Move
    requires p.point.AtRecover?
  {
    match p.point.recover
    case Facts =>
      if i.deferred || s.paused || !i.normal || i.processes || i.others || i.pending then Quit(p)
      else At(p, AtRecover(Files))
    case Files =>
      if i.deferred || !RunnerSettled(c, s) || !CooldownReady(c, s) then Quit(p) else At(p, AtRecover(Readiness))
    case Readiness =>
      if i.deferred || s.status.None? then Quit(p) else
      var age := s.wall - s.status.value.time * SECOND;
      if !ReadyState(s.status.value.state) || !(0 <= age <= READY_SECONDS * SECOND) then Quit(p)
      else if p.role.Recoverer? && p.role.gateOnly then Leave(p)
      else At(p, AtStart(Guard))
  }

  function PrepareMove(c: Config, s: System, p: Proc, i: Input): Move
    requires p.point.AtPrepare?
  {
    match p.point.prepare
    case Look =>
      if i.deferred || i.processes || i.others then Quit(p)
      else if p.role.Dispatcher? && p.role.probeOnly then Leave(p)
      else At(p, AtPrepare(if s.owned != {} then StopOwned else Empty))
    case StopOwned =>
      if i.deferred then Quit(p) else Do(p, AtPrepare(StopWait(s.freshPid)), Fork(StopChild, false))
    case StopWait(child) =>
      if child in s.procs then Stay(p)
      else if i.deferred || i.code != 0 then Quit(p)
      else At(p, AtPrepare(Empty))
    case Empty => if i.deferred || s.owned != {} || i.others then Quit(p) else At(p, AtRunner(RunnerHealth))
  }

  function RunnerMove(c: Config, s: System, p: Proc, i: Input): Move
    requires p.point.AtRunner?
  {
    match p.point.runner
    case RunnerHealth => if i.deferred then Quit(p) else At(p, AtRunner(RunnerGuard))
    case RunnerGuard => if p.stopping then Quit(p) else At(p, AtRunner(RunnerSpawn))
    case RunnerSpawn => Do(p, AtRunner(RunnerWait(s.freshPid)), Fork(RunnerChild, true))
    case RunnerWait(child) => if child in s.procs then Stay(p) else At(p, AtRunner(FinishTime(i.code)))
    case FinishTime(code) => Do(p, AtRunner(After(code)), WriteFinish)
    case After(code) =>
      if code == 75 || i.deferred || code != 0 then Quit(p)
      else Move(Hint, p.mem.(activations := p.mem.activations + 1), DropLease)
  }

  function Local(c: Config, s: System, p: Proc, i: Input): Move {
    match p.point
    case AtTick(_) => TickMove(c, s, p, i)
    case AtStop(_, _) => StopMove(c, s, p, i)
    case AtStart(_) => StartMove(c, s, p, i)
    case AtJob(_) => JobMove(c, s, p, i)
    case AtRecover(_) => RecoverMove(c, s, p, i)
    case AtPrepare(_) => PrepareMove(c, s, p, i)
    case AtRunner(_) => RunnerMove(c, s, p, i)
    case _ => EdgeMove(c, s, p, i)
  }

  // ---------------------------------------------------------- the transitions

  predicate Held(procs: map<Pid, Proc>, lease: Lease) {
    exists q :: q in procs && procs[q].lease == Some(lease)
  }

  /** The kernel drops a lock when the last descriptor of its description is closed. */
  function Prune(locking: set<Lease>, procs: map<Pid, Proc>): set<Lease> {
    set lease | lease in locking && Held(procs, lease)
  }

  function Without(s: System, pid: Pid): System {
    var procs := map q | q in s.procs && q != pid :: s.procs[q];
    s.(procs := procs, locking := Prune(s.locking, procs))
  }

  /** The instant a step read for its stamp: after the process's previous step, not after now. */
  function Instant(p: Proc, s: System, when: nat): nat {
    if when < p.at then p.at else if when > s.wall then s.wall else when
  }

  function Newborn(role: Role, point: Point, lease: Option<Lease>, at: nat): Proc {
    Proc(role, point, lease, false, at, BLANK, Trail([], at, 0, 0, UNTOLD, None))
  }

  function GroundsOf(p: Proc): Grounds {
    if p.role.Supervisor? && p.mem.normalSince.Some? then AfterSettling(p.mem.normalSince.value, p.trail.seen)
    else AfterReadiness(p.trail.taken, p.trail.read, p.trail.readAt)
  }

  /** A supervisor's tick begins with its attempt to take the lease. */
  function Seen(s: System, p: Proc, m: Move, i: Input): seq<Sight> {
    var seen := if p.point.Idle? && !m.point.Idle? then p.trail.seen + [Sight(s.mono, None, None, false, false)] else p.trail.seen;
    if !p.role.Supervisor? || seen == [] then p.trail.seen else
    var last := seen[|seen| - 1];
    var told :=
      if p.point == AtTick(Settled) then (if m.point.Finish? then last.(resting := true) else last)
      else if i.deferred then last
      else if p.point == AtTick(Observe) then last.(at := s.mono, look := Some(View(i.normal, i.processes, i.others)))
      else if p.point == AtTick(Queue) then last.(at := s.mono, pending := Some(i.pending))
      else last;
    seen[|seen| - 1 := if m.point.Defer? then told.(at := s.mono, deferred := true) else told]
  }

  function Looked(s: System, p: Proc, i: Input): Looks {
    var known := p.trail.answers.looks;
    match p.point
    case AtTick(tick) => if tick.Observe? then known.(calm := i.normal) else known
    case AtStart(start) =>
      if start.Pressure? then known.(calm := i.normal) else if start.Health? then Probing(s, known, i) else known
    case AtJob(job) =>
      if job.Foreign? then known.(alone := !i.others && !i.processes)
      else if job.Admit? then known.(calm := i.normal)
      else if job.JobHealth? then Probing(s, known, i) else known
    case AtRecover(recover) =>
      if recover.Facts? then Looks(known.probed, i.normal, !i.others && !i.processes, i.pending) else known
    case AtPrepare(prepare) =>
      if prepare.Look? then known.(alone := !i.others && !i.processes)
      else if prepare.Empty? then known.(alone := known.alone && !i.others) else known
    case AtRunner(runner) => if runner.RunnerHealth? then Probing(s, known, i) else known
    case Hint => known.(hinted := i.pending)
    case _ => known
  }

  function Probing(s: System, known: Looks, i: Input): Looks {
    if i.deferred then known else known.(probed := Some(s.wall))
  }

  /** The points at which a program asks whether to stop. */
  predicate Asks(point: Point) {
    point.Idle? || point.Hint? || (point.AtStart? && point.start.Guard?) || (point.AtJob? && point.job.Admit?)
    || (point.AtRunner? && point.runner.RunnerGuard?)
  }

  function LeaveOf(s: System, p: Proc): Leaves {
    var known := p.trail.answers.leaves;
    if Asks(p.point) then Leaves(!p.stopping, known.unpaused)
    else if (p.point.AtTick? && p.point.tick.Pause?) || (p.point.AtRecover? && p.point.recover.Facts?)
    then Leaves(known.willing, !s.paused)
    else known
  }

  function EndOf(s: System, p: Proc, i: Input): Ends {
    var known := p.trail.answers.ends;
    match p.point
    case AtTick(tick) => if tick.Observe? then Ends(None, known.sound, s.owned != {}) else known
    case AtStop(stop, _) => if stop.Await? then Exiting(s, stop.child, known, i) else known
    case AtStart(start) => if start.Wait? then Exiting(s, start.child, known, i) else known
    case AtPrepare(prepare) => if prepare.StopWait? then Exiting(s, prepare.child, known, i) else known
    case AtRunner(runner) =>
      if runner.RunnerWait? then Exiting(s, runner.child, known, i)
      else if runner.After? then Ends(known.code, !i.deferred, known.had) else known
    case _ => known
  }

  function Exiting(s: System, child: Pid, known: Ends, i: Input): Ends {
    if child in s.procs then known else Ends(Some(i.code), known.sound, known.had)
  }

  function AgeOf(stamp: Option<nat>, wall: nat, i: Input): Age {
    if i.deferred then Unread else if stamp.None? then Never else Elapsed(wall - stamp.value)
  }

  function AgesOf(s: System, p: Proc, i: Input): Ages {
    var known := p.trail.answers.ages;
    var finish, start := AgeOf(s.finished, s.wall, i), AgeOf(s.lastStart, s.wall, i);
    match p.point
    case AtTick(tick) =>
      if tick.Settled? then Ages(finish, known.start) else if tick.CooldownTest? then Ages(known.finish, start) else known
    case AtStart(at) => if at.Guard? then Ages(known.finish, start) else known
    case AtRecover(recover) => if recover.Files? then Ages(finish, start) else known
    case _ => known
  }

  function TurnsOf(s: System, p: Proc): Turns {
    var known := p.trail.answers.turns;
    match p.point
    case AtTick(tick) =>
      if tick.NextTest? then Turns(s.mono, known.lately, known.before)
      else if tick.Arm? then Turns(known.tested, Some(Allowed(s.mono)), known.lately) else known
    case AtJob(job) => if job.Done? then Turns(known.tested, Some(Ran(s.mono)), known.before) else known
    case _ => known
  }

  function Heard(s: System, p: Proc, i: Input): Answers {
    Answers(Looked(s, p, i), LeaveOf(s, p), EndOf(s, p, i), AgesOf(s, p, i), TurnsOf(s, p))
  }

  function LastOf(p: Proc): Option<Sight> {
    if p.trail.seen == [] then None else Some(p.trail.seen[|p.trail.seen| - 1])
  }

  function SceneOf(s: System, p: Proc): Scene {
    Scene(p.role, s.owned, LastOf(p), p.trail.answers, p.trail.said)
  }

  function Trailed(s: System, p: Proc, m: Move, i: Input): Trail {
    var checks := p.point == AtRecover(Readiness);
    Trail(
      Seen(s, p, m, i),
      if m.effect.TakeLease? then s.wall else p.trail.taken,
      if checks then |s.published| else p.trail.read,
      if checks then s.wall else p.trail.readAt,
      Heard(s, p, i),
      if m.effect.Publish? then Some(Said(m.effect.state, LastOf(p))) else p.trail.said)
  }

  function Moved(s: System, p: Proc, m: Move, i: Input): Proc {
    p.(point := m.point, mem := m.mem, at := s.wall, trail := Trailed(s, p, m, i))
  }

  function Put(s: System, pid: Pid, p: Proc): System { s.(procs := s.procs[pid := p]) }

  function PublishAs(s: System, pid: Pid, p: Proc, state: State, t: nat): System {
    var item := Publication(state, t / SECOND, pid, DryRun(p.role), s.wall, s.mono, GroundsOf(p), SceneOf(s, p));
    s.(status := Some(item), published := s.published + [item])
  }

  function Forked(s: System, pid: Pid, p: Proc, kind: ChildKind, inherit: bool): System {
    var child := Newborn(Child(kind), Working, if inherit then p.lease else None, s.wall);
    var started := StartRecord(pid, p.role, s.wall, s.mono, |s.stamps|, |s.finishes|, GroundsOf(p));
    var launch := Launched(pid, s.freshPid, kind, s.wall, p.trail.taken, |s.finishes|, SceneOf(s, p));
    s.(procs := s.procs[s.freshPid := child], freshPid := s.freshPid + 1,
       launches := s.launches + [launch],
       starts := if kind == StartChild then s.starts + [started] else s.starts)
  }

  function Locked(s: System, pid: Pid, q: Proc): System {
    s.(procs := s.procs[pid := q.(lease := Some(s.freshLease))],
       locking := s.locking + {s.freshLease}, freshLease := s.freshLease + 1)
  }

  function Unlocked(s: System, pid: Pid, q: Proc): System {
    var procs := s.procs[pid := q.(lease := None)];
    s.(procs := procs, locking := Prune(s.locking, procs))
  }

  function Ended(s: System, pid: Pid, p: Proc, i: Input, code: nat): System {
    s.(exits := s.exits + [Exited(pid, p.role, code, s.wall, Heard(s, p, i), s.status)])
  }

  function Commit(s: System, pid: Pid, p: Proc, m: Move, i: Input): System {
    var q := Moved(s, p, m, i);
    var t := Instant(p, s, i.when);
    match m.effect
    case Silent => Put(s, pid, q)
    case Publish(state) => Put(PublishAs(s, pid, p, state, t), pid, q)
    case WriteStart => Put(s.(lastStart := Some(t), stamps := s.stamps + [t]), pid, q)
    case WriteFinish => Put(s.(finished := Some(t), finishes := s.finishes + [t]), pid, q)
    case Fork(kind, inherit) => Put(Forked(s, pid, p, kind, inherit), pid, q)
    case TakeLease => Locked(s, pid, q)
    case DropLease => Unlocked(s, pid, q)
    case Exit(code) => Without(Ended(s, pid, p, i, code), pid)
  }

  datatype Action =
    | Step(pid: Pid, input: Input)
    | Begin(role: Role)
    | Die(pid: Pid)
    | Signal(pid: Pid)
    | Appear(starter: Pid, container: nat)
    | Vanish(container: nat)
    | SetPause(paused: bool)
    | Elapse(wall: nat, mono: nat)

  function Entry(role: Role): Point {
    match role
    case Supervisor(_, _) => Idle
    case Recoverer(_) => Enter
    case Dispatcher(_, _) => Hint
    case Child(_) => Working
  }

  /** One step of the whole system. An action that is not enabled changes nothing. */
  function Next(c: Config, s: System, a: Action): System {
    match a
    case Step(pid, i) =>
      if pid in s.procs then Commit(s, pid, s.procs[pid], Local(c, s, s.procs[pid], i), i) else s
    case Begin(role) =>
      if role.Child? then s
      else s.(procs := s.procs[s.freshPid := Newborn(role, Entry(role), None, s.wall)], freshPid := s.freshPid + 1)
    case Die(pid) => if pid in s.procs then Without(s, pid) else s
    case Signal(pid) =>
      if pid in s.procs then s.(procs := s.procs[pid := s.procs[pid].(stopping := true)]) else s
    case Appear(starter, container) =>
      if starter in s.procs && s.procs[starter].role == Child(StartChild)
      then s.(owned := s.owned + {container}) else s
    case Vanish(container) => s.(owned := s.owned - {container})
    case SetPause(paused) => s.(paused := paused)
    case Elapse(wall, mono) => s.(wall := s.wall + wall, mono := s.mono + mono)
  }

  function Execute(c: Config, actions: seq<Action>): System {
    if actions == [] then INITIAL
    else Next(c, Execute(c, actions[..|actions| - 1]), actions[|actions| - 1])
  }
}
