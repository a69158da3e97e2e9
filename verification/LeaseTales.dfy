/** What a status, a command and an exit of the lease protocol mean, what each process has been told at each of its
    program points, and that every step of one process keeps to it. */
module LeaseTales {
  import opened Wrappers
  import opened WorkloadLease
  import opened LeaseInvariant

  const CALM_VIEW := View(true, false, false)

  // ---- what a status means

  /** The states a tick reports only after it stopped the optional workload. */
  predicate StopsFirst(state: State) {
    state == MemoryPressure || state == OtherContainersActive || state == RunnerActive || state == ManualPause
    || state == CiPending
  }

  predicate Seeing(last: Option<Sight>, view: View) { last.Some? && last.value.look == Some(view) }

  predicate Asked(last: Option<Sight>) {
    Seeing(last, CALM_VIEW) && last.value.pending == Some(true) && !last.value.deferred
  }

  predicate AllClear(last: Option<Sight>) {
    Seeing(last, CALM_VIEW) && last.value.pending == Some(false) && !last.value.deferred
  }

  predicate Says(said: Option<Said>, state: State) { said.Some? && said.value.state == state }

  /** It said that it runs a job. */
  predicate AnnouncesJob(said: Option<Said>) { Says(said, RunnerActive) && Asked(said.value.last) }

  predicate OldEnough(age: Age, seconds: nat) { age.Never? || (age.Elapsed? && age.time >= seconds) }

  /** What a supervisor's tick was told when it ends with the state. */
  predicate Reason(c: Config, role: Role, state: State, last: Option<Sight>, answers: Answers)
    requires role.Supervisor?
  {
    match state
    case MemoryPressure => Seeing(last, View(false, false, false))
    case OtherContainersActive => Seeing(last, View(true, false, true)) || Seeing(last, View(false, false, true))
    case RunnerActive => last.Some? && last.value.look.Some? && last.value.look.value.processes
    case WouldRunOneJob => role.dryRun && Asked(last)
    case CiPending => !role.dryRun && role.external && Asked(last)
    case ManualPause => AllClear(last) && !answers.leaves.unpaused
    case RunnerSettling =>
      AllClear(last) && answers.leaves.unpaused && last.value.resting && !OldEnough(answers.ages.finish, c.settle)
    case Settling => Passed(c, last, answers)
    case StartupCooldown => Passed(c, last, answers) && !answers.ends.had && !OldEnough(answers.ages.start, c.cooldown)
    case WouldAllowOptional =>
      role.dryRun && Passed(c, last, answers) && (answers.ends.had || OldEnough(answers.ages.start, c.cooldown))
    case OptionalRunning =>
      !role.dryRun && Passed(c, last, answers) && answers.looks.calm && (answers.ends.had || answers.ends.code == Some(0))
    case _ => false
  }

  /** The checks before a tick settles: two clean looks, no pause file, no recent finish stamp. */
  predicate Passed(c: Config, last: Option<Sight>, answers: Answers) {
    AllClear(last) && !last.value.resting && answers.leaves.unpaused && OldEnough(answers.ages.finish, c.settle)
  }

  /** A status says what its author saw; only a supervisor says more than that it is stopping the workload. */
  predicate Truthful(c: Config, item: Publication) {
    var role, last := item.scene.role, item.scene.last;
    match role
    case Supervisor(_, _) =>
      Follows(item) &&
      (match item.state
       case StoppingOptional => !role.dryRun
       case RunnerActive => Reason(c, role, RunnerActive, last, item.scene.answers) || (Sends(role) && Asked(last))
       case RunnerFinished => Sends(role)
       case OptionalAllowed =>
         && !role.dryRun && Passed(c, last, item.scene.answers) && item.scene.answers.looks.calm
         && !item.scene.answers.ends.had && OldEnough(item.scene.answers.ages.start, c.cooldown)
       case DeferredTick => last.Some? && last.value.deferred
       case state => Reason(c, role, state, last, item.scene.answers))
    case Recoverer(gateOnly) => item.state == StoppingOptional && !gateOnly
    case _ => false
  }

  /** The end of a job is said right after its beginning, and what keeps the workload off right after a stop only when
      the stop command ended well. */
  predicate Follows(item: Publication) {
    && (AnnouncesJob(item.scene.said) <==> item.state.RunnerFinished?)
    && (StopsFirst(item.state) && Says(item.scene.said, StoppingOptional) ==> item.scene.answers.ends.code == Some(0))
  }

  /** Whoever may run a job: not a dry run, and not when runners are managed elsewhere. */
  predicate Sends(role: Role) { role.Supervisor? && !role.dryRun && !role.external }

  predicate Swept(item: Publication) {
    item.scene.role.Supervisor? && !item.scene.role.dryRun && StopsFirst(item.state) ==> item.scene.owned == {}
  }

  // ---- what a command means

  /** The earliest next start after a turn. */
  function Due(c: Config, turn: Option<Turn>): nat {
    match turn
    case None => 0
    case Some(Allowed(at)) => at + c.cooldown
    case Some(Ran(at)) => at + c.settle
  }

  /** Everything the program asks for before the command, in the lease section it is issued in. A start of a supervisor
      was tested to come a cooldown after its previous one, or `settle` after its own runner when that came later. A
      stop is announced and has a reason. */
  predicate Checked(c: Config, l: Launched) {
    var a, last, said := l.scene.answers, l.scene.last, l.scene.said;
    && a.leaves.willing
    && (l.kind != StopChild ==> a.looks.probed.Some? && l.taken <= a.looks.probed.value <= l.wall)
    && (l.kind == StartChild ==> OldEnough(a.ages.finish, c.settle) && OldEnough(a.ages.start, c.cooldown))
    && match l.scene.role {
         case Supervisor(dryRun, external) =>
           && !dryRun
           && (match l.kind
               case RunnerChild => !external && a.looks.calm && a.looks.alone && Asked(last) && Says(said, RunnerActive)
               case StartChild =>
                 && a.looks.calm && AllClear(last) && a.leaves.unpaused && !a.ends.had && Says(said, OptionalAllowed)
                 && Due(c, a.turns.before) <= a.turns.tested
               case StopChild => Says(said, StoppingOptional) && !(a.looks.calm && a.leaves.unpaused && AllClear(last)))
         case Recoverer(gateOnly) =>
           && !gateOnly && a.looks.alone && !a.looks.hinted && a.leaves.unpaused
           && (match l.kind
               case RunnerChild => false
               case StartChild => a.looks.calm
               case StopChild => !a.looks.calm && Says(said, StoppingOptional))
         case Dispatcher(probeOnly, _) => l.kind != StartChild && !probeOnly && a.looks.hinted && a.looks.alone
         case Child(_) => false
       }
  }

  // ---- what an exit means

  predicate Fresh(e: Exited) {
    && e.status.Some? && ReadyState(e.status.value.state)
    && 0 <= e.wall - e.status.value.time * SECOND <= 150 * SECOND
  }

  /** Success: a supervisor was asked to stop, every command of a dispatcher ended well, a gate found every condition
      of a recovery, and a recovery besides that its start command ended well and pressure was still normal. */
  predicate Justified(c: Config, e: Exited) {
    var a := e.answers;
    match e.role
    case Supervisor(_, _) => !a.leaves.willing
    case Recoverer(gateOnly) =>
      && a.looks.calm && a.looks.alone && !a.looks.hinted && a.leaves.unpaused
      && OldEnough(a.ages.finish, c.settle) && OldEnough(a.ages.start, c.cooldown)
      && (if gateOnly then Fresh(e) else a.ends.code == Some(0) && a.leaves.willing)
    case Dispatcher(_, _) => a.ends.code.None? || (a.ends.code == Some(0) && a.ends.sound)
    case Child(_) => false
  }

  /** How many runners a process has launched. */
  function RunnersOf(launches: seq<Launched>, pid: Pid): nat {
    if launches == [] then 0
    else RunnersOf(launches[..|launches| - 1], pid)
         + if launches[|launches| - 1].pid == pid && launches[|launches| - 1].kind == RunnerChild then 1 else 0
  }

  function Limit(role: Role): nat {
    if role.Dispatcher? then (if role.probeOnly then 1 else role.limit) else 0
  }

  /** A deferral: only of a recovery or a gate, or of a dispatcher that was told of pending work. */
  predicate Refused(e: Exited) { !e.role.Supervisor? && (e.role.Dispatcher? ==> e.answers.looks.hinted) }

  // ---- what a process knows at its program point


  /** The points of a tick after its two looks were clean. */
  predicate Onward(point: Point) {
    match point
    case AtTick(tick) => !tick.Observe? && !tick.Queue?
    case AtStart(_) => true
    case _ => false
  }

  predicate ForReal(point: Point) {
    match point
    case AtTick(tick) => tick.Announce? || tick.Arm?
    case _ => point.AtStart? || point.AtStop? || point.AtJob?
  }

  /** Before the pressure reading after a start. */
  predicate Calm(point: Point) {
    match point
    case AtTick(tick) => !tick.Observe?
    case AtStart(_) => true
    case AtRecover(recover) => !recover.Facts?
    case AtJob(job) => job.JobHealth? || job.Report? || job.Launch?
    case _ => false
  }

  predicate Probed(point: Point) {
    match point
    case AtStart(start) => start.Stamp? || start.Spawn?
    case AtJob(job) => job.Report? || job.Launch?
    case AtRunner(runner) => runner.RunnerGuard? || runner.RunnerSpawn?
    case _ => false
  }

  predicate Alone(point: Point) {
    match point
    case AtJob(job) => job.Admit? || job.JobHealth? || job.Report? || job.Launch?
    case AtPrepare(prepare) => !prepare.Look?
    case AtRunner(runner) => Before(runner)
    case _ => false
  }

  predicate Before(point: RunnerPoint) { point.RunnerHealth? || point.RunnerGuard? || point.RunnerSpawn? }

  /** Between the test whether it was asked to stop and the end of the lease section. */
  predicate Willing(role: Role, point: Point) {
    match role
    case Supervisor(_, _) => !point.Idle? && !point.Defer?
    case Recoverer(_) => (point.AtStart? && !point.start.Guard?) || point.AtStop?
    case Dispatcher(_, _) => !point.Hint?
    case Child(_) => false
  }

  predicate Unpaused(point: Point) {
    match point
    case AtTick(tick) => !tick.Observe? && !tick.Queue? && !tick.Pause?
    case AtStart(_) => true
    case AtRecover(recover) => !recover.Facts?
    case _ => false
  }

  predicate Tested(point: Point) { point.AtTick? && (point.tick.CooldownTest? || point.tick.Announce? || point.tick.Arm?) }

  /** What the process has been told. */
  predicate Told(p: Proc) {
    var a := p.trail.answers;
    && (Calm(p.point) ==> a.looks.calm)
    && (Probed(p.point) ==> a.looks.probed.Some? && p.trail.taken <= a.looks.probed.value <= p.at)
    && (Alone(p.point) ==> a.looks.alone)
    && (p.point == Take || p.point.AtPrepare? || p.point.AtRunner? ==> a.looks.hinted)
    && (p.role.Recoverer? && (p.point.AtStart? || p.point.AtStop?) ==> !p.role.gateOnly)
    && (p.role.Dispatcher? && ((p.point.AtPrepare? && p.point.prepare != Look) || p.point.AtRunner?) ==> !p.role.probeOnly)
  }

  /** Whether it was asked to stop, and what a recovery asks for besides. */
  predicate Heeded(p: Proc) {
    var a := p.trail.answers;
    && (Willing(p.role, p.point) ==> a.leaves.willing)
    && (Unpaused(p.point) ==> a.leaves.unpaused)
    && (p.role.Recoverer? && (Unpaused(p.point) || p.point.AtStop?) ==> a.looks.alone && !a.looks.hinted && a.leaves.unpaused)
    && (p.point.AtStop? && p.point.back == BackToRaise ==> !a.looks.calm)
  }

  predicate FinishOld(point: Point) {
    match point
    case AtTick(tick) => !tick.Observe? && !tick.Queue? && !tick.Pause? && !tick.Settled?
    case AtStart(_) => true
    case AtRecover(recover) => recover.Readiness?
    case _ => false
  }

  /** How old the stamps were. */
  predicate Aged(c: Config, p: Proc) {
    var a := p.trail.answers;
    && (FinishOld(p.point) ==> OldEnough(a.ages.finish, c.settle))
    && (p.point.AtStart? || p.point == AtRecover(Readiness) ==> OldEnough(a.ages.start, c.cooldown))
    && (p.point.AtTick? && (p.point.tick.Announce? || p.point.tick.Arm?) ==>
          p.mem.sawOwned || OldEnough(a.ages.start, c.cooldown))
    && (p.point == AtTick(Arm) ==> OldEnough(a.ages.start, c.cooldown))
  }

  /** How its commands ended. */
  predicate Endings(p: Proc) {
    var a := p.trail.answers;
    && (p.point == AtStart(Pressure) ==> a.ends.code == Some(0))
    && (p.role.Dispatcher? && p.mem.activations > 0 && !Over(p.point) ==> a.ends.code == Some(0))
    && (p.role.Dispatcher? && (p.point.Hint? || p.point.Take? || (p.point.AtPrepare? && p.point.prepare.Look?)) ==>
          a.ends.code.None? || (a.ends.code == Some(0) && a.ends.sound))
    && (p.role.Dispatcher? && p.mem.activations > 0 ==> a.ends.sound)
    && (p.point.AtRunner? && p.point.runner.FinishTime? ==> a.ends.code == Some(p.point.runner.code))
    && (p.point.AtRunner? && p.point.runner.After? ==> a.ends.code == Some(p.point.runner.code))
  }

  /** What a supervisor remembers of its turns. */
  predicate Turned(c: Config, p: Proc)
    requires p.role.Supervisor?
  {
    var a := p.trail.answers;
    && p.mem.nextStart == Due(c, a.turns.lately)
    && (Tested(p.point) ==> p.mem.nextStart <= a.turns.tested)
    && (p.point.AtStart? ==> Due(c, a.turns.before) <= a.turns.tested)
  }

  /** What a process saw and said. */
  predicate Sayings(p: Proc) {
    var a := p.trail.answers;
    && (p.point.AtTick? && p.point != AtTick(Observe) ==> p.mem.sawOwned == a.ends.had)
    && (p.point == AtTick(Arm) || (p.role.Supervisor? && p.point.AtStart?) ==> !a.ends.had && Says(p.trail.said, OptionalAllowed))
    && (p.point.AtStop? && p.point.stop.Run? ==> Says(p.trail.said, StoppingOptional))
  }

  /** Its stop command ended well. */
  predicate Stopped(p: Proc) {
    var well := p.trail.answers.ends.code == Some(0);
    match p.point
    case AtStop(stop, _) => stop.Run? || stop.Await? || (((stop.Verify? && stop.had) || stop.Probe?) && well)
    case AtJob(job) => (job.Foreign? || job.Admit? || job.JobHealth? || job.Report?) && well
    case Finish(_) => well
    case Defer => true
    case _ => false
  }

  /** What a supervisor said last and has not yet followed up. */
  predicate Owes(p: Proc) {
    && (AnnouncesJob(p.trail.said) <==> p.point.AtJob? && (p.point.job.Launch? || p.point.job.JobWait? || p.point.job.Reported?))
    && (Says(p.trail.said, StoppingOptional) ==> Stopped(p))
  }

  /** What a supervisor is about. */
  predicate About(c: Config, p: Proc)
    requires p.role.Supervisor?
  {
    && (Onward(p.point) ==> AllClear(LastOf(p)) && !LastOf(p).value.resting)
    && (ForReal(p.point) ==> !p.role.dryRun)
    && (p.point.AtJob? || (p.point.AtStop? && p.point.back == BackToJob) ==> Sends(p.role))
    && (p.point.AtJob? && p.point.job != Done && p.point.job != Reported ==> Asked(LastOf(p)))
    && (p.point.AtStop? && p.point.back == BackToJob ==> Asked(LastOf(p)))
    && (p.point == AtTick(Observe) ==> LastSight(p.trail.seen, None, None))
    && (p.point == AtTick(Queue) ==> LastSight(p.trail.seen, Some(CALM_VIEW), None))
    && (p.point.AtStop? && p.point.back.BackToFinish? ==> Reason(c, p.role, p.point.back.state, LastOf(p), p.trail.answers))
    && (p.point.Finish? ==> Reason(c, p.role, p.point.state, LastOf(p), p.trail.answers))
    && (p.point.AtStop? ==> LastOf(p).Some?)
    && (p.point.Defer? ==> LastOf(p).Some? && LastOf(p).value.deferred)
    && (p.point.AtStop? && p.point.back.BackToFinish? ==> StopsFirst(p.point.back.state))
  }

  predicate Tale(c: Config, p: Proc) {
    Told(p) && Heeded(p) && Aged(c, p) && Endings(p) && Sayings(p) && (p.role.Supervisor? ==> Turned(c, p) && Owes(p) && About(c, p))
  }

  // ---- one step of one process

  predicate Elsewhere(point: Point) {
    && !point.AtTick? && !point.AtStop? && !point.AtStart? && !point.AtJob? && !point.AtPrepare?
    && !point.AtRecover? && !point.AtRunner?
  }

  lemma TickTold(c: Config, s: System, p: Proc, i: Input)
    requires Told(p) && p.trail.taken <= p.at <= s.wall && FitsRole(p.role, p.point) && p.point.AtTick? && !Local(c, s, p, i).effect.Exit?
    ensures Told(Moved(s, p, Local(c, s, p, i), i))
  {
    hide Seen, LeaveOf, EndOf, AgesOf, TurnsOf;
  }

  lemma StopTold(c: Config, s: System, p: Proc, i: Input)
    requires Told(p) && p.trail.taken <= p.at <= s.wall && FitsRole(p.role, p.point) && p.point.AtStop? && !Local(c, s, p, i).effect.Exit?
    ensures Told(Moved(s, p, Local(c, s, p, i), i))
  {
    hide Seen, LeaveOf, EndOf, AgesOf, TurnsOf;
  }

  lemma StartTold(c: Config, s: System, p: Proc, i: Input)
    requires Told(p) && p.trail.taken <= p.at <= s.wall && FitsRole(p.role, p.point) && p.point.AtStart? && !Local(c, s, p, i).effect.Exit?
    ensures Told(Moved(s, p, Local(c, s, p, i), i))
  {
    hide Seen, LeaveOf, EndOf, AgesOf, TurnsOf;
  }

  lemma WorkTold(c: Config, s: System, p: Proc, i: Input)
    requires Told(p) && p.trail.taken <= p.at <= s.wall && FitsRole(p.role, p.point) && (p.point.AtJob? || p.point.AtPrepare?) && !Local(c, s, p, i).effect.Exit?
    ensures Told(Moved(s, p, Local(c, s, p, i), i))
  {
    hide Seen, LeaveOf, EndOf, AgesOf, TurnsOf;
  }

  lemma RunTold(c: Config, s: System, p: Proc, i: Input)
    requires Told(p) && p.trail.taken <= p.at <= s.wall && FitsRole(p.role, p.point) && (p.point.AtRecover? || p.point.AtRunner?) && !Local(c, s, p, i).effect.Exit?
    ensures Told(Moved(s, p, Local(c, s, p, i), i))
  {
    hide Seen, LeaveOf, EndOf, AgesOf, TurnsOf;
  }
  lemma EdgeTold(c: Config, s: System, p: Proc, i: Input)
    requires Told(p) && p.trail.taken <= p.at <= s.wall && FitsRole(p.role, p.point) && Elsewhere(p.point) && !Local(c, s, p, i).effect.Exit?
    ensures Told(Moved(s, p, Local(c, s, p, i), i))
  {
    hide Seen, LeaveOf, EndOf, AgesOf, TurnsOf;
  }

  lemma LocalTold(c: Config, s: System, p: Proc, i: Input)
    requires Told(p) && p.trail.taken <= p.at <= s.wall && FitsRole(p.role, p.point) && !Local(c, s, p, i).effect.Exit?
    ensures Told(Moved(s, p, Local(c, s, p, i), i))
  {
    hide Told, Moved, Local;
    match p.point
    case AtTick(_) => TickTold(c, s, p, i);
    case AtStop(_, _) => StopTold(c, s, p, i);
    case AtStart(_) => StartTold(c, s, p, i);
    case AtJob(_) => WorkTold(c, s, p, i);
    case AtPrepare(_) => WorkTold(c, s, p, i);
    case AtRecover(_) => RunTold(c, s, p, i);
    case AtRunner(_) => RunTold(c, s, p, i);
    case _ => EdgeTold(c, s, p, i);
  }

  lemma TickHeeded(c: Config, s: System, p: Proc, i: Input)
    requires Told(p) && Heeded(p) && FitsRole(p.role, p.point) && p.point.AtTick? && !Local(c, s, p, i).effect.Exit?
    ensures Heeded(Moved(s, p, Local(c, s, p, i), i))
  {
    hide Seen, EndOf, AgesOf, TurnsOf;
  }

  lemma StopHeeded(c: Config, s: System, p: Proc, i: Input)
    requires Told(p) && Heeded(p) && FitsRole(p.role, p.point) && p.point.AtStop? && !Local(c, s, p, i).effect.Exit?
    ensures Heeded(Moved(s, p, Local(c, s, p, i), i))
  {
    hide Seen, EndOf, AgesOf, TurnsOf;
  }

  lemma StartHeeded(c: Config, s: System, p: Proc, i: Input)
    requires Told(p) && Heeded(p) && FitsRole(p.role, p.point) && p.point.AtStart? && !Local(c, s, p, i).effect.Exit?
    ensures Heeded(Moved(s, p, Local(c, s, p, i), i))
  {
    hide Seen, EndOf, AgesOf, TurnsOf;
  }

  lemma WorkHeeded(c: Config, s: System, p: Proc, i: Input)
    requires Told(p) && Heeded(p) && FitsRole(p.role, p.point) && (p.point.AtJob? || p.point.AtPrepare?) && !Local(c, s, p, i).effect.Exit?
    ensures Heeded(Moved(s, p, Local(c, s, p, i), i))
  {
    hide Seen, EndOf, AgesOf, TurnsOf;
  }

  lemma RunHeeded(c: Config, s: System, p: Proc, i: Input)
    requires Told(p) && Heeded(p) && FitsRole(p.role, p.point) && (p.point.AtRecover? || p.point.AtRunner?) && !Local(c, s, p, i).effect.Exit?
    ensures Heeded(Moved(s, p, Local(c, s, p, i), i))
  {
    hide Seen, EndOf, AgesOf, TurnsOf;
  }
  lemma EdgeHeeded(c: Config, s: System, p: Proc, i: Input)
    requires Told(p) && Heeded(p) && FitsRole(p.role, p.point) && Elsewhere(p.point) && !Local(c, s, p, i).effect.Exit?
    ensures Heeded(Moved(s, p, Local(c, s, p, i), i))
  {
    hide Seen, EndOf, AgesOf, TurnsOf;
  }

  lemma LocalHeeded(c: Config, s: System, p: Proc, i: Input)
    requires Told(p) && Heeded(p) && FitsRole(p.role, p.point) && !Local(c, s, p, i).effect.Exit?
    ensures Heeded(Moved(s, p, Local(c, s, p, i), i))
  {
    hide Heeded, Moved, Local;
    match p.point
    case AtTick(_) => TickHeeded(c, s, p, i);
    case AtStop(_, _) => StopHeeded(c, s, p, i);
    case AtStart(_) => StartHeeded(c, s, p, i);
    case AtJob(_) => WorkHeeded(c, s, p, i);
    case AtPrepare(_) => WorkHeeded(c, s, p, i);
    case AtRecover(_) => RunHeeded(c, s, p, i);
    case AtRunner(_) => RunHeeded(c, s, p, i);
    case _ => EdgeHeeded(c, s, p, i);
  }

  lemma TickAged(c: Config, s: System, p: Proc, i: Input)
    requires Aged(c, p) && FitsRole(p.role, p.point) && p.point.AtTick? && !Local(c, s, p, i).effect.Exit?
    ensures Aged(c, Moved(s, p, Local(c, s, p, i), i))
  {
    hide Seen, Looked, LeaveOf, EndOf, TurnsOf;
  }

  lemma StopAged(c: Config, s: System, p: Proc, i: Input)
    requires Aged(c, p) && FitsRole(p.role, p.point) && p.point.AtStop? && !Local(c, s, p, i).effect.Exit?
    ensures Aged(c, Moved(s, p, Local(c, s, p, i), i))
  {
    hide Seen, Looked, LeaveOf, EndOf, TurnsOf;
  }

  lemma StartAged(c: Config, s: System, p: Proc, i: Input)
    requires Aged(c, p) && FitsRole(p.role, p.point) && p.point.AtStart? && !Local(c, s, p, i).effect.Exit?
    ensures Aged(c, Moved(s, p, Local(c, s, p, i), i))
  {
    hide Seen, Looked, LeaveOf, EndOf, TurnsOf;
  }

  lemma WorkAged(c: Config, s: System, p: Proc, i: Input)
    requires Aged(c, p) && FitsRole(p.role, p.point) && (p.point.AtJob? || p.point.AtPrepare?) && !Local(c, s, p, i).effect.Exit?
    ensures Aged(c, Moved(s, p, Local(c, s, p, i), i))
  {
    hide Seen, Looked, LeaveOf, EndOf, TurnsOf;
  }

  lemma RunAged(c: Config, s: System, p: Proc, i: Input)
    requires Aged(c, p) && FitsRole(p.role, p.point) && (p.point.AtRecover? || p.point.AtRunner?) && !Local(c, s, p, i).effect.Exit?
    ensures Aged(c, Moved(s, p, Local(c, s, p, i), i))
  {
    hide Seen, Looked, LeaveOf, EndOf, TurnsOf;
  }
  lemma EdgeAged(c: Config, s: System, p: Proc, i: Input)
    requires Aged(c, p) && FitsRole(p.role, p.point) && Elsewhere(p.point) && !Local(c, s, p, i).effect.Exit?
    ensures Aged(c, Moved(s, p, Local(c, s, p, i), i))
  {
    hide Seen, Looked, LeaveOf, EndOf, TurnsOf;
  }

  lemma LocalAged(c: Config, s: System, p: Proc, i: Input)
    requires Aged(c, p) && FitsRole(p.role, p.point) && !Local(c, s, p, i).effect.Exit?
    ensures Aged(c, Moved(s, p, Local(c, s, p, i), i))
  {
    hide Aged, Moved, Local;
    match p.point
    case AtTick(_) => TickAged(c, s, p, i);
    case AtStop(_, _) => StopAged(c, s, p, i);
    case AtStart(_) => StartAged(c, s, p, i);
    case AtJob(_) => WorkAged(c, s, p, i);
    case AtPrepare(_) => WorkAged(c, s, p, i);
    case AtRecover(_) => RunAged(c, s, p, i);
    case AtRunner(_) => RunAged(c, s, p, i);
    case _ => EdgeAged(c, s, p, i);
  }

  lemma TickEndings(c: Config, s: System, p: Proc, i: Input)
    requires Endings(p) && FitsRole(p.role, p.point) && p.point.AtTick? && !Local(c, s, p, i).effect.Exit?
    ensures Endings(Moved(s, p, Local(c, s, p, i), i))
  {
    hide Seen, Looked, LeaveOf, AgesOf, TurnsOf;
  }

  lemma StopEndings(c: Config, s: System, p: Proc, i: Input)
    requires Endings(p) && FitsRole(p.role, p.point) && p.point.AtStop? && !Local(c, s, p, i).effect.Exit?
    ensures Endings(Moved(s, p, Local(c, s, p, i), i))
  {
    hide Seen, Looked, LeaveOf, AgesOf, TurnsOf;
  }

  lemma StartEndings(c: Config, s: System, p: Proc, i: Input)
    requires Endings(p) && FitsRole(p.role, p.point) && p.point.AtStart? && !Local(c, s, p, i).effect.Exit?
    ensures Endings(Moved(s, p, Local(c, s, p, i), i))
  {
    hide Seen, Looked, LeaveOf, AgesOf, TurnsOf;
  }

  lemma WorkEndings(c: Config, s: System, p: Proc, i: Input)
    requires Endings(p) && FitsRole(p.role, p.point) && (p.point.AtJob? || p.point.AtPrepare?) && !Local(c, s, p, i).effect.Exit?
    ensures Endings(Moved(s, p, Local(c, s, p, i), i))
  {
    hide Seen, Looked, LeaveOf, AgesOf, TurnsOf;
  }

  lemma RunEndings(c: Config, s: System, p: Proc, i: Input)
    requires Endings(p) && FitsRole(p.role, p.point) && (p.point.AtRecover? || p.point.AtRunner?) && !Local(c, s, p, i).effect.Exit?
    ensures Endings(Moved(s, p, Local(c, s, p, i), i))
  {
    hide Seen, Looked, LeaveOf, AgesOf, TurnsOf;
  }
  lemma EdgeEndings(c: Config, s: System, p: Proc, i: Input)
    requires Endings(p) && FitsRole(p.role, p.point) && Elsewhere(p.point) && !Local(c, s, p, i).effect.Exit?
    ensures Endings(Moved(s, p, Local(c, s, p, i), i))
  {
    hide Seen, Looked, LeaveOf, AgesOf, TurnsOf;
  }

  lemma LocalEndings(c: Config, s: System, p: Proc, i: Input)
    requires Endings(p) && FitsRole(p.role, p.point) && !Local(c, s, p, i).effect.Exit?
    ensures Endings(Moved(s, p, Local(c, s, p, i), i))
  {
    hide Endings, Moved, Local;
    match p.point
    case AtTick(_) => TickEndings(c, s, p, i);
    case AtStop(_, _) => StopEndings(c, s, p, i);
    case AtStart(_) => StartEndings(c, s, p, i);
    case AtJob(_) => WorkEndings(c, s, p, i);
    case AtPrepare(_) => WorkEndings(c, s, p, i);
    case AtRecover(_) => RunEndings(c, s, p, i);
    case AtRunner(_) => RunEndings(c, s, p, i);
    case _ => EdgeEndings(c, s, p, i);
  }

  lemma TickSayings(c: Config, s: System, p: Proc, i: Input)
    requires Sayings(p) && FitsRole(p.role, p.point) && p.point.AtTick? && !Local(c, s, p, i).effect.Exit?
    ensures Sayings(Moved(s, p, Local(c, s, p, i), i))
  {
    hide Seen, Looked, LeaveOf, AgesOf, TurnsOf;
  }

  lemma StopSayings(c: Config, s: System, p: Proc, i: Input)
    requires Sayings(p) && FitsRole(p.role, p.point) && p.point.AtStop? && !Local(c, s, p, i).effect.Exit?
    ensures Sayings(Moved(s, p, Local(c, s, p, i), i))
  {
    hide Seen, Looked, LeaveOf, AgesOf, TurnsOf;
  }

  lemma StartSayings(c: Config, s: System, p: Proc, i: Input)
    requires Sayings(p) && FitsRole(p.role, p.point) && p.point.AtStart? && !Local(c, s, p, i).effect.Exit?
    ensures Sayings(Moved(s, p, Local(c, s, p, i), i))
  {
    hide Seen, Looked, LeaveOf, AgesOf, TurnsOf;
  }

  lemma WorkSayings(c: Config, s: System, p: Proc, i: Input)
    requires Sayings(p) && FitsRole(p.role, p.point) && (p.point.AtJob? || p.point.AtPrepare?) && !Local(c, s, p, i).effect.Exit?
    ensures Sayings(Moved(s, p, Local(c, s, p, i), i))
  {
    hide Seen, Looked, LeaveOf, AgesOf, TurnsOf;
  }

  lemma RunSayings(c: Config, s: System, p: Proc, i: Input)
    requires Sayings(p) && FitsRole(p.role, p.point) && (p.point.AtRecover? || p.point.AtRunner?) && !Local(c, s, p, i).effect.Exit?
    ensures Sayings(Moved(s, p, Local(c, s, p, i), i))
  {
    hide Seen, Looked, LeaveOf, AgesOf, TurnsOf;
  }
  lemma EdgeSayings(c: Config, s: System, p: Proc, i: Input)
    requires Sayings(p) && FitsRole(p.role, p.point) && Elsewhere(p.point) && !Local(c, s, p, i).effect.Exit?
    ensures Sayings(Moved(s, p, Local(c, s, p, i), i))
  {
    hide Seen, Looked, LeaveOf, AgesOf, TurnsOf;
  }

  lemma LocalSayings(c: Config, s: System, p: Proc, i: Input)
    requires Sayings(p) && FitsRole(p.role, p.point) && !Local(c, s, p, i).effect.Exit?
    ensures Sayings(Moved(s, p, Local(c, s, p, i), i))
  {
    hide Sayings, Moved, Local;
    match p.point
    case AtTick(_) => TickSayings(c, s, p, i);
    case AtStop(_, _) => StopSayings(c, s, p, i);
    case AtStart(_) => StartSayings(c, s, p, i);
    case AtJob(_) => WorkSayings(c, s, p, i);
    case AtPrepare(_) => WorkSayings(c, s, p, i);
    case AtRecover(_) => RunSayings(c, s, p, i);
    case AtRunner(_) => RunSayings(c, s, p, i);
    case _ => EdgeSayings(c, s, p, i);
  }

  lemma TickTurned(c: Config, s: System, p: Proc, i: Input)
    requires p.role.Supervisor? && Turned(c, p) && FitsRole(p.role, p.point) && p.point.AtTick?
    ensures Turned(c, Moved(s, p, Local(c, s, p, i), i))
  {
    hide Seen, Looked, LeaveOf, EndOf, AgesOf;
  }

  lemma StopTurned(c: Config, s: System, p: Proc, i: Input)
    requires p.role.Supervisor? && Turned(c, p) && FitsRole(p.role, p.point) && p.point.AtStop?
    ensures Turned(c, Moved(s, p, Local(c, s, p, i), i))
  {
    hide Seen, Looked, LeaveOf, EndOf, AgesOf;
  }

  lemma StartTurned(c: Config, s: System, p: Proc, i: Input)
    requires p.role.Supervisor? && Turned(c, p) && FitsRole(p.role, p.point) && p.point.AtStart?
    ensures Turned(c, Moved(s, p, Local(c, s, p, i), i))
  {
    hide Seen, Looked, LeaveOf, EndOf, AgesOf;
  }

  lemma WorkTurned(c: Config, s: System, p: Proc, i: Input)
    requires p.role.Supervisor? && Turned(c, p) && FitsRole(p.role, p.point) && (p.point.AtJob? || p.point.AtPrepare?)
    ensures Turned(c, Moved(s, p, Local(c, s, p, i), i))
  {
    hide Seen, Looked, LeaveOf, EndOf, AgesOf;
  }

  lemma EdgeTurned(c: Config, s: System, p: Proc, i: Input)
    requires p.role.Supervisor? && Turned(c, p) && FitsRole(p.role, p.point) && Elsewhere(p.point)
    ensures Turned(c, Moved(s, p, Local(c, s, p, i), i))
  {
    hide Seen, Looked, LeaveOf, EndOf, AgesOf;
  }

  lemma LocalTurned(c: Config, s: System, p: Proc, i: Input)
    requires p.role.Supervisor? && Turned(c, p) && FitsRole(p.role, p.point)
    ensures Turned(c, Moved(s, p, Local(c, s, p, i), i))
  {
    hide Turned, Moved, Local;
    match p.point
    case AtTick(_) => TickTurned(c, s, p, i);
    case AtStop(_, _) => StopTurned(c, s, p, i);
    case AtStart(_) => StartTurned(c, s, p, i);
    case AtJob(_) => WorkTurned(c, s, p, i);
    case AtPrepare(_) => WorkTurned(c, s, p, i);
    case _ => EdgeTurned(c, s, p, i);
  }

  lemma TickOwes(c: Config, s: System, p: Proc, i: Input)
    requires p.role.Supervisor? && Tale(c, p) && FitsRole(p.role, p.point) && p.point.AtTick?
    ensures Owes(Moved(s, p, Local(c, s, p, i), i))
  {
    hide Seen, Looked, LeaveOf, AgesOf, TurnsOf, Told, Heeded, Aged, Turned;
  }

  lemma StopOwes(c: Config, s: System, p: Proc, i: Input)
    requires p.role.Supervisor? && Tale(c, p) && FitsRole(p.role, p.point) && p.point.AtStop?
    ensures Owes(Moved(s, p, Local(c, s, p, i), i))
  {
    hide Seen, Looked, LeaveOf, AgesOf, TurnsOf, Told, Heeded, Aged, Turned;
  }

  lemma StartOwes(c: Config, s: System, p: Proc, i: Input)
    requires p.role.Supervisor? && Tale(c, p) && FitsRole(p.role, p.point) && p.point.AtStart?
    ensures Owes(Moved(s, p, Local(c, s, p, i), i))
  {
    hide Seen, Looked, LeaveOf, AgesOf, TurnsOf, Told, Heeded, Aged, Turned;
  }

  lemma WorkOwes(c: Config, s: System, p: Proc, i: Input)
    requires p.role.Supervisor? && Tale(c, p) && FitsRole(p.role, p.point) && (p.point.AtJob? || p.point.AtPrepare?)
    ensures Owes(Moved(s, p, Local(c, s, p, i), i))
  {
    hide Seen, Looked, LeaveOf, AgesOf, TurnsOf, Told, Heeded, Aged, Turned;
  }

  lemma EdgeOwes(c: Config, s: System, p: Proc, i: Input)
    requires p.role.Supervisor? && Tale(c, p) && FitsRole(p.role, p.point) && Elsewhere(p.point)
    ensures Owes(Moved(s, p, Local(c, s, p, i), i))
  {
    hide Seen, Looked, LeaveOf, AgesOf, TurnsOf, Told, Heeded, Aged, Turned;
  }

  lemma LocalOwes(c: Config, s: System, p: Proc, i: Input)
    requires p.role.Supervisor? && Tale(c, p) && FitsRole(p.role, p.point)
    ensures Owes(Moved(s, p, Local(c, s, p, i), i))
  {
    hide Owes, Moved, Local, Tale;
    match p.point
    case AtTick(_) => TickOwes(c, s, p, i);
    case AtStop(_, _) => StopOwes(c, s, p, i);
    case AtStart(_) => StartOwes(c, s, p, i);
    case AtJob(_) => WorkOwes(c, s, p, i);
    case AtPrepare(_) => WorkOwes(c, s, p, i);
    case _ => EdgeOwes(c, s, p, i);
  }

  lemma SeenStays(s: System, p: Proc, m: Move, i: Input)
    requires !Telling(p.point) && !m.point.Defer? && p.point != AtTick(Settled)
    ensures Seen(s, p, m, i) == p.trail.seen
  {}

  /** A deferral is seen whatever the tick was about. */
  lemma AboutDeferral(c: Config, s: System, p: Proc, m: Move, i: Input)
    requires p.role.Supervisor? && m.point.Defer? && (p.trail.seen != [] || p.point.Idle?)
    ensures About(c, Moved(s, p, m, i))
  {}

  lemma AboutObserve(c: Config, s: System, p: Proc, i: Input)
    requires p.role.Supervisor? && About(c, p) && p.point == AtTick(Observe) && !TickMove(c, s, p, i).point.Defer?
    ensures About(c, Moved(s, p, TickMove(c, s, p, i), i))
  {}

  lemma AboutQueue(c: Config, s: System, p: Proc, i: Input)
    requires p.role.Supervisor? && About(c, p) && p.point == AtTick(Queue) && !TickMove(c, s, p, i).point.Defer?
    ensures About(c, Moved(s, p, TickMove(c, s, p, i), i))
  {}

  lemma AboutSettled(c: Config, s: System, p: Proc, i: Input)
    requires p.role.Supervisor? && Tale(c, p) && p.point == AtTick(Settled) && !TickMove(c, s, p, i).point.Defer?
    ensures About(c, Moved(s, p, TickMove(c, s, p, i), i))
  {}

  lemma AboutLate(c: Config, s: System, p: Proc, i: Input)
    requires p.role.Supervisor? && Tale(c, p) && p.point.AtTick?
    requires p.point.tick.Mark? || p.point.tick.SettleTest? || p.point.tick.NextTest? || p.point.tick.Arm?
    ensures About(c, Moved(s, p, TickMove(c, s, p, i), i))
  {
    SeenStays(s, p, TickMove(c, s, p, i), i);
    hide Seen, TurnsOf, Turned, Owes, Endings, OldEnough, AgeOf;
  }

  lemma AboutTick(c: Config, s: System, p: Proc, i: Input)
    requires p.role.Supervisor? && Tale(c, p) && p.point.AtTick?
    requires p.point.tick.Pause? || p.point.tick.CooldownTest? || p.point.tick.Announce?
    ensures About(c, Moved(s, p, TickMove(c, s, p, i), i))
  {
    SeenStays(s, p, TickMove(c, s, p, i), i);
    hide Seen, TurnsOf, Turned, Owes, Endings, AgeOf;
  }


  lemma AboutStop(c: Config, s: System, p: Proc, i: Input)
    requires p.role.Supervisor? && About(c, p) && p.point.AtStop? && !StopMove(c, s, p, i).point.Defer?
    ensures About(c, Moved(s, p, StopMove(c, s, p, i), i))
  {
    SeenStays(s, p, StopMove(c, s, p, i), i);
    hide Seen;
  }

  lemma AboutStart(c: Config, s: System, p: Proc, i: Input)
    requires p.role.Supervisor? && Tale(c, p) && p.point.AtStart? && !StartMove(c, s, p, i).point.Defer?
    ensures About(c, Moved(s, p, StartMove(c, s, p, i), i))
  {
    SeenStays(s, p, StartMove(c, s, p, i), i);
    hide Seen;
  }

  lemma AboutJob(c: Config, s: System, p: Proc, i: Input)
    requires p.role.Supervisor? && About(c, p) && p.point.AtJob? && !JobMove(c, s, p, i).point.Defer?
    ensures About(c, Moved(s, p, JobMove(c, s, p, i), i))
  {
    SeenStays(s, p, JobMove(c, s, p, i), i);
    hide Seen;
  }

  lemma AboutIdle(c: Config, s: System, p: Proc, i: Input)
    requires p.role.Supervisor? && p.point.Idle? && !EdgeMove(c, s, p, i).point.Defer?
    ensures About(c, Moved(s, p, EdgeMove(c, s, p, i), i))
  {}

  lemma AboutEdge(c: Config, s: System, p: Proc, i: Input)
    requires p.role.Supervisor? && About(c, p) && FitsRole(p.role, p.point)
    requires p.point.Defer? || p.point.Finish? || p.point.Release?
    ensures !EdgeMove(c, s, p, i).point.Defer? && About(c, Moved(s, p, EdgeMove(c, s, p, i), i))
  {
    SeenStays(s, p, EdgeMove(c, s, p, i), i);
    hide Seen;
  }

  lemma RaisesAfterSight(c: Config, s: System, p: Proc, i: Input)
    requires p.role.Supervisor? && About(c, p) && FitsRole(p.role, p.point) && Local(c, s, p, i).point.Defer?
    ensures p.trail.seen != [] || p.point.Idle?
  {}

  lemma LocalAbout(c: Config, s: System, p: Proc, i: Input)
    requires p.role.Supervisor? && Tale(c, p) && FitsRole(p.role, p.point)
    ensures About(c, Moved(s, p, Local(c, s, p, i), i))
  {
    hide About, Told, Seen, Endings, Turned, Heeded, Aged, Sayings, Owes;
    if Local(c, s, p, i).point.Defer? {
      RaisesAfterSight(c, s, p, i);
      AboutDeferral(c, s, p, Local(c, s, p, i), i);
    } else {
      match p.point
      case AtTick(Observe) => AboutObserve(c, s, p, i);
      case AtTick(Queue) => AboutQueue(c, s, p, i);
      case AtTick(Settled) => AboutSettled(c, s, p, i);
      case AtTick(tick) =>
        if tick.Pause? || tick.CooldownTest? || tick.Announce? { AboutTick(c, s, p, i); } else { AboutLate(c, s, p, i); }
      case AtStop(_, _) => AboutStop(c, s, p, i);
      case AtStart(_) => AboutStart(c, s, p, i);
      case AtJob(_) => AboutJob(c, s, p, i);
      case Idle => AboutIdle(c, s, p, i);
      case _ => AboutEdge(c, s, p, i);
    }
  }

  // ---- what a step adds

  /** Where a program publishes which state. */
  predicate TellsOfPoint(p: Proc, state: State) {
    var point := p.point;
    || (point.Defer? && state == DeferredTick) || point == Finish(state)
    || (point == AtTick(Announce) && state == (if p.mem.sawOwned then OptionalRunning else OptionalAllowed))
    || (point.AtStop? && state == StoppingOptional)
    || (point == AtJob(Report) && state == RunnerActive) || (point == AtJob(Reported) && state == RunnerFinished)
  }

  lemma PublishingPoints(c: Config, s: System, p: Proc, i: Input, state: State)
    requires FitsRole(p.role, p.point) && Local(c, s, p, i).effect == Publish(state)
    ensures TellsOfPoint(p, state)
  {}

  lemma PublishIsTruthful(c: Config, s: System, p: Proc, state: State, item: Publication)
    requires Tale(c, p) && FitsRole(p.role, p.point) && TellsOfPoint(p, state)
    requires item.state == state && item.scene == SceneOf(s, p)
    ensures Truthful(c, item)
  {
    assert item.scene.last == LastOf(p);
  }

  /** The points reached only once the owned containers were seen gone, up to the report. */
  predicate SweptAt(p: Proc) {
    || (p.point.AtStop? && p.point.stop == Probe)
    || (p.point.Finish? && StopsFirst(p.point.state) && p.role.Supervisor? && !p.role.dryRun)
  }

  lemma StopsBeforeSaying(c: Config, s: System, p: Proc, i: Input)
    requires FitsRole(p.role, p.point) && SweptAt(Moved(s, p, Local(c, s, p, i), i))
    ensures SweptAt(p) || s.owned == {}
  {
    hide Seen, Heard;
  }

  lemma PublishIsSwept(s: System, p: Proc, state: State, item: Publication)
    requires TellsOfPoint(p, state) && item.state == state && item.scene == SceneOf(s, p)
    requires SweptAt(p) || LeaseInvariant.Cleared(p.point) ==> s.owned == {}
    ensures Swept(item)
  {}

  /** Where a program issues which command. */
  predicate LaunchesAt(p: Proc, kind: ChildKind) {
    match kind
    case StartChild => p.point == AtStart(Spawn) && !p.role.Dispatcher?
    case RunnerChild => p.point == AtJob(Launch) || p.point == AtRunner(RunnerSpawn)
    case StopChild => (p.point.AtStop? && p.point.stop.Run?) || p.point == AtPrepare(StopOwned)
  }

  lemma LaunchingPoints(c: Config, s: System, p: Proc, i: Input, kind: ChildKind, inherit: bool)
    requires FitsRole(p.role, p.point) && Local(c, s, p, i).effect == Fork(kind, inherit)
    ensures LaunchesAt(p, kind)
  {}

  lemma CommandIsChecked(c: Config, s: System, p: Proc, l: Launched)
    requires Tale(c, p) && FitsRole(p.role, p.point) && p.at <= s.wall && l.kind != StopChild && LaunchesAt(p, l.kind)
    requires l.scene == SceneOf(s, p) && l.taken == p.trail.taken && l.wall == s.wall
    ensures Checked(c, l)
  {
    assert l.scene.last == LastOf(p);
  }

  lemma StopIsJustified(c: Config, s: System, p: Proc, l: Launched)
    requires Tale(c, p) && FitsRole(p.role, p.point) && l.kind == StopChild && LaunchesAt(p, l.kind)
    requires l.scene == SceneOf(s, p)
    ensures Checked(c, l)
  {
    assert l.scene.last == LastOf(p);
  }

  lemma LaunchIsChecked(c: Config, s: System, p: Proc, l: Launched)
    requires Tale(c, p) && FitsRole(p.role, p.point) && p.at <= s.wall && LaunchesAt(p, l.kind)
    requires l.scene == SceneOf(s, p) && l.taken == p.trail.taken && l.wall == s.wall
    ensures Checked(c, l)
  {
    hide Tale, Checked, LaunchesAt, FitsRole;
    if l.kind == StopChild { StopIsJustified(c, s, p, l); } else { CommandIsChecked(c, s, p, l); }
  }

  /** Where a program ends with success. */
  predicate LeavesAt(s: System, p: Proc, i: Input) {
    match p.point
    case Idle => p.stopping
    case Hint => true
    case AtStart(start) => start.Pressure? && i.normal && p.role.Recoverer?
    case AtRecover(recover) =>
      && recover.Readiness? && p.role.Recoverer? && p.role.gateOnly && s.status.Some? && ReadyState(s.status.value.state)
      && 0 <= s.wall - s.status.value.time * SECOND <= READY_SECONDS * SECOND
    case AtPrepare(prepare) => prepare.Look?
    case _ => false
  }

  lemma LeavingPoints(c: Config, s: System, p: Proc, i: Input)
    requires FitsRole(p.role, p.point) && Local(c, s, p, i).effect == Exit(0)
    ensures LeavesAt(s, p, i)
  {}

  lemma RefusingPoints(c: Config, s: System, p: Proc, i: Input, code: nat)
    requires FitsRole(p.role, p.point) && Local(c, s, p, i).effect == Exit(code)
    ensures code == 0 || (code == 75 && !p.role.Supervisor? && !p.point.Hint? && !p.point.Working?)
  {}

  lemma RefusalIsJustified(s: System, p: Proc, i: Input, e: Exited)
    requires Told(p) && FitsRole(p.role, p.point) && !p.role.Supervisor? && !p.point.Hint?
    requires e.role == p.role && e.answers == Heard(s, p, i)
    ensures Refused(e)
  {
    hide LeaveOf, EndOf, AgesOf, TurnsOf;
  }

  lemma ExitIsJustified(c: Config, s: System, p: Proc, i: Input, e: Exited)
    requires Tale(c, p) && FitsRole(p.role, p.point) && LeavesAt(s, p, i)
    requires e.role == p.role && e.wall == s.wall && e.status == s.status && e.answers == Heard(s, p, i)
    ensures Justified(c, e)
  {
    hide About, Turned;
  }

  // ---- how many runners a dispatcher launches

  /** A dispatcher between its queue hint and the end of the runner. */
  predicate Busy(point: Point) { point == Take || point.AtPrepare? || point.AtRunner? }

  predicate Over(point: Point) { point.AtRunner? && !Before(point.runner) }

  /** `launched` is how many runners the process launched. */
  predicate Counted(p: Proc, launched: nat) {
    p.role.Dispatcher? ==>
      && launched == p.mem.activations + (if Over(p.point) then 1 else 0)
      && p.mem.activations <= Limit(p.role) && (Busy(p.point) ==> p.mem.activations < Limit(p.role))
  }

  lemma LocalCounts(c: Config, s: System, p: Proc, i: Input, launched: nat)
    requires Counted(p, launched) && FitsRole(p.role, p.point) && !Local(c, s, p, i).effect.Exit?
    ensures var m := Local(c, s, p, i);
      Counted(Moved(s, p, m, i), launched + if m.effect.Fork? && m.effect.kind == RunnerChild then 1 else 0)
    ensures var m := Local(c, s, p, i);
      p.role.Dispatcher? && m.effect.Fork? ==> launched + (if m.effect.kind == RunnerChild then 1 else 0) <= Limit(p.role)
  {
    hide Seen, Heard;
  }
}
