/** The inductive invariant of the lease protocol and the proof that every
    transition keeps it. */
module LeaseInvariant {
  import opened Wrappers
  import opened WorkloadLease

  // --------------------------------------------------- who holds what, and where

  /** The program points inside a lease section. */
  predicate Holding(point: Point) {
    match point
    case Idle => false
    case Defer => false
    case Enter => false
    case Hint => false
    case Take => false
    case Working => false
    case _ => true
  }

  predicate FitsRole(role: Role, point: Point) {
    match role
    case Supervisor(_, _) =>
      point.Idle? || point.Defer? || point.Finish? || point.Release? || point.AtTick? || point.AtStop? || point.AtStart?
      || point.AtJob?
    case Recoverer(_) => point.Enter? || point.AtRecover? || point.AtStart? || (point.AtStop? && point.back == BackToRaise)
    case Dispatcher(_, _) => point.Hint? || point.Take? || point.AtPrepare? || point.AtRunner?
    case Child(_) => point.Working?
  }

  datatype Awaited = Nobody | Awaited(child: Pid, kind: ChildKind)

  /** The lease-holding child a program point waits for. */
  function Awaits(point: Point): Awaited {
    match point
    case AtStart(Wait(child)) => Awaited(child, StartChild)
    case AtStop(Await(child), _) => Awaited(child, StopChild)
    case AtJob(JobWait(child)) => Awaited(child, RunnerChild)
    case AtRunner(RunnerWait(child)) => Awaited(child, RunnerChild)
    case _ => Nobody
  }

  /** The points reached only after the optional containers were seen gone, up to the runner's exit. */
  predicate Cleared(point: Point) {
    match point
    case AtStop(Probe, BackToJob) => true
    case AtJob(j) => j != Reported && j != Done
    case AtRunner(r) => !r.FinishTime? && !r.After?
    case _ => false
  }

  predicate LeasedChild(s: System, q: Pid) {
    q in s.procs && s.procs[q].role.Child? && s.procs[q].lease.Some?
  }

  predicate LeasedParent(s: System, q: Pid) {
    q in s.procs && !s.procs[q].role.Child? && s.procs[q].lease.Some?
  }

  ghost predicate ProcShape(s: System, q: Pid)
    requires q in s.procs
  {
    var p := s.procs[q];
    && q < s.freshPid
    && p.at <= s.wall
    && FitsRole(p.role, p.point)
    && (!p.role.Child? ==> (p.lease.Some? <==> Holding(p.point)))
    && (p.role.Child? && p.role.kind != StopChild ==> p.lease.Some?)
    && (p.lease.Some? ==> p.lease.value in s.locking)
  }

  ghost predicate Locks(s: System) {
    && (forall q :: q in s.procs ==> ProcShape(s, q))
    && (forall l :: l in s.locking ==> l < s.freshLease)
    && (forall l, m :: l in s.locking && m in s.locking ==> l == m)
    && (forall l :: l in s.locking ==> Held(s.procs, l))
  }

  /** At most one lease-holding parent and one lease-holding child, the first waiting for the second. */
  ghost predicate Family(s: System) {
    && (forall q, r :: LeasedParent(s, q) && LeasedParent(s, r) ==> q == r)
    && (forall q, r :: LeasedChild(s, q) && LeasedChild(s, r) ==> q == r)
    && (forall q, r :: LeasedParent(s, q) && LeasedChild(s, r) ==> Awaits(s.procs[q].point) == Awaited(r, s.procs[r].role.kind))
  }

  ghost predicate Emptied(s: System) {
    && (forall q :: q in s.procs && s.procs[q].role == Child(RunnerChild) ==> s.owned == {})
    && (forall q :: q in s.procs && Cleared(s.procs[q].point) ==> s.owned == {})
  }

  /** Descriptors and the lock, parents and children, containers. */
  ghost predicate Shape(s: System) {
    Locks(s) && Family(s) && Emptied(s)
  }

  // ------------------------------------------------------- what was established

  /** From tick `k` on, every tick saw nothing amiss. */
  ghost predicate CleanFrom(seen: seq<Sight>, k: nat, end: nat) {
    k < end <= |seen| && forall j :: k <= j < end ==> seen[j].Clean()
  }

  /** Every tick up to `k` was over at the instant `since`. */
  ghost predicate OverBy(seen: seq<Sight>, k: nat, since: nat) {
    k < |seen| && forall j :: 0 <= j <= k ==> seen[j].at <= since
  }

  /** Whatever was amiss was seen no later than `since`, and a tick that saw nothing amiss, and that none but such
      ticks follow, was over by then. */
  ghost predicate CleanSince(seen: seq<Sight>, since: nat) {
    && (forall j :: 0 <= j < |seen| && !seen[j].Clean() ==> seen[j].at <= since)
    && (exists k: nat :: CleanFrom(seen, k, |seen|) && seen[k].at <= since)
  }

  predicate StartAhead(point: Point) {
    point.AtStart? && (point.start == Guard || point.start == Health || point.start == Stamp || point.start == Spawn)
  }

  predicate AfterSettleTest(point: Point) {
    || point == AtTick(NextTest) || point == AtTick(CooldownTest) || point == AtTick(Announce) || point == AtTick(Arm)
    || point.AtStart?
    || (point.Finish? && ReadyState(point.state))
  }

  predicate Committed(point: Point) {
    || point == AtTick(Announce) || point == AtTick(Arm) || point.AtStart?
    || (point.Finish? && ReadyState(point.state))
  }

  predicate FinishChecked(point: Point) {
    || point == AtTick(Mark) || point == AtTick(SettleTest) || point == AtTick(NextTest)
    || point == AtTick(CooldownTest) || point == AtTick(Announce) || point == AtTick(Arm)
    || point == AtRecover(Readiness)
    || StartAhead(point)
  }

  ghost predicate ReadinessSeen(s: System, read: nat, readAt: nat) {
    && 0 < read <= |s.published|
    && ReadyState(s.published[read - 1].state)
    && readAt <= s.wall
    && s.published[read - 1].wall <= readAt
    && (forall j :: read <= j < |s.published| ==> readAt <= s.published[j].wall)
    && s.published[read - 1].time * SECOND <= readAt <= (s.published[read - 1].time + READY_SECONDS) * SECOND
  }

  ghost predicate Ready(s: System, trail: Trail) {
    trail.taken <= trail.readAt && ReadinessSeen(s, trail.read, trail.readAt)
  }

  /** What one process has established at its program point. */
  ghost predicate Note(c: Config, s: System, p: Proc) {
    Facts(c, s, p) && (p.role.Supervisor? ==> Sights(s, p))
  }

  ghost predicate Facts(c: Config, s: System, p: Proc) {
    && p.trail.taken <= p.at
    && (Holding(p.point) && s.finished.Some? ==> s.finished.value <= p.at)
    && (Holding(p.point) && s.starts != [] ==> s.starts[|s.starts| - 1].wall <= p.at)
    && (p.point == AtStart(Health) || p.point == AtStart(Stamp) ==>
          s.lastStart.None? || p.at >= s.lastStart.value + c.cooldown)
    && (p.point == AtStart(Spawn) ==>
          |s.stamps| > 0 && (s.starts == [] || s.starts[|s.starts| - 1].stamps < |s.stamps|))
    && (FinishChecked(p.point) ==> s.finished.None? || p.at >= s.finished.value + c.settle)
    && (p.role.Recoverer? && p.point.AtStart? ==> !p.role.gateOnly && Ready(s, p.trail))
    && (p.role.Supervisor? ==> SupervisorNote(c, s, p))
    && (p.point.AtStop? && p.point.back.BackToFinish? ==> !ReadyState(p.point.back.state))
  }

  predicate LastSight(seen: seq<Sight>, look: Option<View>, pending: Option<bool>) {
    seen != [] && var last := seen[|seen| - 1]; last.look == look && last.pending == pending && !last.resting && !last.deferred
  }

  /** How many of its ticks have told a supervisor everything. */
  function Complete(p: Proc): int {
    if p.point == AtTick(Observe) || p.point == AtTick(Queue) then |p.trail.seen| - 1 else |p.trail.seen|
  }

  ghost predicate Stretch(p: Proc)
    requires p.mem.normalSince.Some?
  {
    && 0 <= Complete(p) && CleanFrom(p.trail.seen, p.mem.since, Complete(p))
    && OverBy(p.trail.seen, p.mem.since, p.mem.normalSince.value)
  }

  /** What the ticks of a supervisor told it. */
  ghost predicate Sights(s: System, p: Proc) {
    && (forall j :: 0 <= j < |p.trail.seen| ==> p.trail.seen[j].at <= s.mono)
    && (p.mem.normalSince.Some? ==> p.mem.normalSince.value <= s.mono)
    && (p.mem.normalSince.Some? && !p.point.Defer? ==> Stretch(p))
    && (p.point == AtTick(Observe) ==> LastSight(p.trail.seen, None, None))
    && (p.point == AtTick(Queue) ==> LastSight(p.trail.seen, Some(View(true, false, false)), None))
    && (p.point == AtTick(Pause) || p.point == AtTick(Settled) || p.point == AtTick(Mark) ==>
          LastSight(p.trail.seen, Some(View(true, false, false)), Some(false)))
  }

  ghost predicate SupervisorNote(c: Config, s: System, p: Proc) {
    && (AfterSettleTest(p.point) ==> HasSettled(c, s, p.mem))
    && (p.role.Supervisor? && Committed(p.point) ==> !p.role.dryRun)
  }

  ghost predicate Notes(c: Config, s: System) {
    forall q :: q in s.procs ==> Note(c, s, s.procs[q])
  }

  // ------------------------------------------------------------------ histories

  ghost predicate Proven(c: Config, grounds: Grounds, mono: nat) {
    && grounds.AfterSettling?
    && mono >= grounds.normalSince + c.settle
    && CleanSince(grounds.seen, grounds.normalSince)
  }

  ghost predicate PublicationOk(c: Config, s: System, item: Publication) {
    && item.time * SECOND <= item.wall <= s.wall
    && (ReadyState(item.state) ==> !item.dryRun && Proven(c, item.grounds, item.mono))
  }

  ghost predicate StartOk(c: Config, s: System, r: StartRecord) {
    && r.wall <= s.wall
    && 0 < r.stamps <= |s.stamps| && s.stamps[r.stamps - 1] <= r.wall
    && r.finishes <= |s.finishes|
    && (forall j :: 0 <= j < r.finishes ==> s.finishes[j] + c.settle <= r.wall)
    && (forall j :: r.finishes <= j < |s.finishes| ==> r.wall <= s.finishes[j])
    && match r.grounds {
         case AfterSettling(_, _) => r.role.Supervisor? && !r.role.dryRun && Proven(c, r.grounds, r.mono)
         case AfterReadiness(taken, read, readAt) =>
           r.role.Recoverer? && !r.role.gateOnly && taken <= readAt <= r.wall && ReadinessSeen(s, read, readAt)
       }
  }

  /** Each file holds the last value ever written to it. */
  ghost predicate FilesOk(s: System) {
    && s.status == (if s.published == [] then None else Some(s.published[|s.published| - 1]))
    && s.lastStart == (if s.stamps == [] then None else Some(s.stamps[|s.stamps| - 1]))
    && s.finished == (if s.finishes == [] then None else Some(s.finishes[|s.finishes| - 1]))
  }

  ghost predicate StampsOk(c: Config, s: System) {
    && (forall k :: 0 <= k < |s.stamps| ==> s.stamps[k] <= s.wall)
    && (forall k, l :: 0 <= k < l < |s.stamps| ==> s.stamps[k] + c.cooldown <= s.stamps[l])
    && (forall k :: 0 <= k < |s.finishes| ==> s.finishes[k] <= s.wall)
    && (forall k, l :: 0 <= k < l < |s.finishes| ==> s.finishes[k] <= s.finishes[l])
  }

  ghost predicate PublishedOk(c: Config, s: System) {
    && (forall k :: 0 <= k < |s.published| ==> PublicationOk(c, s, s.published[k]))
    && (forall k, l :: 0 <= k < l < |s.published| ==> s.published[k].wall <= s.published[l].wall)
  }

  ghost predicate StartsOk(c: Config, s: System) {
    && (forall k :: 0 <= k < |s.starts| ==> StartOk(c, s, s.starts[k]))
    && (forall k, l :: 0 <= k < l < |s.starts| ==>
          s.starts[k].stamps < s.starts[l].stamps && s.starts[k].wall <= s.starts[l].wall)
  }

  ghost predicate Histories(c: Config, s: System) {
    FilesOk(s) && StampsOk(c, s) && PublishedOk(c, s) && StartsOk(c, s)
  }

  ghost predicate Inv(c: Config, s: System) {
    Shape(s) && Notes(c, s) && Histories(c, s)
  }

  // -------------------------------------------------------- what a move may do

  predicate NotWaiting(s: System, point: Point) {
    Awaits(point).Nobody? || Awaits(point).child !in s.procs
  }

  /** A process outside the lease section can only publish a deferral, take a free lease, or leave. */
  ghost predicate Legal(s: System, p: Proc, m: Move) {
    && FitsRole(p.role, m.point)
    && match m.effect {
         case Silent =>
           && Holding(m.point) == Holding(p.point)
           && (m.point == p.point || NotWaiting(s, p.point))
           && (Cleared(m.point) ==> Cleared(p.point) || s.owned == {})
         case Publish(_) =>
           && Holding(m.point) == Holding(p.point)
           && NotWaiting(s, p.point)
           && (Cleared(m.point) ==> Cleared(p.point))
         case WriteStart => p.point == AtStart(Stamp) && m.point == AtStart(Spawn)
         case WriteFinish =>
           p.point.AtRunner? && p.point.runner.FinishTime? && m.point.AtRunner? && m.point.runner.After?
         case Fork(kind, inherit) =>
           && Holding(p.point) && Holding(m.point)
           && NotWaiting(s, p.point)
           && (if inherit then Awaits(m.point) == Awaited(s.freshPid, kind) else kind == StopChild)
           && (kind == RunnerChild ==> Cleared(p.point))
           && (kind == StartChild ==> p.point == AtStart(Spawn))
           && (Cleared(m.point) ==> Cleared(p.point))
         case TakeLease => s.locking == {} && !Holding(p.point) && Holding(m.point) && !Cleared(m.point)
         case DropLease => !p.role.Child? && !Holding(m.point) && !Cleared(m.point)
         case Exit(_) => true
       }
  }

  lemma EdgeIsLegal(c: Config, s: System, p: Proc, i: Input)
    requires !p.point.AtTick? && !p.point.AtStop? && !p.point.AtStart? && !p.point.AtJob?
    requires !p.point.AtRecover? && !p.point.AtPrepare? && !p.point.AtRunner?
    requires FitsRole(p.role, p.point)
    ensures Legal(s, p, EdgeMove(c, s, p, i))
  {}

  lemma TickIsLegal(c: Config, s: System, p: Proc, i: Input)
    requires p.point.AtTick? && FitsRole(p.role, p.point)
    ensures Legal(s, p, TickMove(c, s, p, i))
  {}

  lemma StopIsLegal(c: Config, s: System, p: Proc, i: Input)
    requires p.point.AtStop? && FitsRole(p.role, p.point)
    ensures Legal(s, p, StopMove(c, s, p, i))
  {}

  lemma StartIsLegal(c: Config, s: System, p: Proc, i: Input)
    requires p.point.AtStart? && FitsRole(p.role, p.point)
    ensures Legal(s, p, StartMove(c, s, p, i))
  {}

  lemma JobIsLegal(c: Config, s: System, p: Proc, i: Input)
    requires p.point.AtJob? && FitsRole(p.role, p.point)
    ensures Legal(s, p, JobMove(c, s, p, i))
  {}

  lemma RecoverIsLegal(c: Config, s: System, p: Proc, i: Input)
    requires p.point.AtRecover? && FitsRole(p.role, p.point)
    ensures Legal(s, p, RecoverMove(c, s, p, i))
  {}

  lemma PrepareIsLegal(c: Config, s: System, p: Proc, i: Input)
    requires p.point.AtPrepare? && FitsRole(p.role, p.point)
    ensures Legal(s, p, PrepareMove(c, s, p, i))
  {}

  lemma RunnerIsLegal(c: Config, s: System, p: Proc, i: Input)
    requires p.point.AtRunner? && FitsRole(p.role, p.point)
    ensures Legal(s, p, RunnerMove(c, s, p, i))
  {}

  lemma LocalIsLegal(c: Config, s: System, p: Proc, i: Input)
    requires FitsRole(p.role, p.point)
    ensures Legal(s, p, Local(c, s, p, i))
  {
    match p.point
    case AtTick(_) => TickIsLegal(c, s, p, i);
    case AtStop(_, _) => StopIsLegal(c, s, p, i);
    case AtStart(_) => StartIsLegal(c, s, p, i);
    case AtJob(_) => JobIsLegal(c, s, p, i);
    case AtRecover(_) => RecoverIsLegal(c, s, p, i);
    case AtPrepare(_) => PrepareIsLegal(c, s, p, i);
    case AtRunner(_) => RunnerIsLegal(c, s, p, i);
    case _ => EdgeIsLegal(c, s, p, i);
  }

  // ------------------------------------------------------------- shape is kept

  /** Replacing one process by itself at another point, clocks and files aside. */
  ghost predicate SameFrame(s: System, t: System) {
    && t.locking == s.locking && t.freshLease == s.freshLease && t.freshPid == s.freshPid && t.owned == s.owned
    && t.wall == s.wall
  }

  lemma PutKeepsLocks(s: System, t: System, pid: Pid, m: Move, i: Input)
    requires Locks(s) && pid in s.procs
    requires Legal(s, s.procs[pid], m)
    requires m.effect.Silent? || m.effect.Publish? || m.effect.WriteStart? || m.effect.WriteFinish?
    requires SameFrame(s, t) && t.procs == s.procs[pid := Moved(s, s.procs[pid], m, i)]
    ensures Locks(t)
  {
    assert ProcShape(s, pid);
    forall r | r in t.procs ensures ProcShape(t, r) { assert r in s.procs && ProcShape(s, r); }
    forall l | l in t.locking ensures Held(t.procs, l) {
      var r :| r in s.procs && s.procs[r].lease == Some(l);
      assert t.procs[r].lease == Some(l);
    }
  }

  /** A step whose process kept its descriptor, with no new process. */
  lemma PutKeepsFamily(s: System, t: System, pid: Pid, m: Move, i: Input)
    requires Locks(s) && Family(s) && pid in s.procs
    requires m.point == s.procs[pid].point || NotWaiting(s, s.procs[pid].point)
    requires t.procs == s.procs[pid := Moved(s, s.procs[pid], m, i)]
    ensures Family(t)
  {
    forall r ensures LeasedParent(t, r) == LeasedParent(s, r) && LeasedChild(t, r) == LeasedChild(s, r) {}
    forall r, k | LeasedParent(t, r) && LeasedChild(t, k)
      ensures Awaits(t.procs[r].point) == Awaited(k, t.procs[k].role.kind)
    {
      assert LeasedParent(s, r) && LeasedChild(s, k);
    }
  }

  lemma PutKeepsShape(s: System, t: System, pid: Pid, m: Move, i: Input)
    requires Shape(s) && pid in s.procs
    requires Legal(s, s.procs[pid], m)
    requires m.effect.Silent? || m.effect.Publish? || m.effect.WriteStart? || m.effect.WriteFinish?
    requires SameFrame(s, t) && t.procs == s.procs[pid := Moved(s, s.procs[pid], m, i)]
    ensures Shape(t)
  {
    PutKeepsLocks(s, t, pid, m, i);
    PutKeepsFamily(s, t, pid, m, i);
  }

  lemma ForkKeepsLocks(s: System, pid: Pid, m: Move, i: Input)
    requires Locks(s) && pid in s.procs
    requires Legal(s, s.procs[pid], m) && m.effect.Fork?
    ensures Locks(Commit(s, pid, s.procs[pid], m, i))
  {
    var p, t := s.procs[pid], Commit(s, pid, s.procs[pid], m, i);
    assert ProcShape(s, pid);
    forall r | r in t.procs ensures ProcShape(t, r) { assert r in s.procs ==> ProcShape(s, r); }
    forall l | l in t.locking ensures Held(t.procs, l) {
      var r :| r in s.procs && s.procs[r].lease == Some(l);
      assert ProcShape(s, r) && t.procs[r].lease == Some(l);
    }
  }

  lemma ForkKeepsFamily(s: System, pid: Pid, m: Move, i: Input)
    requires Locks(s) && Family(s) && pid in s.procs
    requires Legal(s, s.procs[pid], m) && m.effect.Fork?
    ensures Family(Commit(s, pid, s.procs[pid], m, i))
  {
    var p, t := s.procs[pid], Commit(s, pid, s.procs[pid], m, i);
    assert ProcShape(s, pid) && LeasedParent(s, pid);
    forall r ensures !LeasedChild(s, r) {}
    forall r | LeasedChild(t, r) ensures r == s.freshPid {
      assert r == s.freshPid || LeasedChild(s, r);
    }
    forall r | LeasedParent(t, r) ensures r == pid { assert LeasedParent(s, r); }
  }

  lemma ForkKeepsEmptied(s: System, pid: Pid, m: Move, i: Input)
    requires Emptied(s) && pid in s.procs
    requires Legal(s, s.procs[pid], m) && m.effect.Fork?
    ensures Emptied(Commit(s, pid, s.procs[pid], m, i))
  {
    var t := Commit(s, pid, s.procs[pid], m, i);
    assert t.owned == s.owned;
    forall q | q in t.procs && q != pid && q != s.freshPid ensures q in s.procs && t.procs[q] == s.procs[q] {}
  }

  lemma ForkKeepsShape(s: System, pid: Pid, m: Move, i: Input)
    requires Shape(s) && pid in s.procs
    requires Legal(s, s.procs[pid], m) && m.effect.Fork?
    ensures Shape(Commit(s, pid, s.procs[pid], m, i))
  {
    ForkKeepsLocks(s, pid, m, i);
    ForkKeepsFamily(s, pid, m, i);
    ForkKeepsEmptied(s, pid, m, i);
  }

  lemma TakeKeepsShape(s: System, pid: Pid, m: Move, i: Input)
    requires Shape(s) && pid in s.procs
    requires Legal(s, s.procs[pid], m) && m.effect.TakeLease?
    ensures Shape(Locked(s, pid, Moved(s, s.procs[pid], m, i)))
  {
    var t := Locked(s, pid, Moved(s, s.procs[pid], m, i));
    forall r | r in s.procs ensures s.procs[r].lease.None? { assert ProcShape(s, r); }
    forall r | r in t.procs ensures ProcShape(t, r) { assert r in s.procs && ProcShape(s, r); }
    assert t.procs[pid].lease == Some(s.freshLease);
    forall r | LeasedParent(t, r) ensures r == pid {}
    forall r ensures !LeasedChild(t, r) {}
  }

  lemma DropKeepsShape(s: System, pid: Pid, m: Move, i: Input)
    requires Shape(s) && pid in s.procs
    requires Legal(s, s.procs[pid], m) && m.effect.DropLease?
    ensures Shape(Unlocked(s, pid, Moved(s, s.procs[pid], m, i)))
  {
    var t := Unlocked(s, pid, Moved(s, s.procs[pid], m, i));
    assert ProcShape(s, pid);
    forall r | r in t.procs ensures ProcShape(t, r) {
      assert r in s.procs && ProcShape(s, r);
      assert r != pid && t.procs[r].lease.Some? ==> Held(t.procs, t.procs[r].lease.value);
    }
    forall r, k | LeasedParent(t, r) && LeasedParent(t, k) ensures r == k {
      assert LeasedParent(s, r) && LeasedParent(s, k);
    }
    forall r, k | LeasedChild(t, r) && LeasedChild(t, k) ensures r == k {
      assert LeasedChild(s, r) && LeasedChild(s, k);
    }
    forall r, k | LeasedParent(t, r) && LeasedChild(t, k)
      ensures Awaits(t.procs[r].point) == Awaited(k, t.procs[k].role.kind)
    {
      assert LeasedParent(s, r) && LeasedChild(s, k);
    }
  }

  lemma WithoutKeepsShape(s: System, pid: Pid)
    requires Shape(s)
    ensures Shape(Without(s, pid))
  {
    var t := Without(s, pid);
    forall r | r in t.procs ensures ProcShape(t, r) {
      assert r in s.procs && ProcShape(s, r);
      assert t.procs[r].lease.Some? ==> Held(t.procs, t.procs[r].lease.value);
    }
    forall r, k | LeasedParent(t, r) && LeasedParent(t, k) ensures r == k {
      assert LeasedParent(s, r) && LeasedParent(s, k);
    }
    forall r, k | LeasedChild(t, r) && LeasedChild(t, k) ensures r == k {
      assert LeasedChild(s, r) && LeasedChild(s, k);
    }
    forall r, k | LeasedParent(t, r) && LeasedChild(t, k)
      ensures Awaits(t.procs[r].point) == Awaited(k, t.procs[k].role.kind)
    {
      assert LeasedParent(s, r) && LeasedChild(s, k);
    }
  }

  lemma ShapeIgnoresExits(s: System, t: System)
    requires Shape(s) && t == s.(exits := t.exits)
    ensures Shape(t)
  {
    forall q | q in t.procs ensures ProcShape(t, q) { assert ProcShape(s, q); }
    forall r ensures LeasedParent(t, r) == LeasedParent(s, r) && LeasedChild(t, r) == LeasedChild(s, r) {}
  }

  lemma CommitKeepsShape(s: System, pid: Pid, m: Move, i: Input)
    requires Shape(s) && pid in s.procs
    requires Legal(s, s.procs[pid], m)
    ensures Shape(Commit(s, pid, s.procs[pid], m, i))
  {
    var p := s.procs[pid];
    match m.effect
    case Fork(_, _) => ForkKeepsShape(s, pid, m, i);
    case TakeLease => TakeKeepsShape(s, pid, m, i);
    case DropLease => DropKeepsShape(s, pid, m, i);
    case Exit(code) =>
      ShapeIgnoresExits(s, Ended(s, pid, p, i, code));
      WithoutKeepsShape(Ended(s, pid, p, i, code), pid);
    case _ => PutKeepsShape(s, Commit(s, pid, p, m, i), pid, m, i);
  }

  // ------------------------------------------------------------- notes are kept

  /** Statuses published since `s` are no older than it. */
  ghost predicate Grown(s: System, t: System) {
    s.published <= t.published && forall j :: |s.published| <= j < |t.published| ==> s.wall <= t.published[j].wall
  }

  /** Nobody else's progress, and no passing of time, undoes what a process established. */
  lemma NoteIsStable(c: Config, s: System, t: System, p: Proc)
    requires Note(c, s, p)
    requires s.wall <= t.wall && s.mono <= t.mono && Grown(s, t)
    requires Holding(p.point) ==>
               t.finished == s.finished && t.lastStart == s.lastStart && t.starts == s.starts && t.stamps == s.stamps
    ensures Note(c, t, p)
  {}

  ghost predicate Current(s: System) {
    && (s.finished.Some? ==> s.finished.value <= s.wall)
    && (s.starts != [] ==> s.starts[|s.starts| - 1].wall <= s.wall)
  }

  lemma EdgeNote(c: Config, s: System, p: Proc, i: Input)
    requires !p.point.AtTick? && !p.point.AtStop? && !p.point.AtStart? && !p.point.AtJob?
    requires !p.point.AtRecover? && !p.point.AtPrepare? && !p.point.AtRunner?
    requires Facts(c, s, p) && Current(s) && p.at <= s.wall
    ensures Facts(c, s, Moved(s, p, EdgeMove(c, s, p, i), i))
  {
    hide Seen;
  }

  predicate Looking(tick: TickPoint) { tick == Observe || tick == Queue || tick == Pause }

  lemma LookNote(c: Config, s: System, p: Proc, i: Input)
    requires p.point.AtTick? && Looking(p.point.tick) && p.role.Supervisor?
    requires Facts(c, s, p) && Current(s) && p.at <= s.wall
    ensures Facts(c, s, Moved(s, p, TickMove(c, s, p, i), i))
  {
    hide Seen;
  }

  lemma JudgeNote(c: Config, s: System, p: Proc, i: Input)
    requires p.point.AtTick? && !Looking(p.point.tick) && p.role.Supervisor?
    requires Facts(c, s, p) && Current(s) && p.at <= s.wall
    ensures Facts(c, s, Moved(s, p, TickMove(c, s, p, i), i))
  {
    hide Seen;
  }

  lemma StopNote(c: Config, s: System, p: Proc, i: Input)
    requires p.point.AtStop? && FitsRole(p.role, p.point)
    requires Facts(c, s, p) && Current(s) && p.at <= s.wall
    ensures Facts(c, s, Moved(s, p, StopMove(c, s, p, i), i))
  {
    hide Seen;
  }

  lemma JobNote(c: Config, s: System, p: Proc, i: Input)
    requires p.point.AtJob?
    requires Facts(c, s, p) && Current(s) && p.at <= s.wall
    ensures Facts(c, s, Moved(s, p, JobMove(c, s, p, i), i))
  {
    hide Seen;
  }

  lemma RecoverNote(c: Config, s: System, p: Proc, i: Input)
    requires p.point.AtRecover? && p.role.Recoverer?
    requires Facts(c, s, p) && Current(s) && p.at <= s.wall
    requires FilesOk(s) && PublishedOk(c, s)
    ensures Facts(c, s, Moved(s, p, RecoverMove(c, s, p, i), i))
  {
    hide Seen;
  }

  lemma PrepareNote(c: Config, s: System, p: Proc, i: Input)
    requires p.point.AtPrepare?
    requires Facts(c, s, p) && Current(s) && p.at <= s.wall
    ensures Facts(c, s, Moved(s, p, PrepareMove(c, s, p, i), i))
  {
    hide Seen;
  }

  lemma RunnerNote(c: Config, s: System, p: Proc, i: Input)
    requires p.point.AtRunner? && !p.role.Supervisor?
    requires Facts(c, s, p) && Current(s) && p.at <= s.wall
    ensures Facts(c, s, Moved(s, p, RunnerMove(c, s, p, i), i))
  {
    hide Seen;
  }

  lemma StartNote(c: Config, s: System, p: Proc, i: Input)
    requires p.point.AtStart? && p.point.start != Stamp && FitsRole(p.role, p.point)
    requires Facts(c, s, p) && Current(s) && p.at <= s.wall
    ensures Facts(c, s, Moved(s, p, StartMove(c, s, p, i), i))
  {
    hide Seen;
  }

  lemma LocalFacts(c: Config, s: System, p: Proc, i: Input)
    requires Facts(c, s, p) && Current(s) && p.at <= s.wall && FitsRole(p.role, p.point)
    requires FilesOk(s) && PublishedOk(c, s)
    requires !Local(c, s, p, i).effect.WriteStart?
    ensures Facts(c, s, Moved(s, p, Local(c, s, p, i), i))
  {
    hide Facts;
    match p.point
    case AtTick(tick) => if Looking(tick) { LookNote(c, s, p, i); } else { JudgeNote(c, s, p, i); }
    case AtStop(_, _) => StopNote(c, s, p, i);
    case AtStart(_) => StartNote(c, s, p, i);
    case AtJob(_) => JobNote(c, s, p, i);
    case AtRecover(_) => RecoverNote(c, s, p, i);
    case AtPrepare(_) => PrepareNote(c, s, p, i);
    case AtRunner(_) => RunnerNote(c, s, p, i);
    case _ => EdgeNote(c, s, p, i);
  }

  // ---- what a supervisor's ticks tell it

  predicate Telling(point: Point) { point.Idle? || point == AtTick(Observe) || point == AtTick(Queue) }

  /** A move that tells nothing new leaves the sights alone and may only forget `normalSince`. */
  lemma PassiveMove(c: Config, s: System, p: Proc, i: Input)
    requires p.role.Supervisor? && FitsRole(p.role, p.point) && !Telling(p.point)
    requires p.point != AtTick(Mark) && p.point != AtTick(Settled)
    ensures var m := Local(c, s, p, i);
      && (m.mem.normalSince == p.mem.normalSince || m.mem.normalSince.None?) && m.mem.since == p.mem.since
      && m.point != AtTick(Observe) && m.point != AtTick(Queue) && m.point != AtTick(Pause)
      && (m.point == AtTick(Settled) ==> p.point == AtTick(Pause)) && m.point != AtTick(Mark)
      && (p.point.Defer? ==> m.mem.normalSince.None?)
  {}

  lemma PassiveSights(s: System, p: Proc, m: Move, i: Input)
    requires Sights(s, p) && p.role.Supervisor? && !Telling(p.point) && !m.point.Defer? && p.point != AtTick(Settled)
    requires m.mem.normalSince.None? ||
      (m.mem.normalSince == p.mem.normalSince && m.mem.since == p.mem.since && !p.point.Defer?)
    requires m.point != AtTick(Observe) && m.point != AtTick(Queue) && m.point != AtTick(Pause)
    requires m.point == AtTick(Settled) ==> p.point == AtTick(Pause)
    requires m.point != AtTick(Mark)
    ensures Sights(s, Moved(s, p, m, i))
  {
    assert Seen(s, p, m, i) == p.trail.seen;
  }

  lemma DeferredSights(s: System, p: Proc, m: Move, i: Input)
    requires Sights(s, p) && p.role.Supervisor? && m.point.Defer? && m.mem.normalSince == p.mem.normalSince
    ensures Sights(s, Moved(s, p, m, i))
  {}

  lemma SettledSights(c: Config, s: System, p: Proc, i: Input)
    requires Sights(s, p) && p.role.Supervisor? && p.point == AtTick(Settled)
    ensures Sights(s, Moved(s, p, TickMove(c, s, p, i), i))
  {
    var m := TickMove(c, s, p, i);
    var seen := Seen(s, p, m, i);
    assert forall j :: 0 <= j < |seen| - 1 ==> seen[j] == p.trail.seen[j];
    assert !m.point.Finish? ==> seen == p.trail.seen;
  }

  lemma MarkSights(c: Config, s: System, p: Proc, i: Input)
    requires Sights(s, p) && p.role.Supervisor? && p.point == AtTick(Mark)
    ensures Sights(s, Moved(s, p, TickMove(c, s, p, i), i))
  {
    var m := TickMove(c, s, p, i);
    assert Seen(s, p, m, i) == p.trail.seen;
  }

  lemma IdleSights(c: Config, s: System, p: Proc, i: Input)
    requires Sights(s, p) && p.role.Supervisor? && p.point.Idle? && !EdgeMove(c, s, p, i).point.Defer?
    ensures Sights(s, Moved(s, p, EdgeMove(c, s, p, i), i))
  {
    var m := EdgeMove(c, s, p, i);
    var more := p.trail.seen + [Sight(s.mono, None, None, false, false)];
    assert Seen(s, p, m, i) == if m.point.Idle? then p.trail.seen else more;
  }

  lemma TellingSights(c: Config, s: System, p: Proc, i: Input)
    requires Sights(s, p) && p.role.Supervisor? && (p.point == AtTick(Observe) || p.point == AtTick(Queue))
    requires !TickMove(c, s, p, i).point.Defer?
    ensures Sights(s, Moved(s, p, TickMove(c, s, p, i), i))
  {
    var m := TickMove(c, s, p, i);
    var seen := Seen(s, p, m, i);
    assert forall j :: 0 <= j < |seen| - 1 ==> seen[j] == p.trail.seen[j];
  }

  lemma LocalSights(c: Config, s: System, p: Proc, i: Input)
    requires Sights(s, p) && p.role.Supervisor? && FitsRole(p.role, p.point)
    ensures Sights(s, Moved(s, p, Local(c, s, p, i), i))
  {
    hide Sights;
    var m := Local(c, s, p, i);
    if m.point.Defer? {
      DeferralKeepsMemory(c, s, p, i);
      DeferredSights(s, p, m, i);
    } else if p.point == AtTick(Settled) {
      SettledSights(c, s, p, i);
    } else if p.point == AtTick(Mark) {
      MarkSights(c, s, p, i);
    } else if p.point.Idle? {
      IdleSights(c, s, p, i);
    } else if Telling(p.point) {
      TellingSights(c, s, p, i);
    } else {
      PassiveMove(c, s, p, i);
      PassiveSights(s, p, m, i);
    }
  }

  lemma DeferralKeepsMemory(c: Config, s: System, p: Proc, i: Input)
    requires p.role.Supervisor? && FitsRole(p.role, p.point) && Local(c, s, p, i).point.Defer?
    ensures Local(c, s, p, i).mem.normalSince == p.mem.normalSince
  {}

  lemma LocalNote(c: Config, s: System, p: Proc, i: Input)
    requires Note(c, s, p) && Current(s) && p.at <= s.wall && FitsRole(p.role, p.point)
    requires FilesOk(s) && PublishedOk(c, s)
    requires !Local(c, s, p, i).effect.WriteStart?
    ensures Note(c, s, Moved(s, p, Local(c, s, p, i), i))
  {
    hide Facts, Sights, Local, FilesOk, PublishedOk, FitsRole, Seen;
    LocalFacts(c, s, p, i);
    if p.role.Supervisor? { LocalSights(c, s, p, i); }
  }

  lemma StampFacts(c: Config, s: System, pid: Pid, m: Move, i: Input)
    requires pid in s.procs && Facts(c, s, s.procs[pid]) && s.procs[pid].at <= s.wall && Current(s)
    requires s.procs[pid].point == AtStart(Stamp) && m == Move(AtStart(Spawn), s.procs[pid].mem, WriteStart)
    requires s.starts != [] ==> s.starts[|s.starts| - 1].stamps <= |s.stamps|
    ensures var t := Commit(s, pid, s.procs[pid], m, i); Facts(c, t, t.procs[pid])
  {
    hide Seen;
  }

  lemma SightsStay(s: System, t: System, p: Proc)
    requires Sights(s, p) && s.mono <= t.mono
    ensures Sights(t, p)
  {}

  lemma StampNote(c: Config, s: System, pid: Pid, m: Move, i: Input)
    requires Histories(c, s) && pid in s.procs && Note(c, s, s.procs[pid]) && s.procs[pid].at <= s.wall
    requires m.effect.WriteStart? && m.mem == s.procs[pid].mem && Legal(s, s.procs[pid], m)
    ensures var t := Commit(s, pid, s.procs[pid], m, i); Note(c, t, t.procs[pid])
  {
    hide Facts, Sights, Histories, Seen;
    var p := s.procs[pid];
    HistoriesAreCurrent(c, s);
    StampFacts(c, s, pid, m, i);
    if p.role.Supervisor? {
      PassiveSights(s, p, m, i);
      SightsStay(s, Commit(s, pid, p, m, i), Moved(s, p, m, i));
    }
  }

  /** A child just forked. */
  predicate Idling(p: Proc) { p.role.Child? && p.point == Working && p.trail.taken <= p.at }

  predicate SameFiles(s: System, t: System) {
    t.finished == s.finished && t.lastStart == s.lastStart && t.starts == s.starts && t.stamps == s.stamps
  }

  predicate Stamping(effect: Effect) {
    effect.WriteStart? || effect.WriteFinish? || effect == Fork(StartChild, true)
  }

  /** What a step leaves as it was. */
  lemma CommitFrame(s: System, pid: Pid, m: Move, i: Input)
    requires pid in s.procs && Legal(s, s.procs[pid], m)
    ensures var t := Commit(s, pid, s.procs[pid], m, i);
            && t.wall == s.wall && t.mono == s.mono && Grown(s, t)
            && (Stamping(m.effect) || SameFiles(s, t))
            && (forall q :: q in t.procs && q in s.procs && q != pid ==> q == s.freshPid || t.procs[q] == s.procs[q])
            && (forall q :: q in t.procs && q !in s.procs ==> Idling(t.procs[q]))
  {
    hide Trailed, SceneOf, GroundsOf, Commit;
    CommitFiles(s, pid, m, i);
    CommitProcs(s, pid, m, i);
  }

  lemma CommitFiles(s: System, pid: Pid, m: Move, i: Input)
    requires pid in s.procs && Legal(s, s.procs[pid], m)
    ensures var t := Commit(s, pid, s.procs[pid], m, i);
            && t.wall == s.wall && t.mono == s.mono && Grown(s, t) && (Stamping(m.effect) || SameFiles(s, t))
  {
    hide Trailed, SceneOf, GroundsOf, Heard, Moved;
  }

  lemma CommitProcs(s: System, pid: Pid, m: Move, i: Input)
    requires pid in s.procs && Legal(s, s.procs[pid], m)
    ensures var t := Commit(s, pid, s.procs[pid], m, i);
            && (forall q :: q in t.procs && q in s.procs && q != pid ==> q == s.freshPid || t.procs[q] == s.procs[q])
            && (forall q :: q in t.procs && q !in s.procs ==> Idling(t.procs[q]))
  {
    hide Trailed, SceneOf, GroundsOf, Heard, Moved, Forked, Idling;
    if m.effect.Fork? { ForkProcs(s, pid, s.procs[pid], m.effect.kind, m.effect.inherit); }
  }
  lemma ForkProcs(s: System, pid: Pid, p: Proc, kind: ChildKind, inherit: bool)
    ensures var t := Forked(s, pid, p, kind, inherit);
            t.procs.Keys == s.procs.Keys + {s.freshPid} && Idling(t.procs[s.freshPid])
            && forall q :: q in s.procs && q != s.freshPid ==> t.procs[q] == s.procs[q]
  {
    hide SceneOf, GroundsOf;
  }


  lemma FinishNote(c: Config, s: System, pid: Pid, m: Move, i: Input)
    requires pid in s.procs && Legal(s, s.procs[pid], m) && s.procs[pid].at <= s.wall
    requires Note(c, s, Moved(s, s.procs[pid], m, i)) && m.effect.WriteFinish?
    ensures var t := Commit(s, pid, s.procs[pid], m, i); Note(c, t, t.procs[pid])
  {}

  lemma ForkNote(c: Config, s: System, pid: Pid, m: Move, i: Input)
    requires pid in s.procs && Legal(s, s.procs[pid], m) && s.procs[pid].at <= s.wall && pid < s.freshPid
    requires Note(c, s, Moved(s, s.procs[pid], m, i)) && m.effect == Fork(StartChild, true)
    ensures var t := Commit(s, pid, s.procs[pid], m, i); Note(c, t, t.procs[pid])
  {
    assert m.point == AtStart(Wait(s.freshPid)) by { assert Awaits(m.point) == Awaited(s.freshPid, StartChild); }
  }

  lemma MovedNote(c: Config, s: System, pid: Pid, m: Move, i: Input)
    requires pid in s.procs && Legal(s, s.procs[pid], m) && s.procs[pid].at <= s.wall && pid < s.freshPid
    requires Note(c, s, Moved(s, s.procs[pid], m, i)) && !m.effect.WriteStart? && !m.effect.Exit?
    ensures var t := Commit(s, pid, s.procs[pid], m, i); Note(c, t, t.procs[pid])
  {
    if m.effect.WriteFinish? {
      FinishNote(c, s, pid, m, i);
    } else if m.effect == Fork(StartChild, true) {
      ForkNote(c, s, pid, m, i);
    } else {
      var q := Moved(s, s.procs[pid], m, i);
      var t := Commit(s, pid, s.procs[pid], m, i);
      CommitFrame(s, pid, m, i);
      NoteIsStable(c, s, t, q);
      NoteIgnoresLease(c, t, q, t.procs[pid].lease);
      assert t.procs[pid] == q.(lease := t.procs[pid].lease);
    }
  }

  lemma NoteIgnoresLease(c: Config, s: System, p: Proc, lease: Option<Lease>)
    requires Note(c, s, p)
    ensures Note(c, s, p.(lease := lease))
  {}

  lemma StampKeepsMemory(c: Config, s: System, p: Proc, i: Input)
    requires FitsRole(p.role, p.point) && Local(c, s, p, i).effect.WriteStart?
    ensures Local(c, s, p, i).mem == p.mem
  {
    LocalIsLegal(c, s, p, i);
  }

  lemma HistoriesAreCurrent(c: Config, s: System)
    requires Histories(c, s)
    ensures Current(s) && (s.starts != [] ==> s.starts[|s.starts| - 1].stamps <= |s.stamps|)
  {
    if s.starts != [] { assert StartOk(c, s, s.starts[|s.starts| - 1]); }
  }

  /** The acting process's own note after its step, whatever the step wrote. */
  lemma OwnNote(c: Config, s: System, pid: Pid, m: Move, i: Input)
    requires Inv(c, s) && pid in s.procs && m == Local(c, s, s.procs[pid], i) && !m.effect.Exit?
    ensures var t := Commit(s, pid, s.procs[pid], m, i); pid in t.procs ==> Note(c, t, t.procs[pid])
  {
    var p := s.procs[pid];
    assert ProcShape(s, pid);
    LocalIsLegal(c, s, p, i);
    HistoriesAreCurrent(c, s);
    if m.effect.WriteStart? {
      StampKeepsMemory(c, s, p, i);
      StampNote(c, s, pid, m, i);
    } else {
      LocalNote(c, s, p, i);
      MovedNote(c, s, pid, m, i);
    }
  }

  lemma IdlingNote(c: Config, s: System, p: Proc)
    requires Idling(p)
    ensures Note(c, s, p)
  {}

  lemma OtherNote(c: Config, s: System, t: System, q: Pid, stamping: bool)
    requires Notes(c, s) && q in t.procs
    requires if q in s.procs then t.procs[q] == s.procs[q] else Idling(t.procs[q])
    requires t.wall == s.wall && t.mono == s.mono && Grown(s, t) && (stamping || SameFiles(s, t))
    requires q in s.procs && Holding(s.procs[q].point) ==> !stamping
    ensures Note(c, t, t.procs[q])
  {
    hide Note;
    assert q in s.procs ==> Note(c, s, s.procs[q]);
    if q in s.procs { NoteIsStable(c, s, t, s.procs[q]); } else { IdlingNote(c, t, t.procs[q]); }
  }

  lemma CommitKeepsNotes(c: Config, s: System, pid: Pid, m: Move, i: Input)
    requires Inv(c, s) && pid in s.procs && m == Local(c, s, s.procs[pid], i)
    ensures Notes(c, Commit(s, pid, s.procs[pid], m, i))
  {
    var t := Commit(s, pid, s.procs[pid], m, i);
    assert ProcShape(s, pid);
    LocalIsLegal(c, s, s.procs[pid], i);
    CommitFrame(s, pid, m, i);
    if !m.effect.Exit? { OwnNote(c, s, pid, m, i); }
    OtherNotes(c, s, t, pid, m);
  }

  lemma OtherNotes(c: Config, s: System, t: System, pid: Pid, m: Move)
    requires Shape(s) && Notes(c, s) && pid in s.procs && Legal(s, s.procs[pid], m)
    requires t.wall == s.wall && t.mono == s.mono && Grown(s, t) && (Stamping(m.effect) || SameFiles(s, t))
    requires forall q :: q in t.procs && q in s.procs && q != pid ==> q == s.freshPid || t.procs[q] == s.procs[q]
    requires forall q :: q in t.procs && q !in s.procs ==> Idling(t.procs[q])
    requires pid in t.procs ==> Note(c, t, t.procs[pid])
    ensures Notes(c, t)
  {
    forall q | q in t.procs && q != pid ensures Note(c, t, t.procs[q]) {
      if q in s.procs { OnlyHolderStamps(s, pid, m, q); }
      OtherNote(c, s, t, q, Stamping(m.effect));
    }
  }

  lemma OnlyHolderStamps(s: System, pid: Pid, m: Move, q: Pid)
    requires Shape(s) && pid in s.procs && Legal(s, s.procs[pid], m) && q in s.procs && q != pid
    ensures q < s.freshPid
    ensures Holding(s.procs[q].point) ==> !Stamping(m.effect)
  {
    assert ProcShape(s, pid) && ProcShape(s, q);
    if Holding(s.procs[q].point) {
      assert LeasedParent(s, q);
      assert Holding(s.procs[pid].point) ==> LeasedParent(s, pid);
    }
  }

  // --------------------------------------------------------- histories are kept

  lemma SettledGrounds(c: Config, s: System, p: Proc)
    requires Note(c, s, p) && p.role.Supervisor? && AfterSettleTest(p.point)
    ensures Proven(c, GroundsOf(p), s.mono)
  {
    var seen, since := p.trail.seen, p.mem.normalSince.value;
    assert CleanFrom(seen, p.mem.since, |seen|) && seen[p.mem.since].at <= since;
    forall j | 0 <= j < |seen| && !seen[j].Clean() ensures seen[j].at <= since { assert j <= p.mem.since; }
  }

  lemma ReadyIsProven(c: Config, s: System, p: Proc, i: Input, state: State)
    requires Note(c, s, p) && FitsRole(p.role, p.point)
    requires Local(c, s, p, i).effect == Publish(state) && ReadyState(state)
    ensures !DryRun(p.role) && Proven(c, GroundsOf(p), s.mono)
  {
    assert p.point == AtTick(Announce) || p.point == Finish(state);
    SettledGrounds(c, s, p);
  }

  /** Starts already recorded stay justified while the histories only grow. */
  lemma StartsStay(c: Config, s: System, t: System)
    requires StartsOk(c, s) && s.wall <= t.wall && t.starts == s.starts
    requires s.stamps <= t.stamps && Grown(s, t) && s.finishes <= t.finishes
    requires s.starts != [] ==>
               forall j :: |s.finishes| <= j < |t.finishes| ==> s.starts[|s.starts| - 1].wall <= t.finishes[j]
    ensures StartsOk(c, t)
  {
    forall k | 0 <= k < |t.starts| ensures StartOk(c, t, t.starts[k]) {
      assert StartOk(c, s, s.starts[k]) && s.starts[k].wall <= s.starts[|s.starts| - 1].wall;
    }
  }

  lemma PublishedStay(c: Config, s: System, t: System)
    requires PublishedOk(c, s) && s.wall <= t.wall && t.published == s.published
    ensures PublishedOk(c, t)
  {
    forall k | 0 <= k < |t.published| ensures PublicationOk(c, t, t.published[k]) {
      assert PublicationOk(c, s, s.published[k]);
    }
  }

  lemma PublishKeepsHistories(c: Config, s: System, t: System, item: Publication)
    requires Histories(c, s) && PublicationOk(c, s, item)
    requires SameFiles(s, t) && t.wall == s.wall && t.finishes == s.finishes
    requires item.wall == s.wall && t.status == Some(item) && t.published == s.published + [item]
    ensures Histories(c, t)
  {
    StartsStay(c, s, t);
    forall k | 0 <= k < |t.published| ensures PublicationOk(c, t, t.published[k]) {
      if k < |s.published| { assert PublicationOk(c, s, s.published[k]); }
    }
    forall k, l | 0 <= k < l < |t.published| ensures t.published[k].wall <= t.published[l].wall {
      assert PublicationOk(c, s, s.published[k]);
    }
  }

  lemma StampKeepsHistories(c: Config, s: System, t: System, when: nat)
    requires Histories(c, s) && when <= s.wall
    requires s.lastStart.None? || when >= s.lastStart.value + c.cooldown
    requires t.wall == s.wall && t.finished == s.finished && t.finishes == s.finishes && t.starts == s.starts
    requires t.status == s.status && t.published == s.published
    requires t.lastStart == Some(when) && t.stamps == s.stamps + [when]
    ensures Histories(c, t)
  {
    StartsStay(c, s, t);
    PublishedStay(c, s, t);
  }

  lemma FinishKeepsHistories(c: Config, s: System, t: System, when: nat)
    requires Histories(c, s) && when <= s.wall
    requires s.finished.None? || when >= s.finished.value
    requires s.starts == [] || when >= s.starts[|s.starts| - 1].wall
    requires t.wall == s.wall && t.lastStart == s.lastStart && t.stamps == s.stamps && t.starts == s.starts
    requires t.status == s.status && t.published == s.published
    requires t.finished == Some(when) && t.finishes == s.finishes + [when]
    ensures Histories(c, t)
  {
    hide StartsOk, PublishedOk;
    assert StartsOk(c, s) && PublishedOk(c, s);
    StartsStay(c, s, t);
    PublishedStay(c, s, t);
  }

  lemma NewStartIsOk(c: Config, s: System, pid: Pid, p: Proc)
    requires Histories(c, s) && Note(c, s, p) && p.point == AtStart(Spawn) && FitsRole(p.role, p.point)
    requires p.at <= s.wall
    ensures StartOk(c, s, StartRecord(pid, p.role, s.wall, s.mono, |s.stamps|, |s.finishes|, GroundsOf(p)))
  {
    if p.role.Supervisor? { SettledGrounds(c, s, p); }
  }

  lemma StartAdds(c: Config, s: System, t: System, r: StartRecord)
    requires StartsOk(c, s) && StartOk(c, s, r) && r.wall == s.wall
    requires s.starts == [] || s.starts[|s.starts| - 1].stamps < r.stamps
    requires t.wall == s.wall && t.stamps == s.stamps && t.finishes == s.finishes && t.published == s.published
    requires t.starts == s.starts + [r]
    ensures StartsOk(c, t)
  {
    forall k | 0 <= k < |t.starts| ensures StartOk(c, t, t.starts[k]) && t.starts[k].wall <= r.wall {
      assert k < |s.starts| ==> StartOk(c, s, s.starts[k]);
    }
  }

  lemma StartKeepsHistories(c: Config, s: System, t: System, r: StartRecord)
    requires Histories(c, s) && StartOk(c, s, r) && r.wall == s.wall
    requires s.starts == [] || s.starts[|s.starts| - 1].stamps < r.stamps
    requires t.wall == s.wall && t.lastStart == s.lastStart && t.stamps == s.stamps
    requires t.finished == s.finished && t.finishes == s.finishes
    requires t.status == s.status && t.published == s.published
    requires t.starts == s.starts + [r]
    ensures Histories(c, t)
  {
    PublishedStay(c, s, t);
    StartAdds(c, s, t, r);
  }

  /** Histories read the files, the clocks and nothing else. */
  lemma HistoriesFrame(c: Config, s: System, t: System)
    requires Histories(c, s) && s.wall <= t.wall
    requires SameFiles(s, t) && t.status == s.status && t.published == s.published && t.finishes == s.finishes
    ensures Histories(c, t)
  {
    StartsStay(c, s, t);
    PublishedStay(c, s, t);
  }

  lemma ForkKeepsHistories(c: Config, s: System, pid: Pid, m: Move, i: Input)
    requires Histories(c, s) && pid in s.procs && m.effect.Fork? && Legal(s, s.procs[pid], m)
    requires ProcShape(s, pid) && Note(c, s, s.procs[pid])
    ensures Histories(c, Commit(s, pid, s.procs[pid], m, i))
  {
    var p, t := s.procs[pid], Commit(s, pid, s.procs[pid], m, i);
    if m.effect.kind == StartChild {
      NewStartIsOk(c, s, pid, p);
      StartKeepsHistories(c, s, t, t.starts[|s.starts|]);
    } else {
      HistoriesFrame(c, s, t);
    }
  }

  lemma CommitKeepsHistories(c: Config, s: System, pid: Pid, m: Move, i: Input)
    requires Histories(c, s) && pid in s.procs && Legal(s, s.procs[pid], m)
    requires ProcShape(s, pid) && Note(c, s, s.procs[pid])
    requires m.effect.Publish? && ReadyState(m.effect.state) ==>
               !DryRun(s.procs[pid].role) && Proven(c, GroundsOf(s.procs[pid]), s.mono)
    ensures Histories(c, Commit(s, pid, s.procs[pid], m, i))
  {
    hide Trailed, SceneOf, StartsOk, StampsOk, PublishedOk, FilesOk;
    var p, t := s.procs[pid], Commit(s, pid, s.procs[pid], m, i);
    var when := Instant(p, s, i.when);
    match m.effect
    case Publish(state) => PublishKeepsHistories(c, s, t, t.published[|s.published|]);
    case WriteStart => StampKeepsHistories(c, s, t, when);
    case WriteFinish => FinishKeepsHistories(c, s, t, when);
    case Fork(_, _) => ForkKeepsHistories(c, s, pid, m, i);
    case _ => HistoriesFrame(c, s, t);
  }

  // --------------------------------------------------------- every action, every run

  lemma StepKeepsInv(c: Config, s: System, pid: Pid, i: Input)
    requires Inv(c, s) && pid in s.procs
    ensures Inv(c, Commit(s, pid, s.procs[pid], Local(c, s, s.procs[pid], i), i))
  {
    var m := Local(c, s, s.procs[pid], i);
    assert ProcShape(s, pid);
    LocalIsLegal(c, s, s.procs[pid], i);
    CommitKeepsShape(s, pid, m, i);
    CommitKeepsNotes(c, s, pid, m, i);
    assert Note(c, s, s.procs[pid]);
    if m.effect.Publish? && ReadyState(m.effect.state) { ReadyIsProven(c, s, s.procs[pid], i, m.effect.state); }
    CommitKeepsHistories(c, s, pid, m, i);
  }

  lemma WithoutKeepsInv(c: Config, s: System, pid: Pid)
    requires Inv(c, s)
    ensures Inv(c, Without(s, pid))
  {
    var t := Without(s, pid);
    WithoutKeepsShape(s, pid);
    HistoriesFrame(c, s, t);
    forall q | q in t.procs ensures Note(c, t, t.procs[q]) { OtherNote(c, s, t, q, false); }
  }

  lemma BeginKeepsNotes(c: Config, s: System, role: Role)
    requires Notes(c, s) && !role.Child?
    ensures Notes(c, Next(c, s, Begin(role)))
  {
    var t := Next(c, s, Begin(role));
    forall q | q in t.procs ensures Note(c, t, t.procs[q]) {
      if q != s.freshPid { OtherNote(c, s, t, q, false); }
    }
  }

  lemma BeginKeepsInv(c: Config, s: System, role: Role)
    requires Inv(c, s) && !role.Child?
    ensures Inv(c, Next(c, s, Begin(role)))
  {
    BeginKeepsShape(c, s, role);
    BeginKeepsNotes(c, s, role);
    HistoriesFrame(c, s, Next(c, s, Begin(role)));
  }

  lemma BeginKeepsLocks(c: Config, s: System, role: Role)
    requires Locks(s) && !role.Child?
    ensures Locks(Next(c, s, Begin(role)))
  {
    var t := Next(c, s, Begin(role));
    forall q | q in s.procs ensures q < s.freshPid { assert ProcShape(s, q); }
    forall q | q in t.procs ensures ProcShape(t, q) { assert q != s.freshPid ==> ProcShape(s, q); }
    forall l | l in t.locking ensures Held(t.procs, l) {
      var r :| r in s.procs && s.procs[r].lease == Some(l);
      assert t.procs[r].lease == Some(l);
    }
  }

  lemma BeginKeepsShape(c: Config, s: System, role: Role)
    requires Shape(s) && !role.Child?
    ensures Shape(Next(c, s, Begin(role)))
  {
    hide Locks;
    var t := Next(c, s, Begin(role));
    BeginKeepsLocks(c, s, role);
    forall q | q in s.procs ensures q < s.freshPid { PidsAreOld(s, q); }
    forall r ensures LeasedParent(t, r) == LeasedParent(s, r) && LeasedChild(t, r) == LeasedChild(s, r) {}
  }

  lemma PidsAreOld(s: System, q: Pid)
    requires Locks(s) && q in s.procs
    ensures q < s.freshPid
  {
    assert ProcShape(s, q);
  }

  lemma SignalKeepsLocks(c: Config, s: System, pid: Pid)
    requires Locks(s) && pid in s.procs
    ensures Locks(Next(c, s, Signal(pid)))
  {
    var t := Next(c, s, Signal(pid));
    assert ProcShape(s, pid);
    forall q | q in t.procs ensures ProcShape(t, q) { assert ProcShape(s, q); }
    forall l | l in t.locking ensures Held(t.procs, l) {
      var r :| r in s.procs && s.procs[r].lease == Some(l);
      assert t.procs[r].lease == Some(l);
    }
  }

  lemma SignalKeepsShape(c: Config, s: System, pid: Pid)
    requires Shape(s) && pid in s.procs
    ensures Shape(Next(c, s, Signal(pid)))
  {
    hide Locks;
    var t := Next(c, s, Signal(pid));
    SignalKeepsLocks(c, s, pid);
    forall r ensures LeasedParent(t, r) == LeasedParent(s, r) && LeasedChild(t, r) == LeasedChild(s, r) {}
  }

  lemma SignalKeepsNotes(c: Config, s: System, pid: Pid)
    requires Notes(c, s) && pid in s.procs
    ensures Notes(c, Next(c, s, Signal(pid)))
  {
    hide Note;
    var t := Next(c, s, Signal(pid));
    SignalNote(c, s, s.procs[pid]);
    forall q | q in t.procs ensures Note(c, t, t.procs[q]) { NoteIsStable(c, s, t, t.procs[q]); }
  }

  lemma SignalKeepsInv(c: Config, s: System, pid: Pid)
    requires Inv(c, s) && pid in s.procs
    ensures Inv(c, Next(c, s, Signal(pid)))
  {
    hide Shape, Notes, Histories;
    SignalKeepsShape(c, s, pid);
    SignalKeepsNotes(c, s, pid);
    HistoriesFrame(c, s, Next(c, s, Signal(pid)));
  }

  lemma SignalNote(c: Config, s: System, p: Proc)
    requires Note(c, s, p)
    ensures Note(c, s, p.(stopping := true))
  {}

  /** Containers, the pause file and the clocks change by themselves. */
  lemma WorldKeepsInv(c: Config, s: System, t: System)
    requires Inv(c, s)
    requires s.wall <= t.wall && s.mono <= t.mono
    requires t == s.(owned := t.owned, paused := t.paused, wall := t.wall, mono := t.mono)
    requires Emptied(t)
    ensures Inv(c, t)
  {
    forall q | q in t.procs ensures ProcShape(t, q) { assert ProcShape(s, q); }
    forall r ensures LeasedParent(t, r) == LeasedParent(s, r) && LeasedChild(t, r) == LeasedChild(s, r) {}
    HistoriesFrame(c, s, t);
    forall q | q in t.procs ensures Note(c, t, t.procs[q]) { NoteIsStable(c, s, t, s.procs[q]); }
  }

  /** While a start command is alive nobody is at a point that relies on the absence of containers. */
  lemma StarterExcludes(s: System, starter: Pid)
    requires Shape(s) && starter in s.procs && s.procs[starter].role == Child(StartChild)
    ensures forall q :: q in s.procs ==> s.procs[q].role != Child(RunnerChild) && !Cleared(s.procs[q].point)
  {
    assert ProcShape(s, starter) && LeasedChild(s, starter);
    forall q | q in s.procs ensures s.procs[q].role != Child(RunnerChild) && !Cleared(s.procs[q].point) {
      assert ProcShape(s, q);
      if s.procs[q].role == Child(RunnerChild) { assert LeasedChild(s, q); }
      assert LeasedParent(s, q) ==> Awaits(s.procs[q].point) == Awaited(starter, StartChild);
    }
  }

  /** Every transition keeps the invariant. */
  lemma NextKeepsInv(c: Config, s: System, a: Action)
    requires Inv(c, s)
    ensures Inv(c, Next(c, s, a))
  {
    match a
    case Step(pid, i) => if pid in s.procs { StepKeepsInv(c, s, pid, i); }
    case Begin(role) => if !role.Child? { BeginKeepsInv(c, s, role); }
    case Die(pid) => if pid in s.procs { WithoutKeepsInv(c, s, pid); }
    case Signal(pid) => if pid in s.procs { SignalKeepsInv(c, s, pid); }
    case Appear(starter, _) =>
      if starter in s.procs && s.procs[starter].role == Child(StartChild) {
        StarterExcludes(s, starter);
        WorldKeepsInv(c, s, Next(c, s, a));
      }
    case _ => WorldKeepsInv(c, s, Next(c, s, a));
  }

  /** Every run from an empty state directory satisfies the invariant. */
  lemma {:induction false} ExecuteKeepsInv(c: Config, actions: seq<Action>)
    ensures Inv(c, Execute(c, actions))
  {
    if actions != [] {
      ExecuteKeepsInv(c, actions[..|actions| - 1]);
      NextKeepsInv(c, Execute(c, actions[..|actions| - 1]), actions[|actions| - 1]);
    }
  }
}
