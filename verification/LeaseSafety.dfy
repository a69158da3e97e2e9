/** What the lease protocol guarantees in every run: any number of supervisors,
    recovery commands and dispatchers, any interleaving, a crash between any two
    steps. */
module LeaseSafety {
  import opened Wrappers
  import opened WorkloadLease
  import opened LeaseInvariant

  predicate LiveChild(s: System, q: Pid, kind: ChildKind) {
    q in s.procs && s.procs[q].role == Child(kind)
  }

  /** A live runner or start command keeps the one locking description open, even after
      its parent died, and any other process inside a lease section is its waiting parent. */
  lemma LiveChildHoldsLease(c: Config, actions: seq<Action>, q: Pid, kind: ChildKind)
    requires LiveChild(Execute(c, actions), q, kind) && kind != StopChild
    ensures var s := Execute(c, actions);
            && s.procs[q].lease.Some? && s.locking == {s.procs[q].lease.value}
            && (forall p :: p in s.procs && Holding(s.procs[p].point) ==> Awaits(s.procs[p].point) == Awaited(q, kind))
            && (forall r :: LiveChild(s, r, RunnerChild) || LiveChild(s, r, StartChild) ==> r == q)
  {
    var s := Execute(c, actions);
    ExecuteKeepsInv(c, actions);
    assert ProcShape(s, q) && LeasedChild(s, q);
    forall p | p in s.procs && Holding(s.procs[p].point)
      ensures Awaits(s.procs[p].point) == Awaited(q, kind)
    {
      assert ProcShape(s, p) && LeasedParent(s, p);
    }
    forall r | LiveChild(s, r, RunnerChild) || LiveChild(s, r, StartChild) ensures r == q {
      assert ProcShape(s, r) && LeasedChild(s, r);
    }
  }

  /** No CI runner is alive together with an optional container, a start command or another runner. */
  lemma RunnerExcludesOptional(c: Config, actions: seq<Action>, runner: Pid)
    requires LiveChild(Execute(c, actions), runner, RunnerChild)
    ensures var s := Execute(c, actions);
            && s.owned == {}
            && (forall q :: !LiveChild(s, q, StartChild))
            && (forall q :: LiveChild(s, q, RunnerChild) ==> q == runner)
  {
    ExecuteKeepsInv(c, actions);
    LiveChildHoldsLease(c, actions, runner, RunnerChild);
  }

  /** A start issued by a supervisor's tick comes when `settle` of monotonic time has passed since an instant by
      which some tick was over, and from that tick on every tick was clean: normal pressure, no runner process, no
      foreign container, no eligible pending job, no deferral. Whatever was amiss was seen by that instant. */
  lemma TickStartsAreSettled(c: Config, actions: seq<Action>, k: nat)
    requires k < |Execute(c, actions).starts| && Execute(c, actions).starts[k].role.Supervisor?
    ensures var r := Execute(c, actions).starts[k];
            && !r.role.dryRun && r.grounds.AfterSettling?
            && r.mono - r.grounds.normalSince >= c.settle
            && CleanSince(r.grounds.seen, r.grounds.normalSince)
  {
    ExecuteKeepsInv(c, actions);
    assert StartOk(c, Execute(c, actions), Execute(c, actions).starts[k]);
  }

  /** The status read was the latest one at `readAt`, at most 150 seconds old, and published by a supervisor
      that was not dry-running and had itself settled; it was read, and the start issued, in one lease section. */
  ghost predicate JustifiedByReadiness(c: Config, s: System, r: StartRecord)
  {
    r.role.Recoverer? && !r.role.gateOnly && r.grounds.AfterReadiness? &&
    var read, readAt := r.grounds.read, r.grounds.readAt;
    && 0 < read <= |s.published| && r.grounds.taken <= readAt <= r.wall
    && var item := s.published[read - 1];
       && (forall j :: 0 <= j < read ==> s.published[j].wall <= readAt)
       && (forall j :: read <= j < |s.published| ==> readAt <= s.published[j].wall)
       && ReadyState(item.state) && !item.dryRun
       && 0 <= readAt - item.time * SECOND <= 150 * SECOND
       && item.grounds.AfterSettling?
       && item.mono - item.grounds.normalSince >= c.settle
       && CleanSince(item.grounds.seen, item.grounds.normalSince)
  }

  lemma ReadinessJustifies(c: Config, s: System, r: StartRecord)
    requires PublishedOk(c, s) && StartOk(c, s, r) && r.role.Recoverer?
    ensures JustifiedByReadiness(c, s, r)
  {
    assert PublicationOk(c, s, s.published[r.grounds.read - 1]);
  }

  lemma RecoverStartsAreReady(c: Config, actions: seq<Action>, k: nat)
    requires k < |Execute(c, actions).starts| && !Execute(c, actions).starts[k].role.Supervisor?
    ensures JustifiedByReadiness(c, Execute(c, actions), Execute(c, actions).starts[k])
  {
    ExecuteKeepsInv(c, actions);
    assert StartOk(c, Execute(c, actions), Execute(c, actions).starts[k]);
    ReadinessJustifies(c, Execute(c, actions), Execute(c, actions).starts[k]);
  }

  /** Start stamps are a cooldown apart across all processes and restarts. Every start
      command follows a stamp of its own, and so comes a cooldown after any earlier stamp. */
  lemma StartsRespectCooldown(c: Config, actions: seq<Action>)
    ensures var s := Execute(c, actions);
            && (forall k, l :: 0 <= k < l < |s.stamps| ==> s.stamps[k] + c.cooldown <= s.stamps[l])
            && (forall k :: 0 <= k < |s.starts| ==>
                  0 < s.starts[k].stamps <= |s.stamps| && s.stamps[s.starts[k].stamps - 1] <= s.starts[k].wall)
            && (forall k, l :: 0 <= k < l < |s.starts| ==>
                  && s.starts[k].stamps < s.starts[l].stamps
                  && s.stamps[s.starts[k].stamps - 1] + c.cooldown <= s.starts[l].wall)
  {
    var s := Execute(c, actions);
    ExecuteKeepsInv(c, actions);
    forall k | 0 <= k < |s.starts|
      ensures 0 < s.starts[k].stamps <= |s.stamps| && s.stamps[s.starts[k].stamps - 1] <= s.starts[k].wall
    {
      assert StartOk(c, s, s.starts[k]);
    }
  }

  /** No start command is issued within `settle` after a dispatcher's finish stamp. */
  lemma StartsAvoidFinishes(c: Config, actions: seq<Action>, k: nat, j: nat)
    requires k < |Execute(c, actions).starts| && j < |Execute(c, actions).finishes|
    ensures var s := Execute(c, actions);
            s.starts[k].wall <= s.finishes[j] || s.finishes[j] + c.settle <= s.starts[k].wall
  {
    ExecuteKeepsInv(c, actions);
    assert StartOk(c, Execute(c, actions), Execute(c, actions).starts[k]);
  }

  // ------------------------------------------------------------- the guarantees are not empty

  ghost predicate Reached(c: Config, s: System) { exists actions :: Execute(c, actions) == s }

  lemma ReachNext(c: Config, s: System, a: Action)
    requires Reached(c, s)
    ensures Reached(c, Next(c, s, a))
  {
    var actions :| Execute(c, actions) == s;
    assert (actions + [a])[..|actions|] == actions;
    assert Execute(c, actions + [a]) == Next(c, s, a);
  }

  /** One process is alive, on a host where nothing ever ran. */
  ghost predicate Solo(c: Config, s: System, pid: Pid, p: Proc) {
    && Reached(c, s) && s.procs == map[pid := p] && s.freshPid == pid + 1 && !p.stopping
    && s.owned == {} && !s.paused && s.finished.None? && s.lastStart.None? && s.starts == [] && s.wall == 0
    && p.at == 0 && !p.mem.sawOwned
  }

  const CALM := Input(false, true, false, false, false, 0, 0)

  lemma SoloStep(c: Config, s: System, pid: Pid, p: Proc) returns (t: System)
    requires Solo(c, s, pid, p) && (p.point.AtTick? || p.point.AtStart? || p.point.AtRecover?)
    requires Local(c, s, p, CALM).effect.Silent? || Local(c, s, p, CALM).effect.Publish?
    requires !Local(c, s, p, CALM).mem.sawOwned
    ensures t == Next(c, s, Step(pid, CALM)) && Solo(c, t, pid, Moved(s, p, Local(c, s, p, CALM), CALM))
    ensures t.mono == s.mono && (Local(c, s, p, CALM).effect.Silent? ==> t.status == s.status)
  {
    hide Local, Seen;
    ReachNext(c, s, Step(pid, CALM));
    t := Next(c, s, Step(pid, CALM));
    assert t.procs == map[pid := Moved(s, p, Local(c, s, p, CALM), CALM)];
  }

  lemma TickIsLooking(c: Config) returns (s: System, p: Proc)
    ensures Solo(c, s, 0, p) && p.role == Supervisor(false, true) && p.point == AtTick(Observe) && p.mem == BLANK
  {
    assert Execute(c, []) == INITIAL;
    ReachNext(c, INITIAL, Begin(Supervisor(false, true)));
    var s1 := Next(c, INITIAL, Begin(Supervisor(false, true)));
    ReachNext(c, s1, Step(0, CALM));
    s := Next(c, s1, Step(0, CALM));
    p := s.procs[0];
    assert s.procs == map[0 := p];
  }

  lemma TickIsCalm(c: Config) returns (s: System, p: Proc)
    ensures Solo(c, s, 0, p) && p.role == Supervisor(false, true)
    ensures p.point == AtTick(Settled) && p.mem.normalSince.None? && p.mem.nextStart == 0
  {
    hide Seen, Heard;
    var s0, p0 := TickIsLooking(c);
    var s1 := SoloStep(c, s0, 0, p0);
    var s2 := SoloStep(c, s1, 0, s1.procs[0]);
    s := SoloStep(c, s2, 0, s2.procs[0]);
    p := s.procs[0];
  }

  lemma TickIsSettled(c: Config) returns (s: System, p: Proc)
    ensures Solo(c, s, 0, p) && p.role == Supervisor(false, true)
    ensures p.point == AtTick(SettleTest) && HasSettled(c, s, p.mem) && p.mem.nextStart == 0
  {
    hide Seen, Heard;
    var s0, p0 := TickIsCalm(c);
    var s1 := SoloStep(c, s0, 0, p0);
    var s2 := SoloStep(c, s1, 0, s1.procs[0]);
    ReachNext(c, s2, Elapse(0, c.settle));
    s := Next(c, s2, Elapse(0, c.settle));
    p := s.procs[0];
  }

  lemma TickIsAnnouncing(c: Config) returns (s: System, p: Proc)
    ensures Solo(c, s, 0, p) && p.role == Supervisor(false, true) && p.point == AtTick(Announce)
  {
    hide Seen, Heard;
    var s0, p0 := TickIsSettled(c);
    var s1 := SoloStep(c, s0, 0, p0);
    var s2 := SoloStep(c, s1, 0, s1.procs[0]);
    s := SoloStep(c, s2, 0, s2.procs[0]);
    p := s.procs[0];
  }

  /** It has just said that it allows the optional workload. */
  lemma TickIsArming(c: Config) returns (s: System, p: Proc)
    ensures Solo(c, s, 0, p) && p.role == Supervisor(false, true) && p.point == AtTick(Arm)
    ensures s.status.Some? && s.status.value.state == OptionalAllowed && s.status.value.time == 0
  {
    hide Seen, Heard;
    var s0, p0 := TickIsAnnouncing(c);
    s := SoloStep(c, s0, 0, p0);
    p := s.procs[0];
  }

  lemma TickIsStarting(c: Config) returns (s: System, p: Proc)
    ensures Solo(c, s, 0, p) && p.role.Supervisor? && p.point == AtStart(Stamp)
  {
    hide Seen, Heard;
    var s0, p0 := TickIsArming(c);
    var s1 := SoloStep(c, s0, 0, p0);
    var s2 := SoloStep(c, s1, 0, s1.procs[0]);
    s := SoloStep(c, s2, 0, s2.procs[0]);
    p := s.procs[0];
  }

  lemma StampThenSpawn(c: Config, s: System, pid: Pid) returns (t: System)
    requires Reached(c, s) && pid in s.procs && s.procs[pid].point == AtStart(Stamp) && s.starts == []
    ensures Reached(c, t) && |t.starts| == 1 && t.starts[0].role == s.procs[pid].role
  {
    hide Seen, Heard;
    ReachNext(c, s, Step(pid, CALM));
    var s1 := Next(c, s, Step(pid, CALM));
    ReachNext(c, s1, Step(pid, CALM));
    t := Next(c, s1, Step(pid, CALM));
  }

  /** A lone supervisor on a calm host does start the optional workload. */
  lemma SomeTickStarts(c: Config)
    ensures exists actions :: var s := Execute(c, actions); |s.starts| == 1 && s.starts[0].role.Supervisor?
  {
    var s, p := TickIsStarting(c);
    var t := StampThenSpawn(c, s, 0);
    var actions :| Execute(c, actions) == t;
    assert |Execute(c, actions).starts| == 1;
  }

  /** The supervisor dies after saying so, and a recovery or a gate takes the lease. */
  lemma RecoverIsLooking(c: Config, gateOnly: bool) returns (s: System, p: Proc)
    ensures Solo(c, s, 1, p) && p.role == Recoverer(gateOnly) && p.point == AtRecover(Facts)
    ensures s.status.Some? && s.status.value.state == OptionalAllowed && s.status.value.time == 0
  {
    hide Seen, Heard;
    var s0, p0 := TickIsArming(c);
    ReachNext(c, s0, Die(0));
    var s1 := Next(c, s0, Die(0));
    assert s1.procs == map[] && s1.locking == {};
    ReachNext(c, s1, Begin(Recoverer(gateOnly)));
    var s2 := Next(c, s1, Begin(Recoverer(gateOnly)));
    ReachNext(c, s2, Step(1, CALM));
    s := Next(c, s2, Step(1, CALM));
    p := s.procs[1];
    assert s.procs == map[1 := p];
  }

  lemma RecoverIsReading(c: Config, gateOnly: bool) returns (s: System, p: Proc)
    ensures Solo(c, s, 1, p) && p.role == Recoverer(gateOnly) && p.point == AtRecover(Readiness)
    ensures s.status.Some? && s.status.value.state == OptionalAllowed && s.status.value.time == 0
  {
    hide Seen, Heard;
    var s0, p0 := RecoverIsLooking(c, gateOnly);
    var s1 := SoloStep(c, s0, 1, p0);
    s := SoloStep(c, s1, 1, s1.procs[1]);
    p := s.procs[1];
  }

  lemma RecoverIsReady(c: Config) returns (s: System, p: Proc)
    ensures Solo(c, s, 1, p) && p.role == Recoverer(false) && p.point == AtStart(Guard)
  {
    hide Seen, Heard;
    var s0, p0 := RecoverIsReading(c, false);
    s := SoloStep(c, s0, 1, p0);
    p := s.procs[1];
  }

  lemma RecoverIsStarting(c: Config) returns (s: System, p: Proc)
    ensures Solo(c, s, 1, p) && p.role == Recoverer(false) && p.point == AtStart(Stamp)
  {
    hide Seen, Heard;
    var s0, p0 := RecoverIsReady(c);
    var s1 := SoloStep(c, s0, 1, p0);
    s := SoloStep(c, s1, 1, s1.procs[1]);
    p := s.procs[1];
  }

  /** A recovery after the supervisor died does start the optional workload. */
  lemma SomeRecoverStarts(c: Config)
    ensures exists actions :: var s := Execute(c, actions); |s.starts| == 1 && s.starts[0].role == Recoverer(false)
  {
    var s, p := RecoverIsStarting(c);
    var t := StampThenSpawn(c, s, 1);
    var actions :| Execute(c, actions) == t;
    assert |Execute(c, actions).starts| == 1;
  }
}
